/** String helpers that stand for the Python `str` methods the core uses.

    Character classes are those of ASCII: `isspace`, `isalpha`, `isdigit` and
    `lower` agree with Python on code points below 128. */
module Strs {
  import opened Wrappers

  /** `str.isspace` on ASCII: tab, newline, vertical tab, form feed, carriage
      return, the four separators 0x1c-0x1f, and space. */
  predicate IsSpace(c: char) {
    9 <= c as int <= 13 || 28 <= c as int <= 32
  }

  predicate IsAlpha(c: char) {
    'a' <= c <= 'z' || 'A' <= c <= 'Z'
  }

  predicate IsDigitChar(c: char) {
    '0' <= c <= '9'
  }

  /** `str.isdigit`: non-empty and made of digits only. */
  predicate IsDigits(s: string) {
    |s| > 0 && forall i :: 0 <= i < |s| ==> IsDigitChar(s[i])
  }

  function LowerChar(c: char): char {
    if 'A' <= c <= 'Z' then (c as int + 32) as char else c
  }

  function Lower(s: string): (r: string)
    ensures |r| == |s|
    ensures forall i :: 0 <= i < |s| ==> r[i] == LowerChar(s[i])
  {
    seq(|s|, i requires 0 <= i < |s| => LowerChar(s[i]))
  }

  predicate StartsWith(s: string, prefix: string) {
    |prefix| <= |s| && s[..|prefix|] == prefix
  }

  /** `str.lstrip()`: drops the leading whitespace. */
  function LStrip(s: string): (r: string)
    ensures |r| <= |s|
    ensures r == [] || !IsSpace(r[0])
  {
    if s != [] && IsSpace(s[0]) then LStrip(s[1..]) else s
  }

  /** What `lstrip` keeps is a suffix of its argument. */
  lemma {:induction false} LStripSuffix(s: string)
    ensures IsSuffix(LStrip(s), s)
    decreases |s|
  {
    if s != [] && IsSpace(s[0]) {
      LStripSuffix(s[1..]);
      assert s[1..][|s[1..]| - |LStrip(s)|..] == s[|s| - |LStrip(s)|..];
    }
  }

  /** What `lstrip` drops is whitespace. */
  lemma {:induction false} LStripDropsSpace(s: string)
    ensures forall i :: 0 <= i < |s| - |LStrip(s)| ==> IsSpace(s[i])
    decreases |s|
  {
    if s != [] && IsSpace(s[0]) {
      LStripDropsSpace(s[1..]);
      forall i | 0 <= i < |s| - |LStrip(s)| ensures IsSpace(s[i]) {
        if i > 0 { assert s[i] == s[1..][i - 1]; }
      }
    }
  }

  /** `str.rstrip()`: drops the trailing whitespace. */
  function RStrip(s: string): (r: string)
    ensures |r| <= |s| && r == s[..|r|]
    ensures r == [] || !IsSpace(r[|r| - 1])
    ensures forall i :: |r| <= i < |s| ==> IsSpace(s[i])
  {
    if s != [] && IsSpace(s[|s| - 1]) then RStrip(s[..|s| - 1]) else s
  }

  function Strip(s: string): (r: string)
    ensures r == [] || (!IsSpace(r[0]) && !IsSpace(r[|r| - 1]))
  {
    RStrip(LStrip(s))
  }

  /** `sep.join(parts)`. */
  function Join(sep: string, parts: seq<string>): string
  {
    if |parts| == 0 then ""
    else if |parts| == 1 then parts[0]
    else parts[0] + sep + Join(sep, parts[1..])
  }

  /** `s.split(sep)` for a one-character separator: the pieces between the
      occurrences of `sep`, empty pieces included. */
  function Split(s: string, sep: char): (r: seq<string>)
    ensures |r| >= 1
    decreases |s|
  {
    if s == [] then [[]]
    else if s[0] == sep then [[]] + Split(s[1..], sep)
    else
      var rest := Split(s[1..], sep);
      [[s[0]] + rest[0]] + rest[1..]
  }

  lemma {:induction false} SplitPieces(s: string, sep: char)
    ensures forall k :: 0 <= k < |Split(s, sep)| ==> sep !in Split(s, sep)[k]
    ensures Join([sep], Split(s, sep)) == s
    decreases |s|
  {
    if s == [] {
    } else if s[0] == sep {
      SplitPieces(s[1..], sep);
      var rest := Split(s[1..], sep);
      assert Split(s, sep) == [[]] + rest;
      assert Join([sep], [[]] + rest) == [] + [sep] + Join([sep], rest);
      assert s == [s[0]] + s[1..];
    } else {
      SplitPieces(s[1..], sep);
      var rest := Split(s[1..], sep);
      var r := Split(s, sep);
      assert r == [[s[0]] + rest[0]] + rest[1..];
      if |rest| == 1 {
        assert Join([sep], r) == [s[0]] + rest[0];
      } else {
        assert Join([sep], rest) == rest[0] + [sep] + Join([sep], rest[1..]);
        assert r[1..] == rest[1..];
        assert Join([sep], r) == [s[0]] + rest[0] + [sep] + Join([sep], rest[1..]);
      }
      assert s == [s[0]] + s[1..];
    }
  }

  lemma {:induction false} SplitNoSep(p: string, sep: char)
    requires sep !in p
    ensures Split(p, sep) == [p]
    decreases |p|
  {
    if p != [] {
      SplitNoSep(p[1..], sep);
      assert [p[0]] + p[1..] == p;
    }
  }

  lemma {:induction false} SplitAtSep(p: string, sep: char, rest: string)
    requires sep !in p
    ensures Split(p + [sep] + rest, sep) == [p] + Split(rest, sep)
    decreases |p|
  {
    if p == [] {
      assert p + [sep] + rest == [sep] + rest;
      assert ([sep] + rest)[1..] == rest;
    } else {
      var s := p + [sep] + rest;
      assert s[0] == p[0] && s[1..] == p[1..] + [sep] + rest;
      SplitAtSep(p[1..], sep, rest);
      assert [p[0]] + p[1..] == p;
    }
  }

  /** Splitting a joined list at a separator that no part contains gives the
      parts back. */
  lemma {:induction false} SplitJoin(parts: seq<string>, sep: char)
    requires |parts| >= 1
    requires forall k :: 0 <= k < |parts| ==> sep !in parts[k]
    ensures Split(Join([sep], parts), sep) == parts
    decreases |parts|
  {
    if |parts| == 1 {
      SplitNoSep(parts[0], sep);
    } else {
      SplitJoin(parts[1..], sep);
      SplitAtSep(parts[0], sep, Join([sep], parts[1..]));
      assert [parts[0]] + parts[1..] == parts;
    }
  }

  /** `v` is a suffix of `t`. */
  predicate IsSuffix(v: string, t: string)
    decreases |t|
  {
    if |v| == |t| then v == t else |v| < |t| && IsSuffix(v, t[1..])
  }

  /** A suffix is what is left after dropping the front of the string. */
  lemma {:induction false} SuffixDrop(v: string, t: string)
    ensures IsSuffix(v, t) <==> |v| <= |t| && t[|t| - |v|..] == v
    decreases |t|
  {
    if |v| < |t| {
      SuffixDrop(v, t[1..]);
      assert t[1..][|t| - 1 - |v|..] == t[|t| - |v|..];
    }
  }

  /** The second part of a concatenation is a suffix of it. */
  lemma {:induction false} SuffixCat(t: string, u: string, v: string)
    requires t == u + v
    ensures IsSuffix(v, t)
  {
    assert t[|u|..] == v;
    SuffixDrop(v, t);
  }

  lemma {:induction false} SuffixTrans(a: string, b: string, c: string)
    requires IsSuffix(a, b) && IsSuffix(b, c)
    ensures IsSuffix(a, c)
  {
    SuffixDrop(a, b);
    SuffixDrop(b, c);
    assert c[|c| - |a|..] == c[|c| - |b|..][|b| - |a|..];
    SuffixDrop(a, c);
  }

  /** `needle` occurs in `s` at index `j`. */
  predicate OccursAt(s: string, needle: string, j: nat) {
    j + |needle| <= |s| && s[j..j + |needle|] == needle
  }

  /** The index of the first occurrence of `needle` in `s` at or after `k`. */
  function FindFrom(s: string, needle: string, k: nat): (r: Option<nat>)
    requires k <= |s|
    ensures r.Some? ==> k <= r.value && OccursAt(s, needle, r.value)
    ensures r.Some? ==> forall j: nat :: k <= j < r.value ==> !OccursAt(s, needle, j)
    ensures r.None? ==> forall j: nat :: k <= j ==> !OccursAt(s, needle, j)
    decreases |s| - k
  {
    if k + |needle| > |s| then None
    else if s[k..k + |needle|] == needle then Some(k)
    else if k == |s| then None
    else FindFrom(s, needle, k + 1)
  }

  /** `s.find(needle)`, with `None` standing for -1. */
  function Find(s: string, needle: string): (r: Option<nat>)
    ensures r.Some? ==> OccursAt(s, needle, r.value)
    ensures r.Some? ==> forall j: nat :: j < r.value ==> !OccursAt(s, needle, j)
    ensures r.None? ==> forall j: nat :: !OccursAt(s, needle, j)
  {
    FindFrom(s, needle, 0)
  }

  /** `s.partition(sep)` for a non-empty separator: the text before the first
      occurrence, the separator itself (or "" when absent) and the text after. */
  function Partition(s: string, sep: string): (r: (string, string, string))
    requires |sep| > 0
    ensures r.0 + r.1 + r.2 == s
    ensures r.1 == sep || (r.1 == "" && r.0 == s && r.2 == "")
    ensures r.1 == sep <==> Find(s, sep).Some?
  {
    match Find(s, sep)
    case None => (s, "", "")
    case Some(i) =>
      assert s == s[..i] + sep + s[i + |sep|..];
      (s[..i], sep, s[i + |sep|..])
  }

  /** `s.split(c, 1)` put back as two strings: the text before the first
      `c`, and the rest from that `c` on ("" when `c` does not occur). */
  function SplitOnce(s: string, c: char): (r: (string, string))
    ensures |r.0| + |r.1| == |s|
    ensures r.1 == [] || r.1[0] == c
    decreases |s|
  {
    if s == [] then ([], [])
    else if s[0] == c then ([], s)
    else
      var r := SplitOnce(s[1..], c);
      ([s[0]] + r.0, r.1)
  }

  /** The two pieces make up `s`, and the first one holds no `c`. */
  lemma {:induction false} SplitOnceSpec(s: string, c: char)
    ensures SplitOnce(s, c).0 + SplitOnce(s, c).1 == s
    ensures c !in SplitOnce(s, c).0
    decreases |s|
  {
    if s != [] && s[0] != c {
      SplitOnceSpec(s[1..], c);
      var r := SplitOnce(s[1..], c);
      assert [s[0]] + r.0 + r.1 == [s[0]] + (r.0 + r.1);
    }
  }

  /** The cut is at the first `c`. */
  lemma {:induction false} SplitOnceAt(p: string, c: char, q: string)
    requires c !in p
    ensures SplitOnce(p + [c] + q, c) == (p, [c] + q)
    decreases |p|
  {
    var s := p + [c] + q;
    if p == [] {
      assert s == [c] + q;
    } else {
      assert s[0] == p[0] && s[1..] == p[1..] + [c] + q;
      SplitOnceAt(p[1..], c, q);
      assert [p[0]] + p[1..] == p;
    }
  }

  /** Without a `c`, nothing is cut off. */
  lemma {:induction false} SplitOnceMissing(s: string, c: char)
    requires c !in s
    ensures SplitOnce(s, c) == (s, [])
    decreases |s|
  {
    if s != [] {
      SplitOnceMissing(s[1..], c);
      assert [s[0]] + s[1..] == s;
    }
  }

  /** The number of occurrences of `c` in `s`. */
  function Count(s: string, c: char): nat {
    if s == [] then 0 else (if s[0] == c then 1 else 0) + Count(s[1..], c)
  }

  /** `s.split(c)` has one more piece than `s` has separators. */
  lemma {:induction false} SplitCount(s: string, c: char)
    ensures |Split(s, c)| == Count(s, c) + 1
    decreases |s|
  {
    if s != [] {
      SplitCount(s[1..], c);
    }
  }

  /** The first occurrence of a one-character separator that the prefix does
      not contain is right after the prefix. */
  lemma {:induction false} PartitionAtFirst(p: string, c: char, q: string)
    requires c !in p
    ensures Find(p + [c] + q, [c]) == Some(|p|)
    ensures Partition(p + [c] + q, [c]) == (p, [c], q)
  {
    var s := p + [c] + q;
    assert OccursAt(s, [c], |p|) by {
      assert s[|p|..|p| + 1] == [c];
    }
    forall j | 0 <= j < |p| ensures !OccursAt(s, [c], j) {
      assert s[j..j + 1] == [p[j]];
    }
    assert s[..|p|] == p;
    assert s[|p| + 1..] == q;
  }

  /** Without the separator, `partition` returns the whole string first. */
  lemma {:induction false} PartitionMissing(s: string, c: char)
    requires c !in s
    ensures Find(s, [c]) == None
    ensures Partition(s, [c]) == (s, "", "")
  {
    forall j: nat | j + 1 <= |s| ensures !OccursAt(s, [c], j) {
      assert s[j..j + 1] == [s[j]];
    }
  }

  function DigitChar(d: nat): char
    requires d < 10
  {
    ('0' as int + d) as char
  }

  /** `str(n)` for a natural number. */
  function NatToString(n: nat): (r: string)
    ensures IsDigits(r)
    decreases n
  {
    if n < 10 then [DigitChar(n)] else NatToString(n / 10) + [DigitChar(n % 10)]
  }

  /** `str(i)` for any integer. */
  function IntToString(i: int): string {
    if i < 0 then "-" + NatToString(-i) else NatToString(i)
  }

  /** `str(c)` for an optional integer: Python renders a missing one as `None`. */
  function OptIntToString(c: Option<int>): string {
    if c.None? then "None" else IntToString(c.value)
  }

  /** The value of a run of decimal digits. */
  function DigitsValue(s: string): nat
    requires forall i :: 0 <= i < |s| ==> IsDigitChar(s[i])
    decreases |s|
  {
    if s == [] then 0
    else
      var d := s[|s| - 1];
      assert IsDigitChar(d);
      10 * DigitsValue(s[..|s| - 1]) + (d as int - '0' as int)
  }

  lemma {:induction false} DigitsValueOfNatToString(n: nat)
    ensures DigitsValue(NatToString(n)) == n
    decreases n
  {
    if n >= 10 {
      DigitsValueOfNatToString(n / 10);
      var s := NatToString(n);
      assert s[..|s| - 1] == NatToString(n / 10);
    }
  }

  /** Digits in groups joined by single underscores, as `int` accepts
      them: `1_000`, but neither `_1`, `1_` nor `1__0`. */
  predicate IsGroupedDigits(s: string) {
    |s| > 0 && IsDigitChar(s[0]) && IsDigitChar(s[|s| - 1]) &&
    (forall i :: 0 <= i < |s| ==> IsDigitChar(s[i]) || s[i] == '_') &&
    (forall i :: 0 <= i < |s| - 1 ==> s[i] == '_' ==> s[i + 1] != '_')
  }

  /** The digits of `s` with its underscores dropped. */
  function Ungrouped(s: string): (r: string)
    requires forall i :: 0 <= i < |s| ==> IsDigitChar(s[i]) || s[i] == '_'
    ensures forall i :: 0 <= i < |r| ==> IsDigitChar(r[i])
    ensures |r| <= |s|
    decreases |s|
  {
    if s == [] then []
    else (if s[0] == '_' then [] else [s[0]]) + Ungrouped(s[1..])
  }

  /** `int(s)` on a string: surrounding whitespace, an optional sign and
      grouped digits; anything else raises ValueError. */
  function ParseInt(s: string): Result<int> {
    var t := Strip(s);
    var signed := |t| > 0 && (t[0] == '-' || t[0] == '+');
    var body := if signed then t[1..] else t;
    if IsGroupedDigits(body) then
      var v: int := DigitsValue(Ungrouped(body));
      Ok(if signed && t[0] == '-' then -v else v)
    else
      Raise(ValueError, "invalid literal for int() with base 10: '" + s + "'")
  }

  /** A run of plain digits is grouped, and dropping its (absent)
      underscores leaves it as it is. */
  lemma {:induction false} UngroupedDigits(s: string)
    requires IsDigits(s)
    ensures IsGroupedDigits(s) && Ungrouped(s) == s
    decreases |s|
  {
    if |s| > 1 {
      UngroupedDigits(s[1..]);
    }
  }

  /** Dropping the underscores of grouped digits leaves a run of digits. */
  lemma {:induction false} UngroupedIsDigits(s: string)
    requires IsGroupedDigits(s)
    ensures IsDigits(Ungrouped(s))
  {
    assert Ungrouped(s) == [s[0]] + Ungrouped(s[1..]);
  }

  /** A string that neither starts nor ends with whitespace is its own
      `strip()`. */
  lemma {:induction false} StripUnspaced(s: string)
    requires |s| > 0 && !IsSpace(s[0]) && !IsSpace(s[|s| - 1])
    ensures Strip(s) == s
  {
    assert LStrip(s) == s;
    assert RStrip(s) == s;
  }

  /** On a run of digits, `int` is the decimal value. */
  lemma {:induction false} ParseIntOfDigits(s: string)
    requires IsDigits(s)
    ensures ParseInt(s) == Ok(DigitsValue(s))
  {
    StripUnspaced(s);
    UngroupedDigits(s);
  }

  /** Underscores between digits do not change what `int` reads: grouped
      digits read as the digits without them. */
  lemma {:induction false} ParseIntGrouped(s: string)
    requires IsGroupedDigits(s)
    ensures ParseInt(s) == ParseInt(Ungrouped(s)) == Ok(DigitsValue(Ungrouped(s)))
  {
    StripUnspaced(s);
    UngroupedIsDigits(s);
    ParseIntOfDigits(Ungrouped(s));
  }

  /** Without whitespace or sign around it, a string that is not grouped
      digits raises ValueError. */
  lemma {:induction false} ParseIntUngroupedFails(s: string)
    requires |s| > 0 && !IsSpace(s[0]) && !IsSpace(s[|s| - 1]) && s[0] != '-' && s[0] != '+'
    requires !IsGroupedDigits(s)
    ensures ParseInt(s).Err? && ParseInt(s).error.kind == ValueError
  {
    StripUnspaced(s);
  }

  /** `int("1_0")` is 10. */
  lemma {:induction false} ParseIntUnderscored()
    ensures ParseInt("1_0") == Ok(10)
  {
    assert Ungrouped("1_0") == "10" by {
      assert Ungrouped("0") == "0";
      assert Ungrouped("_0") == Ungrouped("0");
    }
    assert IsGroupedDigits("1_0");
    ParseIntGrouped("1_0");
    assert DigitsValue("10") == 10 by {
      assert "10"[..1] == "1";
    }
  }

  /** A leading, trailing or doubled underscore raises ValueError. */
  lemma {:induction false} ParseIntStrayUnderscores()
    ensures ParseInt("_1").Err? && ParseInt("1_").Err? && ParseInt("1__0").Err?
  {
    ParseIntUngroupedFails("_1");
    ParseIntUngroupedFails("1_");
    assert !IsGroupedDigits("1__0") by {
      assert "1__0"[1] == '_' && "1__0"[2] == '_';
    }
    ParseIntUngroupedFails("1__0");
  }

  /** Reading back `str(n)` gives `n`. */
  lemma {:induction false} ParseIntOfNatToString(n: nat)
    ensures ParseInt(NatToString(n)) == Ok(n)
  {
    DigitsValueOfNatToString(n);
    ParseIntOfDigits(NatToString(n));
  }

  /** `format(n, '02')`: at least two characters, zero-padded after the sign. */
  function Pad2(n: int): string {
    if 0 <= n < 10 then "0" + NatToString(n) else IntToString(n)
  }
}
