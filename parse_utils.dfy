/** The scanning helpers of klunk/parse_utils.py: partitioning a list by a
    predicate and consuming a query string up to a delimiter. */
module ParseUtils {
  import opened Wrappers
  import opened Strs
  import opened Seqs

  /** `partition_list(l, p)`: the elements satisfying `p` and the others,
      each in their original order. */
  method PartitionList<T>(l: seq<T>, p: T -> bool) returns (yes: seq<T>, no: seq<T>)
    ensures yes == Filter(l, p) && no == Filter(l, Not(p))
    ensures forall x :: x in yes ==> p(x)
    ensures forall x :: x in no ==> !p(x)
    ensures multiset(yes) + multiset(no) == multiset(l)
  {
    yes, no := [], [];
    var i := 0;
    while i < |l|
      invariant 0 <= i <= |l|
      invariant yes == Filter(l[..i], p) && no == Filter(l[..i], Not(p))
    {
      var x := l[i];
      assert l[..i + 1] == l[..i] + [x];
      FilterSnoc(l[..i], x, p);
      FilterSnoc(l[..i], x, Not(p));
      if p(x) {
        yes := yes + [x];
      } else {
        no := no + [x];
      }
      i := i + 1;
    }
    assert l[..i] == l;
    FilterSplitsMultiset(l, p);
  }

  /** Both halves of a partition are order-preserving sub-lists of the input. */
  lemma {:induction false} PartitionKeepsOrder<T>(l: seq<T>, p: T -> bool)
    ensures IsSubseq(Filter(l, p), l) && IsSubseq(Filter(l, Not(p)), l)
  {
    FilterIsSubseq(l, p);
    FilterIsSubseq(l, Not(p));
  }

  /** `consume_until(s, v, discard_delim)`: the text before the first `v`, and
      the rest from `v` on (or after `v` when `discard`); `(s, "")` when `v`
      does not occur. An empty `v` makes `partition` raise ValueError. */
  function ConsumeUntil(s: string, v: string, discard: bool): (r: Result<(string, string)>)
    ensures r.Err? <==> v == ""
    ensures r.Ok? ==> match Find(s, v)
      case None => r.value == (s, "")
      case Some(i) => r.value.0 == s[..i] && r.value.1 == (if discard then "" else v) + s[i + |v|..]
  {
    if v == "" then Raise(ValueError, "empty separator")
    else
      var parts := Partition(s, v);
      var rest := (if discard then "" else parts.1) + parts.2;
      assert Find(s, v).None? ==> parts.0 == s && rest == "";
      Ok((parts.0, rest))
  }

  /* ---------- `str.format` with the one keyword argument `a` ---------- */

  /** The first index at or after `i` holding `]`, or the end. */
  function CloseBracket(s: string, i: nat): (r: nat)
    requires i <= |s|
    ensures i <= r <= |s| && (r < |s| ==> s[r] == ']')
    decreases |s| - i
  {
    if i == |s| || s[i] == ']' then i else CloseBracket(s, i + 1)
  }

  /** Where the field name that starts at `i` ends: at the first `}`, `:` or
      `!` outside square brackets. A `{` in the name, or the end of the
      template, raises ValueError. */
  function NameEnd(s: string, i: nat): (r: Result<nat>)
    requires i <= |s|
    ensures r.Ok? ==> i <= r.value < |s| && s[r.value] in "}:!"
    ensures r.Err? ==> r.error.kind == ValueError
    decreases |s| - i
  {
    if i == |s| then Raise(ValueError, "expected '}' before end of string")
    else if s[i] == '{' then Raise(ValueError, "unexpected '{' in field name")
    else if s[i] in "}:!" then Ok(i)
    else if s[i] == '[' then NameEnd(s, CloseBracket(s, i + 1))
    else NameEnd(s, i + 1)
  }

  /** Where the format spec that starts at `i` ends: at the `}` that closes
      the field, with `depth` braces open and nested braces counted. */
  function SpecEnd(s: string, i: nat, depth: nat): (r: Result<nat>)
    requires i <= |s| && depth > 0
    ensures r.Ok? ==> i <= r.value < |s| && s[r.value] == '}'
    ensures r.Err? ==> r.error == Error(ValueError, "unmatched '{' in format spec")
    decreases |s| - i
  {
    if i == |s| then Raise(ValueError, "unmatched '{' in format spec")
    else if s[i] == '{' then SpecEnd(s, i + 1, depth + 1)
    else if s[i] == '}' && depth == 1 then Ok(i)
    else if s[i] == '}' then SpecEnd(s, i + 1, depth - 1)
    else SpecEnd(s, i + 1, depth)
  }

  /** A replacement field: its name, its conversion, its format spec, and
      the template after its closing brace. */
  datatype Field = Field(name: string, conversion: Option<char>, spec: string, after: string)

  /** `parse_field` on the text just after a field's `{`: the name up to
      `}`, `:` or `!`; after `!` one conversion character, then `}` or `:`;
      after `:` a spec up to the matching `}`. */
  function ParseField(s: string): (r: Result<Field>)
    ensures r.Ok? ==> |r.value.after| < |s|
    ensures r.Err? ==> r.error.kind == ValueError
  {
    var e :- NameEnd(s, 0);
    var name := s[..e];
    if s[e] == '}' then Ok(Field(name, None, "", s[e + 1..]))
    else if s[e] == ':' then
      var k :- SpecEnd(s, e + 1, 1);
      Ok(Field(name, None, s[e + 1..k], s[k + 1..]))
    else if e + 1 == |s| then Raise(ValueError, "end of string while looking for conversion specifier")
    else if e + 2 < |s| && s[e + 2] == '}' then Ok(Field(name, Some(s[e + 1]), "", s[e + 3..]))
    else if e + 2 < |s| && s[e + 2] != ':' then Raise(ValueError, "expected ':' after conversion specifier")
    else
      var start := if e + 2 < |s| then e + 3 else e + 2;
      var k :- SpecEnd(s, start, 1);
      Ok(Field(name, Some(s[e + 1]), s[start..k], s[k + 1..]))
  }

  /** The part of a field name before the first `.` or `[`. */
  function FirstPart(name: string): (r: string)
    ensures |r| <= |name| && r == name[..|r|]
    ensures '.' !in name && '[' !in name ==> r == name
  {
    if name == [] || name[0] in ".[" then [] else [name[0]] + FirstPart(name[1..])
  }

  /** The largest index `str.format` accepts in a field name. */
  const PY_SSIZE_T_MAX := 0x7fff_ffff_ffff_ffff

  /** What a parsed field renders to under `format(a=a)`. An empty or
      numeric name asks for a positional argument, and there is none; any
      other name but `a` is a missing keyword. */
  function Render(f: Field, a: string): (r: Result<string>)
    ensures f.name == "a" && f.spec == "" && (f.conversion.None? || f.conversion == Some('s')) ==> r == Ok(a)
    ensures FirstPart(f.name) != "a" ==> r.Err? && r.error.kind in {IndexError, KeyError, ValueError}
    ensures FirstPart(f.name) != "a" && FirstPart(f.name) != "" && !IsDigits(FirstPart(f.name)) ==>
              r == Raise(KeyError, "'" + FirstPart(f.name) + "'")
  {
    var first := FirstPart(f.name);
    if first == "" then Raise(IndexError, "Replacement index 0 out of range for positional args tuple")
    else if IsDigits(first) then
      if DigitsValue(first) > PY_SSIZE_T_MAX then Raise(ValueError, "Too many decimal digits in format string")
      else Raise(IndexError, "Replacement index " + IntToString(DigitsValue(first)) + " out of range for positional args tuple")
    else if first != "a" then Raise(KeyError, "'" + first + "'")
    else if f.name != "a" then Raise(ValueError, "attribute or index of a replacement field")
    else if f.conversion.Some? && f.conversion.value !in "rsa" then
      Raise(ValueError, "Unknown conversion specifier " + [f.conversion.value])
    else if f.spec != "" || (f.conversion.Some? && f.conversion.value != 's') then
      Raise(ValueError, "format spec or repr conversion of a replacement field")
    else Ok(a)
  }

  /** One piece of `template.format(a=a)` at the head of a non-empty
      template: `{{` and `}}` stand for one brace, a lone `}` or a `{` at
      the end raises ValueError, and any other `{` opens a replacement
      field, which is parsed and rendered. Gives the text the piece renders
      to and the template after it. */
  function FormatStep(t: string, a: string): (r: Result<(string, string)>)
    requires t != []
    ensures r.Ok? ==> |r.value.1| < |t|
    ensures r.Err? ==> r.error.kind in {ValueError, KeyError, IndexError}
  {
    if t[0] == '}' then
      if |t| >= 2 && t[1] == '}' then Ok(("}", t[2..]))
      else Raise(ValueError, "Single '}' encountered in format string")
    else if t[0] == '{' then
      if |t| == 1 then Raise(ValueError, "Single '{' encountered in format string")
      else if t[1] == '{' then Ok(("{", t[2..]))
      else
        var f :- ParseField(t[1..]);
        var v :- Render(f, a);
        Ok((v, f.after))
    else Ok(([t[0]], t[1..]))
  }

  /** `template.format(a=a)`: the pieces rendered one after another; the
      first error in the template is raised. */
  function FormatA(template: string, a: string): (r: Result<string>)
    ensures r.Err? ==> r.error.kind in {ValueError, KeyError, IndexError}
    decreases |template|
  {
    if template == [] then Ok([])
    else match FormatStep(template, a)
      case Err(e) => Err(e)
      case Ok((v, rest)) => Prefixed(v, FormatA(rest, a))
  }

  /** A text with every brace doubled: the template that formats back to it. */
  function Escape(t: string): string {
    if t == [] then [] else EscapeChar(t[0]) + Escape(t[1..])
  }

  /** A brace doubled, any other character as it is. */
  function EscapeChar(c: char): string {
    if c == '{' || c == '}' then [c, c] else [c]
  }

  /** What a template formats to is unchanged by an escaped text in front,
      except that the text comes first. */
  lemma {:induction false} FormatEscapedPrefix(p: string, t: string, a: string)
    ensures FormatA(Escape(p) + t, a) == Prefixed(p, FormatA(t, a))
    decreases |p|
  {
    if p == [] {
      assert Escape(p) + t == t;
      PrefixedEmpty(FormatA(t, a));
    } else {
      FormatEscapedPrefix(p[1..], t, a);
      var tail := Escape(p[1..]) + t;
      assert Escape(p) + t == EscapeChar(p[0]) + tail;
      if p[0] == '{' || p[0] == '}' {
        FormatDoubled(p[0], tail, a);
      } else {
        FormatPlain(p[0], tail, a);
      }
      PrefixedTwice(p, FormatA(t, a));
    }
  }

  lemma {:induction false} PrefixedEmpty(r: Result<string>)
    ensures Prefixed([], r) == r
  {
    if r.Ok? {
      assert [] + r.value == r.value;
    }
  }

  lemma {:induction false} PrefixedTwice(p: string, r: Result<string>)
    requires p != []
    ensures Prefixed([p[0]], Prefixed(p[1..], r)) == Prefixed(p, r)
  {
    if r.Ok? {
      assert [p[0]] + (p[1..] + r.value) == p + r.value;
    }
  }

  /** A formatting outcome with a text put in front of its success. */
  function Prefixed(p: string, r: Result<string>): Result<string> {
    match r
    case Ok(m) => Ok(p + m)
    case Err(e) => Err(e)
  }

  /** A character that is not a brace is copied through. */
  lemma {:induction false} FormatPlain(c: char, x: string, a: string)
    requires c != '{' && c != '}'
    ensures FormatA([c] + x, a) == Prefixed([c], FormatA(x, a))
  {
    assert ([c] + x)[1..] == x;
    assert FormatStep([c] + x, a) == Ok(([c], x));
  }

  /** A doubled brace stands for one brace. */
  lemma {:induction false} FormatDoubled(c: char, x: string, a: string)
    requires c == '{' || c == '}'
    ensures FormatA([c, c] + x, a) == Prefixed([c], FormatA(x, a))
  {
    assert ([c, c] + x)[2..] == x;
    assert FormatStep([c, c] + x, a) == Ok(([c], x));
  }

  /** Escaping is undone by formatting. */
  lemma {:induction false} FormatEscaped(t: string, a: string)
    ensures FormatA(Escape(t), a) == Ok(t)
  {
    FormatEscapedPrefix(t, "", a);
    assert Escape(t) + "" == Escape(t) && t + "" == t;
  }

  /** A template without braces formats to itself. */
  lemma {:induction false} FormatBraceFree(t: string, a: string)
    requires '{' !in t && '}' !in t
    ensures FormatA(t, a) == Ok(t)
  {
    FormatBraceFreePrefix(t, "", a);
    assert t + "" == t;
  }

  /** A `{` not followed by another opens a field, which is parsed,
      rendered, and followed by the rest of the template. */
  lemma {:induction false} FormatOpen(x: string, a: string)
    requires x != [] && x[0] != '{'
    ensures FormatA("{" + x, a) ==
            match ParseField(x)
            case Err(e) => Err(e)
            case Ok(f) =>
              match Render(f, a)
              case Err(e) => Err(e)
              case Ok(v) => Prefixed(v, FormatA(f.after, a))
  {
    assert ("{" + x)[1..] == x;
    assert FormatStep("{" + x, a) ==
           match ParseField(x)
           case Err(e) => Err(e)
           case Ok(f) =>
             match Render(f, a)
             case Err(e) => Err(e)
             case Ok(v) => Ok((v, f.after));
  }

  /** The one field `{a}` between escaped texts is replaced by `a`. */
  lemma {:induction false} FormatFieldA(p: string, q: string, a: string)
    ensures FormatA(Escape(p) + "{a}" + Escape(q), a) == Ok(p + a + q)
  {
    var tail := "{a}" + Escape(q);
    assert Escape(p) + "{a}" + Escape(q) == Escape(p) + tail;
    FormatEscapedPrefix(p, tail, a);
    FormatFieldThen(q, a);
    assert p + (a + q) == p + a + q;
  }

  /** The field `{a}` followed by escaped text renders `a` and the text. */
  lemma {:induction false} FormatFieldThen(q: string, a: string)
    ensures FormatA("{a}" + Escape(q), a) == Ok(a + q)
  {
    FormatFieldHead(Escape(q), a);
    FormatEscaped(q, a);
  }

  /** A template that starts with the field `{a}` renders `a` first. */
  lemma {:induction false} FormatFieldHead(x: string, a: string)
    ensures FormatA("{a}" + x, a) == Prefixed(a, FormatA(x, a))
  {
    var s := "a}" + x;
    assert "{a}" + x == "{" + s;
    assert forall k :: 0 <= k < |"a"| ==> "a"[k] == 'a';
    ParseFieldName("a", x);
    assert "a" + "}" + x == s;
    FormatOpen(s, a);
    assert Render(Field("a", None, "", x), a) == Ok(a);
  }

  /** A name closed by `}` is a bare field of that name. */
  lemma {:induction false} ParseFieldName(name: string, x: string)
    requires forall k :: 0 <= k < |name| ==> name[k] !in "{}:![."
    ensures ParseField(name + "}" + x) == Ok(Field(name, None, "", x))
  {
    var s := name + "}" + x;
    assert s[|name|] == '}';
    NameEndSkips(s, 0, |name|);
    assert s[..|name|] == name && s[|name| + 1..] == x;
  }

  /** A `}` that is not doubled raises ValueError. */
  lemma {:induction false} FormatLoneClose(p: string, x: string, a: string)
    requires x == [] || x[0] != '}'
    ensures FormatA(Escape(p) + "}" + x, a) == Raise(ValueError, "Single '}' encountered in format string")
  {
    assert Escape(p) + "}" + x == Escape(p) + ("}" + x);
    FormatEscapedPrefix(p, "}" + x, a);
  }

  /** The name scan passes over characters that cannot end a name. */
  lemma {:induction false} NameEndSkips(s: string, i: nat, j: nat)
    requires i <= j <= |s|
    requires forall k :: i <= k < j ==> s[k] !in "{}:![."
    ensures NameEnd(s, i) == NameEnd(s, j)
    decreases j - i
  {
    if i < j {
      NameEndSkips(s, i + 1, j);
    }
  }

  /** A `{` whose name runs to the end of the template raises ValueError. */
  lemma {:induction false} FormatUnclosed(p: string, x: string, a: string)
    requires x != [] && forall k :: 0 <= k < |x| ==> x[k] !in "{}:![."
    ensures FormatA(Escape(p) + "{" + x, a) == Raise(ValueError, "expected '}' before end of string")
  {
    var t := "{" + x;
    assert Escape(p) + "{" + x == Escape(p) + t;
    FormatEscapedPrefix(p, t, a);
    assert t[1..] == x;
    NameEndSkips(x, 0, |x|);
  }

  /** A field naming anything but `a` (and not a position) raises KeyError. */
  lemma {:induction false} FormatOtherName(p: string, name: string, q: string, a: string)
    requires name != "a" && name != "" && !IsDigits(name)
    requires forall k :: 0 <= k < |name| ==> name[k] !in "{}:![."
    ensures FormatA(Escape(p) + "{" + name + "}" + q, a) == Raise(KeyError, "'" + name + "'")
  {
    var t := "{" + name + "}" + q;
    assert Escape(p) + "{" + name + "}" + q == Escape(p) + t;
    FormatEscapedPrefix(p, t, a);
    FormatOtherHead(name, q, a);
  }

  /** A template that starts with a field naming anything but `a` raises
      KeyError. */
  lemma {:induction false} FormatOtherHead(name: string, q: string, a: string)
    requires name != "a" && name != "" && !IsDigits(name)
    requires forall k :: 0 <= k < |name| ==> name[k] !in "{}:![."
    ensures FormatA("{" + name + "}" + q, a) == Raise(KeyError, "'" + name + "'")
  {
    var s := name + "}" + q;
    assert "{" + name + "}" + q == "{" + s;
    ParseFieldName(name, q);
    FormatOpen(s, a);
    assert FirstPart(name) == name;
  }

  /** The message template `consume_to_hard` formats: `miss`, or the quoted
      delimiter when `miss` is absent or empty. */
  function Template(val: string, miss: Option<string>): string {
    if miss.None? || miss.value == "" then "'" + val + "'" else miss.value
  }

  /** `consume_to_hard(s, val, miss)`: like `consume_until` with the delimiter
      discarded, but a missing delimiter raises ParseError, whose message
      is the template formatted with `a` set to the text that was scanned;
      an error from the formatting itself is raised instead. */
  function ConsumeToHard(s: string, val: string, miss: Option<string>): (r: Result<(string, string)>)
    ensures val != "" ==> (r.Ok? <==> Find(s, val).Some?)
    ensures r.Ok? ==> r.value.0 + val + r.value.1 == s && Find(r.value.0 + val, val) == Some(|r.value.0|)
    ensures val != "" && Find(s, val).None? ==>
              r == match FormatA(Template(val, miss), s)
                   case Ok(m) => Raise(ParseError, "Could not find " + m)
                   case Err(e) => Err(e)
  {
    if val == "" then Raise(ValueError, "empty separator")
    else
      var (a, b, c) := Partition(s, val);
      if b == "" then
        var msg :- FormatA(Template(val, miss), a);
        Raise(ParseError, "Could not find " + msg)
      else
        assert a + val + c == s;
        FindPrefix(a, val, c);
        Ok((a, c))
  }

  /** The first occurrence in a string is also the first one in any longer
      string that extends past it. */
  lemma {:induction false} FindPrefix(a: string, val: string, c: string)
    requires val != ""
    requires Find(a + val + c, val) == Some(|a|)
    ensures Find(a + val, val) == Some(|a|)
  {
    var s, t := a + val + c, a + val;
    assert OccursAt(t, val, |a|) by {
      assert t[|a|..|a| + |val|] == val;
    }
    forall j: nat | j < |a| ensures !OccursAt(t, val, j) {
      assert !OccursAt(s, val, j);
      if j + |val| <= |t| {
        assert t[j..j + |val|] == s[j..j + |val|];
      }
    }
  }

  /** `consume_str(s)`: after left-stripping, nothing gives `(None, "")`; a
      leading `'` gives the text up to the next `'` (the whole rest when there
      is none); anything else gives the text up to the next space. The
      delimiter is dropped. */
  function ConsumeStr(s: string): (r: (Option<string>, string))
    ensures r.0.None? <==> LStrip(s) == ""
    ensures r.0.None? ==> r.1 == ""
    ensures r.0.Some? && LStrip(s)[0] == '\'' ==> '\'' !in r.0.value
    ensures r.0.Some? && LStrip(s)[0] != '\'' ==> ' ' !in r.0.value
    ensures r.0.Some? ==>
              var t := LStrip(s);
              var body := if t[0] == '\'' then t[1..] else t;
              var d := if t[0] == '\'' then '\'' else ' ';
              match Find(body, [d])
              case None => r == (Some(body), "")
              case Some(i) => r == (Some(body[..i]), body[i + 1..])
  {
    var t := LStrip(s);
    if t == "" then (None, "")
    else
      var quoted := t[0] == '\'';
      var body := if quoted then t[1..] else t;
      var d := if quoted then '\'' else ' ';
      var r := ConsumeUntil(body, [d], true);
      assert r.Ok?;
      NoDelimBefore(body, d);
      assert Find(body, [d]).Some? ==> r.value.1 == body[Find(body, [d]).value + 1..];
      (Some(r.value.0), r.value.1)
  }

  /** A bare word followed by a space reads back as the word, leaving the
      text after the space. */
  lemma {:induction false} ConsumeStrWord(w: string, rest: string)
    requires w != [] && !IsSpace(w[0]) && w[0] != '\'' && ' ' !in w
    ensures ConsumeStr(w + " " + rest) == (Some(w), rest)
  {
    var s := w + " " + rest;
    assert s[0] == w[0];
    PartitionAtFirst(w, ' ', rest);
  }

  /** A quoted text without quotes inside reads back as the text, leaving
      what follows the closing quote. */
  lemma {:induction false} ConsumeStrQuoted(w: string, rest: string)
    requires '\'' !in w
    ensures ConsumeStr("'" + w + "'" + rest) == (Some(w), rest)
  {
    var s := "'" + w + "'" + rest;
    assert s[0] == '\'' && s[1..] == w + "'" + rest;
    PartitionAtFirst(w, '\'', rest);
  }

  /** The text before the first occurrence of a character does not contain it. */
  lemma {:induction false} NoDelimBefore(s: string, c: char)
    ensures c !in Partition(s, [c]).0
  {
    match Find(s, [c])
    case None =>
      forall j | 0 <= j < |s| ensures s[j] != c {
        assert !OccursAt(s, [c], j);
        assert s[j..j + 1] == [s[j]];
      }
    case Some(i) =>
      forall j | 0 <= j < i ensures s[j] != c {
        assert !OccursAt(s, [c], j);
        assert s[j..j + 1] == [s[j]];
      }
  }

  const FUNCTION_HELP := "Function calls must have no spaces between the start of the function name, and" +
    "the opening parenthesis. Example: player(HamazonAU), not player (HamazonAU)."

  /** `consume_function(s)`: a name up to the first `(`, which must not
      contain a space, then the text up to the next `)`; returns the lowercased
      name, that text and the left-stripped remainder. */
  function ConsumeFunction(s: string): Result<(string, string, string)> {
    var (c, rest) :- ConsumeToHard(s, "(", Some(OPEN_MISS + "{a}"));
    if ' ' in c then
      Raise(ParseError, "Invalid function call: " + c + ". " + FUNCTION_HELP)
    else
      var (v, after) :- ConsumeToHard(rest, ")", Some(CLOSE_MISS + c));
      Ok((Lower(c), v, LStrip(after)))
  }

  /** A well-formed call `name(args)rest` is taken apart into its pieces. */
  lemma {:induction false} ConsumeFunctionOfCall(name: string, args: string, rest: string)
    requires '(' !in name && ' ' !in name && ')' !in args
    ensures ConsumeFunction(name + "(" + args + ")" + rest) == Ok((Lower(name), args, LStrip(rest)))
  {
    var tail := args + ")" + rest;
    assert name + "(" + args + ")" + rest == name + ['('] + tail;
    ConsumeToHardAt(name, '(', tail, Some(OPEN_MISS + "{a}"));
    assert tail == args + [')'] + rest;
    ConsumeToHardAt(args, ')', rest, Some(CLOSE_MISS + name));
  }

  lemma {:induction false} ConsumeToHardAt(p: string, c: char, q: string, miss: Option<string>)
    requires c !in p
    ensures ConsumeToHard(p + [c] + q, [c], miss) == Ok((p, q))
  {
    PartitionAtFirst(p, c, q);
  }

  /** A name with a space before its parenthesis is refused. */
  lemma {:induction false} ConsumeFunctionRejectsSpace(name: string, rest: string)
    requires '(' !in name && ' ' in name
    ensures ConsumeFunction(name + "(" + rest).Err?
    ensures ConsumeFunction(name + "(" + rest).error.kind == ParseError
  {
    assert name + "(" + rest == name + ['('] + rest;
    PartitionAtFirst(name, '(', rest);
  }

  /** Without an opening parenthesis nothing is consumed. */
  lemma {:induction false} ConsumeFunctionNeedsParen(s: string)
    requires '(' !in s
    ensures ConsumeFunction(s) == Raise(ParseError, "Could not find " + OPEN_MISS + s)
  {
    PartitionMissing(s, '(');
    FormatOpening(s);
  }

  /** The text before `{a}` in the missing-parenthesis template. */
  const OPEN_MISS := "opening parenthesis for function "

  /** The text before the name in the missing-closing-parenthesis template. */
  const CLOSE_MISS := "closing parenthesis for function "

  lemma {:induction false} OpenMissBraceFree()
    ensures '{' !in OPEN_MISS && '}' !in OPEN_MISS
  {
  }

  lemma {:induction false} CloseMissBraceFree()
    ensures '{' !in CLOSE_MISS && '}' !in CLOSE_MISS
  {
  }

  lemma {:induction false} BraceNameChars(n1: string, n2: string)
    requires '(' !in n1 && ' ' !in n1
    requires forall k :: 0 <= k < |n2| ==> n2[k] !in "{}:![.( "
    ensures '(' !in n1 + "{" + n2 && ' ' !in n1 + "{" + n2
  {
    var name := n1 + "{" + n2;
    forall k | 0 <= k < |name| ensures name[k] != '(' && name[k] != ' ' {
      if k < |n1| {
        assert name[k] == n1[k] && n1[k] in n1;
      } else if k > |n1| {
        assert name[k] == n2[k - |n1| - 1];
      }
    }
  }

  /** The function name is formatted into the closing-parenthesis message,
      so a name holding an unclosed `{` makes that formatting raise
      ValueError instead of ParseError, when `)` is missing. */
  lemma {:induction false} ConsumeFunctionBraceName(n1: string, n2: string, args: string)
    requires '{' !in n1 && '}' !in n1 && '(' !in n1 && ' ' !in n1
    requires n2 != [] && forall k :: 0 <= k < |n2| ==> n2[k] !in "{}:![.( "
    requires ')' !in args
    ensures ConsumeFunction(n1 + "{" + n2 + "(" + args) ==
            Raise(ValueError, "expected '}' before end of string")
  {
    var name := n1 + "{" + n2;
    BraceNameChars(n1, n2);
    assert n1 + "{" + n2 + "(" + args == name + ['('] + args;
    ConsumeToHardAt(name, '(', args, Some(OPEN_MISS + "{a}"));
    PartitionMissing(args, ')');
    CloseMissBraceFree();
    var p := CLOSE_MISS + n1;
    assert '{' !in p && '}' !in p;
    assert CLOSE_MISS + name == p + ("{" + n2);
    FormatBraceFreePrefix(p, "{" + n2, args);
    assert Escape("") + "{" + n2 == "{" + n2;
    FormatUnclosed("", n2, args);
  }

  lemma {:induction false} FormatOpening(s: string)
    ensures FormatA(OPEN_MISS + "{a}", s) == Ok(OPEN_MISS + s)
  {
    OpenMissBraceFree();
    FormatBraceFreePrefix(OPEN_MISS, "{a}", s);
    FormatFieldOnly(s);
  }

  /** The template `{a}` alone formats to `a`. */
  lemma {:induction false} FormatFieldOnly(a: string)
    ensures FormatA("{a}", a) == Ok(a)
  {
    assert "{a}" + "" == "{a}";
    FormatFieldHead("", a);
    assert FormatA("", a) == Ok("");
    assert a + "" == a;
  }

  /** A brace-free text in front of a template is copied through. */
  lemma {:induction false} FormatBraceFreePrefix(p: string, t: string, a: string)
    requires '{' !in p && '}' !in p
    ensures FormatA(p + t, a) == Prefixed(p, FormatA(t, a))
    decreases |p|
  {
    if p == [] {
      assert p + t == t;
      PrefixedEmpty(FormatA(t, a));
    } else {
      assert p + t == [p[0]] + (p[1..] + t);
      assert '{' !in p[1..] && '}' !in p[1..] by {
        forall c | c in p[1..] ensures c in p { }
      }
      FormatBraceFreePrefix(p[1..], t, a);
      FormatPlain(p[0], p[1..] + t, a);
      PrefixedTwice(p, FormatA(t, a));
    }
  }

  /** `parse_function_args_simple(s)`: the comma-separated pieces of `s`,
      stripped and lowercased. */
  function ParseFunctionArgsSimple(s: string): (r: seq<string>)
    ensures |r| == |Split(s, ',')| == Count(s, ',') + 1
    ensures forall k :: 0 <= k < |r| ==> ',' !in r[k] && r[k] == Lower(Strip(Split(s, ',')[k]))
  {
    var parts := Split(s, ',');
    SplitCount(s, ',');
    SplitPieces(s, ',');
    forall k | 0 <= k < |parts| ensures ',' !in Strip(parts[k]) {
      LStripSuffix(parts[k]);
      SuffixDrop(LStrip(parts[k]), parts[k]);
    }
    seq(|parts|, k requires 0 <= k < |parts| => Lower(Strip(parts[k])))
  }

  /** `extract_aint_or(l, default)`: the value of the first all-digit element
      (or `default` when there is none), and the other elements in order. */
  function ExtractAintOr(l: seq<string>, default: int): (r: (int, seq<string>))
    ensures r.1 == Filter(l, Not(IsDigits))
    ensures FirstIndex(l, IsDigits).None? ==> r.0 == default
    ensures FirstIndex(l, IsDigits).Some? ==> r.0 == DigitsValue(l[FirstIndex(l, IsDigits).value])
  {
    var ints := Filter(l, IsDigits);
    var nots := Filter(l, Not(IsDigits));
    if ints == [] then
      FirstNoneWhenEmpty(l, IsDigits);
      (default, nots)
    else
      FilterHeadIsFirst(l, IsDigits);
      (DigitsValue(ints[0]), nots)
  }

  lemma {:induction false} FirstNoneWhenEmpty<T>(l: seq<T>, p: T -> bool)
    requires Filter(l, p) == []
    ensures FirstIndex(l, p).None?
  {
    if FirstIndex(l, p).Some? {
      var i := FirstIndex(l, p).value;
      assert l[i] in l;
      FilterKeepsElement(l, p, i);
      assert false;
    }
  }

  lemma {:induction false} FilterHeadIsFirst<T>(l: seq<T>, p: T -> bool)
    requires Filter(l, p) != []
    ensures FirstIndex(l, p).Some? && Filter(l, p)[0] == l[FirstIndex(l, p).value]
  {
    FilterHead(l, p);
    var i :| 0 <= i < |l| && p(l[i]) && Filter(l, p)[0] == l[i] && forall j :: 0 <= j < i ==> !p(l[j]);
    var f := FirstIndex(l, p);
    assert f.Some?;
    assert f.value == i;
  }
}
