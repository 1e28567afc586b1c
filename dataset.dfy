/** The `Dataset` container of klunk/dataset.py, its index helpers and the
    nickname/uuid mapping tables.

    Dataset contents are `Value`s; a Python `dict` is `VDict`, a list of
    key/value entries in insertion order whose keys are distinct under
    Python `==` (`PyEq`). */
module Datasets {
  import opened Wrappers
  import opened Strs
  import opened Seqs
  import opened Sorting
  import opened Match
  import opened Filters

  /* ---------- Python dicts ---------- */

  /** `d[k]`, when present. */
  function Lookup(entries: seq<(Value, Value)>, k: Value): (r: Option<Value>)
    ensures r.Some? <==> exists i :: 0 <= i < |entries| && PyEq(entries[i].0, k)
    decreases |entries|
  {
    if entries == [] then None
    else if PyEq(entries[0].0, k) then Some(entries[0].1)
    else Lookup(entries[1..], k)
  }

  predicate DistinctKeys(entries: seq<(Value, Value)>) {
    forall i, j :: 0 <= i < j < |entries| ==> !PyEq(entries[i].0, entries[j].0)
  }

  /** `d[k] = v`: an existing key keeps its place (and its key object) and
      gets the new value; a new key is appended. */
  function SetKey(entries: seq<(Value, Value)>, k: Value, v: Value): (r: seq<(Value, Value)>)
    ensures |r| == |entries| || |r| == |entries| + 1
    ensures |r| == |entries| + 1 <==> Lookup(entries, k).None?
    ensures forall i :: 0 <= i < |entries| ==> r[i].0 == entries[i].0
    decreases |entries|
  {
    if entries == [] then [(k, v)]
    else if PyEq(entries[0].0, k) then [(entries[0].0, v)] + entries[1..]
    else [entries[0]] + SetKey(entries[1..], k, v)
  }

  /** After `d[k] = v`, `d[k]` is `v` and every other key keeps its value;
      keys stay distinct. */
  lemma {:induction false} SetKeyLookup(entries: seq<(Value, Value)>, k: Value, v: Value, k2: Value)
    ensures Lookup(SetKey(entries, k, v), k2) == if PyEq(k, k2) then Some(v) else Lookup(entries, k2)
    decreases |entries|
  {
    if PyEq(k, k2) { SetKeyHit(entries, k, v, k2); } else { SetKeyMiss(entries, k, v, k2); }
  }

  lemma {:induction false} SetKeyHit(entries: seq<(Value, Value)>, k: Value, v: Value, k2: Value)
    requires PyEq(k, k2)
    ensures Lookup(SetKey(entries, k, v), k2) == Some(v)
    decreases |entries|
  {
    if entries == [] {
      LookupHead((k, v), [], k2);
    } else {
      var e, rest := entries[0], entries[1..];
      if PyEq(e.0, k) {
        assert SetKey(entries, k, v) == [(e.0, v)] + rest;
        LookupHead((e.0, v), rest, k2);
      } else {
        SetKeyHit(rest, k, v, k2);
        assert SetKey(entries, k, v) == [e] + SetKey(rest, k, v);
        LookupHead(e, SetKey(rest, k, v), k2);
      }
    }
  }

  lemma {:induction false} SetKeyMiss(entries: seq<(Value, Value)>, k: Value, v: Value, k2: Value)
    requires !PyEq(k, k2)
    ensures Lookup(SetKey(entries, k, v), k2) == Lookup(entries, k2)
    decreases |entries|
  {
    if entries == [] {
      LookupHead((k, v), [], k2);
    } else {
      var e, rest := entries[0], entries[1..];
      assert entries == [e] + rest;
      LookupHead(e, rest, k2);
      if PyEq(e.0, k) {
        assert SetKey(entries, k, v) == [(e.0, v)] + rest;
        LookupHead((e.0, v), rest, k2);
      } else {
        SetKeyMiss(rest, k, v, k2);
        assert SetKey(entries, k, v) == [e] + SetKey(rest, k, v);
        LookupHead(e, SetKey(rest, k, v), k2);
      }
    }
  }

  /** `Lookup` on a dict whose first item is `e`. */
  lemma {:induction false} LookupHead(e: (Value, Value), rest: seq<(Value, Value)>, k2: Value)
    ensures Lookup([e] + rest, k2) == if PyEq(e.0, k2) then Some(e.1) else Lookup(rest, k2)
  {
    assert ([e] + rest)[0] == e && ([e] + rest)[1..] == rest;
  }

  lemma {:induction false} SetKeyDistinct(entries: seq<(Value, Value)>, k: Value, v: Value)
    requires DistinctKeys(entries)
    ensures DistinctKeys(SetKey(entries, k, v))
  {
    var r := SetKey(entries, k, v);
    if |r| == |entries| + 1 {
      AppendedAtEnd(entries, k, v);
    } else {
      forall i | 0 <= i < |r| ensures PyEq(r[i].0, entries[i].0) {
        SetKeyKeys(entries, k, v);
      }
    }
  }

  lemma {:induction false} AppendedAtEnd(entries: seq<(Value, Value)>, k: Value, v: Value)
    requires Lookup(entries, k).None?
    ensures SetKey(entries, k, v) == entries + [(k, v)]
    decreases |entries|
  {
    if entries != [] {
      AppendedAtEnd(entries[1..], k, v);
    }
  }

  lemma {:induction false} SetKeyKeys(entries: seq<(Value, Value)>, k: Value, v: Value)
    requires Lookup(entries, k).Some?
    ensures |SetKey(entries, k, v)| == |entries|
    ensures forall i :: 0 <= i < |entries| ==> SetKey(entries, k, v)[i].0 == entries[i].0
  {
  }

  /** The assignments `d[k] = v` for each pair in turn. */
  function SetAll(entries: seq<(Value, Value)>, pairs: seq<(Value, Value)>): seq<(Value, Value)>
    decreases |pairs|
  {
    if pairs == [] then entries
    else SetAll(SetKey(entries, pairs[0].0, pairs[0].1), pairs[1..])
  }

  lemma {:induction false} SetAllSnoc(entries: seq<(Value, Value)>, pairs: seq<(Value, Value)>, p: (Value, Value))
    ensures SetAll(entries, pairs + [p]) == SetKey(SetAll(entries, pairs), p.0, p.1)
    decreases |pairs|
  {
    if pairs == [] {
      assert ([p])[1..] == [];
    } else {
      assert (pairs + [p])[1..] == pairs[1..] + [p];
      SetAllSnoc(SetKey(entries, pairs[0].0, pairs[0].1), pairs[1..], p);
    }
  }

  /** The value of the last pair whose key equals `k`. */
  function LastFor(pairs: seq<(Value, Value)>, k: Value): Option<Value>
    decreases |pairs|
  {
    if pairs == [] then None
    else if PyEq(pairs[|pairs| - 1].0, k) then Some(pairs[|pairs| - 1].1)
    else LastFor(pairs[..|pairs| - 1], k)
  }

  /** After the assignments, a key that was assigned holds the value of its
      last assignment, and every other key keeps its old value. */
  lemma {:induction false} SetAllLookup(entries: seq<(Value, Value)>, pairs: seq<(Value, Value)>, k: Value)
    ensures Lookup(SetAll(entries, pairs), k) == if LastFor(pairs, k).Some? then LastFor(pairs, k) else Lookup(entries, k)
    decreases |pairs|
  {
    if pairs != [] {
      var init, p := pairs[..|pairs| - 1], pairs[|pairs| - 1];
      assert pairs == init + [p];
      SetAllSnoc(entries, init, p);
      SetKeyLookup(SetAll(entries, init), p.0, p.1, k);
      SetAllLookup(entries, init, k);
    }
  }

  lemma {:induction false} SetAllDistinct(entries: seq<(Value, Value)>, pairs: seq<(Value, Value)>)
    requires DistinctKeys(entries)
    ensures DistinctKeys(SetAll(entries, pairs))
    decreases |pairs|
  {
    if pairs != [] {
      SetKeyDistinct(entries, pairs[0].0, pairs[0].1);
      SetAllDistinct(SetKey(entries, pairs[0].0, pairs[0].1), pairs[1..]);
    }
  }

  /* ---------- Index keys ---------- */

  /** The stripped, non-empty parts, in order. */
  function Kept(parts: seq<string>): (r: seq<string>)
    ensures forall i :: 0 <= i < |r| ==> r[i] != ""
    decreases |parts|
  {
    if parts == [] then []
    else (if Strip(parts[0]) != "" then [Strip(parts[0])] else []) + Kept(parts[1..])
  }

  lemma {:induction false} KeptConcat(a: seq<string>, b: seq<string>)
    ensures Kept(a + b) == Kept(a) + Kept(b)
    decreases |a|
  {
    if a != [] {
      assert (a + b)[0] == a[0] && (a + b)[1..] == a[1..] + b;
      KeptConcat(a[1..], b);
      var h := if Strip(a[0]) != "" then [Strip(a[0])] else [];
      calc {
        Kept(a + b);
        h + Kept(a[1..] + b);
        h + (Kept(a[1..]) + Kept(b));
        (h + Kept(a[1..])) + Kept(b);
        Kept(a) + Kept(b);
      }
    } else {
      assert a + b == b;
    }
  }

  /** Parts that are a reordering of each other keep the same parts. */
  lemma {:induction false} KeptPermutation(a: seq<string>, b: seq<string>)
    requires multiset(a) == multiset(b)
    ensures multiset(Kept(a)) == multiset(Kept(b))
    decreases |a|
  {
    if a != [] {
      var x := a[0];
      assert x in multiset(b);
      var i :| 0 <= i < |b| && b[i] == x;
      var rest := b[..i] + b[i + 1..];
      assert b == b[..i] + [x] + b[i + 1..];
      assert a == [x] + a[1..];
      assert multiset(a) == multiset{x} + multiset(a[1..]);
      assert multiset(b) == multiset(b[..i]) + multiset{x} + multiset(b[i + 1..]);
      assert multiset(rest) == multiset(b[..i]) + multiset(b[i + 1..]);
      assert multiset(a[1..]) == multiset(a) - multiset{x};
      assert multiset(rest) == multiset(b) - multiset{x};
      KeptPermutation(a[1..], rest);
      KeptConcat(b[..i] + [x], b[i + 1..]);
      KeptConcat(b[..i], [x]);
      KeptConcat(b[..i], b[i + 1..]);
      KeptConcat([x], a[1..]);
    }
  }

  function IdxKeyOf(parts: seq<string>): (r: seq<string>)
    ensures forall i :: 0 <= i < |r| ==> r[i] != ""
  {
    var r := Sort(Kept(parts), TextKey, false);
    forall i | 0 <= i < |r| ensures r[i] != "" {
      assert r[i] in multiset(r);
      assert r[i] in Kept(parts);
    }
    r
  }

  /** `to_idx_key(s)`: the `.`-separated parts of `s`, stripped, without
      empty ones, sorted. */
  function ToIdxKey(s: string): (r: seq<string>)
    ensures forall i :: 0 <= i < |r| ==> r[i] != ""
  {
    IdxKeyOf(Split(s, '.'))
  }

  /** The key is sorted, holds exactly the non-empty stripped parts, and
      does not depend on the order of the parts. */
  lemma {:induction false} IdxKeyIgnoresOrder(a: seq<string>, b: seq<string>)
    requires multiset(a) == multiset(b)
    ensures IdxKeyOf(a) == IdxKeyOf(b)
    ensures SortedBy(IdxKeyOf(a), TextKey, false) && multiset(IdxKeyOf(a)) == multiset(Kept(a))
  {
    KeptPermutation(a, b);
    SortStringsPermutation(Kept(a), Kept(b));
    SortIsSorted(Kept(a), TextKey, false);
  }

  predicate NoDecay(m: QueryMatch) {
    !m.isDecay
  }

  predicate NotAbnormal(m: QueryMatch) {
    !m.isAbnormal
  }

  /** `m.season == cs`; with no current season no match qualifies. */
  predicate InSeason(m: QueryMatch, cs: Option<int>) {
    cs.Some? && m.season == cs.value
  }

  function Only(b: bool, l: seq<QueryMatch>, p: QueryMatch -> bool): seq<QueryMatch> {
    if b then Filter(l, p) else l
  }

  /** `to_idx(s, l, cs)`: the matches left after the filters the key names. */
  function ToIdx(s: string, l: seq<QueryMatch>, cs: Option<int>): (r: seq<QueryMatch>)
    ensures |r| <= |l|
  {
    var key := ToIdxKey(s);
    var l1 := Only("ranked" in key, l, FRanked);
    var l2 := Only("nodecay" in key, l1, NoDecay);
    var l3 := Only("noabnormal" in key, l2, NotAbnormal);
    Only("current" in key, l3, SeasonIs(cs))
  }

  function SeasonIs(cs: Option<int>): QueryMatch -> bool {
    m => InSeason(m, cs)
  }

  /** The conjunction of the filters the key names; other words are ignored. */
  predicate Wanted(key: seq<string>, cs: Option<int>, m: QueryMatch) {
    ("ranked" in key ==> FRanked(m)) && ("nodecay" in key ==> NoDecay(m)) &&
    ("noabnormal" in key ==> NotAbnormal(m)) && ("current" in key ==> InSeason(m, cs))
  }

  function WantedBy(key: seq<string>, cs: Option<int>): QueryMatch -> bool {
    m => Wanted(key, cs, m)
  }

  function Guarded(b: bool, p: QueryMatch -> bool): QueryMatch -> bool {
    m => !b || p(m)
  }

  lemma {:induction false} OnlyIsFilter(b: bool, l: seq<QueryMatch>, p: QueryMatch -> bool)
    ensures Only(b, l, p) == Filter(l, Guarded(b, p))
  {
    if b {
      FilterCongruent(l, p, Guarded(b, p));
    } else {
      FilterKeepsAll(l, Guarded(b, p));
    }
  }

  /** Four successive filters are one filter by their conjunction. */
  lemma {:induction false} FourFilters(l: seq<QueryMatch>, g1: QueryMatch -> bool, g2: QueryMatch -> bool, g3: QueryMatch -> bool, g4: QueryMatch -> bool, w: QueryMatch -> bool)
    requires forall m :: w(m) == (g1(m) && g2(m) && g3(m) && g4(m))
    ensures Filter(Filter(Filter(Filter(l, g1), g2), g3), g4) == Filter(l, w)
  {
    var h2: QueryMatch -> bool := m => g1(m) && g2(m);
    var h3: QueryMatch -> bool := m => g1(m) && g2(m) && g3(m);
    FilterTwice(l, g1, g2, h2);
    FilterTwice(l, h2, g3, h3);
    FilterTwice(l, h3, g4, w);
  }

  /** `to_idx` keeps, in order, exactly the matches that pass every filter
      the key names. */
  lemma {:induction false} ToIdxIsFilter(s: string, l: seq<QueryMatch>, cs: Option<int>)
    ensures ToIdx(s, l, cs) == Filter(l, WantedBy(ToIdxKey(s), cs))
    ensures IsSubseq(ToIdx(s, l, cs), l)
  {
    var key := ToIdxKey(s);
    var b1, b2, b3, b4 := "ranked" in key, "nodecay" in key, "noabnormal" in key, "current" in key;
    var l1 := Only(b1, l, FRanked);
    var l2 := Only(b2, l1, NoDecay);
    var l3 := Only(b3, l2, NotAbnormal);
    OnlyIsFilter(b1, l, FRanked);
    OnlyIsFilter(b2, l1, NoDecay);
    OnlyIsFilter(b3, l2, NotAbnormal);
    OnlyIsFilter(b4, l3, SeasonIs(cs));
    FourFilters(l, Guarded(b1, FRanked), Guarded(b2, NoDecay), Guarded(b3, NotAbnormal),
                Guarded(b4, SeasonIs(cs)), WantedBy(key, cs));
    FilterIsSubseq(l, WantedBy(key, cs));
  }

  /* ---------- Element access ---------- */

  /** The class Python names in messages about a value. */
  function TypeName(v: Value): string {
    match v
    case VNone => "NoneType"
    case VBool(_) => "bool"
    case VInt(_) => "int"
    case VTime(_, unit) => if unit == Millis then "Milliseconds" else "Seconds"
    case VStr(_) => "str"
    case VUuid(_) => "UUID"
    case VTuple(_) => "tuple"
    case VList(_) => "list"
    case VDict(_) => "dict"
    case VMembers(_) => "UUIDList"
    case VTimelines(_) => "TimelineList"
    case VMember(_) => "MatchMember"
    case VTimeline(_) => "Timeline"
    case VMatch(_) => "QueryMatch"
    case VFailure => "type"
    case VObject(kind) => kind
  }

  /** A string's one-character strings. */
  function Chars(s: string): (r: seq<Value>)
    ensures |r| == |s|
  {
    seq(|s|, i requires 0 <= i < |s| => VStr([s[i]]))
  }

  function DictKeys(entries: seq<(Value, Value)>): (r: seq<Value>)
    ensures |r| == |entries|
  {
    seq(|entries|, i requires 0 <= i < |entries| => entries[i].0)
  }

  /** The elements of content that can be indexed and sliced by position:
      a list (member and timeline lists included), a tuple, a string. */
  function Sequence(v: Value): (r: Option<seq<Value>>)
    ensures r.Some? ==> (r.value != [] <==> Truthy(v))
    ensures v.VList? ==> r == Some(v.items)
  {
    match v
    case VList(items) => Some(items)
    case VTuple(items) => Some(items)
    case VMembers(ms) => Some(MemberValues(ms))
    case VTimelines(tls) => Some(TimelineValues(tls))
    case VStr(s) => Some(Chars(s))
    case VUuid(s) => Some(Chars(s))
    case _ => None
  }

  /** What iterating over content yields: a sequence's elements, or a
      dict's keys. */
  function Elements(v: Value): (r: Option<seq<Value>>)
    ensures Sequence(v).Some? ==> r == Sequence(v)
  {
    if v.VDict? then Some(DictKeys(v.entries)) else Sequence(v)
  }

  /** How Python names a sequence in an IndexError. */
  function SequenceKind(v: Value): string {
    match v
    case VTuple(_) => "tuple"
    case VStr(_) => "string"
    case VUuid(_) => "string"
    case _ => "list"
  }

  /** `v[0]`, or `v[-1]` with `last`: a sequence gives its first or last
      element and raises IndexError when empty; a dict looks the integer up
      as a key and raises KeyError without it; a match's `__getitem__` knows
      only its six JSON keys and raises KeyError; a member's `__getitem__`
      extracts, and extraction calls `startswith` on the integer; anything
      else is not subscriptable. */
  function Item(v: Value, last: bool): (r: Result<Value>)
    ensures Sequence(v).Some? ==> var items := Sequence(v).value;
              (r.Ok? <==> items != []) && (r.Ok? ==> r.value == if last then items[|items| - 1] else items[0])
    ensures v.VDict? ==> var found := Lookup(v.entries, VInt(if last then -1 else 0));
              (r.Ok? <==> found.Some?) && (r.Ok? ==> r.value == found.value) &&
              (r.Err? ==> r == Raise(KeyError, if last then "-1" else "0"))
    ensures r.Ok? ==> Elements(v).Some?
  {
    var key := if last then "-1" else "0";
    if v.VDict? then
      match Lookup(v.entries, VInt(if last then -1 else 0))
      case None => Raise(KeyError, key)
      case Some(x) => Ok(x)
    else if v.VMatch? then Raise(KeyError, "QueryMatch.__getitem__ requires support for key " + key)
    else if v.VMember? then Raise(AttributeError, "'int' object has no attribute 'startswith'")
    else
      match Sequence(v)
      case None => Raise(TypeError, "'" + TypeName(v) + "' object is not subscriptable")
      case Some(items) =>
        if items == [] then Raise(IndexError, SequenceKind(v) + " index out of range")
        else Ok(if last then items[|items| - 1] else items[0])
  }

  /** Python's message for a value without an `id`. */
  function NoId(typeName: string): string {
    "'" + typeName + "' object has no attribute 'id'"
  }

  /* ---------- Dataset contents ---------- */

  /** `type(l) in SUPPORTED_ITERABLES`: a list, dict, tuple or
      `TimelineList` (a `UUIDList` is not). The set also lists Python's
      `set`, which is not among the modelled values. */
  predicate HasIterable(l: Value) {
    l.VList? || l.VDict? || l.VTuple? || l.VTimelines?
  }

  /** `len(dataset)`: the element count of a supported iterable, else 1. */
  function DatasetLen(l: Value): (n: nat)
    ensures !HasIterable(l) ==> n == 1
    ensures l.VList? ==> n == |l.items|
    ensures l.VDict? ==> n == |l.entries|
  {
    match l
    case VList(items) => |items|
    case VTuple(items) => |items|
    case VDict(entries) => |entries|
    case VTimelines(tls) => |tls|
    case _ => 1
  }

  /** `example()`: the first element (the first value of a dict), None for
      an empty collection, and the content itself when it is not one. */
  function Example(l: Value): (r: Value)
    ensures !HasIterable(l) ==> r == l
    ensures HasIterable(l) && DatasetLen(l) == 0 ==> r == VNone
    ensures l.VList? && l.items != [] ==> r == l.items[0]
    ensures l.VDict? && l.entries != [] ==> r == l.entries[0].1
  {
    match l
    case VList(items) => if items == [] then VNone else items[0]
    case VTuple(items) => if items == [] then VNone else items[0]
    case VDict(entries) => if entries == [] then VNone else entries[0].1
    case VTimelines(tls) => if tls == [] then VNone else VTimeline(tls[0])
    case _ => l
  }

  /** The elements `summarize` walks: a dict's items as pairs, and any list
      (a `UUIDList` or `TimelineList` included). */
  function ListView(l: Value): Option<seq<Value>> {
    match l
    case VDict(entries) => Some(seq(|entries|, i requires 0 <= i < |entries| => VTuple([entries[i].0, entries[i].1])))
    case VList(items) => Some(items)
    case VMembers(ms) => Some(MemberValues(ms))
    case VTimelines(tls) => Some(TimelineValues(tls))
    case _ => None
  }

  /** The lines `"<n>. <formatted value>"`, numbered from `start + 1`. */
  function Numbered(vals: seq<Value>, fmt: Value -> Result<string>, start: nat): (r: Result<seq<string>>)
    ensures r.Ok? <==> forall i :: 0 <= i < |vals| ==> fmt(vals[i]).Ok?
    ensures r.Ok? ==> |r.value| == |vals|
    ensures r.Ok? ==> forall i :: 0 <= i < |vals| ==> r.value[i] == NatToString(start + i + 1) + ". " + fmt(vals[i]).value
    decreases |vals|
  {
    if vals == [] then Ok([])
    else
      var h :- fmt(vals[0]);
      var t :- Numbered(vals[1..], fmt, start + 1);
      assert forall i :: 1 <= i < |vals| ==> vals[i] == vals[1..][i - 1];
      Ok([NatToString(start + 1) + ". " + h] + t)
  }

  function AsSome(r: Result<string>): Result<Option<string>> {
    if r.Ok? then Ok(Some(r.value)) else Err(r.error)
  }

  const SUMMARY_LIMIT := 10

  /** `summarize()`, with `format_str` given as `fmt` (it consults the
      global uuid table, which is outside this model): a single element
      renders bare; otherwise the first ten elements are numbered and a
      trailer counts the rest; a string renders as itself; anything else
      gives None. */
  function Summarize(l: Value, fmt: Value -> Result<string>): (r: Result<Option<string>>)
    ensures ListView(l).None? ==> r == Ok(if l.VStr? then Some(l.s) else None)
    ensures ListView(l).Some? && |ListView(l).value| == 1 ==> r == AsSome(fmt(ListView(l).value[0]))
  {
    match ListView(l)
    case None => Ok(if l.VStr? then Some(l.s) else None)
    case Some(vals) =>
      if |vals| == 1 then AsSome(fmt(vals[0]))
      else
        var lines :- Numbered(Shown(vals), fmt, 0);
        Ok(Some(Join("\n", lines) + Trailer(|vals|)))
  }

  function Trailer(n: nat): string {
    if n > SUMMARY_LIMIT then "\n... (" + NatToString(n - SUMMARY_LIMIT) + " values trimmed)" else ""
  }

  /** `val[0:10]`. */
  function Shown(vals: seq<Value>): (r: seq<Value>)
    ensures |r| == if |vals| > SUMMARY_LIMIT then SUMMARY_LIMIT else |vals|
    ensures r == vals[..|r|]
  {
    if |vals| > SUMMARY_LIMIT then vals[..SUMMARY_LIMIT] else vals
  }

  /** A list of any length but one, whose elements all format, is rendered
      as one numbered line for each of its first (at most ten) elements,
      followed by the count of the others. */
  lemma {:induction false} SummarizeBounded(l: Value, fmt: Value -> Result<string>)
    requires ListView(l).Some? && |ListView(l).value| != 1
    requires forall v :: v in ListView(l).value ==> fmt(v).Ok?
    ensures Numbered(Shown(ListView(l).value), fmt, 0).Ok?
    ensures Summarize(l, fmt) == Ok(Some(Join("\n", Numbered(Shown(ListView(l).value), fmt, 0).value) + Trailer(|ListView(l).value|)))
  {
    var vals := ListView(l).value;
    forall i | 0 <= i < |Shown(vals)| ensures fmt(Shown(vals)[i]).Ok? {
      assert Shown(vals)[i] == vals[i] && vals[i] in vals;
    }
  }

  /** The matches in a list, as dataset elements. */
  function MatchValues(ms: seq<QueryMatch>): (r: seq<Value>)
    ensures |r| == |ms| && forall i :: 0 <= i < |ms| ==> r[i] == VMatch(ms[i])
  {
    seq(|ms|, i requires 0 <= i < |ms| => VMatch(ms[i]))
  }

  function NewerThan(last: int): QueryMatch -> bool {
    (m: QueryMatch) => m.id > last
  }

  /** Match ids strictly increase along the list. */
  predicate Ascending(ms: seq<QueryMatch>) {
    forall i, j :: 0 <= i < j < |ms| ==> ms[i].id < ms[j].id
  }

  lemma {:induction false} FilterAscending(ms: seq<QueryMatch>, p: QueryMatch -> bool)
    requires Ascending(ms)
    ensures Ascending(Filter(ms, p))
    ensures forall m :: m in Filter(ms, p) ==> m in ms
    decreases |ms|
  {
    if ms != [] {
      var t := Filter(ms[1..], p);
      FilterAscending(ms[1..], p);
      HeadBelowRest(ms, t);
      if p(ms[0]) {
        assert Filter(ms, p) == [ms[0]] + t;
        ConsAscending(ms[0], t);
      } else {
        assert Filter(ms, p) == t;
      }
    }
  }

  /** In an ascending list the head's id is below that of every element
      taken from the rest. */
  lemma {:induction false} HeadBelowRest(ms: seq<QueryMatch>, t: seq<QueryMatch>)
    requires ms != [] && Ascending(ms)
    requires forall m :: m in t ==> m in ms[1..]
    ensures forall m :: m in t ==> ms[0].id < m.id
  {
    forall m | m in t ensures ms[0].id < m.id {
      var j :| 0 <= j < |ms[1..]| && ms[1..][j] == m;
      assert ms[j + 1] == m;
    }
  }

  /** A match below every element of an ascending list extends it at the
      front. */
  lemma {:induction false} ConsAscending(x: QueryMatch, t: seq<QueryMatch>)
    requires Ascending(t)
    requires forall m :: m in t ==> x.id < m.id
    ensures Ascending([x] + t)
  {
    var r := [x] + t;
    forall i, j | 0 <= i < j < |r| ensures r[i].id < r[j].id {
      assert r[j] == t[j - 1] && t[j - 1] in t;
      if i > 0 {
        assert r[i] == t[i - 1];
      }
    }
  }

  /** `update` appends exactly the incoming matches newer than the current
      last one, in their order, after the untouched old list; when both
      lists are in id order the result is too, so no id appears twice. */
  lemma {:induction false} UpdateKeepsOrder(ms: seq<QueryMatch>, other: seq<QueryMatch>)
    requires ms != [] && Ascending(ms) && Ascending(other)
    ensures var added := Filter(other, NewerThan(ms[|ms| - 1].id));
      Ascending(ms + added) &&
      (forall i :: 0 <= i < |other| ==> (other[i] in added <==> other[i].id > ms[|ms| - 1].id))
  {
    var p := NewerThan(ms[|ms| - 1].id);
    var added := Filter(other, p);
    FilterAscending(other, p);
    forall i | 0 <= i < |other| && other[i].id > ms[|ms| - 1].id ensures other[i] in added {
      FilterKeepsElement(other, p, i);
    }
    var r := ms + added;
    forall i, j | 0 <= i < j < |r| ensures r[i].id < r[j].id {
      if j >= |ms| && i < |ms| {
        assert r[j] in added;
        if i < |ms| - 1 {
          assert ms[i].id < ms[|ms| - 1].id;
        }
      } else if j >= |ms| {
        assert r[i] == added[i - |ms|] && r[j] == added[j - |ms|];
      }
    }
  }

  /** A named query corpus entry: `l` is what the commands work on. */
  class Dataset {
    const name: string
    var l: Value

    constructor(name: string, l: Value)
      ensures this.name == name && this.l == l
    {
      this.name := name;
      this.l := l;
    }

    /** `clone(x)`: a new dataset with the same name holding `x`. */
    method Clone(x: Value) returns (d: Dataset)
      ensures fresh(d) && d.name == name && d.l == x
    {
      d := new Dataset(name, x);
    }

    /** `update(other)`: the newer matches of `other` are appended. Step by
        step: `l[-1]` (as `Item` reads it); its `id`, which only a match and a
        timeline have; `m.id > last_mid` for each incoming match, which raises
        TypeError against a timeline's string id unless `other` is empty; and
        `extend`, which only a list (member and timeline lists included) has. */
    method Update(other: seq<QueryMatch>) returns (o: Outcome)
      modifies this
      ensures var s := Sequence(old(l));
              o.Pass? <==> (old(l).VList? || old(l).VMembers? || old(l).VTimelines?) && s.value != [] &&
                           (s.value[|s.value| - 1].VMatch? || (s.value[|s.value| - 1].VTimeline? && other == []))
      ensures o.Pass? && old(l).VList? && old(l).items[|old(l).items| - 1].VMatch? ==>
              l == VList(old(l).items + MatchValues(Filter(other, NewerThan(old(l).items[|old(l).items| - 1].q.id))))
      ensures o.Pass? && !(old(l).VList? && old(l).items[|old(l).items| - 1].VMatch?) ==> l == old(l)
      ensures o.Fail? ==> l == old(l)
      ensures o.Fail? && Item(old(l), true).Err? ==> o.error == Item(old(l), true).error
      ensures o.Fail? && Item(old(l), true).Ok? ==>
              o.error.kind == if Item(old(l), true).value.VTimeline? && other != [] then TypeError else AttributeError
    {
      var last := Item(l, true);
      if last.Err? {
        return Fail(last.error);
      }
      var x := last.value;
      if !x.VMatch? && !x.VTimeline? {
        return Fail(Error(AttributeError, NoId(TypeName(x))));
      }
      if x.VTimeline? && other != [] {
        return Fail(Error(TypeError, "'>' not supported between instances of 'int' and 'str'"));
      }
      if !(l.VList? || l.VMembers? || l.VTimelines?) {
        return Fail(Error(AttributeError, "'" + TypeName(l) + "' object has no attribute 'extend'"));
      }
      if x.VMatch? {
        assert l.VList?;
        var newer := Filter(other, NewerThan(x.q.id));
        l := VList(l.items + MatchValues(newer));
      }
      return Pass;
    }

    /** `update_overwrite_dict(other)`: each pair of `other`, in order, is
        assigned into the content, which must then be a dict: the first
        assignment into other content raises TypeError, so with no pairs any
        content is left as it is. */
    method UpdateOverwriteDict(other: seq<(Value, Value)>) returns (o: Outcome)
      modifies this
      ensures o.Pass? <==> old(l).VDict? || other == []
      ensures o.Pass? ==> l == if other == [] then old(l) else VDict(SetAll(old(l).entries, other))
      ensures o.Fail? ==> l == old(l)
    {
      var i := 0;
      while i < |other|
        invariant 0 <= i <= |other|
        invariant i > 0 ==> old(l).VDict?
        invariant l == if i == 0 then old(l) else VDict(SetAll(old(l).entries, other[..i]))
      {
        if !l.VDict? {
          return Fail(Error(TypeError, "object does not support item assignment"));
        }
        Assigned(old(l).entries, other, i);
        l := VDict(SetKey(l.entries, other[i].0, other[i].1));
        i := i + 1;
      }
      assert i > 0 ==> other[..i] == other;
      return Pass;
    }
  }

  /** One more assignment extends the assigned prefix of `pairs`. */
  lemma {:induction false} Assigned(entries: seq<(Value, Value)>, pairs: seq<(Value, Value)>, i: nat)
    requires i < |pairs|
    ensures SetAll(entries, pairs[..i + 1]) ==
            SetKey(if i == 0 then entries else SetAll(entries, pairs[..i]), pairs[i].0, pairs[i].1)
  {
    assert pairs[..i + 1] == pairs[..i] + [pairs[i]];
    assert pairs[..0] == [];
    SetAllSnoc(entries, pairs[..i], pairs[i]);
  }

  /* ---------- Nickname and uuid tables ---------- */

  const DRAW_NAME := "Drawn Match"
  const DRAW_KEY := "drawn match"

  function UuidPairs(ms: seq<Member>): (r: seq<(Value, Value)>)
    ensures |r| == |ms| && forall i :: 0 <= i < |ms| ==> r[i] == (VUuid(ms[i].uuid), VStr(ms[i].user))
  {
    seq(|ms|, i requires 0 <= i < |ms| => (VUuid(ms[i].uuid), VStr(ms[i].user)))
  }

  function UserPairs(ms: seq<Member>): (r: seq<(Value, Value)>)
    ensures |r| == |ms| && forall i :: 0 <= i < |ms| ==> r[i] == (VStr(Lower(ms[i].user)), VUuid(ms[i].uuid))
  {
    seq(|ms|, i requires 0 <= i < |ms| => (VStr(Lower(ms[i].user)), VUuid(ms[i].uuid)))
  }

  /** Every member of every match, in match order then member order. */
  function AllMembers(l: seq<QueryMatch>): seq<Member>
    decreases |l|
  {
    if l == [] then [] else AllMembers(l[..|l| - 1]) + l[|l| - 1].members
  }

  /** The tables `GetUserMappings` builds: each uuid's nickname and each
      lowercased nickname's uuid, the latest assignment winning, plus the
      draw entries. */
  function UuidTable(l: seq<QueryMatch>): seq<(Value, Value)> {
    SetKey(SetAll([], UuidPairs(AllMembers(l))), VStr(DRAW), VStr(DRAW_NAME))
  }

  function UserTable(l: seq<QueryMatch>): seq<(Value, Value)> {
    SetKey(SetAll([], UserPairs(AllMembers(l))), VStr(DRAW_KEY), VStr(DRAW))
  }

  /** `GetUserMappings(l)`: both tables, filled member by member. */
  method GetUserMappings(l: seq<QueryMatch>) returns (uuids: seq<(Value, Value)>, users: seq<(Value, Value)>)
    ensures uuids == UuidTable(l) && users == UserTable(l)
  {
    uuids, users := [], [];
    var i := 0;
    while i < |l|
      invariant 0 <= i <= |l|
      invariant uuids == SetAll([], UuidPairs(AllMembers(l[..i])))
      invariant users == SetAll([], UserPairs(AllMembers(l[..i])))
    {
      uuids, users := AddMembers(uuids, users, AllMembers(l[..i]), l[i].members);
      assert l[..i + 1][..i] == l[..i] && l[..i + 1][i] == l[i];
      assert AllMembers(l[..i + 1]) == AllMembers(l[..i]) + l[i].members;
      i := i + 1;
    }
    assert l[..i] == l;
    uuids := SetKey(uuids, VStr(DRAW), VStr(DRAW_NAME));
    users := SetKey(users, VStr(DRAW_KEY), VStr(DRAW));
  }

  /** The inner loop of `GetUserMappings`: one match's members. */
  method AddMembers(uuids0: seq<(Value, Value)>, users0: seq<(Value, Value)>, done: seq<Member>, ms: seq<Member>)
    returns (uuids: seq<(Value, Value)>, users: seq<(Value, Value)>)
    requires uuids0 == SetAll([], UuidPairs(done)) && users0 == SetAll([], UserPairs(done))
    ensures uuids == SetAll([], UuidPairs(done + ms)) && users == SetAll([], UserPairs(done + ms))
  {
    uuids, users := uuids0, users0;
    var j := 0;
    ghost var seen := done;
    assert ms[..0] == [];
    while j < |ms|
      invariant 0 <= j <= |ms| && seen == done + ms[..j]
      invariant uuids == SetAll([], UuidPairs(seen))
      invariant users == SetAll([], UserPairs(seen))
    {
      var p := ms[j];
      assert ms[..j + 1] == ms[..j] + [p];
      TablesSnoc(seen, p);
      users := SetKey(users, VStr(Lower(p.user)), VUuid(p.uuid));
      uuids := SetKey(uuids, VUuid(p.uuid), VStr(p.user));
      seen := seen + [p];
      j := j + 1;
    }
    assert ms[..j] == ms;
  }

  lemma {:induction false} TablesSnoc(ms: seq<Member>, p: Member)
    ensures SetAll([], UuidPairs(ms + [p])) == SetKey(SetAll([], UuidPairs(ms)), VUuid(p.uuid), VStr(p.user))
    ensures SetAll([], UserPairs(ms + [p])) == SetKey(SetAll([], UserPairs(ms)), VStr(Lower(p.user)), VUuid(p.uuid))
  {
    assert UuidPairs(ms + [p]) == UuidPairs(ms) + [(VUuid(p.uuid), VStr(p.user))];
    assert UserPairs(ms + [p]) == UserPairs(ms) + [(VStr(Lower(p.user)), VUuid(p.uuid))];
    SetAllSnoc([], UuidPairs(ms), (VUuid(p.uuid), VStr(p.user)));
    SetAllSnoc([], UserPairs(ms), (VStr(Lower(p.user)), VUuid(p.uuid)));
  }

  /** The last member (in match order) with this uuid, if any. */
  function LastWithUuid(ms: seq<Member>, u: string): Option<Member>
    decreases |ms|
  {
    if ms == [] then None
    else if ms[|ms| - 1].uuid == u then Some(ms[|ms| - 1])
    else LastWithUuid(ms[..|ms| - 1], u)
  }

  /** A uuid maps to the nickname its latest appearance had; one that never
      appears is absent. The draw key maps to its display name. */
  lemma {:induction false} UuidTableLookup(l: seq<QueryMatch>, u: string)
    requires u != DRAW
    ensures LastWithUuid(AllMembers(l), u).None? ==> Lookup(UuidTable(l), VUuid(u)).None?
    ensures LastWithUuid(AllMembers(l), u).Some? ==>
              Lookup(UuidTable(l), VUuid(u)) == Some(VStr(LastWithUuid(AllMembers(l), u).value.user))
  {
    var ps := UuidPairs(AllMembers(l));
    assert !PyEq(VStr(DRAW), VUuid(u));
    SetKeyLookup(SetAll([], ps), VStr(DRAW), VStr(DRAW_NAME), VUuid(u));
    SetAllLookup([], ps, VUuid(u));
    LastForUuid(AllMembers(l), u);
  }

  lemma {:induction false} UuidTableDraw(l: seq<QueryMatch>)
    ensures Lookup(UuidTable(l), VStr(DRAW)) == Some(VStr(DRAW_NAME))
    ensures Lookup(UserTable(l), VStr(DRAW_KEY)) == Some(VStr(DRAW))
  {
    SetKeyLookup(SetAll([], UuidPairs(AllMembers(l))), VStr(DRAW), VStr(DRAW_NAME), VStr(DRAW));
    SetKeyLookup(SetAll([], UserPairs(AllMembers(l))), VStr(DRAW_KEY), VStr(DRAW), VStr(DRAW_KEY));
  }

  lemma {:induction false} LastForUuid(ms: seq<Member>, u: string)
    ensures var last := LastWithUuid(ms, u);
      LastFor(UuidPairs(ms), VUuid(u)) == if last.Some? then Some(VStr(last.value.user)) else None
    decreases |ms|
  {
    if ms != [] {
      var init := ms[..|ms| - 1];
      assert UuidPairs(ms)[..|ms| - 1] == UuidPairs(init);
      LastForUuid(init, u);
    }
  }
}
