/** The split-id commands of klunk/splits.py, over the timeline lists of
    matches. */
module Splits {
  import opened Wrappers
  import opened Strs
  import opened Seqs
  import opened Match

  /** `split_eq(id, query)`: the id itself, or the id without its
      category prefix (the text after its first `.`). */
  predicate SplitEq(id: string, query: string) {
    id == query || Partition(id, ".").2 == query
  }

  /** An id `category.name` matches both its full form and `name`. */
  lemma {:induction false} SplitEqOfQualified(cat: string, name: string)
    requires '.' !in cat
    ensures SplitEq(cat + "." + name, cat + "." + name)
    ensures SplitEq(cat + "." + name, name)
  {
    assert cat + "." + name == cat + ['.'] + name;
    PartitionAtFirst(cat, '.', name);
  }

  /** An id without a `.` matches only itself. */
  lemma {:induction false} SplitEqUnqualified(id: string, query: string)
    requires '.' !in id && query != ""
    ensures SplitEq(id, query) <==> id == query
  {
    PartitionMissing(id, '.');
  }

  predicate IdMatches(query: string, t: Timeline) {
    SplitEq(t.id, query)
  }

  /** `has_split(l, id)`: some timeline's id matches. */
  predicate HasSplit(l: seq<Timeline>, query: string)
    decreases |l|
  {
    l != [] && (IdMatches(query, l[0]) || HasSplit(l[1..], query))
  }

  lemma {:induction false} HasSplitIff(l: seq<Timeline>, query: string)
    ensures HasSplit(l, query) <==> exists i :: 0 <= i < |l| && IdMatches(query, l[i])
    decreases |l|
  {
    if l != [] {
      HasSplitIff(l[1..], query);
      if !IdMatches(query, l[0]) && exists i :: 0 <= i < |l| && IdMatches(query, l[i]) {
        var i :| 0 <= i < |l| && IdMatches(query, l[i]);
        assert l[1..][i - 1] == l[i];
      }
    }
  }

  /** `get_split(l, id)`: the first timeline whose id matches, or None. */
  function GetSplit(l: seq<Timeline>, query: string): (r: Option<Timeline>)
    ensures r.Some? ==> r.value in l && IdMatches(query, r.value)
    decreases |l|
  {
    if l == [] then None
    else if IdMatches(query, l[0]) then Some(l[0])
    else GetSplit(l[1..], query)
  }

  /** `get_split` finds nothing exactly when `has_split` is false, and what
      it finds is the first match in the list. */
  lemma {:induction false} GetSplitFirst(l: seq<Timeline>, query: string)
    ensures GetSplit(l, query).None? <==> !HasSplit(l, query)
    ensures GetSplit(l, query).Some? ==>
      exists i :: 0 <= i < |l| && GetSplit(l, query).value == l[i] && (forall j :: 0 <= j < i ==> !IdMatches(query, l[j]))
    decreases |l|
  {
    if l != [] && !IdMatches(query, l[0]) {
      GetSplitFirst(l[1..], query);
      if GetSplit(l, query).Some? {
        var i :| 0 <= i < |l[1..]| && GetSplit(l[1..], query).value == l[1..][i] &&
          forall j :: 0 <= j < i ==> !IdMatches(query, l[1..][j]);
        assert forall j :: 0 <= j < i + 1 ==> !IdMatches(query, l[j]) by {
          forall j | 0 <= j < i + 1 ensures !IdMatches(query, l[j]) {
            if j > 0 { assert l[j] == l[1..][j - 1]; }
          }
        }
        assert GetSplit(l, query).value == l[i + 1];
      }
    } else if l != [] {
      assert GetSplit(l, query).value == l[0];
    }
  }

  function HasSplitOf(query: string): seq<Timeline> -> bool {
    l => HasSplit(l, query)
  }

  /** `splits.has`: the timeline lists that contain the split. */
  function Has(ds: seq<seq<Timeline>>, query: string): (r: seq<seq<Timeline>>)
    ensures |r| <= |ds|
  {
    Filter(ds, HasSplitOf(query))
  }

  /** `splits.has` keeps, in order, exactly the lists that contain the split. */
  lemma {:induction false} HasExact(ds: seq<seq<Timeline>>, query: string, l: seq<Timeline>)
    ensures l in Has(ds, query) <==> l in ds && HasSplit(l, query)
    ensures IsSubseq(Has(ds, query), ds)
  {
    if l in ds && HasSplit(l, query) {
      var i :| 0 <= i < |ds| && ds[i] == l;
      FilterKeepsElement(ds, HasSplitOf(query), i);
    }
    FilterIsSubseq(ds, HasSplitOf(query));
  }

  /** `splits.get`: for each list, its first matching timeline or None. */
  function Get(ds: seq<seq<Timeline>>, query: string): (r: seq<Option<Timeline>>)
    ensures |r| == |ds|
    ensures forall i :: 0 <= i < |ds| ==> (r[i].None? <==> !HasSplit(ds[i], query))
    ensures forall i :: 0 <= i < |ds| ==> r[i].Some? ==> r[i].value in ds[i]
  {
    forall i | 0 <= i < |ds| ensures GetSplit(ds[i], query).None? <==> !HasSplit(ds[i], query) {
      GetSplitFirst(ds[i], query);
    }
    seq(|ds|, i requires 0 <= i < |ds| => GetSplit(ds[i], query))
  }

  /** `splits.dump_ids`: the ids of each list, in the same shape. */
  function DumpIds(ds: seq<seq<Timeline>>): (r: seq<seq<string>>)
    ensures |r| == |ds|
    ensures forall i :: 0 <= i < |ds| ==> |r[i]| == |ds[i]|
    ensures forall i, j :: 0 <= i < |ds| && 0 <= j < |ds[i]| ==> r[i][j] == ds[i][j].id
  {
    seq(|ds|, i requires 0 <= i < |ds| => seq(|ds[i]|, j requires 0 <= j < |ds[i]| => ds[i][j].id))
  }

  /** The `Split` registry: each command is registered under `splits.` and
      its own name. */
  const SPLIT_NAMES: seq<string> := ["has", "get", "dump_ids"]

  function Registry(): (r: set<string>)
    ensures forall n :: n in SPLIT_NAMES <==> "splits." + n in r
  {
    var r := set n | n in SPLIT_NAMES :: "splits." + n;
    forall n | "splits." + n in r ensures n in SPLIT_NAMES {
      var m :| m in SPLIT_NAMES && "splits." + m == "splits." + n;
      assert m == ("splits." + m)[7..] == ("splits." + n)[7..] == n;
    }
    r
  }
}
