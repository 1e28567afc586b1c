/** The match predicates and predicate combinators of klunk/filters.py. */
module Filters {
  import opened Wrappers
  import opened Seqs
  import opened Sorting
  import opened Match

  /** `fSEASON(m, season)`: no season accepts every match. */
  predicate FSeason(m: QueryMatch, season: Option<int>) {
    season.None? || m.season == season.value
  }

  /** `ufSEASON(season)`: the season predicate as a closure. */
  function UfSeason(season: Option<int>): QueryMatch -> bool {
    m => FSeason(m, season)
  }

  /** The closure accepts every match when no season is given, and
      otherwise exactly the matches of that season. */
  lemma {:induction false} UfSeasonAgrees(season: Option<int>, m: QueryMatch)
    ensures UfSeason(season)(m) == FSeason(m, season)
    ensures season.None? ==> UfSeason(season)(m)
    ensures season.Some? ==> (UfSeason(season)(m) <==> m.season == season.value)
  {
  }

  /** `fRANKED(m)`: ranked matches have type 2. */
  predicate FRanked(m: QueryMatch) {
    m.matchType == 2
  }

  /** `fNONE(m)`. */
  predicate FNone<T>(m: T) {
    true
  }

  /** All predicates of `ps` hold of `x` (Python's `all` over the list of
      their results). */
  predicate AllHold<T>(ps: seq<T -> bool>, x: T)
    decreases |ps|
  {
    ps == [] || (ps[0](x) && AllHold(ps[1..], x))
  }

  /** `ufALLOF(*ps)`: the conjunction of the predicates as a closure. */
  function UfAllOf<T>(ps: seq<T -> bool>): T -> bool {
    x => AllHold(ps, x)
  }

  /** The conjunction holds exactly when every predicate holds, so in
      particular it holds for no predicates at all. */
  lemma {:induction false} UfAllOfIff<T>(ps: seq<T -> bool>, x: T)
    ensures UfAllOf(ps)(x) <==> forall i :: 0 <= i < |ps| ==> ps[i](x)
    ensures ps == [] ==> UfAllOf(ps)(x)
    decreases |ps|
  {
    if ps != [] {
      UfAllOfIff(ps[1..], x);
      assert forall i :: 1 <= i < |ps| ==> ps[i] == ps[1..][i - 1];
    }
  }

  /** `filtered(u, *ps)`: the elements of `u` that satisfy every predicate. */
  function Filtered<T>(u: seq<T>, ps: seq<T -> bool>): (r: seq<T>)
    ensures |r| <= |u|
  {
    Filter(u, UfAllOf(ps))
  }

  /** `filtered` keeps, in their order, exactly the elements of `u` that
      satisfy every predicate. */
  lemma {:induction false} FilteredExact<T>(u: seq<T>, ps: seq<T -> bool>, x: T)
    ensures x in Filtered(u, ps) <==> x in u && forall i :: 0 <= i < |ps| ==> ps[i](x)
    ensures IsSubseq(Filtered(u, ps), u)
  {
    UfAllOfIff(ps, x);
    if x in u && UfAllOf(ps)(x) {
      var i :| 0 <= i < |u| && u[i] == x;
      FilterKeepsElement(u, UfAllOf(ps), i);
    }
    FilterIsSubseq(u, UfAllOf(ps));
  }

  /** Filtering with no predicates keeps everything. */
  lemma {:induction false} FilteredNoPredicates<T>(u: seq<T>)
    ensures Filtered(u, []) == u
  {
    forall k | 0 <= k < |u| ensures UfAllOf([])(u[k]) {
      UfAllOfIff([], u[k]);
    }
    FilterKeepsAll(u, UfAllOf([]));
  }

  function UuidKey(m: Member): SortKey {
    Text(m.uuid)
  }

  /** `uuid_sort(l)`: the members ordered by uuid; uuids are strings, so
      the comparison never fails. */
  function UuidSort(l: seq<Member>): (r: seq<Member>)
    ensures multiset(r) == multiset(l) && |r| == |l|
  {
    Sort(l, UuidKey, false)
  }

  /** The result is ordered by uuid, members with the same uuid keep their
      order, and a list already in uuid order is returned unchanged. */
  lemma {:induction false} UuidSortSpec(l: seq<Member>, same: Member -> bool, u: string)
    requires forall m :: same(m) == (m.uuid == u)
    ensures SortedBy(UuidSort(l), UuidKey, false)
    ensures Filter(UuidSort(l), same) == Filter(l, same)
    ensures SortedBy(l, UuidKey, false) ==> UuidSort(l) == l
  {
    SortIsSorted(l, UuidKey, false);
    SortIsStable(l, UuidKey, false, same, Text(u));
    if SortedBy(l, UuidKey, false) {
      SortOfSorted(l, UuidKey, false);
    }
  }
}
