/** The dynamic queries of klunk/dyn.py: the longest streak of consecutive
    real ranked matches played on one seed type, per player and over all
    ranked play, and the report that closes the query.

    `PlayerRanking` is a class whose `Inc` is proved against the function
    `Incremented`; a whole history of increments is `RankedFrom`, and its
    value is proved to be the length of the longest run of one seed type.
    The module-level table of rankings is the class `Streaks`. */
module Dyn {
  import opened Wrappers
  import opened Seqs
  import opened Sorting
  import opened Match

  /** `current`: the length of the ongoing run and its seed type (None
      before the first increment). */
  datatype Run = Run(count: nat, seed: Option<string>)

  /** `longest`: the best run so far, its seed type and the id of the match
      that first reached it. */
  datatype Best = Best(count: nat, seed: Option<string>, last: Option<int>)

  datatype Ranking = Ranking(longest: Best, current: Run)

  /** `PlayerRanking()`: no run yet. */
  const FRESH := Ranking(Best(0, None, None), Run(0, None))

  function Max(a: nat, b: nat): nat {
    if a < b then b else a
  }

  /** `inc(st, mid)`: the same seed type extends the current run, another
      one starts a run of one; the best run is replaced only when the
      current run is strictly longer. */
  function Incremented(r: Ranking, st: string, mid: int): (q: Ranking)
    ensures q.current.seed == Some(st) && q.current.count >= 1
    ensures r.current.seed == Some(st) ==> q.current.count == r.current.count + 1
    ensures q.longest.count == Max(r.longest.count, q.current.count)
    ensures q.longest == r.longest || (r.longest.count < q.current.count &&
                                       q.longest == Best(q.current.count, Some(st), Some(mid)))
  {
    var cur := if r.current.seed != Some(st) then Run(1, Some(st)) else Run(r.current.count + 1, r.current.seed);
    Ranking(if cur.count > r.longest.count then Best(cur.count, cur.seed, Some(mid)) else r.longest, cur)
  }

  /** A ranking never reports a best run shorter than the ongoing one. */
  predicate Valid(r: Ranking) {
    r.current.count <= r.longest.count
  }

  lemma {:induction false} IncrementedValid(r: Ranking, st: string, mid: int)
    ensures Valid(Incremented(r, st, mid))
  {
  }

  // ---------------------------------------------------------------------
  // A history of increments

  /** The arguments of one `inc`: a seed type and a match id. */
  datatype Pick = Pick(seed: string, mid: int)

  /** The ranking after the increments `h`, one by one, from `r`. */
  function RankedFrom(r: Ranking, h: seq<Pick>): (q: Ranking)
    ensures h == [] ==> q == r
    ensures h != [] ==> Valid(q)
    decreases |h|
  {
    if h == [] then r
    else
      var p := h[|h| - 1];
      Incremented(RankedFrom(r, h[..|h| - 1]), p.seed, p.mid)
  }

  /** Increments in two parts: the second part starts from the first's
      ranking. */
  lemma {:induction false} RankedFromAppend(r: Ranking, h1: seq<Pick>, h2: seq<Pick>)
    ensures RankedFrom(r, h1 + h2) == RankedFrom(RankedFrom(r, h1), h2)
    decreases |h2|
  {
    if h2 == [] {
      assert h1 + h2 == h1;
    } else {
      var h := h1 + h2;
      assert h[..|h| - 1] == h1 + h2[..|h2| - 1];
      RankedFromAppend(r, h1, h2[..|h2| - 1]);
    }
  }

  /** The length of the run of equal seed types that ends `h`. */
  function Trailing(h: seq<Pick>): (n: nat)
    ensures n <= |h| && (h != [] ==> 1 <= n)
    decreases |h|
  {
    if h == [] then 0
    else if |h| >= 2 && h[|h| - 2].seed == h[|h| - 1].seed then Trailing(h[..|h| - 1]) + 1
    else 1
  }

  /** The longest of the runs that end some prefix of `h`. */
  function Longest(h: seq<Pick>): (n: nat)
    ensures n <= |h| && Trailing(h) <= n
    decreases |h|
  {
    if h == [] then 0 else Max(Longest(h[..|h| - 1]), Trailing(h))
  }

  /** `h[i..j]` is a run: every pick in it has the same seed type. */
  predicate Uniform(h: seq<Pick>, i: int, j: int) {
    0 <= i <= j <= |h| && forall k :: i <= k < j ==> h[k].seed == h[i].seed
  }

  /** From a fresh ranking, the ongoing run is the run that ends the
      history and the best run is the longest one. */
  lemma {:induction false} RankedCounts(h: seq<Pick>)
    ensures var r := RankedFrom(FRESH, h);
      r.current.count == Trailing(h) && r.longest.count == Longest(h) &&
      r.current.seed == (if h == [] then None else Some(h[|h| - 1].seed))
    decreases |h|
  {
    if h != [] {
      var init := h[..|h| - 1];
      RankedCounts(init);
      if |h| >= 2 {
        assert init[|init| - 1] == h[|h| - 2];
      }
    }
  }

  /** The ending run is a run, and it cannot be extended to the left. */
  lemma {:induction false} TrailingIsRun(h: seq<Pick>)
    requires h != []
    ensures Uniform(h, |h| - Trailing(h), |h|)
    ensures Trailing(h) < |h| ==> h[|h| - Trailing(h) - 1].seed != h[|h| - 1].seed
    decreases |h|
  {
    var init := h[..|h| - 1];
    if |h| >= 2 && h[|h| - 2].seed == h[|h| - 1].seed {
      TrailingIsRun(init);
      assert init[|init| - 1] == h[|h| - 2];
    }
  }

  /** Every run that ends `h` is at most as long as the ending run. */
  lemma {:induction false} RunWithinTrailing(h: seq<Pick>, i: int)
    requires Uniform(h, i, |h|)
    ensures |h| - i <= Trailing(h)
    decreases |h|
  {
    if i < |h| - 1 {
      var init := h[..|h| - 1];
      assert Uniform(init, i, |init|);
      RunWithinTrailing(init, i);
      assert init[|init| - 1] == h[|h| - 2];
    }
  }

  /** A prefix's longest run is no longer than the whole history's. */
  lemma {:induction false} LongestOfPrefix(h: seq<Pick>, j: nat)
    requires j <= |h|
    ensures Longest(h[..j]) <= Longest(h)
    decreases |h|
  {
    if j < |h| {
      var init := h[..|h| - 1];
      assert init[..j] == h[..j];
      LongestOfPrefix(init, j);
    } else {
      assert h[..j] == h;
    }
  }

  /** No run of `h` is longer than `Longest(h)`. */
  lemma {:induction false} RunsBounded(h: seq<Pick>, i: int, j: int)
    requires Uniform(h, i, j)
    ensures j - i <= Longest(h)
  {
    var pre := h[..j];
    assert Uniform(pre, i, |pre|);
    RunWithinTrailing(pre, i);
    LongestOfPrefix(h, j);
  }

  /** `h[i..i + n]` is a run. */
  predicate RunFrom(h: seq<Pick>, i: int, n: nat) {
    Uniform(h, i, i + n)
  }

  /** Some run of `h` is exactly `Longest(h)` long. */
  lemma {:induction false} LongestIsRun(h: seq<Pick>)
    ensures exists i :: RunFrom(h, i, Longest(h))
    decreases |h|
  {
    if h == [] {
      assert Longest(h) == 0 && RunFrom(h, 0, Longest(h));
    } else {
      var init := h[..|h| - 1];
      if Longest(h) == Trailing(h) {
        TrailingIsRun(h);
        assert RunFrom(h, |h| - Trailing(h), Longest(h));
      } else {
        LongestIsRun(init);
        var i :| RunFrom(init, i, Longest(init));
        assert forall k :: i <= k < i + Longest(h) ==> h[k] == init[k];
        assert RunFrom(h, i, Longest(h));
      }
    }
  }

  /** The length of the run that ends at index `k` of `h`. */
  function EndRun(h: seq<Pick>, k: nat): nat
    requires k < |h|
  {
    Trailing(h[..k + 1])
  }

  /** The first index at which a run of length `Longest(h)` ends. */
  function FirstLongest(h: seq<Pick>): (k: nat)
    requires h != []
    ensures k < |h|
    decreases |h|
  {
    var init := h[..|h| - 1];
    if init == [] || Longest(init) < Trailing(h) then |h| - 1 else FirstLongest(init)
  }

  /** Runs ending inside a prefix are the prefix's own runs. */
  lemma {:induction false} EndRunOfPrefix(h: seq<Pick>, k: nat)
    requires k < |h| - 1
    ensures EndRun(h, k) == EndRun(h[..|h| - 1], k)
  {
    assert h[..k + 1] == h[..|h| - 1][..k + 1];
  }

  /** The best run of a fresh ranking is the first run to reach the
      longest length: its seed type and the id of its last match. A later
      run of the same length does not replace it. */
  lemma {:induction false} RankedBest(h: seq<Pick>)
    requires h != []
    ensures var k := FirstLongest(h);
      EndRun(h, k) == Longest(h) &&
      RankedFrom(FRESH, h).longest == Best(Longest(h), Some(h[k].seed), Some(h[k].mid)) &&
      forall k' :: 0 <= k' < k ==> EndRun(h, k') < Longest(h)
    decreases |h|
  {
    var n := |h|;
    var init := h[..n - 1];
    RankedCounts(h);
    RankedCounts(init);
    assert h[..n] == h;
    if init == [] || Longest(init) < Trailing(h) {
      forall k' | 0 <= k' < n - 1 ensures EndRun(h, k') < Longest(h) {
        EndRunOfPrefix(h, k');
        LongestOfPrefix(init, k' + 1);
      }
    } else {
      RankedBest(init);
      var k := FirstLongest(init);
      EndRunOfPrefix(h, k);
      forall k' | 0 <= k' < k ensures EndRun(h, k') < Longest(h) {
        EndRunOfPrefix(h, k');
      }
    }
  }

  /** `PlayerRanking`: `inc` reassigns the two tuples. */
  class PlayerRanking {
    var longest: Best
    var current: Run

    function State(): Ranking
      reads this
    {
      Ranking(longest, current)
    }

    constructor ()
      ensures State() == FRESH
    {
      longest := Best(0, None, None);
      current := Run(0, None);
    }

    method Inc(st: string, mid: int)
      modifies this
      ensures State() == Incremented(old(State()), st, mid)
    {
      if current.seed != Some(st) {
        current := Run(1, Some(st));
      } else {
        current := Run(current.count + 1, current.seed);
      }
      if current.count > longest.count {
        longest := Best(current.count, current.seed, Some(mid));
      }
    }

    /** `value()`: the length of the best run. */
    method Value() returns (v: nat)
      ensures v == State().longest.count
    {
      v := longest.count;
    }
  }

  // ---------------------------------------------------------------------
  // The seed-type streaks query

  /** The key of the ranking over all ranked play. */
  const GLOBAL := "__global"

  /** The module's `__sts` dict (rankings by uuid, in insertion order) and
      the `stsnum` counter. */
  datatype Table = Table(rankings: map<string, Ranking>, order: seq<string>, num: nat)

  const START := Table(map[GLOBAL := FRESH], [GLOBAL], 0)

  /** The order lists every key once. */
  ghost predicate TableOk(t: Table) {
    Distinct(t.order) && forall u :: u in t.order <==> u in t.rankings
  }

  /** A match the query counts: real ranked, with a seed type. */
  predicate Streaky(m: QueryMatch) {
    IsRealRanked(m) && m.seedType.Some?
  }

  /** The keys one counted match increments, in order: its members, then
      `__global`. */
  function Targets(m: QueryMatch): seq<string> {
    Uuids(m.members) + [GLOBAL]
  }

  /** One `inc` of the ranking of `u`, created when missing. */
  function Bumped(t: Table, u: string, p: Pick): (r: Table)
    ensures r.num == t.num
  {
    var prior := if u in t.rankings then t.rankings[u] else FRESH;
    Table(t.rankings[u := Incremented(prior, p.seed, p.mid)], if u in t.rankings then t.order else t.order + [u], t.num)
  }

  /** The increments of the keys `us`, in order. */
  function BumpedAll(t: Table, us: seq<string>, p: Pick): (r: Table)
    ensures r.num == t.num
    decreases |us|
  {
    if us == [] then t else Bumped(BumpedAll(t, us[..|us| - 1], p), us[|us| - 1], p)
  }

  /** The table after `seedtype_streaks(m)`: `stsnum` and the members'
      rankings are updated first; `__global` is incremented only when it
      is there, since the function indexes it without creating it. */
  function Streaked(t: Table, m: QueryMatch): (r: Table)
    ensures r.num == t.num + (if Streaky(m) then 1 else 0)
  {
    if !Streaky(m) then t
    else
      var b := BumpedAll(t.(num := t.num + 1), Uuids(m.members), Pick(m.seedType.value, m.id));
      if GLOBAL in b.rankings then Bumped(b, GLOBAL, Pick(m.seedType.value, m.id)) else b
  }

  /** The outcome of `seedtype_streaks(m)`: KeyError when a counted match
      finds `__global` missing (popped by the report, and not the uuid of
      one of its members). */
  function StreakFault(t: Table, m: QueryMatch): (r: Outcome)
    ensures r.Fail? <==> Streaky(m) && GLOBAL !in t.rankings && GLOBAL !in Uuids(m.members)
    ensures r.Fail? ==> r.error == Error(KeyError, GLOBAL)
  {
    if !Streaky(m) then Pass
    else
      var p := Pick(m.seedType.value, m.id);
      BumpedAllAt(t.(num := t.num + 1), Uuids(m.members), p, GLOBAL);
      if GLOBAL in BumpedAll(t.(num := t.num + 1), Uuids(m.members), p).rankings then Pass
      else Fail(Error(KeyError, GLOBAL))
  }

  /** A counted match that passes gets one `inc` for every member and
      then one for `__global`; one that fails has only the members' and
      leaves `__global` missing. */
  lemma {:induction false} StreakedTargets(t: Table, m: QueryMatch)
    requires Streaky(m)
    ensures var p := Pick(m.seedType.value, m.id);
      var r := Streaked(t, m);
      (StreakFault(t, m).Pass? ==> r == BumpedAll(t.(num := t.num + 1), Targets(m), p)) &&
      (StreakFault(t, m).Fail? ==> r == BumpedAll(t.(num := t.num + 1), Uuids(m.members), p) && GLOBAL !in r.rankings)
  {
    assert Targets(m)[..|Targets(m)| - 1] == Uuids(m.members);
  }

  /** Once the report has popped `__global`, the next counted match whose
      members are not called `__global` raises KeyError, after `stsnum`
      and the members' rankings have already been updated. */
  lemma {:induction false} StreaksAfterFinish(t: Table, m: QueryMatch)
    requires TableOk(t) && Streaky(m)
    requires forall i :: 0 <= i < |m.members| ==> m.members[i].uuid != GLOBAL
    ensures StreakFault(Popped(t), m) == Fail(Error(KeyError, GLOBAL))
    ensures Streaked(Popped(t), m) == BumpedAll(Popped(t).(num := t.num + 1), Uuids(m.members), Pick(m.seedType.value, m.id))
  {
    assert GLOBAL !in Uuids(m.members);
    StreakedTargets(Popped(t), m);
  }

  /** The query run over the matches `ms`, in order. */
  function StreakedAll(t: Table, ms: seq<QueryMatch>): Table
    decreases |ms|
  {
    if ms == [] then t else Streaked(StreakedAll(t, ms[..|ms| - 1]), ms[|ms| - 1])
  }

  lemma {:induction false} BumpedOk(t: Table, u: string, p: Pick)
    requires TableOk(t)
    ensures TableOk(Bumped(t, u, p))
  {
    var r := Bumped(t, u, p);
    if u !in t.rankings {
      assert u !in t.order;
      forall i, j | 0 <= i < j < |r.order| ensures r.order[i] != r.order[j] {
        if j == |t.order| {
          assert r.order[i] == t.order[i];
          assert t.order[i] in t.order;
        } else {
          assert r.order[i] == t.order[i] && r.order[j] == t.order[j];
        }
      }
    }
  }

  /** The picks `key` receives from the keys `us`: one for every time it
      occurs among them. */
  function Hits(key: string, us: seq<string>, p: Pick): (h: seq<Pick>)
    ensures h == [] <==> key !in us
    decreases |us|
  {
    if us == [] then []
    else
      var init := us[..|us| - 1];
      assert us == init + [us[|us| - 1]];
      Hits(key, init, p) + (if us[|us| - 1] == key then [p] else [])
  }

  /** After the increments of `us`, the ranking of `key` exists when it did
      before or when `key` is among `us`, and it is the old ranking (or a
      fresh one) incremented once per occurrence. */
  lemma {:induction false} BumpedAllAt(t: Table, us: seq<string>, p: Pick, key: string)
    ensures var r := BumpedAll(t, us, p);
      (key in r.rankings <==> key in t.rankings || key in us) &&
      (key in r.rankings ==>
        r.rankings[key] == RankedFrom(if key in t.rankings then t.rankings[key] else FRESH, Hits(key, us, p)))
    decreases |us|
  {
    if us != [] {
      var init, last := us[..|us| - 1], us[|us| - 1];
      assert us == init + [last];
      assert key in us <==> key in init || key == last;
      BumpedAllAt(t, init, p, key);
      var prior := if key in t.rankings then t.rankings[key] else FRESH;
      var h0 := Hits(key, init, p);
      var b := BumpedAll(t, init, p);
      if last == key {
        var h := Hits(key, us, p);
        assert h[..|h| - 1] == h0;
        assert RankedFrom(prior, h) == Incremented(RankedFrom(prior, h0), p.seed, p.mid);
        assert RankedFrom(prior, h0) == (if key in b.rankings then b.rankings[key] else FRESH);
      } else {
        assert Hits(key, us, p) == h0;
      }
    }
  }

  lemma {:induction false} BumpedAllOk(t: Table, us: seq<string>, p: Pick)
    requires TableOk(t)
    ensures TableOk(BumpedAll(t, us, p))
    decreases |us|
  {
    if us != [] {
      BumpedAllOk(t, us[..|us| - 1], p);
      BumpedOk(BumpedAll(t, us[..|us| - 1], p), us[|us| - 1], p);
    }
  }

  /** The picks of key `u` over the matches `ms`: for every counted match,
      one pick of its seed type and id per occurrence of `u` among its
      keys. */
  function Picks(u: string, ms: seq<QueryMatch>): seq<Pick>
    decreases |ms|
  {
    if ms == [] then []
    else
      var m := ms[|ms| - 1];
      Picks(u, ms[..|ms| - 1]) + (if Streaky(m) then Hits(u, Targets(m), Pick(m.seedType.value, m.id)) else [])
  }

  /** After the query has seen `ms`: `stsnum` counts the real ranked
      matches with a seed type, and the table keeps its shape. */
  lemma {:induction false} StreakedAllOk(ms: seq<QueryMatch>)
    ensures var t := StreakedAll(START, ms);
      t.num == |Filter(ms, Streaky)| && TableOk(t) && GLOBAL in t.rankings
    decreases |ms|
  {
    if ms == [] {
      assert Filter(ms, Streaky) == [];
    } else {
      var init, m := ms[..|ms| - 1], ms[|ms| - 1];
      assert ms == init + [m];
      StreakedAllOk(init);
      FilterSnoc(init, m, Streaky);
      var t0 := StreakedAll(START, init);
      if Streaky(m) {
        StreakedTargets(t0, m);
        BumpedAllOk(t0.(num := t0.num + 1), Targets(m), Pick(m.seedType.value, m.id));
        BumpedAllAt(t0.(num := t0.num + 1), Targets(m), Pick(m.seedType.value, m.id), GLOBAL);
      }
    }
  }

  /** After the query has seen `ms`, the ranking of every key is a fresh
      ranking incremented by exactly that key's picks, so its value is the
      longest run of one seed type among them (`RankedCounts`,
      `RunsBounded`, `LongestIsRun`). Only `__global` exists from the
      start. */
  lemma {:induction false} StreakedAllAt(ms: seq<QueryMatch>, u: string)
    ensures var t := StreakedAll(START, ms);
      (u in t.rankings <==> u == GLOBAL || Picks(u, ms) != []) &&
      (u in t.rankings ==> t.rankings[u] == RankedFrom(FRESH, Picks(u, ms)))
    decreases |ms|
  {
    if ms != [] {
      var init, m := ms[..|ms| - 1], ms[|ms| - 1];
      StreakedAllAt(init, u);
      StreakedAllAt(init, GLOBAL);
      StreakStep(StreakedAll(START, init), m, u, Picks(u, init));
    }
  }

  /** The inductive step of `StreakedAllAt`: one more match. */
  lemma {:induction false} StreakStep(t: Table, m: QueryMatch, u: string, h: seq<Pick>)
    requires GLOBAL in t.rankings
    requires u in t.rankings <==> u == GLOBAL || h != []
    requires u in t.rankings ==> t.rankings[u] == RankedFrom(FRESH, h)
    ensures var r := Streaked(t, m);
      var h' := h + (if Streaky(m) then Hits(u, Targets(m), Pick(m.seedType.value, m.id)) else []);
      (u in r.rankings <==> u == GLOBAL || h' != []) &&
      (u in r.rankings ==> r.rankings[u] == RankedFrom(FRESH, h'))
  {
    if Streaky(m) {
      var p := Pick(m.seedType.value, m.id);
      StreakedTargets(t, m);
      BumpedAllAt(t.(num := t.num + 1), Targets(m), p, u);
      if u in t.rankings {
        RankedFromAppend(FRESH, h, Hits(u, Targets(m), p));
      } else {
        assert h + Hits(u, Targets(m), p) == Hits(u, Targets(m), p);
      }
    } else {
      assert h + [] == h;
    }
  }

  /** A match none of whose members is called `__global` gives that key
      one pick. */
  lemma {:induction false} GlobalOnce(m: QueryMatch, p: Pick)
    requires forall i :: 0 <= i < |m.members| ==> m.members[i].uuid != GLOBAL
    ensures Hits(GLOBAL, Targets(m), p) == [p]
  {
    var us := Uuids(m.members);
    assert Targets(m)[..|Targets(m)| - 1] == us;
    assert GLOBAL !in us;
  }

  // ---------------------------------------------------------------------
  // The finishing report

  /** The `(uuid, ranking)` items of the dict, in its order. */
  function Entries(rk: map<string, Ranking>, order: seq<string>): (e: seq<(string, Ranking)>)
    requires forall u :: u in order ==> u in rk
    ensures |e| == |order| && forall i :: 0 <= i < |order| ==> e[i] == (order[i], rk[order[i]])
    decreases |order|
  {
    if order == [] then [] else Entries(rk, order[..|order| - 1]) + [(order[|order| - 1], rk[order[|order| - 1]])]
  }

  function ByValue(): ((string, Ranking)) -> SortKey {
    (e: (string, Ranking)) => Num(e.1.longest.count)
  }

  function NotGlobal(): string -> bool {
    (u: string) => u != GLOBAL
  }

  /** The table once `__global` is popped. */
  function Popped(t: Table): Table {
    Table(t.rankings - {GLOBAL}, Filter(t.order, NotGlobal()), t.num)
  }

  lemma {:induction false} PoppedOk(t: Table)
    requires TableOk(t)
    ensures TableOk(Popped(t))
    ensures forall u :: u in Popped(t).order ==> u in Popped(t).rankings
  {
    var r := Popped(t);
    forall u ensures u in r.order <==> u in r.rankings {
      FilterMembers(t.order, NotGlobal(), u);
    }
    FilterDistinct(t.order, NotGlobal());
  }

  /** The report: the best run of `__global`, and the players' items with
      the five best values. Its strings are not modelled. */
  datatype Report = Report(global: Best, others: seq<(string, Ranking)>)

  /** The players' items, by value descending; ties keep the dict order. */
  function Ranks(t: Table): seq<(string, Ranking)>
    requires TableOk(t)
  {
    PoppedOk(t);
    var rest := Popped(t);
    Sort(Entries(rest.rankings, rest.order), ByValue(), true)
  }

  /** `seedtype_streaks_finish()`: pops `__global` (KeyError when it was
      popped before) and keeps the first five of the ranked items. */
  function Finished(t: Table): (r: Result<Report>)
    requires TableOk(t)
    ensures r.Err? <==> GLOBAL !in t.rankings
    ensures r.Err? ==> r.error.kind == KeyError
    ensures r.Ok? ==> r.value.global == t.rankings[GLOBAL].longest
  {
    if GLOBAL !in t.rankings then Raise(KeyError, GLOBAL)
    else Ok(Report(t.rankings[GLOBAL].longest, TopFive(t)))
  }

  /** `cm[0:5]`. */
  function TopFive(t: Table): seq<(string, Ranking)>
    requires TableOk(t)
  {
    var cm := Ranks(t);
    cm[..if |cm| < 5 then |cm| else 5]
  }

  /** The report lists at most five players, by value descending, each with
      its own ranking; `__global` is not among them; and every player left
      out has a value no greater than any listed one. */
  lemma {:induction false} FinishedTop(t: Table)
    requires TableOk(t) && GLOBAL in t.rankings
    ensures var top := Finished(t).value.others;
      |top| == (if |t.rankings| - 1 < 5 then |t.rankings| - 1 else 5) &&
      SortedBy(top, ByValue(), true) &&
      (forall i :: 0 <= i < |top| ==> top[i].0 != GLOBAL && top[i].0 in t.rankings && top[i].1 == t.rankings[top[i].0]) &&
      (forall u :: u in t.rankings && u != GLOBAL && (forall i :: 0 <= i < |top| ==> top[i].0 != u) ==>
        forall i :: 0 <= i < |top| ==> t.rankings[u].longest.count <= top[i].1.longest.count)
  {
    var top := TopFive(t);
    TopFiveShape(t);
    forall i | 0 <= i < |top| ensures top[i].0 != GLOBAL && top[i].0 in t.rankings && top[i].1 == t.rankings[top[i].0] {
      TopFiveEntry(t, i);
    }
    forall u | u in t.rankings && u != GLOBAL && (forall i :: 0 <= i < |top| ==> top[i].0 != u)
      ensures forall i :: 0 <= i < |top| ==> t.rankings[u].longest.count <= top[i].1.longest.count
    {
      TopFiveBest(t, u);
    }
  }

  lemma {:induction false} TopFiveShape(t: Table)
    requires TableOk(t) && GLOBAL in t.rankings
    ensures var top := TopFive(t);
      |top| == (if |t.rankings| - 1 < 5 then |t.rankings| - 1 else 5) && SortedBy(top, ByValue(), true)
  {
    PoppedOk(t);
    var rest := Popped(t);
    SortIsSorted(Entries(rest.rankings, rest.order), ByValue(), true);
    DistinctCount(rest.order, rest.rankings);
    assert rest.rankings.Keys == t.rankings.Keys - {GLOBAL};
  }

  lemma {:induction false} TopFiveEntry(t: Table, i: nat)
    requires TableOk(t) && i < |TopFive(t)|
    ensures var e := TopFive(t)[i]; e.0 != GLOBAL && e.0 in t.rankings && e.1 == t.rankings[e.0]
  {
    PoppedOk(t);
    var rest := Popped(t);
    var es := Entries(rest.rankings, rest.order);
    var cm := Ranks(t);
    assert TopFive(t)[i] == cm[i];
    assert cm[i] in multiset(es);
    var k :| 0 <= k < |es| && es[k] == cm[i];
  }

  lemma {:induction false} TopFiveBest(t: Table, u: string)
    requires TableOk(t) && u in t.rankings && u != GLOBAL
    requires forall i :: 0 <= i < |TopFive(t)| ==> TopFive(t)[i].0 != u
    ensures forall i :: 0 <= i < |TopFive(t)| ==> t.rankings[u].longest.count <= TopFive(t)[i].1.longest.count
  {
    var cm := Ranks(t);
    var top := TopFive(t);
    RanksHave(t, u);
    RanksSorted(t);
    var j :| 0 <= j < |cm| && cm[j] == (u, t.rankings[u]);
    TopFivePrefix(t);
    assert j >= |top|;
    forall i | 0 <= i < |top| ensures t.rankings[u].longest.count <= top[i].1.longest.count {
      SortedAt(cm, i, j);
    }
  }

  lemma {:induction false} TopFivePrefix(t: Table)
    requires TableOk(t)
    ensures |TopFive(t)| <= |Ranks(t)| && forall k :: 0 <= k < |TopFive(t)| ==> TopFive(t)[k] == Ranks(t)[k]
  {
  }

  /** In a sequence sorted by value descending, an earlier item has at
      least the value of a later one. */
  lemma {:induction false} SortedAt(cm: seq<(string, Ranking)>, i: nat, j: nat)
    requires SortedBy(cm, ByValue(), true) && i < j < |cm|
    ensures cm[j].1.longest.count <= cm[i].1.longest.count
  {
    assert Before(ByValue()(cm[i]), ByValue()(cm[j]), true);
  }

  lemma {:induction false} RanksSorted(t: Table)
    requires TableOk(t)
    ensures SortedBy(Ranks(t), ByValue(), true)
  {
    PoppedOk(t);
    var rest := Popped(t);
    SortIsSorted(Entries(rest.rankings, rest.order), ByValue(), true);
  }

  /** Every player other than `__global` is ranked. */
  lemma {:induction false} RanksHave(t: Table, u: string)
    requires TableOk(t) && u in t.rankings && u != GLOBAL
    ensures (u, t.rankings[u]) in Ranks(t)
  {
    PoppedOk(t);
    var rest := Popped(t);
    var es := Entries(rest.rankings, rest.order);
    FilterMembers(t.order, NotGlobal(), u);
    var k :| 0 <= k < |rest.order| && rest.order[k] == u;
    assert es[k] in multiset(Ranks(t));
  }

  /** A duplicate-free order that lists exactly the keys of a map is as
      long as the map. */
  lemma {:induction false} DistinctCount(order: seq<string>, rk: map<string, Ranking>)
    requires Distinct(order) && forall u :: u in order <==> u in rk
    ensures |order| == |rk|
  {
    DistinctCard(order);
    assert rk.Keys == set u | u in order;
  }

  /** The module-level state of the streaks query: `__sts` and `stsnum`. */
  class Streaks {
    var sts: map<string, Ranking>
    var order: seq<string>
    var stsnum: nat

    function State(): Table
      reads this
    {
      Table(sts, order, stsnum)
    }

    constructor ()
      ensures State() == START
    {
      sts := map[GLOBAL := FRESH];
      order := [GLOBAL];
      stsnum := 0;
    }

    /** `seedtype_streaks(m)`: nothing for a match that is not real ranked
        or has no seed type; otherwise one more match counted and one `inc`
        for every member, then for `__global`, which raises KeyError when
        the report has popped it. */
    method SeedtypeStreaks(m: QueryMatch) returns (o: Outcome)
      requires TableOk(State())
      modifies this`sts, this`order, this`stsnum
      ensures o == StreakFault(old(State()), m)
      ensures State() == Streaked(old(State()), m) && TableOk(State())
    {
      if !IsRealRanked(m) || m.seedType.None? {
        return Pass;
      }
      stsnum := stsnum + 1;
      var p := Pick(m.seedType.value, m.id);
      IncMembers(m, p);
      if GLOBAL !in sts {
        return Fail(Error(KeyError, GLOBAL));
      }
      BumpedOk(State(), GLOBAL, p);
      IncOf(GLOBAL, p);
      o := Pass;
    }

    /** The members loop: one `inc` per member, in order. */
    method IncMembers(m: QueryMatch, p: Pick)
      requires TableOk(State())
      modifies this`sts, this`order
      ensures State() == BumpedAll(old(State()), Uuids(m.members), p) && TableOk(State())
    {
      ghost var t1 := State();
      var us := Uuids(m.members);
      var i := 0;
      while i < |m.members|
        invariant i <= |m.members|
        invariant State() == BumpedAll(t1, us[..i], p) && TableOk(State())
      {
        assert us[..i + 1][..i] == us[..i];
        BumpedOk(State(), m.members[i].uuid, p);
        IncOf(m.members[i].uuid, p);
        i := i + 1;
      }
      assert us[..i] == us;
    }

    /** The body of the members loop: the ranking of `u`, created when
        missing, is incremented. */
    method IncOf(u: string, p: Pick)
      modifies this`sts, this`order
      ensures State() == Bumped(old(State()), u, p)
    {
      if u !in sts {
        sts := sts[u := FRESH];
        order := order + [u];
      }
      sts := sts[u := Incremented(sts[u], p.seed, p.mid)];
    }

    /** `seedtype_streaks_finish()`. */
    method Finish() returns (r: Result<Report>)
      requires TableOk(State())
      modifies this`sts, this`order
      ensures r == Finished(old(State()))
      ensures r.Ok? ==> State() == Popped(old(State()))
      ensures r.Err? ==> State() == old(State())
    {
      if GLOBAL !in sts {
        return Raise(KeyError, GLOBAL);
      }
      var glob := sts[GLOBAL];
      var top := TopFive(State());
      sts := sts - {GLOBAL};
      order := Filter(order, NotGlobal());
      r := Ok(Report(glob.longest, top));
    }
  }
}
