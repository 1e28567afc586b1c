/** Head-to-head records (klunk/h2h.py): for each pair of players, how many
    of their ranked matches each one won and how many were drawn. */
module HeadToHead {
  import opened Wrappers
  import opened Strs
  import opened Seqs
  import opened Sorting
  import opened Match
  import opened Datasets

  /** The counters of one `H2H` record. */
  datatype Tally = Tally(m1: string, m2: string, w1: nat, w2: nat, draw: nat)

  function Total(t: Tally): nat {
    t.w1 + t.w2 + t.draw
  }

  function KeyMsg(m1: string, m2: string, k: string): string {
    m1 + ", " + m2 + ", " + k
  }

  /** `inc(k)`: a win for `m1`, else for `m2`, else (for None) a draw;
      any other key raises KeyError. */
  function TallyInc(t: Tally, k: Option<string>): (r: Result<Tally>)
    ensures r.Ok? <==> k == Some(t.m1) || k == Some(t.m2) || k.None?
    ensures r.Ok? ==> Total(r.value) == Total(t) + 1 && r.value.m1 == t.m1 && r.value.m2 == t.m2
    ensures r.Ok? && k == Some(t.m1) ==> r.value.w1 == t.w1 + 1 && r.value.w2 == t.w2 && r.value.draw == t.draw
    ensures r.Ok? && k != Some(t.m1) && k == Some(t.m2) ==> r.value.w1 == t.w1 && r.value.w2 == t.w2 + 1 && r.value.draw == t.draw
    ensures r.Ok? && k.None? ==> r.value.w1 == t.w1 && r.value.w2 == t.w2 && r.value.draw == t.draw + 1
    ensures r.Err? ==> r.error.kind == KeyError
  {
    if k == Some(t.m1) then Ok(t.(w1 := t.w1 + 1))
    else if k == Some(t.m2) then Ok(t.(w2 := t.w2 + 1))
    else if k.None? then Ok(t.(draw := t.draw + 1))
    else Raise(KeyError, KeyMsg(t.m1, t.m2, k.value))
  }

  /** `get(k)`: the wins of `m1` or of `m2`; any other key raises KeyError. */
  function TallyGet(t: Tally, k: string): (r: Result<nat>)
    ensures r.Ok? <==> k == t.m1 || k == t.m2
    ensures k == t.m1 ==> r == Ok(t.w1)
    ensures k != t.m1 && k == t.m2 ==> r == Ok(t.w2)
    ensures r.Err? ==> r.error.kind == KeyError
  {
    if k == t.m1 then Ok(t.w1)
    else if k == t.m2 then Ok(t.w2)
    else Raise(KeyError, KeyMsg(t.m1, t.m2, k))
  }

  /** One pair's record, updated in place. */
  class H2H {
    const m1: string
    const m2: string
    var w1: nat
    var w2: nat
    var draw: nat

    function Snapshot(): Tally
      reads this
    {
      Tally(m1, m2, w1, w2, draw)
    }

    constructor(m1: string, m2: string)
      ensures Snapshot() == Tally(m1, m2, 0, 0, 0)
    {
      this.m1, this.m2 := m1, m2;
      w1, w2, draw := 0, 0, 0;
    }

    method Inc(k: Option<string>) returns (o: Outcome)
      modifies this
      ensures TallyInc(old(Snapshot()), k).Ok? ==> o == Pass && Snapshot() == TallyInc(old(Snapshot()), k).value
      ensures TallyInc(old(Snapshot()), k).Err? ==> o == Fail(TallyInc(old(Snapshot()), k).error) && Snapshot() == old(Snapshot())
    {
      if k == Some(m1) {
        w1 := w1 + 1;
      } else if k == Some(m2) {
        w2 := w2 + 1;
      } else if k.None? {
        draw := draw + 1;
      } else {
        return Fail(Error(KeyError, KeyMsg(m1, m2, k.value)));
      }
      return Pass;
    }

    function Get(k: string): Result<nat>
      reads this
    {
      TallyGet(Snapshot(), k)
    }
  }

  /* ---------- generate ---------- */

  type Key = (string, string)

  /** `tuple(sorted([a, b]))`. */
  function SortedPair(a: string, b: string): (r: Key)
    ensures LexLe(r.0, r.1)
    ensures (r.0 == a && r.1 == b) || (r.0 == b && r.1 == a)
  {
    LexLeTotal(a, b);
    if LexLe(a, b) then (a, b) else (b, a)
  }

  /** Two pairs that sort to the same key hold the same two players. */
  lemma {:induction false} SortedPairSameSet(a: string, b: string, c: string, d: string)
    requires SortedPair(a, b) == SortedPair(c, d)
    ensures (a == c && b == d) || (a == d && b == c)
  {
  }

  predicate TwoMembers(m: QueryMatch) {
    |m.members| == 2
  }

  function PairKey(m: QueryMatch): Key
    requires TwoMembers(m)
  {
    SortedPair(m.members[0].uuid, m.members[1].uuid)
  }

  /** `h2hmatch`: a ranked, non-decay match between two of the players. */
  predicate Eligible(uuids: set<string>, m: QueryMatch) {
    !m.isDecay && m.matchType == 2 && TwoMembers(m) && m.members[0].uuid in uuids && m.members[1].uuid in uuids
  }

  function EligibleFor(uuids: set<string>): QueryMatch -> bool {
    m => Eligible(uuids, m)
  }

  function Matches(items: seq<Value>): seq<QueryMatch>
    requires forall i :: 0 <= i < |items| ==> items[i].VMatch?
    decreases |items|
  {
    if items == [] then [] else [items[0].q] + Matches(items[1..])
  }

  /** `[m for m in d.l if h2hmatch(m)]`: an element that is not a match has
      no `is_decay` (AttributeError), and a ranked non-decay match must have
      exactly two members (AssertionError), whatever its players. */
  function Screen(items: seq<Value>, uuids: set<string>): (r: Result<seq<QueryMatch>>)
    ensures r.Ok? ==> forall m :: m in r.value ==> Eligible(uuids, m)
    decreases |items|
  {
    if items == [] then Ok([])
    else if !items[0].VMatch? then Raise(AttributeError, "object has no attribute 'is_decay'")
    else
      var m := items[0].q;
      if !m.isDecay && m.matchType == 2 && !TwoMembers(m) then Raise(AssertionError, "len(m.members) == 2")
      else
        var rest :- Screen(items[1..], uuids);
        Ok((if Eligible(uuids, m) then [m] else []) + rest)
  }

  /** The screen succeeds exactly on lists of matches whose ranked
      non-decay matches all have two members, and then keeps, in order,
      exactly the eligible ones. */
  lemma {:induction false} ScreenSpec(items: seq<Value>, uuids: set<string>)
    ensures Screen(items, uuids).Ok? <==>
      forall i :: 0 <= i < |items| ==> items[i].VMatch? && (items[i].q.isDecay || items[i].q.matchType != 2 || TwoMembers(items[i].q))
    ensures Screen(items, uuids).Ok? ==> Screen(items, uuids).value == Filter(Matches(items), EligibleFor(uuids))
    decreases |items|
  {
    if items != [] {
      ScreenSpec(items[1..], uuids);
      assert forall i :: 1 <= i < |items| ==> items[i] == items[1..][i - 1];
    }
  }

  type Entries = seq<(Key, Tally)>

  function KeyIs(k: Key): ((Key, Tally)) -> bool {
    (e: (Key, Tally)) => e.0 == k
  }

  function KeyIndex(es: Entries, k: Key): Option<nat> {
    FirstIndex(es, KeyIs(k))
  }

  /** The key `inc` is called with: the winner, or with `fix`, None for a
      drawn match. */
  function WinnerKey(m: QueryMatch, fix: bool): Option<string> {
    if fix && m.winner == DRAW then None else Some(m.winner)
  }

  /** The entries with a fresh record appended when the pair is new. */
  function Opened(es: Entries, m: QueryMatch): Entries
    requires TwoMembers(m)
  {
    if KeyIndex(es, PairKey(m)).None? then es + [(PairKey(m), Tally(m.members[0].uuid, m.members[1].uuid, 0, 0, 0))] else es
  }

  /** Where the pair's record is in `Opened(es, m)`. */
  function Slot(es: Entries, m: QueryMatch): nat
    requires TwoMembers(m)
  {
    if KeyIndex(es, PairKey(m)).None? then |es| else KeyIndex(es, PairKey(m)).value
  }

  /** The entries after one match: a new pair gets a fresh record, then its
      record is incremented. */
  function Step(es: Entries, m: QueryMatch, fix: bool): (r: Result<Entries>)
    requires TwoMembers(m)
  {
    var es1 := Opened(es, m);
    var idx := Slot(es, m);
    var t :- TallyInc(es1[idx].1, WinnerKey(m, fix));
    Ok(es1[idx := (PairKey(m), t)])
  }

  /** The `res` dict after the tally loop, in insertion order. */
  function Tallies(nu: seq<QueryMatch>, fix: bool): Result<Entries>
    requires forall m :: m in nu ==> TwoMembers(m)
    decreases |nu|
  {
    if nu == [] then Ok([])
    else
      var es :- Tallies(nu[..|nu| - 1], fix);
      Step(es, nu[|nu| - 1], fix)
  }

  /** One output line: both players' wins and the draws. */
  function LineOf(e: (Key, Tally), nickmap: map<string, string>): (r: Result<string>)
    ensures (e.0.0 == e.1.m1 || e.0.0 == e.1.m2) && (e.0.1 == e.1.m1 || e.0.1 == e.1.m2) ==>
      (r.Ok? <==> e.0.0 in nickmap && e.0.1 in nickmap)
  {
    var (p1, p2) := e.0;
    var p1w :- TallyGet(e.1, p1);
    var p2w :- TallyGet(e.1, p2);
    if p1 !in nickmap then Raise(KeyError, p1)
    else if p2 !in nickmap then Raise(KeyError, p2)
    else Ok(nickmap[p1] + " vs " + nickmap[p2] + ": " + NatToString(p1w) + " - " + NatToString(e.1.draw) + " - " + NatToString(p2w))
  }

  function Lines(es: Entries, nickmap: map<string, string>): Result<seq<string>>
    decreases |es|
  {
    if es == [] then Ok([])
    else
      var init :- Lines(es[..|es| - 1], nickmap);
      var line :- LineOf(es[|es| - 1], nickmap);
      Ok(init + [line])
  }

  /** What `for m in d.l` walks. */
  function Iterated(l: Value): Result<seq<Value>> {
    match l
    case VList(items) => Ok(items)
    case VTuple(items) => Ok(items)
    case VDict(entries) => Ok(seq(|entries|, i requires 0 <= i < |entries| => entries[i].0))
    case VTimelines(tls) => Ok(TimelineValues(tls))
    case VMembers(ms) => Ok(MemberValues(ms))
    case VMatch(_) => Raise(KeyError, "QueryMatch.__getitem__ requires support for key 0")
    case _ => Raise(TypeError, "object is not iterable")
  }

  /** `generate(d, pl, nickmap)` (with `fix`, the corrected version that
      records a drawn match as a draw). */
  function GenerateSpec(l: Value, pl: seq<string>, nickmap: map<string, string>, fix: bool): (r: Result<seq<string>>)
    ensures Example(l).VNone? ==> r.Err? && r.error.kind == RuntimeError
    ensures !Example(l).VMatch? ==> r.Err? && r.error.kind == RuntimeError
  {
    var e := Example(l);
    if e.VNone? then Raise(RuntimeError, "Dataset was empty?")
    else if !e.VMatch? then Raise(RuntimeError, "h2h must be given a list of matches")
    else
      var items :- Iterated(l);
      var nu :- Screen(items, set x | x in pl);
      var es :- Tallies(nu, fix);
      Lines(es, nickmap)
  }

  /** `generate`: the tally loop over fresh `H2H` records, then the output
      loop. */
  method Generate(d: Dataset, pl: seq<string>, nickmap: map<string, string>) returns (r: Result<seq<string>>)
    ensures r == GenerateSpec(d.l, pl, nickmap, false)
  {
    var uuids := set x | x in pl;
    var e := Example(d.l);
    if e.VNone? {
      return Raise(RuntimeError, "Dataset was empty?");
    }
    if !e.VMatch? {
      return Raise(RuntimeError, "h2h must be given a list of matches");
    }
    var items :- Iterated(d.l);
    var nu :- Screen(items, uuids);
    var keys, objs, ok := TallyLoop(nu);
    if ok.Fail? {
      return Err(ok.error);
    }
    r := OutputLoop(keys, objs, nickmap, Tallies(nu, false).value);
  }

  /** The `for m in nu` loop. */
  method TallyLoop(nu: seq<QueryMatch>) returns (keys: seq<Key>, objs: seq<H2H>, ok: Outcome)
    requires forall m :: m in nu ==> TwoMembers(m)
    ensures Tallies(nu, false).Err? <==> ok.Fail?
    ensures ok.Fail? ==> ok.error == Tallies(nu, false).error
    ensures ok.Pass? ==> Matching(keys, objs, Tallies(nu, false).value)
  {
    keys, objs, ok := [], [], Pass;
    var i := 0;
    while i < |nu| && ok.Pass?
      invariant 0 <= i <= |nu|
      invariant forall a :: 0 <= a < |objs| ==> fresh(objs[a])
      invariant ok.Pass? ==> Tallies(nu[..i], false).Ok? && Matching(keys, objs, Tallies(nu[..i], false).value)
      invariant ok.Fail? ==> Tallies(nu, false) == Err(ok.error)
    {
      TalliesSnoc(nu, i, false);
      keys, objs, ok := TallyStep(keys, objs, nu[i], Tallies(nu[..i], false).value);
      if ok.Fail? {
        TalliesErrExtends(nu, i + 1, false);
      }
      i := i + 1;
    }
    if ok.Pass? {
      assert nu[..i] == nu;
    }
  }

  /** The tally of one more match is one more step. */
  lemma {:induction false} TalliesSnoc(nu: seq<QueryMatch>, i: nat, fix: bool)
    requires i < |nu| && forall m :: m in nu ==> TwoMembers(m)
    ensures nu[i] in nu
    ensures Tallies(nu[..i], fix).Ok? ==> Tallies(nu[..i + 1], fix) == Step(Tallies(nu[..i], fix).value, nu[i], fix)
  {
    assert nu[..i + 1][..i] == nu[..i];
  }

  /** One round of the loop: find or create the pair's record, then `inc`. */
  method TallyStep(keys0: seq<Key>, objs0: seq<H2H>, m: QueryMatch, ghost es: Entries)
    returns (keys: seq<Key>, objs: seq<H2H>, o: Outcome)
    requires TwoMembers(m) && Matching(keys0, objs0, es)
    modifies set a | 0 <= a < |objs0| :: objs0[a]
    ensures Step(es, m, false).Err? <==> o.Fail?
    ensures o.Fail? ==> o.error == Step(es, m, false).error
    ensures o.Pass? ==> Matching(keys, objs, Step(es, m, false).value)
    ensures forall a :: 0 <= a < |objs| ==> objs[a] in objs0 || fresh(objs[a])
  {
    keys, objs := keys0, objs0;
    OpenedSlot(es, m);
    var k := PairKey(m);
    FirstIndexAgree(keys, es, (x: Key) => x == k, KeyIs(k));
    var idx := FirstIndex(keys, (x: Key) => x == k);
    ghost var es1 := es;
    if idx.None? {
      var h := new H2H(m.members[0].uuid, m.members[1].uuid);
      keys, objs := keys + [k], objs + [h];
      es1 := es + [(k, Tally(m.members[0].uuid, m.members[1].uuid, 0, 0, 0))];
      idx := Some(|objs| - 1);
    }
    assert Matching(keys, objs, es1);
    o := objs[idx.value].Inc(WinnerKey(m, false));
  }

  /** The keys and records hold, position by position, the entries. */
  predicate Matching(keys: seq<Key>, objs: seq<H2H>, es: Entries)
    reads set a | 0 <= a < |objs| :: objs[a]
  {
    |keys| == |objs| == |es| &&
    (forall a, b :: 0 <= a < b < |objs| ==> objs[a] != objs[b]) &&
    (forall a :: 0 <= a < |objs| ==> (keys[a], objs[a].Snapshot()) == es[a])
  }

  /** The output loop over `res.items()`. */
  method OutputLoop(keys: seq<Key>, objs: seq<H2H>, nickmap: map<string, string>, ghost es: Entries) returns (r: Result<seq<string>>)
    requires Matching(keys, objs, es)
    ensures r == Lines(es, nickmap)
  {
    var lines := [];
    var a := 0;
    while a < |objs|
      invariant 0 <= a <= |objs|
      invariant Lines(es[..a], nickmap) == Ok(lines)
    {
      assert es[..a + 1][..a] == es[..a] && es[..a + 1][a] == es[a];
      var line := LineOf((keys[a], objs[a].Snapshot()), nickmap);
      if line.Err? {
        LinesErrExtends(es, a + 1, nickmap);
        return Err(line.error);
      }
      lines := lines + [line.value];
      a := a + 1;
    }
    assert es[..a] == es;
    r := Ok(lines);
  }

  lemma {:induction false} TalliesErrExtends(nu: seq<QueryMatch>, j: nat, fix: bool)
    requires j <= |nu| && forall m :: m in nu ==> TwoMembers(m)
    requires Tallies(nu[..j], fix).Err?
    ensures Tallies(nu, fix) == Tallies(nu[..j], fix)
    decreases |nu| - j
  {
    if j < |nu| {
      assert nu[..j + 1][..j] == nu[..j];
      TalliesErrExtends(nu, j + 1, fix);
    } else {
      assert nu[..j] == nu;
    }
  }

  lemma {:induction false} LinesErrExtends(es: Entries, j: nat, nickmap: map<string, string>)
    requires j <= |es| && Lines(es[..j], nickmap).Err?
    ensures Lines(es, nickmap) == Lines(es[..j], nickmap)
    decreases |es| - j
  {
    if j < |es| {
      assert es[..j + 1][..j] == es[..j];
      LinesErrExtends(es, j + 1, nickmap);
    } else {
      assert es[..j] == es;
    }
  }

  /* ---------- Properties of the tallies ---------- */

  /** Every record belongs to its key's pair of players, and no key occurs
      twice: one output line per unordered pair. */
  predicate WellFormed(es: Entries) {
    (forall a :: 0 <= a < |es| ==> SortedPair(es[a].1.m1, es[a].1.m2) == es[a].0) &&
    (forall a, b :: 0 <= a < b < |es| ==> es[a].0 != es[b].0)
  }

  /** The matches recorded under a key so far. */
  function TotalFor(es: Entries, k: Key): nat {
    match KeyIndex(es, k)
    case None => 0
    case Some(i) => Total(es[i].1)
  }

  predicate HasKey(k: Key, m: QueryMatch) {
    TwoMembers(m) && PairKey(m) == k
  }

  function HasKeyOf(k: Key): QueryMatch -> bool {
    m => HasKey(k, m)
  }

  /** `inc` can only succeed on a winner that is one of the two players
      (or on None). */
  predicate WinnerAccepted(m: QueryMatch, fix: bool)
    requires TwoMembers(m)
  {
    WinnerKey(m, fix).None? || WinnerKey(m, fix).value == m.members[0].uuid || WinnerKey(m, fix).value == m.members[1].uuid
  }

  lemma {:induction false} OpenedSlot(es: Entries, m: QueryMatch)
    requires TwoMembers(m)
    ensures Slot(es, m) < |Opened(es, m)| && KeyIndex(Opened(es, m), PairKey(m)) == Some(Slot(es, m))
  {
    FirstIndexSnoc(es, (PairKey(m), Tally(m.members[0].uuid, m.members[1].uuid, 0, 0, 0)), KeyIs(PairKey(m)));
  }

  /** Opening the pair's record keeps the entries well formed, leaves every
      total as it was, and the record belongs to the match's two players. */
  lemma {:induction false} OpenedSpec(es: Entries, m: QueryMatch)
    requires WellFormed(es) && TwoMembers(m)
    ensures Slot(es, m) < |Opened(es, m)| && KeyIndex(Opened(es, m), PairKey(m)) == Some(Slot(es, m))
    ensures WellFormed(Opened(es, m)) && Opened(es, m)[Slot(es, m)].0 == PairKey(m)
    ensures var t := Opened(es, m)[Slot(es, m)].1;
      (t.m1 == m.members[0].uuid && t.m2 == m.members[1].uuid) || (t.m1 == m.members[1].uuid && t.m2 == m.members[0].uuid)
    ensures forall k :: TotalFor(Opened(es, m), k) == TotalFor(es, k)
  {
    var k := PairKey(m);
    var entry := (k, Tally(m.members[0].uuid, m.members[1].uuid, 0, 0, 0));
    OpenedSlot(es, m);
    var t := Opened(es, m)[Slot(es, m)].1;
    SortedPairSameSet(t.m1, t.m2, m.members[0].uuid, m.members[1].uuid);
    if KeyIndex(es, k).None? {
      forall a | 0 <= a < |es| ensures es[a].0 != k {
        assert !KeyIs(k)(es[a]);
      }
      forall k2 ensures TotalFor(Opened(es, m), k2) == TotalFor(es, k2) {
        FirstIndexSnoc(es, entry, KeyIs(k2));
      }
    }
  }

  /** Replacing the record at a key's slot changes that key's total only. */
  lemma {:induction false} UpdateAt(es: Entries, idx: nat, t: Tally)
    requires WellFormed(es) && idx < |es| && SortedPair(t.m1, t.m2) == es[idx].0
    ensures WellFormed(es[idx := (es[idx].0, t)])
    ensures forall k :: TotalFor(es[idx := (es[idx].0, t)], k) == if k == es[idx].0 then Total(t) else TotalFor(es, k)
  {
    var r := es[idx := (es[idx].0, t)];
    forall k ensures TotalFor(r, k) == if k == es[idx].0 then Total(t) else TotalFor(es, k) {
      FirstIndexAgree(r, es, KeyIs(k), KeyIs(k));
      if k == es[idx].0 {
        assert KeyIs(k)(es[idx]);
        var j := KeyIndex(es, k).value;
        assert j == idx;
      }
    }
  }

  /** One step keeps the entries well formed, succeeds exactly when the
      winner is accepted, and adds one to its own pair's total only. */
  lemma {:induction false} StepSpec(es: Entries, m: QueryMatch, fix: bool)
    requires WellFormed(es) && TwoMembers(m)
    ensures Step(es, m, fix).Ok? <==> WinnerAccepted(m, fix)
    ensures Step(es, m, fix).Ok? ==> WellFormed(Step(es, m, fix).value)
    ensures Step(es, m, fix).Ok? ==> forall k :: TotalFor(Step(es, m, fix).value, k) == TotalFor(es, k) + (if k == PairKey(m) then 1 else 0)
  {
    OpenedSpec(es, m);
    var es1, idx := Opened(es, m), Slot(es, m);
    var inc := TallyInc(es1[idx].1, WinnerKey(m, fix));
    if inc.Ok? {
      UpdateAt(es1, idx, inc.value);
      assert Step(es, m, fix).value == es1[idx := (es1[idx].0, inc.value)];
    }
  }

  /** With `fix`, every list of two-player matches whose winners are draws
      or one of the players is tallied without error, and each pair's total
      is the number of its matches. */
  lemma {:induction false} TalliesCount(nu: seq<QueryMatch>)
    requires forall m :: m in nu ==> TwoMembers(m) && (m.winner == DRAW || m.winner == m.members[0].uuid || m.winner == m.members[1].uuid)
    ensures Tallies(nu, true).Ok? && WellFormed(Tallies(nu, true).value)
    ensures forall k :: TotalFor(Tallies(nu, true).value, k) == |Filter(nu, HasKeyOf(k))|
    decreases |nu|
  {
    if nu != [] {
      var init, m := nu[..|nu| - 1], nu[|nu| - 1];
      assert nu == init + [m];
      assert m in nu;
      TalliesCount(init);
      StepSpec(Tallies(init, true).value, m, true);
      forall k ensures TotalFor(Tallies(nu, true).value, k) == |Filter(nu, HasKeyOf(k))| {
        FilterSnoc(init, m, HasKeyOf(k));
      }
    }
  }

  /** As written, a successful tally means every tallied match was won by
      one of its players: `inc` is never given None, because a drawn
      match's winner is the `__draw` marker, not None. */
  lemma {:induction false} TalliesOnlyWins(nu: seq<QueryMatch>)
    requires forall m :: m in nu ==> TwoMembers(m)
    requires Tallies(nu, false).Ok?
    ensures WellFormed(Tallies(nu, false).value)
    ensures forall m :: m in nu ==> m.winner == m.members[0].uuid || m.winner == m.members[1].uuid
    decreases |nu|
  {
    if nu != [] {
      var init, m := nu[..|nu| - 1], nu[|nu| - 1];
      assert nu == init + [m];
      assert m in nu;
      TalliesOnlyWins(init);
      StepSpec(Tallies(init, false).value, m, false);
    }
  }

  /** So, as written, any drawn match between two real players makes the
      tally raise KeyError. */
  lemma {:induction false} DrawnMatchRaises(nu: seq<QueryMatch>, i: nat)
    requires forall m :: m in nu ==> TwoMembers(m)
    requires i < |nu| && TwoMembers(nu[i])
    requires nu[i].winner == DRAW && nu[i].members[0].uuid != DRAW && nu[i].members[1].uuid != DRAW
    ensures Tallies(nu, false).Err?
  {
    if Tallies(nu, false).Ok? {
      TalliesOnlyWins(nu);
    }
  }

  const PLAYER_A := Member("a", "A", 0, 0, 0, None, None, None)
  const PLAYER_B := Member("b", "B", 0, 0, 0, None, None, None)
  /** A ranked match between `a` and `b` that ended in a draw. */
  const DRAWN_MATCH := QueryMatch(1, None, 2, DRAW, [PLAYER_A, PLAYER_B], 600000, false, 2, 0, false, [],
                                  false, false, false, false)

  const PAIR_AB: Key := ("a", "b")
  const DRAWN_TALLY := [(PAIR_AB, Tally("a", "b", 0, 0, 1))]
  const NICKS := map["a" := "A", "b" := "B"]

  lemma {:induction false} DrawnMatchScreened()
    ensures Screen([VMatch(DRAWN_MATCH)], set x | x in ["a", "b"]) == Ok([DRAWN_MATCH])
  {
    var uuids := set x | x in ["a", "b"];
    assert "a" in uuids && "b" in uuids;
    var items := [VMatch(DRAWN_MATCH)];
    assert items[1..] == [];
    assert Eligible(uuids, DRAWN_MATCH);
    assert [DRAWN_MATCH] + [] == [DRAWN_MATCH];
  }

  lemma {:induction false} DrawnMatchTallied()
    ensures Tallies([DRAWN_MATCH], true) == Ok(DRAWN_TALLY)
  {
    var nu := [DRAWN_MATCH];
    assert nu[..0] == [];
    assert LexLe("a", "b");
    assert PairKey(DRAWN_MATCH) == PAIR_AB;
    assert KeyIndex([], PAIR_AB).None?;
    var es1 := [(PAIR_AB, Tally("a", "b", 0, 0, 0))];
    assert Opened([], DRAWN_MATCH) == es1;
    assert Slot([], DRAWN_MATCH) == 0;
    assert WinnerKey(DRAWN_MATCH, true) == None;
    assert es1[0 := (PAIR_AB, Tally("a", "b", 0, 0, 1))] == DRAWN_TALLY;
  }

  lemma {:induction false} DrawnMatchLine()
    ensures Lines(DRAWN_TALLY, NICKS) == Ok(["A vs B: 0 - 1 - 0"])
  {
    var es := DRAWN_TALLY;
    assert es[..0] == [];
    assert NatToString(0) == "0" && NatToString(1) == "1";
    assert TallyGet(es[0].1, "a") == Ok(0) && TallyGet(es[0].1, "b") == Ok(0);
    assert "A" + " vs " + "B" + ": " + "0" + " - " + "1" + " - " + "0" == "A vs B: 0 - 1 - 0";
    assert LineOf(es[0], NICKS) == Ok("A vs B: 0 - 1 - 0");
    assert [] + ["A vs B: 0 - 1 - 0"] == ["A vs B: 0 - 1 - 0"];
  }

  /** The head-to-head of one drawn match: as written it raises, corrected
      it reports the draw. */
  lemma {:induction false} DrawnMatchCounterexample()
    ensures GenerateSpec(VList([VMatch(DRAWN_MATCH)]), ["a", "b"], NICKS, false).Err?
    ensures GenerateSpec(VList([VMatch(DRAWN_MATCH)]), ["a", "b"], NICKS, true) == Ok(["A vs B: 0 - 1 - 0"])
  {
    DrawnMatchScreened();
    DrawnMatchRaises([DRAWN_MATCH], 0);
    DrawnMatchTallied();
    DrawnMatchLine();
  }
}
