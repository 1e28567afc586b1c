/** The per-player statistics of klunk/players.py. A `Player` accumulates
    per-type counters over the matches a `PlayerManager` feeds it, one
    (match, member) pair at a time.

    The value layer (`Stats`, `Recorded`, `Replay`, `Build`) says what the
    counters hold; the classes `Player` and `PlayerManager` update fields in
    place and are proved to agree with it. */
module Players {
  import opened Wrappers
  import opened Strs
  import opened Seqs
  import opened Match

  /** The match types a per-type counter starts with: 1 to 4. */
  predicate IsType(t: int) {
    1 <= t <= 4
  }

  /** A per-type counter: a dict from match type to a count or a time, or,
      once `commit_ranked` has run, the ranked figure alone. */
  datatype Counter = PerType(m: map<int, int>) | Flat(n: int)

  /** `match_int_dict()`: every type at zero. */
  const ZEROS: Counter := PerType(map[1 := 0, 2 := 0, 3 := 0, 4 := 0])

  predicate HasTypes(c: Counter) {
    c.PerType? && 1 in c.m && 2 in c.m && 3 in c.m && 4 in c.m
  }

  /** `indexed(d, i)`: the entry for type `i` of a dict (KeyError when it
      has none), the counter itself once it is a plain number. */
  function Indexed(c: Counter, i: int): (r: Result<int>)
    ensures c.Flat? ==> r == Ok(c.n)
    ensures c.PerType? ==> (r.Ok? <==> i in c.m)
    ensures c.PerType? && r.Ok? ==> r.value == c.m[i]
    ensures r.Err? ==> r.error.kind == KeyError
  {
    match c
    case Flat(n) => Ok(n)
    case PerType(m) => if i in m then Ok(m[i]) else Raise(KeyError, IntToString(i))
  }

  function At(m: map<int, int>, t: int): int {
    if t in m then m[t] else 0
  }

  /** `summed(d)`: the sum of a dict's values (its types are 1 to 4), or
      the plain number. */
  function Summed(c: Counter): int {
    match c
    case Flat(n) => n
    case PerType(m) => At(m, 1) + At(m, 2) + At(m, 3) + At(m, 4)
  }

  /** `d[t] += delta` on a dict counter that has type `t`. The source
      raises on any other counter; the manager never gets that far (see
      `MemberError`), and the model then leaves the counter alone. */
  function Bump(c: Counter, t: int, delta: int): (r: Counter)
    ensures r.PerType? <==> c.PerType?
    ensures r.PerType? ==> r.m.Keys == c.m.Keys
  {
    if c.PerType? && t in c.m then PerType(c.m[t := c.m[t] + delta]) else c
  }

  /** Adding to one type of a dict counter adds the same to its sum, and
      leaves what `indexed` reads at every other type alone. */
  lemma {:induction false} SummedBump(c: Counter, t: int, delta: int)
    requires HasTypes(c) && IsType(t)
    ensures Summed(Bump(c, t, delta)) == Summed(c) + delta
    ensures Indexed(Bump(c, t, delta), t) == Ok(c.m[t] + delta)
    ensures forall i :: i != t ==> Indexed(Bump(c, t, delta), i) == Indexed(c, i)
  {
  }

  /** A fresh counter sums to zero and reads zero at exactly the four
      types. */
  lemma {:induction false} ZerosRead(t: int)
    ensures Summed(ZEROS) == 0
    ensures IsType(t) <==> Indexed(ZEROS, t) == Ok(0)
  {
  }

  function Min(a: int, b: int): int {
    if a <= b then a else b
  }

  /** An elo of -1 means "not calibrated" and is kept as None. */
  function NormElo(e: Option<int>): (r: Option<int>)
    ensures r != Some(-1)
    ensures e == Some(-1) ==> r.None?
    ensures e != Some(-1) ==> r == e
  {
    if e == Some(-1) then None else e
  }

  /** The seven per-type counters of a player. */
  datatype Tallies = Tallies(playedPer: Counter, timePer: Counter, ffLosses: Counter, ffWins: Counter,
                             wins: Counter, losses: Counter, draws: Counter)

  /** Before `commit_ranked`, every counter is a dict over the four types. */
  predicate Shaped(ts: Tallies) {
    HasTypes(ts.playedPer) && HasTypes(ts.timePer) && HasTypes(ts.ffLosses) && HasTypes(ts.ffWins) &&
    HasTypes(ts.wins) && HasTypes(ts.losses) && HasTypes(ts.draws)
  }

  /** At type `t`: wins, losses and draws add up to the games played, and
      forfeit wins (losses) are among the wins (losses). */
  predicate Balanced(ts: Tallies, t: int)
    requires Shaped(ts) && IsType(t)
  {
    ts.wins.m[t] + ts.losses.m[t] + ts.draws.m[t] == ts.playedPer.m[t] &&
    0 <= ts.ffWins.m[t] <= ts.wins.m[t] && 0 <= ts.ffLosses.m[t] <= ts.losses.m[t] && 0 <= ts.draws.m[t]
  }

  predicate TalliesOk(ts: Tallies) {
    Shaped(ts) && forall t :: 1 <= t <= 4 ==> Balanced(ts, t)
  }

  const NO_TALLIES := Tallies(ZEROS, ZEROS, ZEROS, ZEROS, ZEROS, ZEROS, ZEROS)

  /** One game of type `t` and duration `d`: won, else lost unless drawn;
      `ff` marks a forfeit win or loss. */
  function Tally(ts: Tallies, t: int, d: int, won: bool, drawn: bool, ff: bool): (r: Tallies)
    ensures Shaped(ts) ==> Shaped(r)
  {
    var played := ts.(playedPer := Bump(ts.playedPer, t, 1), timePer := Bump(ts.timePer, t, d));
    if won then
      var f := if ff then played.(ffWins := Bump(played.ffWins, t, 1)) else played;
      f.(wins := Bump(f.wins, t, 1))
    else if !drawn then
      var f := if ff then played.(ffLosses := Bump(played.ffLosses, t, 1)) else played;
      f.(losses := Bump(f.losses, t, 1))
    else played.(draws := Bump(played.draws, t, 1))
  }

  /** One game adds one to the games of its type and to exactly one of the
      wins, losses and draws of that type; the counters stay balanced. */
  lemma {:induction false} TallyCounts(ts: Tallies, t: int, d: int, won: bool, drawn: bool, ff: bool, k: int)
    requires TalliesOk(ts) && IsType(t) && IsType(k)
    ensures var r := Tally(ts, t, d, won, drawn, ff);
      TalliesOk(r) &&
      r.playedPer.m[k] == ts.playedPer.m[k] + (if k == t then 1 else 0) &&
      r.wins.m[k] == ts.wins.m[k] + (if k == t && won then 1 else 0) &&
      r.draws.m[k] == ts.draws.m[k] + (if k == t && !won && drawn then 1 else 0) &&
      r.losses.m[k] == ts.losses.m[k] + (if k == t && !won && !drawn then 1 else 0)
  {
    forall j | IsType(j) ensures Balanced(Tally(ts, t, d, won, drawn, ff), j) {
      TallyBalanced(ts, t, d, won, drawn, ff, j);
    }
  }

  /** Adding `delta` at type `t` reads `delta` more at `t` and the same
      elsewhere. */
  lemma {:induction false} BumpAt(c: Counter, t: int, delta: int, j: int)
    requires HasTypes(c) && IsType(t) && IsType(j)
    ensures Bump(c, t, delta).m[j] == c.m[j] + (if j == t then delta else 0)
  {
  }

  lemma {:induction false} TallyBalanced(ts: Tallies, t: int, d: int, won: bool, drawn: bool, ff: bool, j: int)
    requires Shaped(ts) && IsType(t) && IsType(j) && Balanced(ts, j)
    ensures Shaped(Tally(ts, t, d, won, drawn, ff)) && Balanced(Tally(ts, t, d, won, drawn, ff), j)
  {
    var r := Tally(ts, t, d, won, drawn, ff);
    BumpAt(ts.playedPer, t, 1, j);
    if won {
      BumpAt(ts.wins, t, 1, j);
      if ff { BumpAt(ts.ffWins, t, 1, j); }
      assert r.losses == ts.losses && r.draws == ts.draws && r.ffLosses == ts.ffLosses;
    } else if !drawn {
      BumpAt(ts.losses, t, 1, j);
      if ff { BumpAt(ts.ffLosses, t, 1, j); }
      assert r.wins == ts.wins && r.draws == ts.draws && r.ffWins == ts.ffWins;
    } else {
      BumpAt(ts.draws, t, 1, j);
      assert r.wins == ts.wins && r.losses == ts.losses && r.ffWins == ts.ffWins && r.ffLosses == ts.ffLosses;
    }
  }

  /** What a `Player` holds. `history` maps a match date to the elo after
      it; `dynamic` holds the injected lists (only `nether_entries` here). */
  datatype Stats = Stats(
    nick: string, uuid: string, latest: int, elo: Option<int>,
    history: map<int, Option<int>>, historyMissing: nat,
    tallies: Tallies, decayed: nat,
    matchCompletions: nat, timeCompletions: int, pb: Option<int>,
    dynamic: map<string, seq<int>>, rankedMode: bool)

  /** Not yet committed: every counter is a dict over the four types. */
  predicate Consistent(s: Stats) {
    !s.rankedMode && Shaped(s.tallies)
  }

  /** Not yet committed, and the counters balance at every type. */
  predicate Sound(s: Stats) {
    !s.rankedMode && TalliesOk(s.tallies)
  }

  /** `Player(nick, uuid, latest, elo)`: all counters at zero, no best time,
      and an elo of -1 stored as None. */
  function NewStats(nick: string, uuid: string, latest: int, elo: Option<int>): (s: Stats)
    ensures Sound(s) && Consistent(s) && s.uuid == uuid && s.nick == nick && s.latest == latest
    ensures s.elo == NormElo(elo) && s.elo != Some(-1)
    ensures Summed(s.tallies.playedPer) == 0 && s.matchCompletions == 0 && s.pb.None? && s.decayed == 0
  {
    Stats(nick, uuid, latest, NormElo(elo), map[], 0, NO_TALLIES, 0, 0, 0, None, map[], false)
  }

  /** A match a member of it can be counted for: a decay, or one whose type
      has a counter (any other raises KeyError). */
  predicate Countable(m: QueryMatch) {
    m.isDecay || IsType(m.matchType)
  }

  /** A newer match refreshes the nick and the elo. */
  function Refreshed(s: Stats, m: QueryMatch, mem: Member): (r: Stats)
    ensures r == s.(nick := r.nick, elo := r.elo, latest := r.latest)
  {
    if s.latest < m.date then s.(nick := mem.user, elo := NormElo(mem.eloAfter), latest := m.date)
    else s
  }

  /** The elo after the match goes into the history when the match has
      elos; otherwise it is counted as missing. */
  function Historied(s: Stats, m: QueryMatch, mem: Member): (r: Stats)
    ensures r == s.(history := r.history, historyMissing := r.historyMissing)
  {
    if m.hasElos then s.(history := s.history[m.date := mem.eloAfter])
    else s.(historyMissing := s.historyMissing + 1)
  }

  /** A win that was not a forfeit: a completion. */
  predicate Completes(m: QueryMatch, u: string) {
    !m.isDecay && u == m.winner && !m.isFF
  }

  /** A completion adds to the completion count and time and may lower the
      best time. */
  function WithCompletion(s: Stats, m: QueryMatch, u: string): (r: Stats)
    ensures r == s.(matchCompletions := r.matchCompletions, timeCompletions := r.timeCompletions, pb := r.pb)
  {
    if Completes(m, u) then
      s.(matchCompletions := s.matchCompletions + 1,
         timeCompletions := s.timeCompletions + m.duration,
         pb := Some(if s.pb.Some? then Min(s.pb.value, m.duration) else m.duration))
    else s
  }

  /** The counters of player `u` after match `m`. */
  function Counted(s: Stats, m: QueryMatch, u: string): (r: Stats)
    ensures Shaped(s.tallies) ==> Shaped(r.tallies)
    ensures r == s.(tallies := r.tallies, decayed := r.decayed, matchCompletions := r.matchCompletions,
                    timeCompletions := r.timeCompletions, pb := r.pb)
  {
    if m.isDecay then s.(decayed := s.decayed + 1)
    else
      var ts := Tally(s.tallies, m.matchType, m.duration, u == m.winner, m.winner == DRAW, m.isFF);
      WithCompletion(s.(tallies := ts), m, u)
  }

  /** A non-decay match: the tallied counters, and the completion fields
      of `WithCompletion`. */
  lemma {:induction false} CountedParts(s: Stats, m: QueryMatch, u: string)
    requires !m.isDecay
    ensures var w := WithCompletion(s, m, u);
      Counted(s, m, u) ==
        s.(tallies := Tally(s.tallies, m.matchType, m.duration, u == m.winner, m.winner == DRAW, m.isFF),
           matchCompletions := w.matchCompletions, timeCompletions := w.timeCompletions, pb := w.pb)
  {
  }

  const NETHER := "nether_entries"
  const ENTER_NETHER := "story.enter_the_nether"

  /** With `nether_entries` injected, the player's earliest nether entry in
      the match (when there is one) is appended to that list. */
  function Injected(s: Stats, m: QueryMatch, u: string, inject: set<string>): (r: Stats)
    ensures r == s.(dynamic := r.dynamic)
  {
    if NETHER !in inject then s
    else
      var d := if NETHER in s.dynamic then s.dynamic else s.dynamic[NETHER := []];
      var e := Earliest(m, ENTER_NETHER, Some(u));
      s.(dynamic := if e.Some? then d[NETHER := d[NETHER] + [e.value.time]] else d)
  }

  /** Everything one member of one match does to its player. */
  function Recorded(s: Stats, m: QueryMatch, mem: Member, inject: set<string>): (r: Stats)
    ensures Shaped(s.tallies) ==> Shaped(r.tallies)
    ensures r.uuid == s.uuid && r.rankedMode == s.rankedMode
  {
    Injected(Counted(Historied(Refreshed(s, m, mem), m, mem), m, mem.uuid), m, mem.uuid, inject)
  }

  /** What one match does to the counters of type `k`: a decay only adds to
      `decayed`; any other match adds one game of its type, and that game
      is exactly one of a win (the member is the winner), a draw (nobody
      won) or a loss. The counters stay balanced either way. */
  lemma {:induction false} RecordedTally(s: Stats, m: QueryMatch, mem: Member, inject: set<string>, k: int)
    requires Sound(s) && Countable(m) && IsType(k)
    ensures var r := Recorded(s, m, mem, inject);
      var here := !m.isDecay && k == m.matchType;
      Sound(r) && r.uuid == s.uuid &&
      r.tallies.playedPer.m[k] == s.tallies.playedPer.m[k] + (if here then 1 else 0) &&
      r.tallies.wins.m[k] == s.tallies.wins.m[k] + (if here && mem.uuid == m.winner then 1 else 0) &&
      r.tallies.draws.m[k] ==
        s.tallies.draws.m[k] + (if here && mem.uuid != m.winner && m.winner == DRAW then 1 else 0) &&
      r.tallies.losses.m[k] ==
        s.tallies.losses.m[k] + (if here && mem.uuid != m.winner && m.winner != DRAW then 1 else 0) &&
      r.decayed == s.decayed + (if m.isDecay then 1 else 0)
  {
    if !m.isDecay {
      TallyCounts(s.tallies, m.matchType, m.duration, mem.uuid == m.winner, m.winner == DRAW, m.isFF, k);
    }
  }

  /** A completion adds one to `match_completions`, its duration to
      `time_completions`, and lowers `pb` to it when it is faster; nothing
      else touches those three. */
  lemma {:induction false} RecordedCompletion(s: Stats, m: QueryMatch, mem: Member, inject: set<string>)
    ensures var r := Recorded(s, m, mem, inject);
      if Completes(m, mem.uuid) then
        r.matchCompletions == s.matchCompletions + 1 &&
        r.timeCompletions == s.timeCompletions + m.duration &&
        r.pb == Some(if s.pb.Some? then Min(s.pb.value, m.duration) else m.duration)
      else
        r.matchCompletions == s.matchCompletions && r.timeCompletions == s.timeCompletions && r.pb == s.pb
  {
  }

  /** The nick and the elo change only for a match strictly later than the
      player's latest one, which then supplies both (an elo of -1 becoming
      None); `latest` becomes the later of the two dates. */
  lemma {:induction false} RecordedRefresh(s: Stats, m: QueryMatch, mem: Member, inject: set<string>)
    ensures var r := Recorded(s, m, mem, inject);
      (r.nick != s.nick || r.elo != s.elo ==> s.latest < m.date) &&
      (s.latest < m.date ==> r.nick == mem.user && r.elo == NormElo(mem.eloAfter)) &&
      (s.elo != Some(-1) ==> r.elo != Some(-1)) &&
      r.latest == (if s.latest < m.date then m.date else s.latest)
  {
  }

  /** A decay match leaves every per-type counter and the completion
      figures as they were; only `decayed` and the history bookkeeping
      move. */
  lemma {:induction false} RecordedDecay(s: Stats, m: QueryMatch, mem: Member, inject: set<string>)
    requires m.isDecay
    ensures var r := Recorded(s, m, mem, inject);
      r.tallies == s.tallies && r.matchCompletions == s.matchCompletions &&
      r.timeCompletions == s.timeCompletions && r.pb == s.pb && r.decayed == s.decayed + 1
  {
  }

  /** The six replacements of `commit_ranked`, in order: each of wins,
      losses, forfeit wins, forfeit losses, games played and draws becomes
      its type-2 entry; the first one missing raises KeyError. */
  function Flatten(ts: Tallies): (r: Result<Tallies>)
    ensures r.Ok? <==> Indexed(ts.wins, 2).Ok? && Indexed(ts.losses, 2).Ok? && Indexed(ts.ffWins, 2).Ok? &&
                       Indexed(ts.ffLosses, 2).Ok? && Indexed(ts.playedPer, 2).Ok? && Indexed(ts.draws, 2).Ok?
    ensures r.Err? ==> r.error.kind == KeyError
    ensures r.Ok? ==> r.value.timePer == ts.timePer && r.value.wins.Flat? && r.value.losses.Flat? &&
                      r.value.ffWins.Flat? && r.value.ffLosses.Flat? && r.value.playedPer.Flat? && r.value.draws.Flat?
  {
    var w :- Indexed(ts.wins, 2);
    var l :- Indexed(ts.losses, 2);
    var fw :- Indexed(ts.ffWins, 2);
    var fl :- Indexed(ts.ffLosses, 2);
    var p :- Indexed(ts.playedPer, 2);
    var d :- Indexed(ts.draws, 2);
    Ok(ts.(wins := Flat(w), losses := Flat(l), ffWins := Flat(fw), ffLosses := Flat(fl),
           playedPer := Flat(p), draws := Flat(d)))
  }

  /** On counters over the four types, every replacement succeeds and
      reads the type-2 entry. */
  lemma {:induction false} FlattenShaped(ts: Tallies)
    requires Shaped(ts)
    ensures Flatten(ts) == Ok(Tallies(Flat(ts.playedPer.m[2]), ts.timePer, Flat(ts.ffLosses.m[2]),
                                      Flat(ts.ffWins.m[2]), Flat(ts.wins.m[2]), Flat(ts.losses.m[2]),
                                      Flat(ts.draws.m[2])))
  {
  }

  /** `commit_ranked()`: refuses a player already committed, then flattens
      the counters; nothing else about the player changes. */
  function CommitRankedOf(s: Stats): (r: Result<Stats>)
    ensures r.Err? <==> s.rankedMode || Flatten(s.tallies).Err?
    ensures r.Err? && s.rankedMode ==> r.error.kind == AssertionError
    ensures r.Ok? ==> r.value == s.(rankedMode := true, tallies := r.value.tallies)
  {
    if s.rankedMode then Raise(AssertionError, "")
    else
      var ts :- Flatten(s.tallies);
      Ok(s.(rankedMode := true, tallies := ts))
  }

  lemma {:induction false} CommitShaped(s: Stats)
    requires !s.rankedMode && Shaped(s.tallies)
    ensures Flatten(s.tallies).Ok?
    ensures CommitRankedOf(s) == Ok(s.(rankedMode := true, tallies := Flatten(s.tallies).value))
  {
    FlattenShaped(s.tallies);
  }

  /** Once committed, every mode reads the ranked figure, a sum is that
      figure, and the ranked balance still holds; committing twice fails. */
  lemma {:induction false} CommitReadsRanked(s: Stats, i: int)
    requires Sound(s)
    ensures CommitRankedOf(s).Ok?
    ensures var c := CommitRankedOf(s).value.tallies;
      var ts := s.tallies;
      Indexed(c.wins, i) == Indexed(ts.wins, 2) && Indexed(c.losses, i) == Indexed(ts.losses, 2) &&
      Indexed(c.draws, i) == Indexed(ts.draws, 2) && Indexed(c.playedPer, i) == Indexed(ts.playedPer, 2) &&
      Summed(c.playedPer) == ts.playedPer.m[2] &&
      c.wins.n + c.losses.n + c.draws.n == c.playedPer.n && c.ffWins.n <= c.wins.n
    ensures CommitRankedOf(CommitRankedOf(s).value).Err?
    ensures CommitRankedOf(CommitRankedOf(s).value).error.kind == AssertionError
  {
    FlattenShaped(s.tallies);
    assert Balanced(s.tallies, 2);
  }

  // ---------------------------------------------------------------------
  // One player's history

  /** One member of one match, as the manager hands it to a player. */
  datatype Event = Event(m: QueryMatch, mem: Member)

  predicate For(u: string, evs: seq<Event>) {
    forall e :: e in evs ==> Countable(e.m) && e.mem.uuid == u
  }

  /** The player that the manager builds from the events of uuid `u`: made
      from the first event, then updated by every event in order. */
  function Replay(u: string, evs: seq<Event>, inject: set<string>): (s: Stats)
    requires evs != [] && For(u, evs)
    ensures Consistent(s) && s.uuid == u
    decreases |evs|
  {
    var e := evs[|evs| - 1];
    var prior :=
      if |evs| == 1 then NewStats(e.mem.user, e.mem.uuid, e.m.date, e.mem.eloAfter)
      else Replay(u, evs[..|evs| - 1], inject);
    Recorded(prior, e.m, e.mem, inject)
  }

  /** The counters of a replayed player balance at every type. */
  lemma {:induction false} ReplaySound(u: string, evs: seq<Event>, inject: set<string>)
    requires evs != [] && For(u, evs)
    ensures Sound(Replay(u, evs, inject))
    decreases |evs|
  {
    var e := evs[|evs| - 1];
    if |evs| == 1 {
      RecordedTally(NewStats(e.mem.user, e.mem.uuid, e.m.date, e.mem.eloAfter), e.m, e.mem, inject, 1);
    } else {
      ReplaySound(u, evs[..|evs| - 1], inject);
      RecordedTally(Replay(u, evs[..|evs| - 1], inject), e.m, e.mem, inject, 1);
    }
  }

  function PlayedAs(t: int): Event -> bool {
    (e: Event) => !e.m.isDecay && e.m.matchType == t
  }

  function WonAs(t: int): Event -> bool {
    (e: Event) => !e.m.isDecay && e.m.matchType == t && e.mem.uuid == e.m.winner
  }

  function DrewAs(t: int): Event -> bool {
    (e: Event) => !e.m.isDecay && e.m.matchType == t && e.mem.uuid != e.m.winner && e.m.winner == DRAW
  }

  function Decays(): Event -> bool {
    (e: Event) => e.m.isDecay
  }

  /** After all its events, a player's `played_per[t]` counts the non-decay
      type-`t` matches it played, and `decayed` its decay matches. */
  lemma {:induction false} ReplayGames(u: string, evs: seq<Event>, inject: set<string>, t: int)
    requires evs != [] && For(u, evs) && IsType(t)
    ensures var s := Replay(u, evs, inject);
      s.tallies.playedPer.m[t] == |Filter(evs, PlayedAs(t))| && s.decayed == |Filter(evs, Decays())|
    decreases |evs|
  {
    var n := |evs|;
    var e, init := evs[n - 1], evs[..n - 1];
    assert evs == init + [e];
    if n == 1 {
      assert init == [];
      GamesStep(NewStats(e.mem.user, e.mem.uuid, e.m.date, e.mem.eloAfter), init, e, inject, t);
    } else {
      ReplayGames(u, init, inject, t);
      ReplaySound(u, init, inject);
      GamesStep(Replay(u, init, inject), init, e, inject, t);
    }
  }

  /** The inductive step of `ReplayGames`: one more event. */
  lemma {:induction false} GamesStep(s: Stats, init: seq<Event>, e: Event, inject: set<string>, t: int)
    requires Sound(s) && Countable(e.m) && IsType(t)
    requires s.tallies.playedPer.m[t] == |Filter(init, PlayedAs(t))| && s.decayed == |Filter(init, Decays())|
    ensures var r := Recorded(s, e.m, e.mem, inject);
      r.tallies.playedPer.m[t] == |Filter(init + [e], PlayedAs(t))| && r.decayed == |Filter(init + [e], Decays())|
  {
    FilterSnoc(init, e, PlayedAs(t));
    FilterSnoc(init, e, Decays());
    RecordedTally(s, e.m, e.mem, inject, t);
  }

  /** After all its events, a player's `wins[t]` and `draws[t]` count the
      non-decay type-`t` matches it won and drew. */
  lemma {:induction false} ReplayResults(u: string, evs: seq<Event>, inject: set<string>, t: int)
    requires evs != [] && For(u, evs) && IsType(t)
    ensures var s := Replay(u, evs, inject);
      s.tallies.wins.m[t] == |Filter(evs, WonAs(t))| && s.tallies.draws.m[t] == |Filter(evs, DrewAs(t))|
    decreases |evs|
  {
    var n := |evs|;
    var e, init := evs[n - 1], evs[..n - 1];
    assert evs == init + [e];
    if n == 1 {
      assert init == [];
      ResultsStep(NewStats(e.mem.user, e.mem.uuid, e.m.date, e.mem.eloAfter), init, e, inject, t);
    } else {
      ReplayResults(u, init, inject, t);
      ReplaySound(u, init, inject);
      ResultsStep(Replay(u, init, inject), init, e, inject, t);
    }
  }

  /** The inductive step of `ReplayResults`: one more event. */
  lemma {:induction false} ResultsStep(s: Stats, init: seq<Event>, e: Event, inject: set<string>, t: int)
    requires Sound(s) && Countable(e.m) && IsType(t)
    requires s.tallies.wins.m[t] == |Filter(init, WonAs(t))| && s.tallies.draws.m[t] == |Filter(init, DrewAs(t))|
    ensures var r := Recorded(s, e.m, e.mem, inject);
      r.tallies.wins.m[t] == |Filter(init + [e], WonAs(t))| && r.tallies.draws.m[t] == |Filter(init + [e], DrewAs(t))|
  {
    FilterSnoc(init, e, WonAs(t));
    FilterSnoc(init, e, DrewAs(t));
    RecordedTally(s, e.m, e.mem, inject, t);
  }

  /** The durations of the completions among `evs`, in order. */
  function Durations(evs: seq<Event>): (r: seq<int>)
    ensures |r| <= |evs|
  {
    if evs == [] then []
    else
      var e := evs[|evs| - 1];
      Durations(evs[..|evs| - 1]) + (if Completes(e.m, e.mem.uuid) then [e.m.duration] else [])
  }

  function Sum(s: seq<int>): int {
    if s == [] then 0 else Sum(s[..|s| - 1]) + s[|s| - 1]
  }

  /** The least element, None for an empty sequence. */
  function MinOf(s: seq<int>): (r: Option<int>)
    ensures r.None? <==> s == []
    ensures r.Some? ==> (exists i :: 0 <= i < |s| && s[i] == r.value) && forall i :: 0 <= i < |s| ==> r.value <= s[i]
  {
    if s == [] then None
    else
      var init := s[..|s| - 1];
      var prior := MinOf(init);
      var x := s[|s| - 1];
      assert forall i :: 0 <= i < |init| ==> s[i] == init[i];
      if prior.Some? && prior.value <= x then prior else Some(x)
  }

  /** `match_completions` counts a player's completions, `time_completions`
      sums their durations, and `pb` is the least of them (None when the
      player never completed a match). */
  lemma {:induction false} ReplayCompletions(u: string, evs: seq<Event>, inject: set<string>)
    requires evs != [] && For(u, evs)
    ensures var s := Replay(u, evs, inject);
      s.matchCompletions == |Durations(evs)| && s.timeCompletions == Sum(Durations(evs)) &&
      s.pb == MinOf(Durations(evs))
    decreases |evs|
  {
    var n := |evs|;
    var e, init := evs[n - 1], evs[..n - 1];
    if n == 1 {
      assert init == [];
      CompletionStep(NewStats(e.mem.user, e.mem.uuid, e.m.date, e.mem.eloAfter), e, [], inject);
    } else {
      ReplayCompletions(u, init, inject);
      CompletionStep(Replay(u, init, inject), e, Durations(init), inject);
    }
  }

  /** The inductive step of `ReplayCompletions`: one more event. */
  lemma {:induction false} CompletionStep(s: Stats, e: Event, ds: seq<int>, inject: set<string>)
    requires s.matchCompletions == |ds| && s.timeCompletions == Sum(ds) && s.pb == MinOf(ds)
    ensures var r := Recorded(s, e.m, e.mem, inject);
      var all := ds + (if Completes(e.m, e.mem.uuid) then [e.m.duration] else []);
      r.matchCompletions == |all| && r.timeCompletions == Sum(all) && r.pb == MinOf(all)
  {
    RecordedCompletion(s, e.m, e.mem, inject);
    if Completes(e.m, e.mem.uuid) {
      var all := ds + [e.m.duration];
      assert all[..|ds|] == ds;
    } else {
      assert ds + [] == ds;
    }
  }

  // ---------------------------------------------------------------------
  // The manager's table of players

  /** Players by uuid, and the uuids in the order the players were met (the
      order of the Python dict). */
  datatype Table = Table(players: map<string, Stats>, order: seq<string>)

  predicate PlayerOk(t: Table, u: string)
    requires u in t.players
  {
    u in t.order && Consistent(t.players[u]) && t.players[u].uuid == u
  }

  /** Every uuid of the order has a player. */
  predicate Listed(t: Table) {
    forall i :: 0 <= i < |t.order| ==> t.order[i] in t.players
  }

  predicate TableOk(t: Table) {
    Distinct(t.order) && Listed(t) && forall u :: u in t.players ==> PlayerOk(t, u)
  }

  /** Player `u` set to `s`; a new uuid goes to the end of the order. */
  function Put(t: Table, u: string, s: Stats): Table {
    Table(t.players[u := s], if u in t.players then t.order else t.order + [u])
  }

  lemma {:induction false} PutOk(t: Table, u: string, s: Stats)
    requires TableOk(t) && Consistent(s) && s.uuid == u
    ensures TableOk(Put(t, u, s))
  {
    var r := Put(t, u, s);
    PutOrder(t, u, s);
    assert PlayerOk(r, u);
    forall v | v in r.players && v != u ensures PlayerOk(r, v) {
      assert PlayerOk(t, v);
    }
  }

  /** A new uuid at the end of the order keeps it duplicate-free and
      listed. */
  lemma {:induction false} PutOrder(t: Table, u: string, s: Stats)
    requires Distinct(t.order) && Listed(t)
    ensures Distinct(Put(t, u, s).order) && Listed(Put(t, u, s))
  {
    var r := Put(t, u, s);
    if u !in t.players {
      forall i | 0 <= i < |t.order| ensures t.order[i] != u {
        assert t.order[i] in t.players;
      }
      forall i, j | 0 <= i < j < |r.order| ensures r.order[i] != r.order[j] {
        assert r.order[i] == t.order[i];
      }
      forall i | 0 <= i < |r.order| ensures r.order[i] in r.players {
        if i < |t.order| {
          assert r.order[i] == t.order[i];
        }
      }
    }
  }

  /** One event: the member's player is created when unknown, then records
      the match; no other player changes. */
  function AddEvent(t: Table, e: Event, inject: set<string>): Table {
    var u := e.mem.uuid;
    var prior := if u in t.players then t.players[u] else NewStats(e.mem.user, u, e.m.date, e.mem.eloAfter);
    Put(t, u, Recorded(prior, e.m, e.mem, inject))
  }

  /** One event: the member's player, created when unknown, records the
      match and goes to the end of the order when new; no other player
      changes. */
  lemma {:induction false} AddEventSpec(t: Table, e: Event, inject: set<string>, v: string)
    ensures var r := AddEvent(t, e, inject); var u := e.mem.uuid;
      (v in r.players <==> v in t.players || v == u) &&
      (v != u && v in t.players ==> r.players[v] == t.players[v]) &&
      (v == u ==> r.players[u] == Recorded(if u in t.players then t.players[u]
                                            else NewStats(e.mem.user, u, e.m.date, e.mem.eloAfter), e.m, e.mem, inject)) &&
      r.order == (if u in t.players then t.order else t.order + [u])
  {
  }

  /** An event keeps the table well formed. */
  lemma {:induction false} AddEventOk(t: Table, e: Event, inject: set<string>)
    requires TableOk(t)
    ensures TableOk(AddEvent(t, e, inject))
  {
    var u := e.mem.uuid;
    if u in t.players {
      assert PlayerOk(t, u);
    }
    PutOk(t, u, AddEvent(t, e, inject).players[u]);
  }

  predicate AllCountable(evs: seq<Event>) {
    forall e :: e in evs ==> Countable(e.m)
  }

  /** The table after events `evs`, starting from `t`. */
  function ApplyFrom(t: Table, evs: seq<Event>, inject: set<string>): Table
    decreases |evs|
  {
    if evs == [] then t
    else AddEvent(ApplyFrom(t, evs[..|evs| - 1], inject), evs[|evs| - 1], inject)
  }

  /** Any sequence of events keeps the table well formed. */
  lemma {:induction false} ApplyFromOk(t: Table, evs: seq<Event>, inject: set<string>)
    requires TableOk(t)
    ensures TableOk(ApplyFrom(t, evs, inject))
    decreases |evs|
  {
    if evs != [] {
      ApplyFromOk(t, evs[..|evs| - 1], inject);
      AddEventOk(ApplyFrom(t, evs[..|evs| - 1], inject), evs[|evs| - 1], inject);
    }
  }

  /** Applying `a + b` is applying `a`, then `b`. */
  lemma {:induction false} ApplyFromAppend(t: Table, a: seq<Event>, b: seq<Event>, inject: set<string>)
    ensures ApplyFrom(t, a + b, inject) == ApplyFrom(ApplyFrom(t, a, inject), b, inject)
    decreases |b|
  {
    if b != [] {
      var n := |b|;
      assert (a + b)[..|a + b| - 1] == a + b[..n - 1];
      ApplyFromAppend(t, a, b[..n - 1], inject);
    } else {
      assert a + b == a;
    }
  }

  const EMPTY := Table(map[], [])

  function ForUuid(u: string): Event -> bool {
    (e: Event) => e.mem.uuid == u
  }

  /** Player `u` of `t` is there exactly when `evs` has events of `u`, and
      is then the replay of those events. */
  predicate Projects(t: Table, evs: seq<Event>, u: string, inject: set<string>) {
    var mine := Filter(evs, ForUuid(u));
    (u in t.players <==> mine != []) &&
    (u in t.players ==> For(u, mine) && t.players[u] == Replay(u, mine, inject))
  }

  /** The table built from a sequence of events holds, for every uuid met,
      exactly the replay of that uuid's own events, and nobody else. */
  lemma {:induction false} ApplyProjects(evs: seq<Event>, inject: set<string>, u: string)
    requires AllCountable(evs)
    ensures Projects(ApplyFrom(EMPTY, evs, inject), evs, u, inject)
    decreases |evs|
  {
    if evs != [] {
      ApplyProjects(evs[..|evs| - 1], inject, u);
      ApplyProjectsStep(evs, inject, u);
    }
  }

  /** The inductive step of `ApplyProjects`: the last event. */
  lemma {:induction false} ApplyProjectsStep(evs: seq<Event>, inject: set<string>, u: string)
    requires evs != [] && AllCountable(evs)
    requires Projects(ApplyFrom(EMPTY, evs[..|evs| - 1], inject), evs[..|evs| - 1], u, inject)
    ensures Projects(ApplyFrom(EMPTY, evs, inject), evs, u, inject)
  {
    var n := |evs|;
    var e, init := evs[n - 1], evs[..n - 1];
    assert e in evs;
    FilterLast(evs, ForUuid(u));
    var mine0 := Filter(init, ForUuid(u));
    if e.mem.uuid == u {
      ProjectsOwn(ApplyFrom(EMPTY, init, inject), mine0, e, u, inject);
    } else {
      assert mine0 + [] == mine0;
      AddEventSpec(ApplyFrom(EMPTY, init, inject), e, inject, u);
    }
  }

  /** The last event is player `u`'s own: its replay gains that event. */
  lemma {:induction false} ProjectsOwn(t: Table, mine: seq<Event>, e: Event, u: string, inject: set<string>)
    requires e.mem.uuid == u && Countable(e.m)
    requires u in t.players <==> mine != []
    requires u in t.players ==> For(u, mine) && t.players[u] == Replay(u, mine, inject)
    ensures var r := AddEvent(t, e, inject);
      u in r.players && For(u, mine + [e]) && r.players[u] == Replay(u, mine + [e], inject)
  {
    var all := mine + [e];
    assert all[..|all| - 1] == mine;
    AddEventSpec(t, e, inject, u);
  }

  // ---------------------------------------------------------------------
  // The manager's arguments and the events it feeds

  const OPPONENT_ABOVE := "opponent_above"

  /** The `args` loop: every argument must be `opponent_above`; the last one
      sets the threshold. */
  function ParseArgs(args: seq<(string, int)>): (r: Result<Option<int>>)
    ensures r.Ok? <==> forall i :: 0 <= i < |args| ==> args[i].0 == OPPONENT_ABOVE
    ensures r.Ok? ==> r.value == (if args == [] then None else Some(args[|args| - 1].1))
    ensures r.Err? ==> r.error.kind == RuntimeError
  {
    if args == [] then Ok(None)
    else
      var prior :- ParseArgs(args[..|args| - 1]);
      var (a, v) := args[|args| - 1];
      if a == OPPONENT_ABOVE then Ok(Some(v))
      else Raise(RuntimeError, "players got unknown argument: " + a + "(" + IntToString(v) + ")")
  }

  lemma {:induction false} ParseArgsErrExtends(args: seq<(string, int)>, k: nat)
    requires k <= |args| && ParseArgs(args[..k]).Err?
    ensures ParseArgs(args) == ParseArgs(args[..k])
    decreases |args| - k
  {
    if k < |args| {
      assert args[..k + 1][..k] == args[..k];
      ParseArgsErrExtends(args, k + 1);
    } else {
      assert args[..k] == args;
    }
  }

  /** With a threshold, each member of a two-member match is checked
      against the other one. */
  predicate Paired(m: QueryMatch, opp: Option<int>) {
    |m.members| == 2 && opp.Some?
  }

  /** Whether member `k` is processed: with a threshold, a member of a
      two-member match whose opponent's elo is below it is skipped. */
  predicate Kept(m: QueryMatch, k: nat, opp: Option<int>)
    requires k < |m.members|
  {
    !(Paired(m, opp) && m.members[1 - k].elo.Some? && m.members[1 - k].elo.value < opp.value)
  }

  /** What member `k` raises: the opponent assertions of the threshold
      check, then, for a processed member of a non-decay match, the
      KeyError of a type without a counter. */
  function MemberError(m: QueryMatch, k: nat, opp: Option<int>): (r: Option<Error>)
    requires k < |m.members|
    ensures r.None? && Kept(m, k, opp) ==> Countable(m)
    ensures r.Some? && !Countable(m) && !Paired(m, opp) ==> r.value.kind == KeyError
  {
    var mem := m.members[k];
    if Paired(m, opp) && m.members[1 - k].uuid == mem.uuid then Some(Error(AssertionError, ""))
    else if Paired(m, opp) && m.members[1 - k].elo.None? then Some(Error(AssertionError, ""))
    else if !Kept(m, k, opp) then None
    else if !Countable(m) then Some(Error(KeyError, IntToString(m.matchType)))
    else None
  }

  /** The first error among the first `k` members. */
  function MembersError(m: QueryMatch, k: nat, opp: Option<int>): Option<Error>
    requires k <= |m.members|
  {
    if k == 0 then None
    else if MembersError(m, k - 1, opp).Some? then MembersError(m, k - 1, opp)
    else MemberError(m, k - 1, opp)
  }

  lemma {:induction false} MembersErrorExtends(m: QueryMatch, k: nat, n: nat, opp: Option<int>)
    requires k <= n <= |m.members| && MembersError(m, k, opp).Some?
    ensures MembersError(m, n, opp) == MembersError(m, k, opp)
    decreases n - k
  {
    if k < n {
      MembersErrorExtends(m, k, n - 1, opp);
    }
  }

  /** What a match raises: a member's error, else the assertion that a
      non-decay ranked match has two members. */
  function MatchError(m: QueryMatch, opp: Option<int>): Option<Error> {
    var e := MembersError(m, |m.members|, opp);
    if e.Some? then e
    else if !m.isDecay && m.matchType == 2 && |m.members| != 2 then Some(Error(AssertionError, ""))
    else None
  }

  function Raises(opp: Option<int>): QueryMatch -> bool {
    (m: QueryMatch) => MatchError(m, opp).Some?
  }

  /** The events of the first `k` members of a match. */
  function MatchEvents(m: QueryMatch, k: nat, opp: Option<int>): seq<Event>
    requires k <= |m.members|
  {
    if k == 0 then []
    else MatchEvents(m, k - 1, opp) + (if Kept(m, k - 1, opp) then [Event(m, m.members[k - 1])] else [])
  }

  /** The events of a match are exactly its processed members, in order. */
  lemma {:induction false} MatchEventsSpec(m: QueryMatch, k: nat, opp: Option<int>)
    requires k <= |m.members|
    ensures forall e :: e in MatchEvents(m, k, opp) <==>
      exists j :: 0 <= j < k && Kept(m, j, opp) && e == Event(m, m.members[j])
    ensures MembersError(m, k, opp).None? ==> AllCountable(MatchEvents(m, k, opp))
  {
    if k > 0 {
      MatchEventsSpec(m, k - 1, opp);
    }
  }

  /** The events of a sequence of matches, match by match. */
  function Events(l: seq<QueryMatch>, opp: Option<int>): seq<Event> {
    if l == [] then []
    else
      var m := l[|l| - 1];
      Events(l[..|l| - 1], opp) + MatchEvents(m, |m.members|, opp)
  }

  lemma {:induction false} EventsCountable(l: seq<QueryMatch>, opp: Option<int>)
    requires forall j :: 0 <= j < |l| ==> MatchError(l[j], opp).None?
    ensures AllCountable(Events(l, opp))
    decreases |l|
  {
    if l != [] {
      var m := l[|l| - 1];
      EventsCountable(l[..|l| - 1], opp);
      MatchEventsSpec(m, |m.members|, opp);
    }
  }

  /** What `PlayerManager(l, inject, no_unranked, args)` ends up holding. */
  datatype Roster = Roster(players: map<string, Stats>, order: seq<string>, games: nat, ranked: nat)

  /** `games_added` after the matches `l`: one for each non-decay match. */
  function Games(l: seq<QueryMatch>): nat {
    if l == [] then 0 else Games(l[..|l| - 1]) + (if l[|l| - 1].isDecay then 0 else 1)
  }

  /** `ranked_added` after the matches `l`: one for each real ranked match. */
  function RankedGames(l: seq<QueryMatch>): nat {
    if l == [] then 0 else RankedGames(l[..|l| - 1]) + (if IsRealRanked(l[|l| - 1]) then 1 else 0)
  }

  function NotDecay(): QueryMatch -> bool {
    (m: QueryMatch) => !m.isDecay
  }

  function RealRanked(): QueryMatch -> bool {
    (m: QueryMatch) => IsRealRanked(m)
  }

  /** Every player committed to ranked figures. */
  function CommitAll(ps: map<string, Stats>): (r: map<string, Stats>)
    requires forall u :: u in ps ==> Consistent(ps[u])
    ensures r.Keys == ps.Keys
  {
    map u | u in ps :: (assert Consistent(ps[u]); CommitShaped(ps[u]); CommitRankedOf(ps[u]).value)
  }

  /** The manager's construction: the arguments, then every match in order;
      the first error raised aborts it. */
  function Build(l: seq<QueryMatch>, inject: set<string>, noUnranked: bool, args: seq<(string, int)>): (r: Result<Roster>)
    ensures r.Ok? <==> ParseArgs(args).Ok? && forall j :: 0 <= j < |l| ==> MatchError(l[j], ParseArgs(args).value).None?
  {
    var opp :- ParseArgs(args);
    var bad := FirstIndex(l, Raises(opp));
    if bad.Some? then Err(MatchError(l[bad.value], opp).value)
    else
      var t := ApplyFrom(EMPTY, Events(l, opp), inject);
      ApplyFromOk(EMPTY, Events(l, opp), inject);
      Ok(Roster(if noUnranked then CommitAll(t.players) else t.players, t.order,
                |Filter(l, NotDecay())|, |Filter(l, RealRanked())|))
  }

  /** The players of a manager built without `no_unranked`: one per uuid of
      a processed member, each the replay of exactly that uuid's events, so
      that `ReplayCounts` and `ReplayCompletions` describe every one. */
  lemma {:induction false} BuildPlayers(l: seq<QueryMatch>, inject: set<string>, args: seq<(string, int)>, u: string)
    requires Build(l, inject, false, args).Ok?
    ensures var r := Build(l, inject, false, args).value;
      var mine := Filter(Events(l, ParseArgs(args).value), ForUuid(u));
      (u in r.players <==> mine != []) &&
      (u in r.players ==> For(u, mine) && r.players[u] == Replay(u, mine, inject) && Sound(r.players[u]))
  {
    var opp := ParseArgs(args).value;
    EventsCountable(l, opp);
    ApplyProjects(Events(l, opp), inject, u);
    var mine := Filter(Events(l, opp), ForUuid(u));
    if mine != [] {
      ReplaySound(u, mine, inject);
    }
  }

  /** One more member of a match: when it raises nothing, its event (if it
      is processed) is the next one applied. */
  lemma {:induction false} MemberEvents(t: Table, m: QueryMatch, k: nat, opp: Option<int>, inject: set<string>)
    requires k < |m.members| && MembersError(m, k, opp).None? && MemberError(m, k, opp).None?
    ensures MembersError(m, k + 1, opp).None?
    ensures Kept(m, k, opp) ==>
      (ApplyFrom(t, MatchEvents(m, k + 1, opp), inject) ==
         AddEvent(ApplyFrom(t, MatchEvents(m, k, opp), inject), Event(m, m.members[k]), inject))
    ensures !Kept(m, k, opp) ==> MatchEvents(m, k + 1, opp) == MatchEvents(m, k, opp)
  {
    var evs := MatchEvents(m, k, opp);
    if Kept(m, k, opp) {
      var e := Event(m, m.members[k]);
      assert MatchEvents(m, k + 1, opp) == evs + [e];
      assert (evs + [e])[..|evs|] == evs;
    } else {
      assert evs + [] == evs;
    }
  }

  /** One more match: its events follow those of the matches before it. */
  lemma {:induction false} EventsStep(l: seq<QueryMatch>, opp: Option<int>, j: nat)
    requires j < |l|
    ensures Events(l[..j + 1], opp) == Events(l[..j], opp) + MatchEvents(l[j], |l[j].members|, opp)
  {
    var pre := l[..j + 1];
    assert pre[..j] == l[..j] && pre[j] == l[j];
  }

  /** One more match adds to the running totals. */
  lemma {:induction false} TotalsStep(l: seq<QueryMatch>, j: nat)
    requires j < |l|
    ensures Games(l[..j + 1]) == Games(l[..j]) + (if l[j].isDecay then 0 else 1)
    ensures RankedGames(l[..j + 1]) == RankedGames(l[..j]) + (if IsRealRanked(l[j]) then 1 else 0)
  {
    assert l[..j + 1][..j] == l[..j];
  }

  /** The running totals count the non-decay and the real ranked matches. */
  lemma {:induction false} TotalsCount(l: seq<QueryMatch>)
    ensures Games(l) == |Filter(l, NotDecay())| && RankedGames(l) == |Filter(l, RealRanked())|
    decreases |l|
  {
    if l != [] {
      TotalsCount(l[..|l| - 1]);
      FilterLast(l, NotDecay());
      FilterLast(l, RealRanked());
    }
  }

  /** Members `0..k` of `m` raised nothing, and the table went from `t0`
      to `t` by their events. */
  ghost predicate Through(t0: Table, t: Table, m: QueryMatch, k: nat, opp: Option<int>, inject: set<string>) {
    k <= |m.members| && MembersError(m, k, opp).None? && t == ApplyFrom(t0, MatchEvents(m, k, opp), inject)
  }

  /** Matches `0..j` of `l` raised nothing, and built table `t` and the
      totals. */
  ghost predicate MatchesRead(l: seq<QueryMatch>, j: nat, opp: Option<int>, inject: set<string>,
                              t: Table, games: int, ranked: int) {
    j <= |l| && (forall k :: 0 <= k < j ==> MatchError(l[k], opp).None?) &&
    t == ApplyFrom(EMPTY, Events(l[..j], opp), inject) && games == Games(l[..j]) && ranked == RankedGames(l[..j])
  }

  /** The first `i` players of `t`'s order hold their `target` value, the
      others are as they were. */
  ghost predicate CommittedUpTo(t: Table, i: nat, ps: map<string, Stats>, target: map<string, Stats>)
    requires Listed(t)
  {
    i <= |t.order| && ps.Keys == t.players.Keys && target.Keys == t.players.Keys &&
    (forall k :: 0 <= k < i ==> ps[t.order[k]] == target[t.order[k]]) &&
    (forall k :: i <= k < |t.order| ==> ps[t.order[k]] == t.players[t.order[k]])
  }

  /** Once every player of the order is done, all of them are. */
  lemma {:induction false} CommittedAll(t: Table, ps: map<string, Stats>, target: map<string, Stats>)
    requires TableOk(t) && CommittedUpTo(t, |t.order|, ps, target)
    ensures ps == target
  {
    forall v | v in ps ensures ps[v] == target[v] {
      assert PlayerOk(t, v);
      var k :| 0 <= k < |t.order| && t.order[k] == v;
    }
  }

  /** The next player of the order is still as it was, and committing it
      gives its value in `CommitAll`. */
  lemma {:induction false} CommitNext(t: Table, i: nat, ps: map<string, Stats>)
    requires TableOk(t) && i < |t.order| && CommittedUpTo(t, i, ps, CommitAll(t.players))
    ensures CommitRankedOf(ps[t.order[i]]) == Ok(CommitAll(t.players)[t.order[i]])
  {
    var u := t.order[i];
    assert PlayerOk(t, u);
    CommitShaped(ps[u]);
  }

  /** Setting the next player of the order to its target keeps the others:
      each player is there once. */
  lemma {:induction false} CommitStep(t: Table, i: nat, ps: map<string, Stats>, target: map<string, Stats>)
    requires Distinct(t.order) && Listed(t) && i < |t.order| && CommittedUpTo(t, i, ps, target)
    ensures CommittedUpTo(t, i + 1, ps[t.order[i] := target[t.order[i]]], target)
  {
    var u := t.order[i];
    var next := ps[u := target[u]];
    forall k | 0 <= k < i ensures next[t.order[k]] == ps[t.order[k]] {
      assert t.order[k] != u;
    }
    forall k | i < k < |t.order| ensures next[t.order[k]] == t.players[t.order[k]] {
      assert t.order[k] != u;
    }
  }

  /** A member whose opponent's elo is below the threshold contributes no
      event, and so does not touch any player. */
  lemma {:induction false} ThresholdSkips(m: QueryMatch, opp: Option<int>, k: nat)
    requires k < |m.members| && Paired(m, opp)
    requires m.members[1 - k].elo.Some? && m.members[1 - k].elo.value < opp.value
    requires m.members[0] != m.members[1]
    ensures Event(m, m.members[k]) !in MatchEvents(m, |m.members|, opp)
  {
    MatchEventsSpec(m, |m.members|, opp);
    forall j | 0 <= j < 2 && Kept(m, j, opp) ensures Event(m, m.members[k]) != Event(m, m.members[j]) {
    }
  }

  // ---------------------------------------------------------------------
  // Queries on the players, in the manager's order

  /** The `mg`/`wg` checks from type `t` on: each type up to 4 that the
      threshold dict names is read from the counter. An int counter cannot
      be indexed (TypeError); a dict missing the type raises KeyError. Every
      named type is read before `all` looks at the results. */
  function MeetsFrom(c: Counter, d: map<int, int>, t: int): Result<bool>
    decreases 5 - t
  {
    if t > 4 then Ok(true)
    else if t !in d then MeetsFrom(c, d, t + 1)
    else
      var here :-
        if c.Flat? then Raise(TypeError, "'int' object is not subscriptable")
        else if t !in c.m then Raise(KeyError, IntToString(t))
        else Ok(c.m[t] >= d[t]);
      var rest :- MeetsFrom(c, d, t + 1);
      Ok(here && rest)
  }

  /** On a dict counter over the four types the check never raises. */
  lemma {:induction false} MeetsFromOk(c: Counter, d: map<int, int>, t: int)
    requires HasTypes(c) && t >= 1
    ensures MeetsFrom(c, d, t).Ok?
    decreases 5 - t
  {
    if t <= 4 {
      MeetsFromOk(c, d, t + 1);
    }
  }

  /** On a dict counter over the four types the check never raises, and
      holds exactly when every named type meets its threshold. */
  lemma {:induction false} MeetsFromSpec(c: Counter, d: map<int, int>, t: int)
    requires HasTypes(c) && t >= 1
    ensures MeetsFrom(c, d, t).Ok?
    ensures MeetsFrom(c, d, t).value <==> forall k :: t <= k <= 4 && k in d ==> c.m[k] >= d[k]
    decreases 5 - t
  {
    if t <= 4 {
      MeetsFromSpec(c, d, t + 1);
    }
  }

  function Meets(c: Counter, d: map<int, int>): Result<bool> {
    MeetsFrom(c, d, 1)
  }

  /** `filtered(min_games, win_games, f)`: the players, in order, that have
      played and won at least the given numbers of games per type and
      satisfy `f`; the wins check and `f` are reached only for players
      that passed the checks before them. */
  function Filtered(rows: seq<Stats>, md: map<int, int>, wd: map<int, int>, f: Stats -> bool): (r: Result<seq<Stats>>)
    ensures r.Ok? ==> |r.value| <= |rows|
  {
    if rows == [] then Ok([])
    else
      var prior :- Filtered(rows[..|rows| - 1], md, wd, f);
      var s := rows[|rows| - 1];
      var mg :- Meets(s.tallies.playedPer, md);
      if !mg then Ok(prior)
      else
        var wg :- Meets(s.tallies.wins, wd);
        Ok(prior + (if wg && f(s) then [s] else []))
  }

  function Qualifies(md: map<int, int>, wd: map<int, int>, f: Stats -> bool): Stats -> bool {
    (s: Stats) => Meets(s.tallies.playedPer, md) == Ok(true) && Meets(s.tallies.wins, wd) == Ok(true) && f(s)
  }

  /** On a player not yet committed, `Qualifies` is exactly: at least the
      threshold of games played and of games won at every type the two
      dicts name, and `f`. */
  lemma {:induction false} QualifiesSpec(md: map<int, int>, wd: map<int, int>, f: Stats -> bool, s: Stats)
    requires Shaped(s.tallies)
    ensures Qualifies(md, wd, f)(s) <==>
      (forall k :: 1 <= k <= 4 && k in md ==> s.tallies.playedPer.m[k] >= md[k]) &&
      (forall k :: 1 <= k <= 4 && k in wd ==> s.tallies.wins.m[k] >= wd[k]) && f(s)
  {
    MeetsFromSpec(s.tallies.playedPer, md, 1);
    MeetsFromSpec(s.tallies.wins, wd, 1);
  }

  /** Before `commit_ranked`, `filtered` never raises and keeps, in order,
      exactly the players that satisfy `Qualifies`. */
  lemma {:induction false} FilteredSpec(rows: seq<Stats>, md: map<int, int>, wd: map<int, int>, f: Stats -> bool)
    requires forall i :: 0 <= i < |rows| ==> Shaped(rows[i].tallies)
    ensures Filtered(rows, md, wd, f) == Ok(Filter(rows, Qualifies(md, wd, f)))
    decreases |rows|
  {
    if rows != [] {
      FilteredSpec(rows[..|rows| - 1], md, wd, f);
      FilteredStep(rows, md, wd, f);
    }
  }

  /** The inductive step of `FilteredSpec`: the last player. */
  lemma {:induction false} FilteredStep(rows: seq<Stats>, md: map<int, int>, wd: map<int, int>, f: Stats -> bool)
    requires rows != [] && Shaped(rows[|rows| - 1].tallies)
    requires Filtered(rows[..|rows| - 1], md, wd, f) == Ok(Filter(rows[..|rows| - 1], Qualifies(md, wd, f)))
    ensures Filtered(rows, md, wd, f) == Ok(Filter(rows, Qualifies(md, wd, f)))
  {
    var n := |rows|;
    var s, init := rows[n - 1], rows[..n - 1];
    var q := Qualifies(md, wd, f);
    FilterLast(rows, q);
    MeetsFromOk(s.tallies.playedPer, md, 1);
    MeetsFromOk(s.tallies.wins, wd, 1);
    var mg, wg := Meets(s.tallies.playedPer, md).value, Meets(s.tallies.wins, wd).value;
    assert q(s) == (mg && wg && f(s));
    assert Filter(init, q) + [] == Filter(init, q);
  }

  function NickIs(nick: string): Stats -> bool {
    (s: Stats) => Lower(s.nick) == Lower(nick)
  }

  /** `lookup(nick)`: the first player whose nick matches ignoring case;
      KeyError when there is none. */
  function LookupNick(rows: seq<Stats>, nick: string): (r: Result<Stats>)
    ensures r.Err? <==> forall i :: 0 <= i < |rows| ==> Lower(rows[i].nick) != Lower(nick)
    ensures r.Err? ==> r.error.kind == KeyError
    ensures r.Ok? ==> exists i :: 0 <= i < |rows| && r.value == rows[i] && Lower(rows[i].nick) == Lower(nick) &&
                                 forall j :: 0 <= j < i ==> Lower(rows[j].nick) != Lower(nick)
  {
    match FirstIndex(rows, NickIs(nick))
    case None => Raise(KeyError, Lower(nick) + " not in players")
    case Some(i) => Ok(rows[i])
  }

  /** Looking a player up by any casing of its nick finds the same player. */
  lemma {:induction false} LookupIgnoresCase(rows: seq<Stats>, a: string, b: string)
    requires Lower(a) == Lower(b)
    ensures LookupNick(rows, a).Ok? == LookupNick(rows, b).Ok?
    ensures LookupNick(rows, a).Ok? ==> LookupNick(rows, a) == LookupNick(rows, b)
  {
    FirstIndexAgree(rows, rows, NickIs(a), NickIs(b));
  }

  /** The players of a roster in the order they were met
      (`players.values()`). */
  function Rows(r: Roster): seq<Stats>
    requires forall i :: 0 <= i < |r.order| ==> r.order[i] in r.players
  {
    seq(|r.order|, i requires 0 <= i < |r.order| => r.players[r.order[i]])
  }

  // ---------------------------------------------------------------------
  // The objects

  /** `Player`: the fields the manager updates in place. The seven per-type
      counters (`played_per`, `time_per`, `ff_losses`, `ff_wins`, `wins`,
      `losses`, `draws`) are kept together in `tallies`. */
  class Player {
    var nick: string
    const uuid: string
    var latest: int
    var elo: Option<int>
    var history: map<int, Option<int>>
    var historyMissing: nat
    var tallies: Tallies
    var decayed: nat
    var matchCompletions: nat
    var timeCompletions: int
    var pb: Option<int>
    var dynamic: map<string, seq<int>>
    var rankedMode: bool

    function Snapshot(): Stats
      reads this
    {
      Stats(nick, uuid, latest, elo, history, historyMissing, tallies, decayed,
            matchCompletions, timeCompletions, pb, dynamic, rankedMode)
    }

    constructor (nick: string, uuid: string, latest: int, elo: Option<int>)
      ensures Snapshot() == NewStats(nick, uuid, latest, elo)
    {
      this.nick := nick;
      this.uuid := uuid;
      this.latest := latest;
      this.elo := elo;
      if elo == Some(-1) {
        this.elo := None;
      }
      history, historyMissing := map[], 0;
      tallies, decayed := NO_TALLIES, 0;
      matchCompletions, timeCompletions, pb := 0, 0, None;
      dynamic, rankedMode := map[], false;
    }

    /** The body of the manager's member loop for this player. */
    method Record(m: QueryMatch, mem: Member, inject: set<string>)
      requires Shaped(tallies) && Countable(m) && mem.uuid == uuid
      modifies this
      ensures Snapshot() == Recorded(old(Snapshot()), m, mem, inject)
    {
      Refresh(m, mem);
      AddHistory(m, mem);
      if !m.isDecay {
        Play(m);
      } else {
        decayed := decayed + 1;
      }
      Inject(m, inject);
    }

    /** A newer match refreshes the nick and the elo. */
    method Refresh(m: QueryMatch, mem: Member)
      modifies this`nick, this`elo, this`latest
      ensures Snapshot() == Refreshed(old(Snapshot()), m, mem)
    {
      if latest < m.date {
        nick := mem.user;
        elo := mem.eloAfter;
        if elo == Some(-1) {
          elo := None;
        }
        latest := m.date;
      }
    }

    /** The elo history. */
    method AddHistory(m: QueryMatch, mem: Member)
      modifies this`history, this`historyMissing
      ensures Snapshot() == Historied(old(Snapshot()), m, mem)
    {
      if m.hasElos {
        history := history[m.date := mem.eloAfter];
      } else {
        historyMissing := historyMissing + 1;
      }
    }

    /** The counters and completions of a non-decay match. */
    method Play(m: QueryMatch)
      requires Shaped(tallies) && !m.isDecay && IsType(m.matchType)
      modifies this`tallies, this`matchCompletions, this`timeCompletions, this`pb
      ensures Snapshot() == Counted(old(Snapshot()), m, uuid)
    {
      ghost var s0 := Snapshot();
      Count(m.matchType, m.duration, uuid == m.winner, m.winner == DRAW, m.isFF);
      if uuid == m.winner && !m.isFF {
        Complete(m.duration);
      }
      CountedParts(s0, m, uuid);
    }

    /** One game of type `t`: played and time, then a (forfeit) win, a
        (forfeit) loss or a draw. */
    method Count(t: int, d: int, won: bool, drawn: bool, ff: bool)
      requires Shaped(tallies) && IsType(t)
      modifies this`tallies
      ensures tallies == Tally(old(tallies), t, d, won, drawn, ff)
    {
      tallies := tallies.(playedPer := Bump(tallies.playedPer, t, 1));
      tallies := tallies.(timePer := Bump(tallies.timePer, t, d));
      if won {
        if ff {
          tallies := tallies.(ffWins := Bump(tallies.ffWins, t, 1));
        }
        tallies := tallies.(wins := Bump(tallies.wins, t, 1));
      } else if !drawn {
        if ff {
          tallies := tallies.(ffLosses := Bump(tallies.ffLosses, t, 1));
        }
        tallies := tallies.(losses := Bump(tallies.losses, t, 1));
      } else {
        tallies := tallies.(draws := Bump(tallies.draws, t, 1));
      }
    }

    /** A completed win of duration `d`. */
    method Complete(d: int)
      modifies this`matchCompletions, this`timeCompletions, this`pb
      ensures matchCompletions == old(matchCompletions) + 1
      ensures timeCompletions == old(timeCompletions) + d
      ensures pb == Some(if old(pb).Some? then Min(old(pb).value, d) else d)
    {
      matchCompletions := matchCompletions + 1;
      timeCompletions := timeCompletions + d;
      pb := Some(if pb.Some? then Min(pb.value, d) else d);
    }

    /** The injected per-player lists. */
    method Inject(m: QueryMatch, inject: set<string>)
      modifies this`dynamic
      ensures Snapshot() == Injected(old(Snapshot()), m, uuid, inject)
    {
      if NETHER in inject {
        if NETHER !in dynamic {
          dynamic := dynamic[NETHER := []];
        }
        var e := Earliest(m, ENTER_NETHER, Some(uuid));
        if e.Some? {
          dynamic := dynamic[NETHER := dynamic[NETHER] + [e.value.time]];
        }
      }
    }

    /** Before `commit_ranked` every counter is a dict over the four types. */
    ghost predicate Valid()
      reads this
    {
      rankedMode || Shaped(tallies)
    }

    /** `commit_ranked()`: the assertion, then each counter replaced by its
        type-2 entry. */
    method CommitRanked() returns (o: Outcome)
      requires Valid()
      modifies this
      ensures Valid()
      ensures o.Pass? <==> !old(rankedMode)
      ensures o.Fail? ==> o.error.kind == AssertionError && Snapshot() == old(Snapshot())
      ensures o.Pass? ==> Snapshot() == CommitRankedOf(old(Snapshot())).value
    {
      if rankedMode {
        return Fail(Error(AssertionError, ""));
      }
      ghost var s0 := Snapshot();
      CommitShaped(s0);
      rankedMode := true;
      tallies := tallies.(wins := Flat(tallies.wins.m[2]));
      tallies := tallies.(losses := Flat(tallies.losses.m[2]));
      tallies := tallies.(ffWins := Flat(tallies.ffWins.m[2]));
      tallies := tallies.(ffLosses := Flat(tallies.ffLosses.m[2]));
      tallies := tallies.(playedPer := Flat(tallies.playedPer.m[2]));
      tallies := tallies.(draws := Flat(tallies.draws.m[2]));
      FlattenShaped(s0.tallies);
      o := Pass;
    }
  }

  /** `PlayerManager`: the players by uuid, in the order they were met, and
      the two match totals. Each player is held as its `Stats`; the manager
      applies to it what `Player.Record` does to a `Player` in place. */
  class PlayerManager {
    var players: map<string, Stats>
    var order: seq<string>
    var gamesAdded: nat
    var rankedAdded: nat

    function Current(): Table
      reads this`players, this`order
    {
      Table(players, order)
    }

    function Result(): Roster
      reads this
    {
      Roster(players, order, gamesAdded, rankedAdded)
    }

    constructor ()
      ensures Current() == EMPTY && gamesAdded == 0 && rankedAdded == 0
    {
      players, order, gamesAdded, rankedAdded := map[], [], 0, 0;
    }

    /** The body of `PlayerManager(l, inject, no_unranked, args)` run on a
        fresh manager: the arguments, the matches in order, then the
        commit; it fails with the first error the source raises. */
    method Load(l: seq<QueryMatch>, inject: set<string>, noUnranked: bool, args: seq<(string, int)>)
      returns (o: Outcome)
      requires Current() == EMPTY && gamesAdded == 0 && rankedAdded == 0
      modifies this
      ensures o.Pass? <==> Build(l, inject, noUnranked, args).Ok?
      ensures o.Fail? ==> o.error == Build(l, inject, noUnranked, args).error
      ensures o.Pass? ==> Result() == Build(l, inject, noUnranked, args).value
    {
      var opp: Option<int>;
      o, opp := ReadArgs(args);
      if o.Fail? {
        return;
      }
      var bad := ReadMatches(l, opp, inject);
      if bad.Some? {
        o := Fail(MatchError(l[bad.value], opp).value);
        return;
      }
      assert l[..|l|] == l;
      TotalsCount(l);
      if noUnranked {
        ApplyFromOk(EMPTY, Events(l, opp), inject);
        CommitPlayers();
      }
    }

    /** The `args` loop. */
    static method ReadArgs(args: seq<(string, int)>) returns (o: Outcome, opp: Option<int>)
      ensures o.Pass? <==> ParseArgs(args).Ok?
      ensures o.Pass? ==> opp == ParseArgs(args).value
      ensures o.Fail? ==> o.error == ParseArgs(args).error
    {
      opp := None;
      var i := 0;
      while i < |args|
        invariant 0 <= i <= |args|
        invariant ParseArgs(args[..i]) == Ok(opp)
      {
        var (a, v) := args[i];
        assert args[..i + 1][..i] == args[..i];
        if a != OPPONENT_ABOVE {
          ParseArgsErrExtends(args, i + 1);
          return Fail(Error(RuntimeError, "players got unknown argument: " + a + "(" + IntToString(v) + ")")), opp;
        }
        opp := Some(v);
        i := i + 1;
      }
      assert args[..i] == args;
      o := Pass;
    }

    /** The matches loop: the index of the first match that raises, or the
        table and totals of all of them. */
    method ReadMatches(l: seq<QueryMatch>, opp: Option<int>, inject: set<string>) returns (bad: Option<nat>)
      requires Current() == EMPTY && gamesAdded == 0 && rankedAdded == 0
      modifies this
      ensures bad == FirstIndex(l, Raises(opp))
      ensures bad.None? ==> MatchesRead(l, |l|, opp, inject, Current(), gamesAdded, rankedAdded)
    {
      var j := 0;
      while j < |l|
        invariant MatchesRead(l, j, opp, inject, Current(), gamesAdded, rankedAdded)
      {
        var o := MatchTurn(l, j, opp, inject);
        if o.Fail? {
          return Some(j);
        }
        j := j + 1;
      }
      bad := None;
    }

    /** One turn of the matches loop. */
    method MatchTurn(l: seq<QueryMatch>, j: nat, opp: Option<int>, inject: set<string>) returns (o: Outcome)
      requires j < |l| && MatchesRead(l, j, opp, inject, Current(), gamesAdded, rankedAdded)
      modifies this
      ensures o.Fail? ==> MatchError(l[j], opp).Some?
      ensures o.Pass? ==> MatchesRead(l, j + 1, opp, inject, Current(), gamesAdded, rankedAdded)
    {
      o := MatchStep(l[j], opp, inject);
      if o.Pass? {
        EventsStep(l, opp, j);
        ApplyFromAppend(EMPTY, Events(l[..j], opp), MatchEvents(l[j], |l[j].members|, opp), inject);
        TotalsStep(l, j);
      }
    }

    /** One match: its members in order, then the totals. */
    method MatchStep(m: QueryMatch, opp: Option<int>, inject: set<string>) returns (o: Outcome)
      modifies this`players, this`order, this`gamesAdded, this`rankedAdded
      ensures o.Fail? <==> MatchError(m, opp).Some?
      ensures o.Fail? ==> o.error == MatchError(m, opp).value
      ensures o.Pass? ==> Through(old(Current()), Current(), m, |m.members|, opp, inject)
      ensures o.Pass? ==> gamesAdded == old(gamesAdded) + (if m.isDecay then 0 else 1)
      ensures o.Pass? ==> rankedAdded == old(rankedAdded) + (if IsRealRanked(m) then 1 else 0)
    {
      o := MembersStep(m, opp, inject);
      if o.Pass? {
        o := CountMatch(m);
      }
    }

    /** The members of one match, in order, until one of them raises. */
    method MembersStep(m: QueryMatch, opp: Option<int>, inject: set<string>) returns (o: Outcome)
      modifies this`players, this`order
      ensures o.Fail? <==> MembersError(m, |m.members|, opp).Some?
      ensures o.Fail? ==> o.error == MembersError(m, |m.members|, opp).value
      ensures o.Pass? ==> Through(old(Current()), Current(), m, |m.members|, opp, inject)
    {
      ghost var t0 := Current();
      var k := 0;
      o := Pass;
      while k < |m.members| && o.Pass?
        invariant k <= |m.members|
        invariant o.Pass? ==> Through(t0, Current(), m, k, opp, inject)
        invariant o.Fail? ==> MembersError(m, |m.members|, opp) == Some(o.error)
      {
        o := MemberTurn(m, k, opp, inject, t0);
        if o.Fail? {
          MembersErrorExtends(m, k + 1, |m.members|, opp);
        }
        k := k + 1;
      }
    }

    /** The totals after a match whose members all passed: a non-decay
        match is one more game, and a ranked one must have two members
        before it counts as a ranked game. */
    method CountMatch(m: QueryMatch) returns (o: Outcome)
      modifies this`gamesAdded, this`rankedAdded
      ensures o.Fail? <==> !m.isDecay && m.matchType == 2 && |m.members| != 2
      ensures o.Fail? ==> o.error == Error(AssertionError, "")
      ensures gamesAdded == old(gamesAdded) + (if m.isDecay then 0 else 1)
      ensures o.Pass? ==> rankedAdded == old(rankedAdded) + (if IsRealRanked(m) then 1 else 0)
    {
      if !m.isDecay {
        gamesAdded := gamesAdded + 1;
        if m.matchType == 2 {
          if |m.members| != 2 {
            return Fail(Error(AssertionError, ""));
          }
          rankedAdded := rankedAdded + 1;
        }
      }
      o := Pass;
    }

    /** One turn of the members loop. */
    method MemberTurn(m: QueryMatch, k: nat, opp: Option<int>, inject: set<string>, ghost t0: Table)
      returns (o: Outcome)
      requires k < |m.members| && Through(t0, Current(), m, k, opp, inject)
      modifies this`players, this`order
      ensures o.Fail? ==> MembersError(m, k + 1, opp) == Some(o.error)
      ensures o.Pass? ==> Through(t0, Current(), m, k + 1, opp, inject)
    {
      o := MemberStep(m, k, opp, inject);
      if o.Pass? {
        MemberEvents(t0, m, k, opp, inject);
      }
    }

    /** One member of a match: the threshold check, then the player
        (created when new) records the match. */
    method MemberStep(m: QueryMatch, k: nat, opp: Option<int>, inject: set<string>) returns (o: Outcome)
      requires k < |m.members|
      modifies this`players, this`order
      ensures o == (if MemberError(m, k, opp).Some? then Fail(MemberError(m, k, opp).value) else Pass)
      ensures o.Pass? && Kept(m, k, opp) ==> Current() == AddEvent(old(Current()), Event(m, m.members[k]), inject)
      ensures o.Pass? && !Kept(m, k, opp) ==> Current() == old(Current())
    {
      var mem := m.members[k];
      if |m.members| == 2 && opp.Some? {
        var other := m.members[1 - k];
        if other.uuid == mem.uuid {
          return Fail(Error(AssertionError, ""));
        }
        if other.elo.None? {
          return Fail(Error(AssertionError, ""));
        }
        if other.elo.value < opp.value {
          return Pass;
        }
      }
      if !m.isDecay && !IsType(m.matchType) {
        return Fail(Error(KeyError, IntToString(m.matchType)));
      }
      Apply(Event(m, mem), inject);
      o := Pass;
    }

    /** The member's player, created when new, records the match. */
    method Apply(e: Event, inject: set<string>)
      modifies this`players, this`order
      ensures Current() == AddEvent(old(Current()), e, inject)
    {
      var u := e.mem.uuid;
      var prior: Stats;
      if u !in players {
        prior := NewStats(e.mem.user, u, e.m.date, e.mem.eloAfter);
        order := order + [u];
      } else {
        prior := players[u];
      }
      players := players[u := Recorded(prior, e.m, e.mem, inject)];
    }

    /** `for p in self.players.values(): p.commit_ranked()`. */
    method CommitPlayers()
      requires TableOk(Current())
      modifies this`players
      ensures players == CommitAll(old(players))
    {
      ghost var t := Current();
      var i := 0;
      while i < |order|
        invariant CommittedUpTo(t, i, players, CommitAll(t.players))
      {
        CommitOne(i, t);
        i := i + 1;
      }
      CommittedAll(t, players, CommitAll(t.players));
    }

    /** One turn of the commit loop. */
    method CommitOne(i: nat, ghost t: Table)
      requires TableOk(t) && i < |order| && order == t.order && CommittedUpTo(t, i, players, CommitAll(t.players))
      modifies this`players
      ensures CommittedUpTo(t, i + 1, players, CommitAll(t.players))
    {
      CommitNext(t, i, players);
      CommitStep(t, i, players, CommitAll(t.players));
      players := players[order[i] := CommitRankedOf(players[order[i]]).value];
    }
  }
}
