/** Match records and the attribute extraction protocol (klunk/match.py).

    A record answers a query for attribute `k` with its field `k` when it has
    one, else with the result of its derived accessor `rql_<k>`, else with
    the `ExtractFailure` sentinel. Names starting with `_` never resolve. */
module Match {
  import opened Wrappers
  import opened Strs
  import opened Seqs
  import opened Sorting

  /** A completed match shorter than this many milliseconds, played before
      season 2, is flagged abnormal. */
  const ABNORMAL_MATCH_MS := 7 * 60 * 1000

  /** The winner recorded for a match without one. */
  const DRAW := "__draw"

  /** `type_str(t)`: the name of match type `t`; other numbers raise KeyError. */
  function TypeStr(t: int): (r: Result<string>)
    ensures r.Ok? <==> 1 <= t <= 4
  {
    if t == 1 then Ok("Casual")
    else if t == 2 then Ok("Ranked")
    else if t == 3 then Ok("Private")
    else if t == 4 then Ok("Event")
    else Raise(KeyError, IntToString(t))
  }

  /** `type_int(t)`: the number of a match type name, ignoring case; other
      names raise KeyError. */
  function TypeInt(t: string): (r: Result<int>)
    ensures r.Ok? ==> 1 <= r.value <= 4
  {
    var k := Lower(t);
    if k == "casual" then Ok(1)
    else if k == "ranked" then Ok(2)
    else if k == "private" then Ok(3)
    else if k == "event" then Ok(4)
    else Raise(KeyError, "'" + k + "'")
  }

  /** `type_int` inverts `type_str` on the four match types. */
  lemma {:induction false} TypeIntOfTypeStr(t: int)
    requires 1 <= t <= 4
    ensures TypeStr(t).Ok? && TypeInt(TypeStr(t).value) == Ok(t)
  {
    assert Lower("Casual") == "casual";
    assert Lower("Ranked") == "ranked";
    assert Lower("Private") == "private";
    assert Lower("Event") == "event";
  }

  /** And `type_str` inverts `type_int` up to case. */
  lemma {:induction false} TypeStrOfTypeInt(s: string)
    requires TypeInt(s).Ok?
    ensures TypeStr(TypeInt(s).value).Ok?
    ensures Lower(TypeStr(TypeInt(s).value).value) == Lower(s)
  {
    TypeIntOfTypeStr(TypeInt(s).value);
  }

  lemma {:induction false} LowerIdempotent(s: string)
    ensures Lower(Lower(s)) == Lower(s)
  {
  }

  /** `type_int` ignores case. */
  lemma {:induction false} TypeIntIgnoresCase(s: string)
    ensures TypeInt(s) == TypeInt(Lower(s))
  {
    LowerIdempotent(s);
  }

  /** One player of a match (`MatchMember`); the three elo fields stay
      `None` until a score change is applied. */
  datatype Member = Member(uuid: string, user: string, badge: int, oldElo: int, oldRank: int,
                           elo: Option<int>, change: Option<int>, eloAfter: Option<int>)

  /** One timeline event: milliseconds into the match, the event id and the
      player's uuid. */
  datatype Timeline = Timeline(time: int, id: string, uuid: string)

  /** A match as the query language sees it. `winner` is a uuid, or `DRAW`. */
  datatype QueryMatch = QueryMatch(
    id: int, seedType: Option<string>, matchType: int, winner: string, members: seq<Member>,
    duration: int, isFF: bool, season: int, date: int, isDecay: bool, timelines: seq<Timeline>,
    scored: bool, hasElos: bool, wasFixed: bool, isAbnormal: bool)

  /** The Python values the query language passes around. `VUuid` is a
      `UUID` (a `str` subclass), `VMembers` a `UUIDList`, `VTimelines` a
      `TimelineList`, `VFailure` the `ExtractFailure` class; `VObject` stands
      for any other object, which the core only passes along. `VTime` is a
      `Milliseconds` or `Seconds`: an `int` subclass that compares, orders
      and tests like its number but is not of type `int`. */
  datatype Value =
    | VNone
    | VBool(b: bool)
    | VInt(i: int)
    | VTime(count: int, unit: TimeUnit)
    | VStr(s: string)
    | VUuid(u: string)
    | VTuple(items: seq<Value>)
    | VList(items: seq<Value>)
    | VDict(entries: seq<(Value, Value)>)
    | VMembers(ms: seq<Member>)
    | VTimelines(tls: seq<Timeline>)
    | VMember(m: Member)
    | VTimeline(t: Timeline)
    | VMatch(q: QueryMatch)
    | VFailure
    | VObject(kind: string)

  /** The two `int` subclasses that hold times. */
  datatype TimeUnit = Millis | Secs

  /** Python truthiness. */
  predicate Truthy(v: Value) {
    match v
    case VNone => false
    case VBool(b) => b
    case VInt(i) => i != 0
    case VTime(t, _) => t != 0
    case VStr(s) => s != []
    case VUuid(u) => u != []
    case VTuple(items) => items != []
    case VList(items) => items != []
    case VDict(entries) => entries != []
    case VMembers(ms) => ms != []
    case VTimelines(tls) => tls != []
    case _ => true
  }

  function OptInt(o: Option<int>): Value {
    if o.None? then VNone else VInt(o.value)
  }

  /** The `__slots__` of each record. */
  const MEMBER_SLOTS := ["uuid", "user", "badge", "old_elo", "old_rank", "elo", "change", "elo_after"]
  const TIMELINE_SLOTS := ["time", "id", "uuid"]
  const MATCH_SLOTS := ["id", "seed_type", "type", "winner", "members", "duration", "is_ff", "season",
                        "date", "is_decay", "timelines", "scored", "has_elos", "was_fixed", "is_abnormal"]
  /** The names `k` for which a match has an `rql_<k>` accessor. */
  const MATCH_DERIVED := ["is_draw", "loser", "winner", "completed", "is_completed"]

  /** `k.startswith('_')`: names that extraction never resolves. */
  predicate Hidden(k: string) {
    k != [] && k[0] == '_'
  }

  predicate IsRecord(r: Value) {
    r.VMember? || r.VTimeline? || r.VMatch?
  }

  function Slots(r: Value): seq<string>
    requires IsRecord(r)
  {
    if r.VMember? then MEMBER_SLOTS else if r.VTimeline? then TIMELINE_SLOTS else MATCH_SLOTS
  }

  /** `getattr(r, k)` for a slot `k` of record `r`. */
  function FieldOf(r: Value, k: string): (v: Option<Value>)
    requires IsRecord(r)
    ensures v.Some? <==> k in Slots(r)
    ensures v.Some? ==> v.value != VFailure
  {
    match r
    case VMember(m) =>
      if k == "uuid" then Some(VUuid(m.uuid))
      else if k == "user" then Some(VStr(m.user))
      else if k == "badge" then Some(VInt(m.badge))
      else if k == "old_elo" then Some(VInt(m.oldElo))
      else if k == "old_rank" then Some(VInt(m.oldRank))
      else if k == "elo" then Some(OptInt(m.elo))
      else if k == "change" then Some(OptInt(m.change))
      else if k == "elo_after" then Some(OptInt(m.eloAfter))
      else None
    case VTimeline(t) =>
      if k == "time" then Some(VTime(t.time, Millis))
      else if k == "id" then Some(VStr(t.id))
      else if k == "uuid" then Some(VUuid(t.uuid))
      else None
    case VMatch(q) => MatchField(q, k)
  }

  function MatchField(q: QueryMatch, k: string): (v: Option<Value>)
    ensures v.Some? <==> k in MATCH_SLOTS
    ensures v.Some? ==> v.value != VFailure
  {
    if k == "id" then Some(VInt(q.id))
    else if k == "seed_type" then Some(if q.seedType.None? then VNone else VStr(q.seedType.value))
    else if k == "type" then Some(VInt(q.matchType))
    else if k == "winner" then Some(VUuid(q.winner))
    else if k == "members" then Some(VMembers(q.members))
    else if k == "duration" then Some(if q.wasFixed then VInt(q.duration) else VTime(q.duration, Millis))
    else if k == "is_ff" then Some(VBool(q.isFF))
    else if k == "season" then Some(VInt(q.season))
    else if k == "date" then Some(VTime(q.date, Secs))
    else if k == "is_decay" then Some(VBool(q.isDecay))
    else if k == "timelines" then Some(VTimelines(q.timelines))
    else if k == "scored" then Some(VBool(q.scored))
    else if k == "has_elos" then Some(VBool(q.hasElos))
    else if k == "was_fixed" then Some(VBool(q.wasFixed))
    else if k == "is_abnormal" then Some(VBool(q.isAbnormal))
    else None
  }

  /** `rql_completed` (and `rql_is_completed`): neither a draw nor a forfeit. */
  predicate Completed(q: QueryMatch) {
    q.winner != DRAW && !q.isFF
  }

  /** `UUIDList.get(uuid)`: the first member with that uuid. */
  function MembersGet(ms: seq<Member>, uuid: string): (r: Option<Member>)
    ensures r.Some? ==> exists i :: 0 <= i < |ms| && ms[i] == r.value && ms[i].uuid == uuid &&
                                    forall j :: 0 <= j < i ==> ms[j].uuid != uuid
    ensures r.None? <==> forall i :: 0 <= i < |ms| ==> ms[i].uuid != uuid
  {
    var i := MemberIndex(ms, uuid);
    if i.None? then None else Some(ms[i.value])
  }

  /** `get_other_member(uuid)`: the first member with a different uuid. */
  function OtherMember(ms: seq<Member>, uuid: string): (r: Option<Member>)
    ensures r.Some? ==> r.value in ms && r.value.uuid != uuid
    ensures r.None? <==> forall i :: 0 <= i < |ms| ==> ms[i].uuid == uuid
    decreases |ms|
  {
    if ms == [] then None
    else if ms[0].uuid != uuid then Some(ms[0])
    else OtherMember(ms[1..], uuid)
  }

  /** `rql_<k>()` of a match, for the `k` that have one; `rql_winner` and
      `rql_loser` raise ValueError when there is no such member. */
  function MatchDerived(q: QueryMatch, k: string): (r: Option<Result<Value>>)
    ensures r.Some? <==> k in MATCH_DERIVED
    ensures r.Some? && r.value.Ok? ==> r.value.value != VFailure
  {
    if k == "is_draw" then Some(Ok(VBool(q.winner == DRAW)))
    else if k == "loser" then
      var o := OtherMember(q.members, q.winner);
      Some(if o.None? then Raise(ValueError, "Could not find other uuid for " + q.winner + " in match ID " + IntToString(q.id))
           else Ok(VMember(o.value)))
    else if k == "winner" then
      var w := MembersGet(q.members, q.winner);
      Some(if w.None? then Raise(ValueError, "Could not find uuid " + q.winner + " in match ID " + IntToString(q.id))
           else Ok(VMember(w.value)))
    else if k == "completed" || k == "is_completed" then Some(Ok(VBool(Completed(q))))
    else None
  }

  /** `_extract(r, k)` on a member or a timeline, which have no accessors. */
  function PlainExtract(r: Value, k: string): Value
    requires r.VMember? || r.VTimeline?
  {
    if Hidden(k) then VFailure else FieldOf(r, k).GetOr(VFailure)
  }

  /** `_extract(q, k)` on a match: an accessor may raise. */
  function MatchAttr(q: QueryMatch, k: string): Result<Value> {
    if Hidden(k) then Ok(VFailure)
    else
      match MatchField(q, k)
      case Some(v) => Ok(v)
      case None => MatchDerived(q, k).GetOr(Ok(VFailure))
  }

  /** A member or timeline yields the sentinel exactly for names starting
      with `_` and names that are not among its slots. */
  lemma {:induction false} PlainExtractFails(r: Value, k: string)
    requires r.VMember? || r.VTimeline?
    ensures PlainExtract(r, k) == VFailure <==> Hidden(k) || k !in Slots(r)
    ensures !Hidden(k) && k in Slots(r) ==> PlainExtract(r, k) == FieldOf(r, k).value
  {
  }

  /** A match yields the sentinel exactly for names starting with `_` and
      names that are neither a slot nor an accessor; a slot shadows the
      accessor of the same name. */
  lemma {:induction false} MatchAttrFails(q: QueryMatch, k: string)
    ensures MatchAttr(q, k) == Ok(VFailure) <==>
            Hidden(k) || (k !in MATCH_SLOTS && k !in MATCH_DERIVED)
    ensures !Hidden(k) && k in MATCH_SLOTS ==> MatchAttr(q, k) == Ok(MatchField(q, k).value)
  {
  }

  /** `winner` is a slot, so extracting it gives the uuid and never runs
      `rql_winner`. */
  lemma {:induction false} WinnerIsTheSlot(q: QueryMatch)
    ensures MatchAttr(q, "winner") == Ok(VUuid(q.winner))
  {
  }

  /** The derived booleans: `is_draw` and `completed`. */
  lemma {:induction false} DerivedFlags(q: QueryMatch)
    ensures MatchAttr(q, "is_draw") == Ok(VBool(q.winner == DRAW))
    ensures MatchAttr(q, "completed") == Ok(VBool(q.winner != DRAW && !q.isFF))
    ensures MatchAttr(q, "is_completed") == MatchAttr(q, "completed")
  {
  }

  function MemberValues(ms: seq<Member>): (r: seq<Value>)
    ensures |r| == |ms| && forall i :: 0 <= i < |ms| ==> r[i] == VMember(ms[i])
  {
    seq(|ms|, i requires 0 <= i < |ms| => VMember(ms[i]))
  }

  function TimelineValues(tls: seq<Timeline>): (r: seq<Value>)
    ensures |r| == |tls| && forall i :: 0 <= i < |tls| ==> r[i] == VTimeline(tls[i])
  {
    seq(|tls|, i requires 0 <= i < |tls| => VTimeline(tls[i]))
  }

  /** `_lextract(tl, k)`: `None` for an empty list or when the first element
      has no such attribute, else one extraction per element. */
  function LExtract(tl: seq<Value>, k: string): (r: Value)
    requires forall i :: 0 <= i < |tl| ==> tl[i].VMember? || tl[i].VTimeline?
    ensures r.VNone? || r.VList?
    ensures r.VNone? <==> tl == [] || PlainExtract(tl[0], k) == VFailure
    ensures r.VList? ==> |r.items| == |tl| && forall i :: 0 <= i < |tl| ==> r.items[i] == PlainExtract(tl[i], k)
  {
    if tl == [] || PlainExtract(tl[0], k) == VFailure then VNone
    else VList(seq(|tl|, i requires 0 <= i < |tl| => PlainExtract(tl[i], k)))
  }

  /** `QueryMatch.extract(k)`: the match's own attribute, else the members'
      attribute, else the timelines'. */
  function MatchExtract(q: QueryMatch, k: string): Result<Value> {
    var ex :- MatchAttr(q, k);
    if ex != VFailure then Ok(ex)
    else
      var fromMembers := LExtract(MemberValues(q.members), k);
      if Truthy(fromMembers) then Ok(fromMembers) else Ok(LExtract(TimelineValues(q.timelines), k))
  }

  /** A name that is a member slot but not a match attribute gives the
      members' values, in member order. */
  lemma {:induction false} MatchExtractFromMembers(q: QueryMatch, k: string)
    requires q.members != [] && !Hidden(k)
    requires k in MEMBER_SLOTS && k !in MATCH_SLOTS && k !in MATCH_DERIVED
    ensures MatchExtract(q, k).Ok? && MatchExtract(q, k).value.VList?
    ensures var items := MatchExtract(q, k).value.items;
            |items| == |q.members| &&
            forall i :: 0 <= i < |items| ==> items[i] == FieldOf(VMember(q.members[i]), k).value
  {
    MatchAttrFails(q, k);
    var mv := MemberValues(q.members);
    PlainExtractFails(mv[0], k);
    forall i | 0 <= i < |mv| ensures PlainExtract(mv[i], k) == FieldOf(VMember(q.members[i]), k).value {
      PlainExtractFails(mv[i], k);
    }
  }

  /** `MatchMember.__getitem__` and `QueryMatch.__getitem__`. The latter
      knows six JSON key names and raises KeyError for others. */
  function MatchGetItem(q: QueryMatch, key: string): (r: Result<Value>)
    ensures r.Ok? <==> key in ["match_id", "match_season", "match_type", "forfeit", "is_decay", "winner"]
  {
    if key == "match_id" then Ok(VInt(q.id))
    else if key == "match_season" then Ok(VInt(q.season))
    else if key == "match_type" then Ok(VInt(q.matchType))
    else if key == "forfeit" then Ok(VBool(q.isFF))
    else if key == "is_decay" then Ok(VBool(q.isDecay))
    else if key == "winner" then Ok(VUuid(q.winner))
    else Raise(KeyError, "QueryMatch.__getitem__ requires support for key " + key)
  }

  /** Each JSON key reads the same value as the slot it was stored in. */
  lemma {:induction false} GetItemAgreesWithExtract(q: QueryMatch)
    ensures MatchGetItem(q, "match_id") == MatchAttr(q, "id")
    ensures MatchGetItem(q, "match_season") == MatchAttr(q, "season")
    ensures MatchGetItem(q, "match_type") == MatchAttr(q, "type")
  {
  }

  lemma {:induction false} GetItemAgreesOnFlags(q: QueryMatch)
    ensures MatchGetItem(q, "forfeit") == MatchAttr(q, "is_ff")
    ensures MatchGetItem(q, "is_decay") == MatchAttr(q, "is_decay")
    ensures MatchGetItem(q, "winner") == MatchAttr(q, "winner")
  {
  }

  /** The uuids of a member list, in order. */
  function Uuids(ms: seq<Member>): (r: seq<string>)
    ensures |r| == |ms| && forall i :: 0 <= i < |ms| ==> r[i] == ms[i].uuid
  {
    seq(|ms|, i requires 0 <= i < |ms| => ms[i].uuid)
  }

  /** `UUIDList.basic_repr()`: the sorted uuids, concatenated. */
  function BasicRepr(ms: seq<Member>): string {
    Join("", Sort(Uuids(ms), TextKey, false))
  }

  /** `UUIDList.__eq__`: two member lists are equal when their basic
      representations are. */
  predicate MembersEqual(a: seq<Member>, b: seq<Member>) {
    BasicRepr(a) == BasicRepr(b)
  }

  /** Member-list equality does not depend on the order of the members. */
  lemma {:induction false} MembersEqualIgnoresOrder(a: seq<Member>, b: seq<Member>)
    requires multiset(Uuids(a)) == multiset(Uuids(b))
    ensures MembersEqual(a, b)
  {
    SortStringsPermutation(Uuids(a), Uuids(b));
  }

  /** Member lists with the same uuids in another order are equal, even
      when nothing else about the members agrees. */
  lemma {:induction false} MembersEqualSwapped(x: Member, y: Member)
    ensures MembersEqual([x, y], [y, x])
  {
    assert Uuids([x, y]) == [x.uuid] + [y.uuid] && Uuids([y, x]) == [y.uuid] + [x.uuid];
    MembersEqualIgnoresOrder([x, y], [y, x]);
  }

  /** The timelines of one id keep the order of the list (`TimelineList.lookup`). */
  function HasId(id: string): Timeline -> bool {
    (t: Timeline) => t.id == id
  }

  function Group(tls: seq<Timeline>, id: string): seq<Timeline> {
    Filter(tls, HasId(id))
  }

  /** `TimelineList.__init__`: groups the timelines by id, each group in list
      order. */
  method BuildLookup(tls: seq<Timeline>) returns (lookup: map<string, seq<Timeline>>)
    ensures forall id :: id in lookup <==> exists j :: 0 <= j < |tls| && tls[j].id == id
    ensures forall id :: id in lookup ==> lookup[id] == Group(tls, id) && lookup[id] != []
  {
    lookup := map[];
    var i := 0;
    while i < |tls|
      invariant 0 <= i <= |tls|
      invariant forall id :: id in lookup <==> exists j :: 0 <= j < i && tls[j].id == id
      invariant forall id :: id in lookup ==> lookup[id] == Filter(tls[..i], HasId(id)) && lookup[id] != []
    {
      var tl := tls[i];
      assert tls[..i + 1] == tls[..i] + [tl];
      if tl.id !in lookup {
        forall k | 0 <= k < |tls[..i]| ensures !HasId(tl.id)(tls[..i][k]) {
        }
        FilterDropsAll(tls[..i], HasId(tl.id));
        lookup := lookup[tl.id := []];
      }
      lookup := lookup[tl.id := lookup[tl.id] + [tl]];
      forall id | id in lookup ensures lookup[id] == Filter(tls[..i + 1], HasId(id)) {
        FilterSnoc(tls[..i], tl, HasId(id));
      }
      i := i + 1;
    }
    assert tls[..i] == tls;
  }

  /** `TimelineList.all(id)`: the group of `id`, or nothing. */
  function AllOf(tls: seq<Timeline>, id: string): (r: seq<Timeline>)
    ensures IsSubseq(r, tls)
    ensures forall t :: t in r ==> t.id == id
  {
    FilterIsSubseq(tls, HasId(id));
    Group(tls, id)
  }

  /** `TimelineList.earlist_time(id)`: the time of the group's first entry. */
  function EarliestTime(tls: seq<Timeline>, id: string): (r: Option<int>)
    ensures r.None? <==> forall j :: 0 <= j < |tls| ==> tls[j].id != id
  {
    var g := Group(tls, id);
    GroupEmpty(tls, id);
    if g == [] then None else Some(g[0].time)
  }

  /** A group is empty exactly when no timeline has its id. */
  lemma {:induction false} GroupEmpty(tls: seq<Timeline>, id: string)
    ensures Group(tls, id) == [] <==> forall j :: 0 <= j < |tls| ==> tls[j].id != id
  {
    forall j | 0 <= j < |tls| && tls[j].id == id ensures tls[j] in Group(tls, id) {
      FilterKeepsElement(tls, HasId(id), j);
    }
    if forall j :: 0 <= j < |tls| ==> tls[j].id != id {
      FilterDropsAll(tls, HasId(id));
    }
  }

  function TimeKey(t: Timeline): SortKey {
    Num(t.time)
  }

  /** On a time-sorted list, as the match constructor leaves it, the first
      entry of a group has the group's smallest time. */
  lemma {:induction false} EarliestTimeIsLeast(tls: seq<Timeline>, id: string)
    requires SortedBy(tls, TimeKey, false)
    requires EarliestTime(tls, id).Some?
    ensures exists j :: 0 <= j < |tls| && tls[j].id == id && tls[j].time == EarliestTime(tls, id).value
    ensures forall j :: 0 <= j < |tls| && tls[j].id == id ==> EarliestTime(tls, id).value <= tls[j].time
  {
    FilterHead(tls, HasId(id));
    var i :| 0 <= i < |tls| && HasId(id)(tls[i]) && Group(tls, id)[0] == tls[i] &&
             forall j :: 0 <= j < i ==> !HasId(id)(tls[j]);
    forall j | 0 <= j < |tls| && tls[j].id == id ensures tls[i].time <= tls[j].time {
      if j != i {
        assert i < j;
        assert Before(TimeKey(tls[i]), TimeKey(tls[j]), false);
      }
    }
  }

  /** The entries of a group that belong to `player` (all of them without a
      player). */
  function ForPlayer(player: Option<string>): Timeline -> bool {
    (t: Timeline) => player.None? || t.uuid == player.value
  }

  predicate IsCandidate(t: Timeline, split: string, player: Option<string>) {
    t.id == split && (player.None? || t.uuid == player.value)
  }

  /** `QueryMatch.earliest(split, player)`: the first entry of the split
      (for the player, when given) after a stable sort by time. */
  function Earliest(q: QueryMatch, split: string, player: Option<string>): Option<Timeline> {
    if q.timelines == [] then None
    else
      var sd := Group(q.timelines, split);
      if sd == [] then None
      else
        var valid := Filter(sd, ForPlayer(player));
        if valid == [] then None else Some(Sort(valid, TimeKey, false)[0])
  }

  /** `earliest` finds nothing exactly when no entry of the split belongs to
      the player; otherwise it returns such an entry whose time is least,
      and of those the first in list order. */
  lemma {:induction false} EarliestSpec(q: QueryMatch, split: string, player: Option<string>)
    ensures Earliest(q, split, player).None? <==>
            forall j :: 0 <= j < |q.timelines| ==> !IsCandidate(q.timelines[j], split, player)
    ensures Earliest(q, split, player).Some? ==>
            var t := Earliest(q, split, player).value;
            t in q.timelines && IsCandidate(t, split, player) &&
            forall j :: 0 <= j < |q.timelines| && IsCandidate(q.timelines[j], split, player) ==>
                          t.time <= q.timelines[j].time
    ensures Earliest(q, split, player).Some? ==>
            var t := Earliest(q, split, player).value;
            exists i :: 0 <= i < |q.timelines| && q.timelines[i] == t &&
              forall j :: 0 <= j < i && IsCandidate(q.timelines[j], split, player) ==> q.timelines[j].time > t.time
  {
    var tls := q.timelines;
    var valid := Filter(Group(tls, split), ForPlayer(player));
    CandidatesKept(tls, split, player);
    if valid != [] {
      SortedHeadIsLeast(valid);
    }
    EarliestIsFirst(q, split, player);
  }

  /** What the stable sort adds: of the least-time candidates, `earliest`
      returns the first in list order. */
  lemma {:induction false} EarliestIsFirst(q: QueryMatch, split: string, player: Option<string>)
    ensures Earliest(q, split, player).Some? ==>
            var t := Earliest(q, split, player).value;
            exists i :: 0 <= i < |q.timelines| && q.timelines[i] == t &&
              forall j :: 0 <= j < i && IsCandidate(q.timelines[j], split, player) ==> q.timelines[j].time > t.time
  {
    if Earliest(q, split, player).Some? {
      EarliestOrder(q.timelines, split, player);
    }
  }

  function AtTime(m: int): Timeline -> bool {
    (t: Timeline) => t.time == m
  }

  function Candidate(split: string, player: Option<string>): Timeline -> bool {
    (t: Timeline) => IsCandidate(t, split, player)
  }

  function CandidateAt(split: string, player: Option<string>, m: int): Timeline -> bool {
    (t: Timeline) => IsCandidate(t, split, player) && t.time == m
  }

  /** The stable sort by time puts first, of the candidates with the least
      time, the one that comes first in the list: every candidate before it
      is strictly later. */
  lemma {:induction false} EarliestOrder(tls: seq<Timeline>, split: string, player: Option<string>)
    requires Filter(Group(tls, split), ForPlayer(player)) != []
    ensures var t := Sort(Filter(Group(tls, split), ForPlayer(player)), TimeKey, false)[0];
            exists i :: 0 <= i < |tls| && tls[i] == t &&
              forall j :: 0 <= j < i && IsCandidate(tls[j], split, player) ==> tls[j].time > t.time
  {
    var valid := Filter(Group(tls, split), ForPlayer(player));
    var t := Sort(valid, TimeKey, false)[0];
    SortedHeadIsLeast(valid);
    CandidatesKept(tls, split, player);
    StableHead(valid);
    CandidatesAtTime(tls, split, player, t.time);
    EarliestFirst(tls, split, player, t);
  }

  /** The first candidate at the least time comes after only later
      candidates. */
  lemma {:induction false} EarliestFirst(tls: seq<Timeline>, split: string, player: Option<string>, t: Timeline)
    requires Filter(tls, CandidateAt(split, player, t.time)) != []
    requires Filter(tls, CandidateAt(split, player, t.time))[0] == t
    requires forall j :: 0 <= j < |tls| && IsCandidate(tls[j], split, player) ==> t.time <= tls[j].time
    ensures exists i :: 0 <= i < |tls| && tls[i] == t &&
              forall j :: 0 <= j < i && IsCandidate(tls[j], split, player) ==> tls[j].time > t.time
  {
    var least := CandidateAt(split, player, t.time);
    FilterHead(tls, least);
    var i :| 0 <= i < |tls| && least(tls[i]) && Filter(tls, least)[0] == tls[i] &&
             forall j :: 0 <= j < i ==> !least(tls[j]);
    assert forall j :: 0 <= j < i && IsCandidate(tls[j], split, player) ==> tls[j].time > t.time;
  }

  /** The head of the stable sort is the first entry with its time. */
  lemma {:induction false} StableHead(valid: seq<Timeline>)
    requires valid != []
    ensures var t := Sort(valid, TimeKey, false)[0];
            Filter(valid, AtTime(t.time)) != [] && Filter(valid, AtTime(t.time))[0] == t
  {
    var sorted := Sort(valid, TimeKey, false);
    SortedHeadIsLeast(valid);
    var t := sorted[0];
    SortIsStable(valid, TimeKey, false, AtTime(t.time), TimeKey(t));
    assert Filter(sorted, AtTime(t.time))[0] == t;
  }

  /** The candidates at a time, picked from the sorted entries' source, are
      one filter of the whole list. */
  lemma {:induction false} CandidatesAtTime(tls: seq<Timeline>, split: string, player: Option<string>, m: int)
    ensures Filter(Filter(Group(tls, split), ForPlayer(player)), AtTime(m)) == Filter(tls, CandidateAt(split, player, m))
  {
    FilterTwice(tls, HasId(split), ForPlayer(player), Candidate(split, player));
    FilterTwice(tls, Candidate(split, player), AtTime(m), CandidateAt(split, player, m));
  }

  /** The entries `earliest` sorts are exactly the candidates. */
  lemma {:induction false} CandidatesKept(tls: seq<Timeline>, split: string, player: Option<string>)
    ensures forall t :: t in Filter(Group(tls, split), ForPlayer(player)) ==> t in tls && IsCandidate(t, split, player)
    ensures forall j :: 0 <= j < |tls| && IsCandidate(tls[j], split, player) ==>
                          tls[j] in Filter(Group(tls, split), ForPlayer(player))
  {
    var sd := Group(tls, split);
    forall j | 0 <= j < |tls| && IsCandidate(tls[j], split, player)
      ensures tls[j] in Filter(sd, ForPlayer(player))
    {
      FilterKeepsElement(tls, HasId(split), j);
      var k :| 0 <= k < |sd| && sd[k] == tls[j];
      FilterKeepsElement(sd, ForPlayer(player), k);
    }
  }

  /** The head of a stable sort by time is one of the entries, with the
      least time. */
  lemma {:induction false} SortedHeadIsLeast(valid: seq<Timeline>)
    requires valid != []
    ensures Sort(valid, TimeKey, false)[0] in valid
    ensures forall t :: t in valid ==> Sort(valid, TimeKey, false)[0].time <= t.time
  {
    var sorted := Sort(valid, TimeKey, false);
    SortIsSorted(valid, TimeKey, false);
    assert sorted[0] in multiset(valid);
    forall t | t in valid ensures sorted[0].time <= t.time {
      assert t in multiset(sorted);
      var k :| 0 <= k < |sorted| && sorted[k] == t;
      if k > 0 {
        assert Before(TimeKey(sorted[0]), TimeKey(sorted[k]), false);
      }
    }
  }

  /** The JSON of one match member, timeline event and score change. */
  datatype RawMember = RawMember(uuid: string, nickname: string, badge: int, eloRate: int, eloRank: int)
  datatype RawTimeline = RawTimeline(time: int, timeline: string, uuid: string)
  datatype ScoreChange = ScoreChange(uuid: string, score: int, change: Option<int>)

  /** The JSON of one match. The `null`s the constructor checks for are the
      `None`s here. */
  datatype RawMatch = RawMatch(
    matchId: int, seedType: Option<string>, matchType: int, winner: Option<string>,
    members: seq<RawMember>, finalTime: int, forfeit: bool, season: int, date: int,
    isDecay: Option<bool>, timelines: Option<seq<RawTimeline>>, scoreChanges: Option<seq<ScoreChange>>)

  function NewMember(r: RawMember): Member {
    Member(r.uuid, r.nickname, r.badge, r.eloRate, r.eloRank, None, None, None)
  }

  function NewTimeline(r: RawTimeline): Timeline {
    Timeline(r.time, r.timeline, r.uuid)
  }

  function RawTimelines(m: RawMatch): (r: seq<Timeline>)
    ensures |r| == (if m.timelines.None? then 0 else |m.timelines.value|)
    ensures forall i :: 0 <= i < |r| ==> r[i] == NewTimeline(m.timelines.value[i])
  {
    if m.timelines.None? then []
    else seq(|m.timelines.value|, i requires 0 <= i < |m.timelines.value| => NewTimeline(m.timelines.value[i]))
  }

  /** The largest time of a non-empty list of events. */
  function MaxTime(s: seq<RawTimeline>): (r: int)
    requires s != []
    ensures exists i :: 0 <= i < |s| && s[i].time == r
    ensures forall i :: 0 <= i < |s| ==> s[i].time <= r
    decreases |s|
  {
    if |s| == 1 then s[0].time
    else
      var m := MaxTime(s[1..]);
      assert forall i :: 1 <= i < |s| ==> s[i] == s[1..][i - 1];
      if s[0].time >= m then s[0].time else m
  }

  /** What a score change writes into a member. */
  function Scored(m: Member, score: int, change: int): Member {
    m.(elo := Some(score), change := Some(change), eloAfter := if score == -1 then None else Some(score + change))
  }

  /** The index of the first member with the uuid. */
  function MemberIndex(ms: seq<Member>, uuid: string): (r: Option<nat>)
    ensures r.Some? ==> r.value < |ms| && ms[r.value].uuid == uuid && forall j :: 0 <= j < r.value ==> ms[j].uuid != uuid
    ensures r.None? ==> forall j :: 0 <= j < |ms| ==> ms[j].uuid != uuid
  {
    FirstIndex(ms, (m: Member) => m.uuid == uuid)
  }

  /** The score-change loop of the constructor: each entry writes into the
      first member with its uuid, and the first entry without a `change`
      stops the loop and clears `has_elos`. An entry whose uuid is no
      member's fails the constructor's assertion. */
  function ApplyScores(ms: seq<Member>, changes: seq<ScoreChange>): (r: Result<(seq<Member>, bool)>)
    ensures r.Ok? ==> |r.value.0| == |ms|
    decreases |changes|
  {
    if changes == [] then Ok((ms, true))
    else
      var p := changes[0];
      if p.change.None? then Ok((ms, false))
      else
        match MemberIndex(ms, p.uuid)
        case None => Raise(AssertionError, "score change for a uuid that is not a member")
        case Some(i) => ApplyScores(ms[i := Scored(ms[i], p.score, p.change.value)], changes[1..])
  }

  /** `has_elos` stays set exactly when every entry has a `change`. */
  lemma {:induction false} ApplyScoresHasElos(ms: seq<Member>, changes: seq<ScoreChange>)
    requires ApplyScores(ms, changes).Ok?
    ensures ApplyScores(ms, changes).value.1 <==> forall j :: 0 <= j < |changes| ==> changes[j].change.Some?
    decreases |changes|
  {
    if changes != [] && changes[0].change.Some? {
      var i := MemberIndex(ms, changes[0].uuid).value;
      ApplyScoresHasElos(ms[i := Scored(ms[i], changes[0].score, changes[0].change.value)], changes[1..]);
      assert forall j :: 1 <= j < |changes| ==> changes[j] == changes[1..][j - 1];
    }
  }

  /** The loop stops at the first entry without a `change`: the members are
      those the entries before it produced. */
  lemma {:induction false} ApplyScoresStops(ms: seq<Member>, changes: seq<ScoreChange>, k: nat)
    requires k < |changes| && changes[k].change.None?
    requires forall j :: 0 <= j < k ==> changes[j].change.Some?
    ensures ApplyScores(ms, changes) ==
            (match ApplyScores(ms, changes[..k])
             case Ok((m2, _)) => Ok((m2, false))
             case Err(e) => Err(e))
    decreases k
  {
    if k > 0 {
      var p := changes[0];
      assert changes[..k][0] == p && changes[..k][1..] == changes[1..][..k - 1];
      match MemberIndex(ms, p.uuid)
      case None =>
      case Some(i) =>
        ApplyScoresStops(ms[i := Scored(ms[i], p.score, p.change.value)], changes[1..], k - 1);
    }
  }

  /** An entry writes its score into its member, with `elo_after` the sum of
      score and change unless the score is -1; the other members are left
      as they were. */
  lemma {:induction false} ApplyOneScore(ms: seq<Member>, p: ScoreChange)
    requires p.change.Some? && MemberIndex(ms, p.uuid).Some?
    ensures ApplyScores(ms, [p]).Ok?
    ensures var i := MemberIndex(ms, p.uuid).value;
            var m2 := ApplyScores(ms, [p]).value.0;
            m2[i].elo == Some(p.score) && m2[i].change == p.change &&
            m2[i].eloAfter == (if p.score == -1 then None else Some(p.score + p.change.value)) &&
            m2[i].uuid == ms[i].uuid && m2[i].user == ms[i].user &&
            forall j :: 0 <= j < |ms| && j != i ==> m2[j] == ms[j]
  {
    assert [p][1..] == [];
  }

  /** The duration after the constructor's fix-up: the final time, or the
      latest timeline time when that is later. */
  function FixedDuration(m: RawMatch): (d: int)
    ensures d >= m.finalTime
    ensures m.timelines.Some? ==> forall i :: 0 <= i < |m.timelines.value| ==> m.timelines.value[i].time <= d
    ensures d != m.finalTime ==> m.timelines.Some? && exists i :: 0 <= i < |m.timelines.value| && m.timelines.value[i].time == d
  {
    if m.timelines.Some? && m.timelines.value != [] && MaxTime(m.timelines.value) > m.finalTime
    then MaxTime(m.timelines.value) else m.finalTime
  }

  function RawWinner(m: RawMatch): string {
    if m.winner.None? then DRAW else m.winner.value
  }

  function NewMembers(m: RawMatch): (r: seq<Member>)
    ensures |r| == |m.members|
  {
    seq(|m.members|, i requires 0 <= i < |m.members| => NewMember(m.members[i]))
  }

  predicate HasScores(m: RawMatch) {
    m.scoreChanges.Some? && |m.scoreChanges.value| > 0
  }

  /** `QueryMatch(m)`: the match the constructor builds from its JSON. */
  function MatchOf(m: RawMatch): (r: Result<QueryMatch>)
    ensures m.isDecay.None? ==> r.Err? && r.error.kind == AssertionError
  {
    if m.isDecay.None? then Raise(AssertionError, "is_decay is None")
    else
      var duration := FixedDuration(m);
      var winner := RawWinner(m);
      var abnormal := winner != DRAW && !m.forfeit && duration < ABNORMAL_MATCH_MS && m.season < 2;
      var scores := if HasScores(m) then ApplyScores(NewMembers(m), m.scoreChanges.value) else Ok((NewMembers(m), false));
      if scores.Err? then Err(scores.error)
      else
        Ok(QueryMatch(m.matchId, m.seedType, m.matchType, winner, scores.value.0, duration, m.forfeit,
                      m.season, m.date, m.isDecay.value, Sort(RawTimelines(m), TimeKey, false), HasScores(m),
                      scores.value.1, duration != m.finalTime, abnormal))
  }

  /** The derived fields of a constructed match: the draw marker for a
      missing winner, time-sorted timelines holding the JSON's events, the
      duration raised to the latest event, `was_fixed` exactly when it was
      raised, and the abnormal flag for completed matches under seven
      minutes before season 2. */
  lemma {:induction false} MatchOfFields(m: RawMatch)
    requires MatchOf(m).Ok?
    ensures var q := MatchOf(m).value;
            && q.winner == (if m.winner.None? then DRAW else m.winner.value)
            && SortedBy(q.timelines, TimeKey, false)
            && multiset(q.timelines) == multiset(RawTimelines(m))
            && q.duration >= m.finalTime
            && (m.timelines.Some? ==> forall i :: 0 <= i < |m.timelines.value| ==> m.timelines.value[i].time <= q.duration)
            && (q.wasFixed <==> q.duration != m.finalTime)
            && (q.wasFixed ==> m.timelines.Some? && exists i :: 0 <= i < |m.timelines.value| && m.timelines.value[i].time == q.duration)
            && (q.isAbnormal <==> Completed(q) && q.duration < ABNORMAL_MATCH_MS && q.season < 2)
            && (q.scored <==> m.scoreChanges.Some? && |m.scoreChanges.value| > 0)
            && (q.hasElos ==> q.scored)
            && |q.members| == |m.members|
  {
    SortIsSorted(RawTimelines(m), TimeKey, false);
  }

  /** The constructor, step by step: it reassigns `duration`, `was_fixed`,
      `is_abnormal` and `has_elos`, and writes the score changes into the
      members one entry at a time. */
  method NewQueryMatch(m: RawMatch) returns (r: Result<QueryMatch>)
    ensures r == MatchOf(m)
  {
    if m.isDecay.None? {
      return Raise(AssertionError, "is_decay is None");
    }
    var winner := if m.winner.None? then DRAW else m.winner.value;
    var members := NewMembers(m);
    var tls := Sort(RawTimelines(m), TimeKey, false);
    var scored := m.scoreChanges.Some? && |m.scoreChanges.value| > 0;
    var duration := m.finalTime;
    var wasFixed := false;
    if m.timelines.Some? && m.timelines.value != [] {
      var s := MaxTime(m.timelines.value);
      if s > duration {
        wasFixed := true;
        duration := s;
      }
    }
    var isAbnormal := false;
    if winner != DRAW && !m.forfeit && duration < ABNORMAL_MATCH_MS && m.season < 2 {
      isAbnormal := true;
    }
    var ms, hasElos := members, scored;
    if scored {
      var applied := ApplyScoreChanges(members, m.scoreChanges.value);
      if applied.Err? {
        return Err(applied.error);
      }
      ms, hasElos := applied.value.0, applied.value.1;
    }
    assert duration == FixedDuration(m) && wasFixed == (duration != m.finalTime);
    r := Ok(QueryMatch(m.matchId, m.seedType, m.matchType, winner, ms, duration, m.forfeit,
                       m.season, m.date, m.isDecay.value, tls, scored, hasElos, wasFixed, isAbnormal));
  }

  /** The score-change loop of the constructor. */
  method ApplyScoreChanges(members: seq<Member>, changes: seq<ScoreChange>) returns (r: Result<(seq<Member>, bool)>)
    ensures r == ApplyScores(members, changes)
  {
    var ms := members;
    var i := 0;
    while i < |changes|
      invariant 0 <= i <= |changes|
      invariant ApplyScores(ms, changes[i..]) == ApplyScores(members, changes)
    {
      var p := changes[i];
      assert changes[i..][0] == p && changes[i..][1..] == changes[i + 1..];
      if p.change.None? {
        return Ok((ms, false));
      }
      var idx := MemberIndex(ms, p.uuid);
      if idx.None? {
        return Raise(AssertionError, "score change for a uuid that is not a member");
      }
      ms := ms[idx.value := Scored(ms[idx.value], p.score, p.change.value)];
      i := i + 1;
    }
    return Ok((ms, true));
  }

  /** `is_realranked()`: a ranked match that is not a decay. */
  predicate IsRealRanked(q: QueryMatch) {
    !q.isDecay && q.matchType == 2
  }

  /** The sort key Python compares a value by: numbers (bools among them)
      with numbers, strings (uuids among them) with strings. Other values
      cannot be ordered. */
  function KeyOf(v: Value): Option<SortKey> {
    match v
    case VInt(i) => Some(Num(i))
    case VTime(t, _) => Some(Num(t))
    case VBool(b) => Some(Num(if b then 1 else 0))
    case VStr(s) => Some(Text(s))
    case VUuid(u) => Some(Text(u))
    case _ => None
  }

  predicate IsNumKey(v: Value) {
    KeyOf(v).Some? && KeyOf(v).value.Num?
  }

  predicate IsTextKey(v: Value) {
    KeyOf(v).Some? && KeyOf(v).value.Text?
  }

  /** A sort of two or more elements compares every element with another,
      so it raises TypeError unless all keys are numbers or all are strings. */
  predicate Comparable<T>(l: seq<T>, f: T -> Value) {
    |l| <= 1 || (forall i :: 0 <= i < |l| ==> IsNumKey(f(l[i]))) || (forall i :: 0 <= i < |l| ==> IsTextKey(f(l[i])))
  }

  function KeyBy<T>(f: T -> Value): T -> SortKey {
    x => KeyOf(f(x)).GetOr(Num(0))
  }

  /** `sorted(l, key=f, reverse=desc)`. */
  function PySorted<T>(l: seq<T>, f: T -> Value, desc: bool): (r: Result<seq<T>>)
    ensures r.Ok? <==> Comparable(l, f)
    ensures r.Ok? ==> multiset(r.value) == multiset(l)
    ensures r.Err? ==> r.error.kind == TypeError
  {
    if Comparable(l, f) then Ok(Sort(l, KeyBy(f), desc))
    else Raise(TypeError, "'<' not supported between instances")
  }

  /** A successful sort is ordered by the keys and stable: the elements with
      equal keys keep their order. */
  lemma {:induction false} PySortedSpec<T>(l: seq<T>, f: T -> Value, desc: bool, same: T -> bool, k: SortKey)
    requires PySorted(l, f, desc).Ok?
    requires forall y :: same(y) == (KeyBy(f)(y) == k)
    ensures SortedBy(PySorted(l, f, desc).value, KeyBy(f), desc)
    ensures Filter(PySorted(l, f, desc).value, same) == Filter(l, same)
  {
    SortIsSorted(l, KeyBy(f), desc);
    SortIsStable(l, KeyBy(f), desc, same, k);
  }

  function MatchFieldOr(q: string): QueryMatch -> Value {
    (m: QueryMatch) => MatchField(m, q).GetOr(VNone)
  }

  /** The methods of `QueryMatch` whose names do not start with `_`:
      `hasattr` finds them as it finds the slots. */
  const MATCH_METHODS := ["filter_value", "is_filtered", "rql_is_draw", "rql_loser", "rql_winner",
                          "rql_completed", "rql_is_completed", "extract", "get_member", "get_other_member",
                          "valid_elos", "current_elos", "lowest_elo", "victor_elo", "loser_elo", "type_str",
                          "is_realranked", "valid_timelines", "get_split", "has_once", "earliest"]

  /** `SortBy(l, q, r)`: the matches sorted by their slot `q`. A name that
      the first match does not have, or that starts with `_`, raises
      RuntimeError. A method name gives each match its bound method (a plain
      function for the static `filter_value`) as key: one match sorts to
      itself, and two or more raise TypeError, since functions have no
      order. */
  function SortBy(l: seq<QueryMatch>, q: string, rev: bool): (r: Result<seq<QueryMatch>>)
    ensures l == [] ==> r == Ok([])
    ensures l != [] && (Hidden(q) || (q !in MATCH_SLOTS && q !in MATCH_METHODS)) ==>
              r == Raise(RuntimeError, q + " is not valid to sort by")
    ensures l != [] && !Hidden(q) && q in MATCH_METHODS ==>
              (r.Ok? <==> |l| == 1) && (r.Ok? ==> r.value == l) && (r.Err? ==> r.error.kind == TypeError)
    ensures r.Ok? ==> multiset(r.value) == multiset(l) && SortedBy(r.value, KeyBy(MatchFieldOr(q)), rev)
  {
    if l == [] then Ok([])
    else if Hidden(q) || (q !in MATCH_SLOTS && q !in MATCH_METHODS) then
      Raise(RuntimeError, q + " is not valid to sort by")
    else if q in MATCH_METHODS then
      var kind := if q == "filter_value" then "function" else "method";
      if |l| == 1 then Ok(l)
      else Raise(TypeError, "'<' not supported between instances of '" + kind + "' and '" + kind + "'")
    else
      SortIsSorted(l, KeyBy(MatchFieldOr(q)), rev);
      PySorted(l, MatchFieldOr(q), rev)
  }

  /** Python `==` at the top level of a value: a `UUID` equals the `str`
      with the same text, `True`/`False` equal 1/0 and a time equals its
      number; other values are equal when they are the same value. */
  function Norm(v: Value): Value {
    match v
    case VUuid(u) => VStr(u)
    case VBool(b) => VInt(if b then 1 else 0)
    case VTime(t, _) => VInt(t)
    case _ => v
  }

  predicate PyEq(a: Value, b: Value) {
    Norm(a) == Norm(b)
  }
}
