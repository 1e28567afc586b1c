/** The query runtime (klunk/runtime.py). A compiled pipeline is run stage
    by stage against a current dataset: each stage's command is looked up in
    three tables (the runtime's own commands, the basic commands, the local
    commands), called with the current dataset and the stage's arguments,
    and what it returns decides the next current dataset. The local commands
    `index`, `take`, `filter`, `sort`, `rsort` and `count` are modelled; the
    other commands are a parameter of the model. */
module Runtime {
  import opened Wrappers
  import opened Strs
  import opened Seqs
  import opened Sorting
  import opened Match
  import opened Datasets
  import opened Comp
  import Expr

  /* ---------- What commands see and give back ---------- */

  /** A dataset at one moment: its name and its content. */
  datatype Snap = Snap(name: string, l: Value)

  /** What a command hands back to the pipeline loop: a plain value, a
      dataset it built, or the registry's dataset under `key` (what `index`
      returns, the registered object itself). */
  datatype Returned = Plain(v: Value) | Fresh(d: Snap) | Indexed(key: string)

  /** What a called command gives the loop (its result, or the exception
      it raised) and the result entries it added on the way. */
  datatype Done = Done(ret: Result<Returned>, lines: seq<string>)

  /** What a command outside the model may hand back: anything but a
      registry dataset. */
  type Answer = d: Done | d.ret.Ok? ==> !d.ret.value.Indexed? witness Done(Ok(Plain(VNone)), [])

  /** The three command tables, from the highest priority to the lowest. */
  datatype Table = User | Basic | Local

  /** A call of a command whose body the model does not look into. */
  datatype Invocation = Invocation(table: Table, name: string, cur: Snap, args: seq<Expr.Arg>)

  /** Everything a run depends on besides the pipeline: the names in the
      runtime's own table and in the basic table, the dataset registry, the
      commands outside the model, and `parse_boolean`. */
  datatype Env = Env(user: set<string>, basic: set<string>, registry: map<string, Snap>,
                     ext: Invocation -> Answer, parseBool: Value -> Result<bool>)

  /** The names the `@Local` decorator registers. */
  const LOCALS: set<string> := {"vars", "index", "commands", "allfuncs", "info", "wait", "players", "help",
                                "sort", "rsort", "take", "average", "count", "attrs", "example", "filter"}

  /** The local commands whose bodies are part of this model. */
  const MODELLED: set<string> := {"index", "take", "filter", "sort", "rsort", "count"}

  /** The registry entry `filter` reads user names from. */
  const USERS := "__users"

  const EMPTY_FILTER := "Empty dataset after applying filter: "

  function Least(a: nat, b: nat): nat {
    if a <= b then a else b
  }

  /** `str(fname)`; a stage without a command renders as `None`. */
  function NameText(fname: Option<string>): string {
    if fname.None? then "None" else fname.value
  }

  /* ---------- Command lookup ---------- */

  /** `execute_simple`'s search: the first table that holds the name. A
      stage without a command, or a name in no table, raises RuntimeError. */
  function Resolve(fname: Option<string>, user: set<string>, basic: set<string>): (r: Result<Table>)
    ensures r.Err? <==> fname.None? || (fname.value !in user && fname.value !in basic && fname.value !in LOCALS)
    ensures r.Err? ==> r.error == Error(RuntimeError, NameText(fname) +
                                        " is not a valid command name. Try `commands` to list valid commands.")
  {
    var missing := Raise(RuntimeError, NameText(fname) +
                         " is not a valid command name. Try `commands` to list valid commands.");
    if fname.None? then missing
    else if fname.value in user then Ok(User)
    else if fname.value in basic then Ok(Basic)
    else if fname.value in LOCALS then Ok(Local)
    else missing
  }

  function Holds(name: string): set<string> -> bool {
    t => name in t
  }

  /** Lookup is first match over the tables in priority order: the table
      found is the first of `[user, basic, locals]` holding the name, so a
      name in a higher table hides the same name lower down. */
  lemma {:induction false} ResolveFirstMatch(name: string, user: set<string>, basic: set<string>)
    ensures var tables := [user, basic, LOCALS];
            var i := FirstIndex(tables, Holds(name));
            (i.None? <==> Resolve(Some(name), user, basic).Err?) &&
            (i.Some? ==> Resolve(Some(name), user, basic) == Ok([User, Basic, Local][i.value]))
  {
    FirstIndexOfThree(user, basic, LOCALS, Holds(name));
  }

  /** The values that have an `extract` method: the records and the
      member and timeline lists. */
  predicate HasExtract(x: Value) {
    IsRecord(x) || x.VMembers? || x.VTimelines?
  }

  /** What calling `extract` on a value without that method raises. */
  function NoExtract(x: Value): Error {
    Error(AttributeError, "'" + TypeName(x) + "' object has no attribute 'extract'")
  }

  /** `x.extract(k)` on one element: a match extracts its own attribute, else
      its members', else its timelines'; a member gives its attribute or the
      failure marker; a timeline raises RuntimeError where a member would
      give the marker; member and timeline lists extract per element. Other
      values have no `extract`. */
  function Extracted(x: Value, k: string): Result<Value> {
    match x
    case VMatch(q) => MatchExtract(q, k)
    case VMember(_) => Ok(PlainExtract(x, k))
    case VTimeline(_) =>
      if PlainExtract(x, k) == VFailure then Raise(RuntimeError, "Could not extract " + k + " from Timeline.")
      else Ok(PlainExtract(x, k))
    case VMembers(ms) => Ok(LExtract(MemberValues(ms), k))
    case VTimelines(tls) => Ok(LExtract(TimelineValues(tls), k))
    case _ => Err(NoExtract(x))
  }

  /** Extraction by a stage argument. A call argument is a pair: a value
      without `extract` raises for the missing method, an empty member or
      timeline list gives None before the key is looked at, and any other
      `extract` calls `startswith` on the pair, which a tuple does not have. */
  function ArgExtract(x: Value, a: Expr.Arg): (r: Result<Value>)
    ensures a.Word? ==> r == Extracted(x, a.s)
    ensures !a.Word? && !HasExtract(x) ==> r == Err(NoExtract(x))
    ensures !a.Word? && (x == VMembers([]) || x == VTimelines([])) ==> r == Ok(VNone)
    ensures !a.Word? && HasExtract(x) && x != VMembers([]) && x != VTimelines([]) ==>
              r == Raise(AttributeError, "'tuple' object has no attribute 'startswith'")
  {
    if a.Word? then Extracted(x, a.s)
    else if !HasExtract(x) then Err(NoExtract(x))
    else if x == VMembers([]) || x == VTimelines([]) then Ok(VNone)
    else Raise(AttributeError, "'tuple' object has no attribute 'startswith'")
  }

  /* ---------- index ---------- */

  /** `index name`: the registered dataset of that name; an unknown name
      raises RuntimeError, and anything but exactly one argument TypeError. */
  function IndexCommand(registry: map<string, Snap>, args: seq<Expr.Arg>): (r: Result<Returned>)
    ensures r.Ok? <==> |args| == 1 && args[0].Word? && args[0].s in registry
    ensures r.Ok? ==> r.value == Indexed(args[0].s)
    ensures |args| == 1 && args[0].Word? && args[0].s !in registry ==>
              r == Raise(RuntimeError, args[0].s + " is not a valid dataset name.")
  {
    if |args| != 1 then Raise(TypeError, "localindex() takes 2 positional arguments")
    else if args[0].Word? && args[0].s in registry then Ok(Indexed(args[0].s))
    else Raise(RuntimeError, ArgRepr(args[0]) + " is not a valid dataset name.")
  }

  /** `str(a)`: a word as itself, a call argument as the pair it is. */
  function ArgRepr(a: Expr.Arg): string {
    if a.Word? then a.s else "('" + a.name + "', '" + a.data + "')"
  }

  /* ---------- take ---------- */

  /** The words of an argument list, or None when one is a call argument. */
  function WordsOf(args: seq<Expr.Arg>): (r: Option<seq<string>>)
    ensures r.Some? ==> |r.value| == |args| && forall i :: 0 <= i < |args| ==> args[i] == Expr.Word(r.value[i])
    ensures r.None? ==> exists i :: 0 <= i < |args| && args[i].Call?
    decreases |args|
  {
    if args == [] then Some([])
    else if args[0].Call? then None
    else match WordsOf(args[1..])
      case None => None
      case Some(ws) => Some([args[0].s] + ws)
  }

  lemma {:induction false} WordsOfCons(w: string, rest: seq<Expr.Arg>)
    ensures WordsOf([Expr.Word(w)] + rest) == if WordsOf(rest).Some? then Some([w] + WordsOf(rest).value) else None
  {
    assert ([Expr.Word(w)] + rest)[1..] == rest;
  }

  /** The index range of `data[:n]`, or of `data[-n:]` with `last`; since
      `-0` is `0`, `data[-0:]` is all of `data`. */
  function Window(len: nat, n: nat, last: bool): (w: (nat, nat))
    ensures w.0 <= w.1 <= len
  {
    if !last then (0, Least(n, len))
    else if n == 0 then (0, len)
    else (len - Least(n, len), len)
  }

  /** `data[lo:hi]`: a tuple or string slices to its own type, any list
      (member and timeline lists included) to a plain list. */
  function Sliced(v: Value, lo: nat, hi: nat): Value
    requires Sequence(v).Some? && lo <= hi <= |Sequence(v).value|
  {
    match v
    case VTuple(items) => VTuple(items[lo..hi])
    case VStr(s) => VStr(s[lo..hi])
    case VUuid(s) => VStr(s[lo..hi])
    case _ => VList(Sequence(v).value[lo..hi])
  }

  /** The arguments of `take`: the count, when a word is all digits, and
      whether another word is `last`. A call argument raises AttributeError;
      two or more counts raise RuntimeError. */
  function TakeParse(args: seq<Expr.Arg>): (r: Result<(Option<nat>, bool)>)
    ensures WordsOf(args).None? ==> r.Err? && r.error.kind == AttributeError
    ensures WordsOf(args).Some? && |Filter(WordsOf(args).value, IsDigits)| > 1 ==>
              r == Raise(RuntimeError, "Command `take` got " + NatToString(|Filter(WordsOf(args).value, IsDigits)|) +
                                       " arguments, requires at most 1.")
    ensures r.Ok? ==> r.value.1 == ("last" in WordsOf(args).value)
  {
    match WordsOf(args)
    case None => Raise(AttributeError, "'tuple' object has no attribute 'isdigit'")
    case Some(ws) =>
      var ints := Filter(ws, IsDigits);
      if |ints| > 1 then
        Raise(RuntimeError, "Command `take` got " + NatToString(|ints|) + " arguments, requires at most 1.")
      else
        var last := "last" in Filter(ws, Not(IsDigits));
        assert last == ("last" in ws) by {
          FilterMembers(ws, Not(IsDigits), "last");
          assert !IsDigits("last") by { assert !IsDigitChar("last"[0]); }
        }
        if ints == [] then Ok((None, last))
        else
          assert ints[0] in ints;
          Ok((Some(DigitsValue(ints[0])), last))
  }

  /** How Python prints the slice `[:n]`, or `[-n:]` with `last`. */
  function SliceRepr(n: nat, last: bool): string {
    if !last then "slice(None, " + NatToString(n) + ", None)"
    else "slice(" + (if n == 0 then "0" else "-" + NatToString(n)) + ", None, None)"
  }

  /** `data[0]` (`data[-1]` with `last`) without a count, `data[:n]`
      (`data[-n:]` with `last`) with one. A dict cannot be sliced: the
      slice is not hashable. A match looks the slice up as a key, and a
      member extracts it. */
  function TakeOf(v: Value, count: Option<nat>, last: bool): (r: Result<Value>)
    ensures count.None? ==> r == Item(v, last)
    ensures count.Some? ==> (r.Ok? <==> Sequence(v).Some?)
    ensures count.Some? && v.VDict? ==> r == Raise(TypeError, "unhashable type: 'slice'")
  {
    if count.None? then Item(v, last)
    else if v.VDict? then Raise(TypeError, "unhashable type: 'slice'")
    else if v.VMatch? then Raise(KeyError, "QueryMatch.__getitem__ requires support for key " + SliceRepr(count.value, last))
    else if v.VMember? then Raise(AttributeError, "'slice' object has no attribute 'startswith'")
    else
      match Sequence(v)
      case None => Raise(TypeError, "'" + TypeName(v) + "' object is not subscriptable")
      case Some(items) =>
        var w := Window(|items|, count.value, last);
        Ok(Sliced(v, w.0, w.1))
  }

  /** `take [n] [last]`. */
  function Take(v: Value, args: seq<Expr.Arg>): Result<Value> {
    var c :- TakeParse(args);
    TakeOf(v, c.0, c.1)
  }

  function TakeArgs(n: nat, last: bool): seq<Expr.Arg> {
    if last then [Expr.Word("last"), Expr.Word(NatToString(n))] else [Expr.Word(NatToString(n))]
  }

  lemma {:induction false} NotDigitsLast()
    ensures !IsDigits("last")
  {
    assert !IsDigitChar("last"[0]);
  }

  /** A lone digit word, after `last` or not, is read as the count. */
  lemma {:induction false} TakeParseDigits(d: string, last: bool)
    requires IsDigits(d)
    ensures TakeParse(if last then [Expr.Word("last"), Expr.Word(d)] else [Expr.Word(d)]) == Ok((Some(DigitsValue(d)), last))
  {
    NotDigitsLast();
    WordsOfCons(d, []);
    assert [d] + [] == [d] && [d][1..] == [];
    if last {
      assert [Expr.Word("last"), Expr.Word(d)] == [Expr.Word("last")] + [Expr.Word(d)];
      WordsOfCons("last", [Expr.Word(d)]);
      var ws := ["last", d];
      assert ["last"] + [d] == ws && ws[1..] == [d];
      assert Filter(ws, IsDigits) == [d];
    }
  }

  /** No words, or `last` alone: no count. */
  lemma {:induction false} TakeParseNone(last: bool)
    ensures TakeParse(if last then [Expr.Word("last")] else []) == Ok((None, last))
  {
    NotDigitsLast();
    WordsOfCons("last", []);
    assert ["last"] + [] == ["last"] && ["last"][1..] == [];
    assert Filter(["last"], IsDigits) == [];
  }

  /** `take n` and `take last n` read the count back. */
  lemma {:induction false} TakeParseCount(n: nat, last: bool)
    ensures TakeParse(TakeArgs(n, last)) == Ok((Some(n), last))
  {
    DigitsValueOfNatToString(n);
    TakeParseDigits(NatToString(n), last);
  }

  /** `take n` on a list is its first `n` elements (all of them when
      there are fewer). */
  lemma {:induction false} TakeFirst(items: seq<Value>, n: nat)
    ensures Take(VList(items), TakeArgs(n, false)) == Ok(VList(items[..Least(n, |items|)]))
  {
    TakeParseCount(n, false);
  }

  /** `take last n` on a list is its last `n` elements, except that
      `take last 0` is the whole list. */
  lemma {:induction false} TakeLast(items: seq<Value>, n: nat)
    ensures Take(VList(items), TakeArgs(n, true)) ==
            Ok(VList(if n == 0 then items else items[|items| - Least(n, |items|)..]))
  {
    TakeParseCount(n, true);
    TakeOfList(items, n, true);
    var w := Window(|items|, n, true);
    assert items[w.0..w.1] == items[w.0..];
  }

  /** With a count, `take` on a list slices it by the window. */
  lemma {:induction false} TakeOfList(items: seq<Value>, n: nat, last: bool)
    ensures var w := Window(|items|, n, last);
            TakeOf(VList(items), Some(n), last) == Ok(VList(items[w.0..w.1]))
  {
  }

  /** Without a count, `take` gives the first element, or the last one with
      `last`; on an empty list it raises IndexError. */
  lemma {:induction false} TakeSingle(items: seq<Value>, last: bool)
    ensures var r := Take(VList(items), if last then [Expr.Word("last")] else []);
            (items == [] ==> r.Err? && r.error.kind == IndexError) &&
            (items != [] ==> r == Ok(if last then items[|items| - 1] else items[0]))
  {
    TakeParseNone(last);
  }

  /** Taking the same count twice takes nothing more: `take n | take n` is
      `take n`, from the front or (with `last`) from the back. */
  lemma {:induction false} TakeTwice(items: seq<Value>, n: nat, last: bool)
    ensures var once := Take(VList(items), TakeArgs(n, last));
            once.Ok? && Take(once.value, TakeArgs(n, last)) == once
  {
    if last { TakeLastTwice(items, n); } else { TakeFirstTwice(items, n); }
  }

  lemma {:induction false} TakeFirstTwice(items: seq<Value>, n: nat)
    ensures var once := items[..Least(n, |items|)];
            Take(VList(items), TakeArgs(n, false)) == Ok(VList(once)) &&
            Take(VList(once), TakeArgs(n, false)) == Ok(VList(once))
  {
    TakeFirst(items, n);
    var once := items[..Least(n, |items|)];
    TakeFirst(once, n);
    assert once[..Least(n, |once|)] == once;
  }

  lemma {:induction false} TakeLastTwice(items: seq<Value>, n: nat)
    ensures var once := if n == 0 then items else items[|items| - Least(n, |items|)..];
            Take(VList(items), TakeArgs(n, true)) == Ok(VList(once)) &&
            Take(VList(once), TakeArgs(n, true)) == Ok(VList(once))
  {
    TakeLast(items, n);
    var once := if n == 0 then items else items[|items| - Least(n, |items|)..];
    TakeLast(once, n);
    assert n != 0 ==> once[|once| - Least(n, |once|)..] == once;
  }

  /* ---------- filter ---------- */

  /** The `(attribute, literal)` pair a filter argument stands for: a word
      `X` asks that `is_X` be true, a word `noX` that `is_X` be false, and a
      call `name(text)` compares `name` with `text`. */
  function Criterion(a: Expr.Arg): (string, Value) {
    if a.Call? then (a.name, VStr(a.data))
    else if StartsWith(a.s, "no") then ("is_" + a.s[2..], VBool(false))
    else ("is_" + a.s, VBool(true))
  }

  /** A word and the same word behind `no` test the same attribute, for
      true and for false. */
  lemma {:induction false} NoNegates(x: string)
    requires !StartsWith(x, "no")
    ensures Criterion(Expr.Word(x)) == ("is_" + x, VBool(true))
    ensures Criterion(Expr.Word("no" + x)) == ("is_" + x, VBool(false))
  {
    var y := "no" + x;
    assert StartsWith(y, "no") by { assert y[..2] == "no"; }
    assert y[2..] == x;
  }

  function LitRepr(v: Value): string {
    match v
    case VBool(b) => if b then "True" else "False"
    case VStr(s) => "'" + s + "'"
    case _ => TypeName(v)
  }

  /** How the pair a filter argument stands for prints. */
  function CriterionRepr(a: Expr.Arg): string {
    var c := Criterion(a);
    "('" + c.0 + "', " + LitRepr(c.1) + ")"
  }

  /** The literal converted to the type of the first element's value: a
      bool is parsed by `parse_boolean`, a UUID is looked up, lower-cased, in
      the `__users` mapping, an `int` is converted by `int`; otherwise the
      literal is kept. The test is on the exact type, so a time
      (`Milliseconds`, `Seconds`) keeps the literal as it is. */
  function Coerce(env: Env, example: Value, lit: Value): Result<Value> {
    if example.VBool? then
      var b :- env.parseBool(lit);
      Ok(VBool(b))
    else if example.VUuid? then
      if !lit.VStr? then Raise(AttributeError, "'" + TypeName(lit) + "' object has no attribute 'lower'")
      else if USERS !in env.registry then Raise(KeyError, "'" + USERS + "'")
      else match env.registry[USERS].l
        case VDict(entries) =>
          (match Lookup(entries, VStr(Lower(lit.s)))
           case None => Raise(KeyError, "'" + Lower(lit.s) + "'")
           case Some(u) => Ok(u))
        case other => Raise(TypeError, TypeName(other) + " indices must be integers")
    else if example.VInt? then
      match lit
      case VBool(b) => Ok(VInt(if b then 1 else 0))
      case VStr(s) =>
        var n :- ParseInt(s);
        Ok(VInt(n))
      case _ => Raise(TypeError, "int() argument must be a string or a number")
    else Ok(lit)
  }

  /** Python's message for a missing attribute. */
  function NoAttribute(typeName: string, attr: string): string {
    "'" + typeName + "' object has no attribute '" + attr + "'"
  }

  /** `x == want` in Python. A member list (`UUIDList`) compares by
      `basic_repr`: it equals another member list with the same uuids and
      raises AttributeError against anything else. With the member list on
      the right, a plain list, tuple or string defers to its `__eq__` and
      raises too, while a timeline list compares as a list, element by
      element, so only the empty lists are equal. Other values compare as
      `PyEq` does. */
  function Compared(x: Value, want: Value): (r: Result<bool>)
    ensures r.Err? <==> (x.VMembers? && !want.VMembers?) || (want.VMembers? && !x.VMembers? && !x.VTimelines?)
    ensures r.Err? ==> r.error.kind == AttributeError
    ensures x.VMembers? && want.VMembers? ==> r == Ok(MembersEqual(x.ms, want.ms))
    ensures !x.VMembers? && !want.VMembers? ==> r == Ok(PyEq(x, want))
  {
    if x.VMembers? then
      if want.VMembers? then Ok(MembersEqual(x.ms, want.ms))
      else Raise(AttributeError, NoAttribute(TypeName(want), "basic_repr"))
    else if want.VMembers? then
      if x.VTimelines? then Ok(x.tls == [] && want.ms == [])
      else Raise(AttributeError, NoAttribute(TypeName(x), "basic_repr"))
    else Ok(PyEq(x, want))
  }

  /** An element can be tested: its value extracts and compares with the
      literal without raising. */
  predicate Testable(x: Value, k: string, want: Value) {
    Extracted(x, k).Ok? && Compared(Extracted(x, k).value, want).Ok?
  }

  /** The elements a pass keeps: those whose value equals the literal. */
  function Matches(k: string, want: Value): Value -> bool {
    x => Testable(x, k, want) && Compared(Extracted(x, k).value, want).value
  }

  /** `[m for m in res if m.extract(k) == want]`: every element is
      extracted and compared, in order, and the first exception is raised. */
  function Survivors(items: seq<Value>, k: string, want: Value): (r: Result<seq<Value>>)
    ensures r.Ok? <==> forall i :: 0 <= i < |items| ==> Testable(items[i], k, want)
    ensures r.Ok? ==> r.value == Filter(items, Matches(k, want))
    decreases |items|
  {
    if items == [] then Ok([])
    else
      var x :- Extracted(items[0], k);
      var same :- Compared(x, want);
      var rest :- Survivors(items[1..], k, want);
      Ok((if same then [items[0]] else []) + rest)
  }

  /** One filter argument: the literal is coerced to the type of the value
      of `first` (the content's `res[0]`), then the matching elements are
      kept. */
  function FilterPass(env: Env, first: Value, items: seq<Value>, a: Expr.Arg): (r: Result<seq<Value>>)
    ensures r.Ok? ==> IsSubseq(r.value, items)
  {
    var c := Criterion(a);
    var example :- Extracted(first, c.0);
    var want :- Coerce(env, example, c.1);
    var kept :- Survivors(items, c.0, want);
    FilterIsSubseq(items, Matches(c.0, want));
    Ok(kept)
  }

  /** `filter` from the content `res` on: the arguments are applied in
      order; once the content is empty (falsy) the rest are skipped; each
      pass reads `res[0]` and then iterates over `res` (a dict's keys); a
      pass that keeps nothing ends the command with a dataset holding a
      message. */
  function Filtered(env: Env, name: string, res: Value, args: seq<Expr.Arg>): (r: Result<Returned>)
    ensures r.Ok? ==> !r.value.Indexed?
    decreases |args|
  {
    if args == [] || !Truthy(res) then Ok(Plain(res))
    else
      var first :- Item(res, false);
      var kept :- FilterPass(env, first, Elements(res).value, args[0]);
      if kept == [] then Ok(Fresh(Snap(name, VStr(EMPTY_FILTER + CriterionRepr(args[0])))))
      else Filtered(env, name, VList(kept), args[1..])
  }

  /** A filter that ends on a list leaves an order-preserving sub-list of
      the list it started from. */
  lemma {:induction false} FilteredSubseq(env: Env, name: string, l: seq<Value>, args: seq<Expr.Arg>)
    requires Filtered(env, name, VList(l), args).Ok?
    requires Filtered(env, name, VList(l), args).value.Plain?
    ensures var v := Filtered(env, name, VList(l), args).value.v;
            v.VList? && IsSubseq(v.items, l)
    decreases |args|
  {
    if args == [] || l == [] {
      assert IsSubseq(l, l) by { SubseqRefl(l); }
    } else {
      var kept := FilterPass(env, l[0], l, args[0]).value;
      FilteredSubseq(env, name, kept, args[1..]);
      IsSubseqTrans(Filtered(env, name, VList(l), args).value.v.items, kept, l);
    }
  }

  lemma {:induction false} SubseqRefl(l: seq<Value>)
    ensures IsSubseq(l, l)
    decreases |l|
  {
    if l != [] {
      SubseqRefl(l[1..]);
    }
  }

  /** A single filter argument on a non-empty list: the command keeps
      exactly the elements whose value equals the coerced literal, in
      order, or gives the message dataset when none does. */
  lemma {:induction false} FilterOnce(env: Env, name: string, l: seq<Value>, a: Expr.Arg)
    requires l != []
    ensures Filtered(env, name, VList(l), [a]).Ok? ==>
            var c := Criterion(a);
            var want := Coerce(env, Extracted(l[0], c.0).value, c.1).value;
            var kept := Filter(l, Matches(c.0, want));
            Filtered(env, name, VList(l), [a]).value ==
              if kept == [] then Fresh(Snap(name, VStr(EMPTY_FILTER + CriterionRepr(a)))) else Plain(VList(kept))
  {
    assert Truthy(VList(l)) && Sequence(VList(l)) == Some(l);
    var pass := FilterPass(env, l[0], l, a);
    if pass.Err? {
      return;
    }
    var c := Criterion(a);
    var want := Coerce(env, Extracted(l[0], c.0).value, c.1).value;
    assert pass.value == Filter(l, Matches(c.0, want));
    assert [a][1..] == [];
  }

  /** `filter members(x)` on matches: the first match's `members` is a
      member list, so the literal stays a string, and comparing the two
      raises AttributeError before anything is kept. */
  lemma {:induction false} FilterOnMembers(env: Env, name: string, l: seq<Value>, x: string)
    requires l != [] && l[0].VMatch?
    ensures Filtered(env, name, VList(l), [Expr.Call("members", x)]) ==
            Raise(AttributeError, NoAttribute("str", "basic_repr"))
  {
    MembersPassRaises(env, l, x);
  }

  /** The one pass of `filter members(x)` on matches raises. */
  lemma {:induction false} MembersPassRaises(env: Env, l: seq<Value>, x: string)
    requires l != [] && l[0].VMatch?
    ensures FilterPass(env, l[0], l, Expr.Call("members", x)) == Raise(AttributeError, NoAttribute("str", "basic_repr"))
  {
    var a := Expr.Call("members", x);
    var ms := VMembers(l[0].q.members);
    var err: Result<seq<Value>> := Raise(AttributeError, NoAttribute("str", "basic_repr"));
    assert Criterion(a) == ("members", VStr(x));
    ExtractMembers(l[0].q);
    assert Coerce(env, ms, VStr(x)) == Ok(VStr(x));
    assert Compared(ms, VStr(x)) == Err(err.error);
    assert Survivors(l, "members", VStr(x)) == err;
  }

  /** Against an `int` value, a filter literal is read by `int`, which
      accepts underscores between digits: `filter season(1_0)` compares
      with 10. */
  lemma {:induction false} CoerceGroupedInt(env: Env, example: Value)
    requires example.VInt?
    ensures Coerce(env, example, VStr("1_0")) == Ok(VInt(10))
  {
    ParseIntUnderscored();
  }

  /** `filter duration(x)` on matches whose first duration was not raised
      by the timeline fix: that duration is a `Milliseconds`, not an `int`,
      so the literal stays a string, equals no duration, and the command
      gives the message dataset. */
  lemma {:induction false} FilterOnDuration(env: Env, name: string, l: seq<Value>, x: string)
    requires l != [] && forall i :: 0 <= i < |l| ==> l[i].VMatch?
    requires !l[0].q.wasFixed
    ensures Filtered(env, name, VList(l), [Expr.Call("duration", x)]) ==
            Ok(Fresh(Snap(name, VStr(EMPTY_FILTER + CriterionRepr(Expr.Call("duration", x))))))
  {
    var a := Expr.Call("duration", x);
    assert Criterion(a) == ("duration", VStr(x));
    ExtractDuration(l[0].q);
    assert Coerce(env, VTime(l[0].q.duration, Millis), VStr(x)) == Ok(VStr(x));
    NoDurationIsText(l, x);
    assert FilterPass(env, l[0], l, a) == Ok([]);
    assert Truthy(VList(l)) && Item(VList(l), false) == Ok(l[0]);
  }

  /** No duration, of either type, equals a string. */
  lemma {:induction false} NoDurationIsText(l: seq<Value>, x: string)
    requires forall i :: 0 <= i < |l| ==> l[i].VMatch?
    ensures Survivors(l, "duration", VStr(x)) == Ok([])
    decreases |l|
  {
    if l != [] {
      DurationNotText(l[0].q, x);
      NoDurationIsText(l[1..], x);
    }
  }

  /** One match's duration extracts and compares unequal to a string. */
  lemma {:induction false} DurationNotText(q: QueryMatch, x: string)
    ensures Extracted(VMatch(q), "duration").Ok?
    ensures Compared(Extracted(VMatch(q), "duration").value, VStr(x)) == Ok(false)
  {
    ExtractDuration(q);
  }

  /** A match's `duration` is a `Milliseconds`, or the plain `int` the
      timeline fix stored. */
  lemma {:induction false} ExtractDuration(q: QueryMatch)
    ensures Extracted(VMatch(q), "duration") == Ok(if q.wasFixed then VInt(q.duration) else VTime(q.duration, Millis))
  {
    var d := if q.wasFixed then VInt(q.duration) else VTime(q.duration, Millis);
    assert !Hidden("duration");
    assert MatchField(q, "duration") == Some(d);
    assert MatchAttr(q, "duration") == Ok(d);
  }

  /** A match's `members` extracts as its member list. */
  lemma {:induction false} ExtractMembers(q: QueryMatch)
    ensures Extracted(VMatch(q), "members") == Ok(VMembers(q.members))
  {
    assert !Hidden("members");
    assert MatchField(q, "members") == Some(VMembers(q.members));
  }

  /* ---------- sort and rsort ---------- */

  /** The first element whose key cannot be extracted, if any. */
  function FirstFailure(items: seq<Value>, a: Expr.Arg): (r: Option<Error>)
    ensures r.None? <==> forall i :: 0 <= i < |items| ==> ArgExtract(items[i], a).Ok?
    decreases |items|
  {
    if items == [] then None
    else if ArgExtract(items[0], a).Err? then Some(ArgExtract(items[0], a).error)
    else FirstFailure(items[1..], a)
  }

  /** The sort key of an element. */
  function KeyFn(a: Expr.Arg): Value -> Value {
    x => if ArgExtract(x, a).Ok? then ArgExtract(x, a).value else VNone
  }

  /** `sorted(l.l, key=lambda x: x.extract(attribute), reverse=desc)`:
      every key is extracted first, then the elements are sorted by it. */
  function SortedOn(v: Value, args: seq<Expr.Arg>, desc: bool): (r: Result<Value>)
    ensures r.Ok? ==> |args| == 1 && Elements(v).Some? && r.value.VList? &&
                      multiset(r.value.items) == multiset(Elements(v).value)
    ensures |args| == 1 && Elements(v).Some? && FirstFailure(Elements(v).value, args[0]).None? ==>
              (r.Ok? <==> Comparable(Elements(v).value, KeyFn(args[0])))
  {
    if |args| != 1 then Raise(TypeError, "localsort() takes 2 positional arguments")
    else match Elements(v)
      case None => Raise(TypeError, "'" + TypeName(v) + "' object is not iterable")
      case Some(items) =>
        match FirstFailure(items, args[0])
        case Some(e) => Err(e)
        case None =>
          var s :- PySorted(items, KeyFn(args[0]), desc);
          Ok(VList(s))
  }

  /** A sort that succeeds orders the elements by their extracted values
      (descending for `rsort`), keeps each element, and is stable: the
      elements with the same key keep their order. */
  lemma {:induction false} SortSpec(v: Value, a: Expr.Arg, desc: bool, same: Value -> bool, k: SortKey)
    requires Elements(v).Some? && FirstFailure(Elements(v).value, a).None?
    requires Comparable(Elements(v).value, KeyFn(a))
    requires forall y :: same(y) == (KeyBy(KeyFn(a))(y) == k)
    ensures var r := SortedOn(v, [a], desc).value.items;
            var items := Elements(v).value;
            SortedBy(r, KeyBy(KeyFn(a)), desc) && multiset(r) == multiset(items) &&
            Filter(r, same) == Filter(items, same) &&
            forall x :: x in r ==> ArgExtract(x, a).Ok? && KeyFn(a)(x) == ArgExtract(x, a).value
  {
    var items := Elements(v).value;
    var r := PySorted(items, KeyFn(a), desc).value;
    SortedOnSorts(v, a, desc);
    PySortedSpec(items, KeyFn(a), desc, same, k);
    KeysExtract(items, a, r);
  }

  /** Sorting by a call argument never looks at the key of an empty member
      list: a list holding one such element sorts to itself. */
  lemma {:induction false} SortCallOnEmptyMembers(name: string, data: string, desc: bool)
    ensures SortedOn(VList([VMembers([])]), [Expr.Call(name, data)], desc) == Ok(VList([VMembers([])]))
  {
    var a := Expr.Call(name, data);
    var v := VList([VMembers([])]);
    assert Elements(v) == Some([VMembers([])]);
    assert FirstFailure([VMembers([])], a).None? by {
      assert ArgExtract(VMembers([]), a).Ok?;
    }
    SortedOnSorts(v, a, desc);
    var r := PySorted([VMembers([])], KeyFn(a), desc).value;
    assert |r| == 1 && r[0] in multiset(r);
  }

  /** Sorting a string element by a call argument raises for the missing
      `extract`. */
  lemma {:induction false} SortCallOnText(name: string, data: string, desc: bool)
    ensures SortedOn(VList([VStr(name)]), [Expr.Call(name, data)], desc) == Err(NoExtract(VStr(name)))
  {
    var a := Expr.Call(name, data);
    assert Elements(VList([VStr(name)])) == Some([VStr(name)]);
    assert ArgExtract(VStr(name), a) == Err(NoExtract(VStr(name)));
    assert FirstFailure([VStr(name)], a) == Some(NoExtract(VStr(name)));
  }

  /** With every key extracted and comparable, the command's result is the
      sorted list. */
  lemma {:induction false} SortedOnSorts(v: Value, a: Expr.Arg, desc: bool)
    requires Elements(v).Some? && FirstFailure(Elements(v).value, a).None?
    requires Comparable(Elements(v).value, KeyFn(a))
    ensures PySorted(Elements(v).value, KeyFn(a), desc).Ok?
    ensures SortedOn(v, [a], desc) == Ok(VList(PySorted(Elements(v).value, KeyFn(a), desc).value))
  {
  }

  /** A rearrangement of elements whose keys all extract has keys that all
      extract. */
  lemma {:induction false} KeysExtract(items: seq<Value>, a: Expr.Arg, r: seq<Value>)
    requires FirstFailure(items, a).None? && multiset(r) == multiset(items)
    ensures forall x :: x in r ==> ArgExtract(x, a).Ok?
  {
    forall x | x in r
      ensures ArgExtract(x, a).Ok?
    {
      assert x in multiset(items);
    }
  }

  /* ---------- count ---------- */

  /** The line `count` adds to the result. */
  function CountLine(v: Value): string {
    if v.VList? then "Current size: " + NatToString(|v.items|) else "Dataset currently only has one item."
  }

  /* ---------- One stage ---------- */

  /** A value-returning command's outcome as a command result. */
  function AsPlain(r: Result<Value>): Result<Returned> {
    if r.Ok? then Ok(Plain(r.value)) else Err(r.error)
  }

  /** `comlist[fname](l, *args)` for the table the name was found in. */
  function Invoke(env: Env, t: Table, name: string, cur: Snap, args: seq<Expr.Arg>): (r: Done)
    ensures r.ret.Ok? && r.ret.value.Indexed? ==> r.ret.value.key in env.registry
    ensures t != Local || name !in MODELLED ==> r == env.ext(Invocation(t, name, cur, args))
    ensures t == Local && name in MODELLED && r.lines != [] ==>
              name == "count" && args == [] && r == Done(Ok(Plain(VNone)), [CountLine(cur.l)])
  {
    if t != Local || name !in MODELLED then env.ext(Invocation(t, name, cur, args))
    else if name == "index" then Done(IndexCommand(env.registry, args), [])
    else if name == "take" then Done(AsPlain(Take(cur.l, args)), [])
    else if name == "filter" then Done(Filtered(env, cur.name, cur.l, args), [])
    else if name == "sort" || name == "rsort" then Done(AsPlain(SortedOn(cur.l, args, name == "rsort")), [])
    else if args != [] then Done(Raise(TypeError, "localcount() takes 1 positional argument"), [])
    else Done(Ok(Plain(VNone)), [CountLine(cur.l)])
  }

  /** What a stage's result makes the current dataset: None keeps it, a list
      becomes a clone of it (same name) holding the list, a dataset replaces
      it; any other value raises RuntimeError. */
  function Reconcile(registry: map<string, Snap>, cur: Snap, ret: Returned): (r: Result<Snap>)
    requires ret.Indexed? ==> ret.key in registry
    ensures r.Err? <==> ret.Plain? && !ret.v.VNone? && !ret.v.VList?
    ensures r.Err? ==> r.error.kind == RuntimeError
    ensures ret == Plain(VNone) ==> r == Ok(cur)
    ensures ret.Plain? && ret.v.VList? ==> r == Ok(Snap(cur.name, ret.v))
    ensures ret.Fresh? ==> r == Ok(ret.d)
    ensures ret.Indexed? ==> r == Ok(registry[ret.key])
  {
    match ret
    case Plain(v) =>
      if v.VNone? then Ok(cur)
      else if v.VList? then Ok(Snap(cur.name, v))
      else Raise(RuntimeError, "Got unhandled result type <class '" + TypeName(v) + "'>")
    case Fresh(d) => Ok(d)
    case Indexed(k) => Ok(registry[k])
  }

  /** What one stage gives: the next current dataset or the exception
      raised, and the result entries its command added, which stay in the
      buffer whether or not the stage raises. */
  datatype Staged = Staged(res: Result<Snap>, lines: seq<string>)

  /** One stage: look the command up, call it, reconcile its result. */
  function Step(env: Env, cur: Snap, e: Expr.Expression): Staged {
    match Resolve(e.command, env.user, env.basic)
    case Err(x) => Staged(Err(x), [])
    case Ok(t) =>
      var d := Invoke(env, t, e.command.value, cur, e.arguments);
      if d.ret.Err? then Staged(Err(d.ret.error), d.lines)
      else Staged(Reconcile(env.registry, cur, d.ret.value), d.lines)
  }

  /** `index name` switches to the registered dataset, unless a higher
      table has its own `index`; an unknown name raises RuntimeError. */
  lemma {:induction false} IndexStep(env: Env, cur: Snap, loc: Option<int>, name: string)
    requires "index" !in env.user && "index" !in env.basic
    ensures var r := Step(env, cur, Expr.Expression(loc, Some("index"), [Expr.Word(name)]));
            (name in env.registry ==> r == Staged(Ok(env.registry[name]), [])) &&
            (name !in env.registry ==> r == Staged(Raise(RuntimeError, name + " is not a valid dataset name."), []))
  {
  }

  /* ---------- The pipeline loop ---------- */

  /** The outcome of running stages: the final dataset or the error raised,
      the result lines added on the way, and how many stages were popped. */
  datatype Run = Run(res: Result<Snap>, lines: seq<string>, used: nat)

  type Stepper = (Snap, Expr.Expression) -> Staged

  function StepIn(env: Env): Stepper {
    (cur, e) => Step(env, cur, e)
  }

  /** `step` computes what `Step` computes in `env`. The trigger keeps the
      equation from being used until a `Step` term is in sight. */
  ghost predicate Agrees(step: Stepper, env: Env) {
    forall c, e {:trigger Step(env, c, e)} :: step(c, e) == Step(env, c, e)
  }

  lemma {:induction false} StepInAgrees(env: Env)
    ensures Agrees(StepIn(env), env)
  {
  }

  /** Pops and runs the stages front to back from the dataset `cur`; the
      first error ends the run. */
  function RunWith(step: Stepper, cur: Snap, p: seq<Expr.Expression>): (r: Run)
    ensures 1 <= r.used <= |p| || (r.used == 0 && p == [])
    ensures r.res.Ok? ==> r.used == |p|
    decreases |p|
  {
    if p == [] then Run(Ok(cur), [], 0)
    else
      var s := step(cur, p[0]);
      if s.res.Err? then Run(s.res, s.lines, 1)
      else
        var r := RunWith(step, s.res.value, p[1..]);
        Run(r.res, s.lines + r.lines, r.used + 1)
  }

  /** A run in progress: the `lines` and `used` stages so far, followed by
      the run of the stages left. */
  function RunAfter(step: Stepper, cur: Snap, rest: seq<Expr.Expression>, lines: seq<string>, used: nat): Run {
    var tail := RunWith(step, cur, rest);
    Run(tail.res, lines + tail.lines, used + tail.used)
  }

  /** A run in progress with no stages left is over. */
  lemma {:induction false} RunAfterDone(step: Stepper, cur: Snap, lines: seq<string>, used: nat)
    ensures RunAfter(step, cur, [], lines, used) == Run(Ok(cur), lines, used)
  {
    assert lines + [] == lines;
  }

  /** One turn of a run in progress: `run` is the lines and stages so far
      followed by the run of the stages left. */
  lemma {:induction false} RunTurn(step: Stepper, run: Run, cur: Snap, rest: seq<Expr.Expression>, lines: seq<string>, used: nat)
    requires rest != []
    requires run == RunAfter(step, cur, rest, lines, used)
    ensures var s := step(cur, rest[0]);
            (s.res.Err? ==> run == Run(s.res, lines + s.lines, used + 1)) &&
            (s.res.Ok? ==> var tail := RunWith(step, s.res.value, rest[1..]);
                           run == Run(tail.res, (lines + s.lines) + tail.lines, used + 1 + tail.used))
  {
    var s := step(cur, rest[0]);
    if s.res.Ok? {
      var tail := RunWith(step, s.res.value, rest[1..]);
      assert lines + (s.lines + tail.lines) == (lines + s.lines) + tail.lines;
    }
  }

  /** Running two pipelines one after the other is running them joined:
      the second starts from the dataset the first ends on. */
  lemma {:induction false} RunAppend(step: Stepper, cur: Snap, p: seq<Expr.Expression>, q: seq<Expr.Expression>)
    ensures var a := RunWith(step, cur, p);
            var pq := RunWith(step, cur, p + q);
            (a.res.Err? ==> pq == a) &&
            (a.res.Ok? ==> var b := RunWith(step, a.res.value, q);
                           pq == Run(b.res, a.lines + b.lines, |p| + b.used))
    decreases |p|
  {
    if p == [] {
      assert p + q == q;
    } else {
      assert (p + q)[0] == p[0] && (p + q)[1..] == p[1..] + q;
      var s := step(cur, p[0]);
      if s.res.Ok? {
        RunAppend(step, s.res.value, p[1..], q);
        var a := RunWith(step, s.res.value, p[1..]);
        if a.res.Ok? {
          var b := RunWith(step, a.res.value, q);
          assert s.lines + (a.lines + b.lines) == (s.lines + a.lines) + b.lines;
        }
      }
    }
  }

  /** `execute`: the run starts on the registry's `default` dataset. */
  function Execution(env: Env, p: seq<Expr.Expression>): (r: Run)
    ensures "default" !in env.registry ==> r == Run(Raise(KeyError, "'default'"), [], 0)
    ensures "default" in env.registry && p == [] ==> r == Run(Ok(env.registry["default"]), [], 0)
    ensures r.res.Ok? ==> r.used == |p|
  {
    if "default" !in env.registry then Run(Raise(KeyError, "'default'"), [], 0)
    else RunWith(StepIn(env), env.registry["default"], p)
  }

  function Cmd(name: string, args: seq<Expr.Arg>): Expr.Expression {
    Expr.Expression(None, Some(name), args)
  }

  /** The stage `take n` (or `take last n`) on a list of at least `n`
      elements, when no higher table has its own `take`. */
  lemma {:induction false} TakeStep(env: Env, cur: Snap, items: seq<Value>, n: nat, last: bool)
    requires cur.l == VList(items) && n <= |items|
    requires "take" !in env.user && "take" !in env.basic
    ensures Step(env, cur, Cmd("take", TakeArgs(n, last))) ==
              Staged(Ok(Snap(cur.name, VList(if !last then items[..n] else if n == 0 then items else items[|items| - n..]))), [])
  {
    TakeInvoke(env, cur, items, n, last);
    assert Resolve(Some("take"), env.user, env.basic) == Ok(Local);
  }

  /** The local `take` command on a list of at least `n` elements returns
      the kept elements and adds no line. */
  lemma {:induction false} TakeInvoke(env: Env, cur: Snap, items: seq<Value>, n: nat, last: bool)
    requires cur.l == VList(items) && n <= |items|
    ensures Invoke(env, Local, "take", cur, TakeArgs(n, last)) ==
              Done(Ok(Plain(VList(if !last then items[..n] else if n == 0 then items else items[|items| - n..]))), [])
  {
    if last { TakeLast(items, n); } else { TakeFirst(items, n); }
  }

  /** The stage `count`, when no higher table has its own `count`: one line,
      and the dataset is kept. */
  lemma {:induction false} CountStep(env: Env, cur: Snap)
    requires "count" !in env.user && "count" !in env.basic
    ensures Step(env, cur, Cmd("count", [])) == Staged(Ok(cur), [CountLine(cur.l)])
  {
  }

  /** `take n | count` on a list of at least `n` elements reports `n` and
      ends on the first `n` elements (likewise from the back with `last`),
      unless a higher table has its own `take` or `count`. */
  lemma {:induction false} TakeThenCount(env: Env, cur: Snap, items: seq<Value>, n: nat, last: bool)
    requires cur.l == VList(items) && n <= |items|
    requires "take" !in env.user && "take" !in env.basic && "count" !in env.user && "count" !in env.basic
    ensures var kept := if !last then items[..n] else if n == 0 then items else items[|items| - n..];
            RunWith(StepIn(env), cur, [Cmd("take", TakeArgs(n, last)), Cmd("count", [])]) ==
              Run(Ok(Snap(cur.name, VList(kept))), ["Current size: " + NatToString(if last && n == 0 then |items| else n)], 2)
  {
    var kept := if !last then items[..n] else if n == 0 then items else items[|items| - n..];
    var mid := Snap(cur.name, VList(kept));
    var p := [Cmd("take", TakeArgs(n, last)), Cmd("count", [])];
    TakeCountStages(env, cur, items, n, last);
    assert |kept| == if last && n == 0 then |items| else n;
    RunTwo(StepIn(env), cur, p, mid, [], mid, [CountLine(VList(kept))]);
  }

  /** The two stages of `take n | count`, as the runner sees them. */
  lemma {:induction false} TakeCountStages(env: Env, cur: Snap, items: seq<Value>, n: nat, last: bool)
    requires cur.l == VList(items) && n <= |items|
    requires "take" !in env.user && "take" !in env.basic && "count" !in env.user && "count" !in env.basic
    ensures var mid := Snap(cur.name, VList(if !last then items[..n] else if n == 0 then items else items[|items| - n..]));
            StepIn(env)(cur, Cmd("take", TakeArgs(n, last))) == Staged(Ok(mid), []) &&
            StepIn(env)(mid, Cmd("count", [])) == Staged(Ok(mid), [CountLine(mid.l)])
  {
    var mid := Snap(cur.name, VList(if !last then items[..n] else if n == 0 then items else items[|items| - n..]));
    TakeStep(env, cur, items, n, last);
    CountStep(env, mid);
  }

  /** A run of two stages that both succeed. */
  lemma {:induction false} RunTwo(step: Stepper, cur: Snap, p: seq<Expr.Expression>, mid: Snap, l1: seq<string>, last: Snap, l2: seq<string>)
    requires |p| == 2 && step(cur, p[0]) == Staged(Ok(mid), l1) && step(mid, p[1]) == Staged(Ok(last), l2)
    ensures RunWith(step, cur, p) == Run(Ok(last), l1 + l2, 2)
  {
    assert p[1..][0] == p[1] && p[1..][1..] == [];
    assert RunWith(step, mid, p[1..]) == Run(Ok(last), l2 + [], 1);
    assert l2 + [] == l2;
  }

  /* ---------- The runtime object ---------- */

  /** The result buffer after the lines were added, one `add_result` each. */
  function Appended(res: Option<seq<string>>, lines: seq<string>): Option<seq<string>> {
    if lines == [] then res else Some(res.GetOr([]) + lines)
  }

  /** What those `add_result` calls log; `unstarted` says the buffer did not
      exist yet. */
  function ResultLog(unstarted: bool, lines: seq<string>): seq<string>
    decreases |lines|
  {
    if lines == [] then []
    else
      var init := lines[..|lines| - 1];
      ResultLog(unstarted, init) + (if unstarted && init == [] then ["Began recording a result."] else []) +
      [Join(" ", ["Added to result:", lines[|lines| - 1]])]
  }

  lemma {:induction false} ResultLogAppend(unstarted: bool, a: seq<string>, b: seq<string>)
    ensures ResultLog(unstarted, a + b) == ResultLog(unstarted, a) + ResultLog(unstarted && a == [], b)
    decreases |b|
  {
    if b == [] {
      assert a + b == a;
    } else {
      var init := b[..|b| - 1];
      assert (a + b)[..|a + b| - 1] == a + init;
      assert (a + b)[|a + b| - 1] == b[|b| - 1];
      ResultLogAppend(unstarted, a, init);
    }
  }

  /** From the buffer and log after the entries `a`, one more `add_result`
      call gives the buffer and log after `a + [x]`. */
  lemma {:induction false} BufferStep(res: Option<seq<string>>, log: seq<string>, a: seq<string>, x: string)
    ensures var res0, log0 := Appended(res, a), log + ResultLog(res.None?, a);
            Some(res0.GetOr([]) + [Join(" ", [x])]) == Appended(res, a + [x]) &&
            log0 + (if res0.None? then ["Began recording a result."] else []) + [Join(" ", ["Added to result:"] + [x])] ==
              log + ResultLog(res.None?, a + [x])
  {
    AppendedAppend(res, a, [x]);
    ResultLogSnoc(res.None?, a, x);
    assert Join(" ", [x]) == x;
  }

  /** One more `add_result` call logs one more entry, after the begin
      line when it is the first. */
  lemma {:induction false} ResultLogSnoc(unstarted: bool, a: seq<string>, x: string)
    ensures ResultLog(unstarted, a + [x]) ==
            ResultLog(unstarted, a) + (if unstarted && a == [] then ["Began recording a result."] else []) +
            [Join(" ", ["Added to result:"] + [x])]
  {
    assert (a + [x])[..|a|] == a;
    assert ["Added to result:"] + [x] == ["Added to result:", x];
  }

  lemma {:induction false} AppendedAppend(res: Option<seq<string>>, a: seq<string>, b: seq<string>)
    ensures Appended(Appended(res, a), b) == Appended(res, a + b)
    ensures Appended(res, a).None? <==> res.None? && a == []
  {
    if b == [] {
      assert a + b == a;
    } else if a == [] {
      assert a + b == b;
    } else {
      assert res.GetOr([]) + a + b == res.GetOr([]) + (a + b);
    }
  }

  /** The buffer and the log after one more stage's lines are those after
      all the lines so far and this stage's together. */
  lemma {:induction false} Bookkeeping(res1: Option<seq<string>>, log1: seq<string>, lines: seq<string>, added: seq<string>, res0: Option<seq<string>>, log0: seq<string>, res2: Option<seq<string>>, log2: seq<string>)
    requires res0 == Appended(res1, lines) && log0 == log1 + ResultLog(res1.None?, lines)
    requires res2 == Appended(res0, added) && log2 == log0 + ResultLog(res0.None?, added)
    ensures res2 == Appended(res1, lines + added) && log2 == log1 + ResultLog(res1.None?, lines + added)
  {
    AppendedAppend(res1, lines, added);
    ResultLogAppend(res1.None?, lines, added);
  }

  /** A dataset result agrees with a snapshot result: same outcome, same
      error, same name and content. */
  predicate Mirrors(r: Result<Dataset>, res: Result<Snap>)
    reads (if r.Ok? then {r.value} else {})`l
  {
    (r.Ok? <==> res.Ok?) && (r.Err? ==> r.error == res.error) &&
    (r.Ok? ==> Snap(r.value.name, r.value.l) == res.value)
  }

  /** The runtime: a component named `Runtime`, the dataset registry, the
      runtime's own command names, the basic command names, and the
      commands and `parse_boolean` the model does not look into. */
  class Runtime {
    const comp: Component
    const datasets: map<string, Dataset>
    const user: set<string>
    const basic: set<string>
    const ext: Invocation -> Answer
    const parseBool: Value -> Result<bool>

    constructor (datasets: map<string, Dataset>, user: set<string>, basic: set<string>,
                 ext: Invocation -> Answer, parseBool: Value -> Result<bool>)
      ensures this.datasets == datasets && this.user == user && this.basic == basic
      ensures this.ext == ext && this.parseBool == parseBool
      ensures fresh(comp) && comp.name == "Runtime" && comp.log == [] && comp.result.None?
      ensures comp.GetFlags() == Flags(false, false, false, false, false)
    {
      this.datasets := datasets;
      this.user := user;
      this.basic := basic;
      this.ext := ext;
      this.parseBool := parseBool;
      comp := new Component("Runtime");
    }

    /** The registry as snapshots. */
    function Registry(): map<string, Snap>
      reads datasets.Values`l
    {
      map k | k in datasets :: Snap(datasets[k].name, datasets[k].l)
    }

    function Context(): Env
      reads datasets.Values`l
    {
      Env(user, basic, Registry(), ext, parseBool)
    }

    /** `localfilter`: the loop over the filter arguments, reassigning the
        working content. */
    method FilterCommand(cur: Dataset, args: seq<Expr.Arg>) returns (r: Result<Returned>)
      ensures r == Filtered(Context(), cur.name, cur.l, args)
    {
      var res := cur.l;
      var i := 0;
      while i < |args|
        invariant 0 <= i <= |args|
        invariant Filtered(Context(), cur.name, res, args[i..]) == Filtered(Context(), cur.name, cur.l, args)
      {
        if !Truthy(res) {
          break;
        }
        var first := Item(res, false);
        if first.Err? {
          return Err(first.error);
        }
        var kept := FilterPass(Context(), first.value, Elements(res).value, args[i]);
        if kept.Err? {
          return Err(kept.error);
        }
        if kept.value == [] {
          return Ok(Fresh(Snap(cur.name, VStr(EMPTY_FILTER + CriterionRepr(args[i])))));
        }
        assert args[i..][1..] == args[i + 1..];
        res := VList(kept.value);
        i := i + 1;
      }
      r := Ok(Plain(res));
    }

    /** `execute_simple` once the table is known: calls the command; `count`
        adds its line to the result buffer. */
    method Dispatch(cur: Dataset, t: Table, name: string, args: seq<Expr.Arg>, ghost env: Env) returns (r: Result<Returned>)
      requires env == Context()
      modifies comp`log, comp`result
      ensures Context() == env
      ensures var s := Invoke(env, t, name, Snap(cur.name, cur.l), args);
              r == s.ret &&
              comp.result == Appended(old(comp.result), s.lines) &&
              comp.log == old(comp.log) + ResultLog(old(comp.result).None?, s.lines)
    {
      if t != Local || name !in MODELLED {
        var a := ext(Invocation(t, name, Snap(cur.name, cur.l), args));
        AddLines(a.lines);
        r := a.ret;
      } else {
        r := DispatchLocal(cur, name, args, env);
      }
    }

    /** The modelled local commands: only `count` adds a line. */
    method DispatchLocal(cur: Dataset, name: string, args: seq<Expr.Arg>, ghost env: Env) returns (r: Result<Returned>)
      requires env == Context() && name in MODELLED
      modifies comp`log, comp`result
      ensures Context() == env
      ensures var s := Invoke(env, Local, name, Snap(cur.name, cur.l), args);
              r == s.ret &&
              comp.result == Appended(old(comp.result), s.lines) &&
              comp.log == old(comp.log) + ResultLog(old(comp.result).None?, s.lines)
    {
      if name == "index" {
        r := IndexCommand(Registry(), args);
      } else if name == "take" {
        r := AsPlain(Take(cur.l, args));
      } else if name == "filter" {
        r := FilterCommand(cur, args);
      } else if name == "sort" || name == "rsort" {
        r := AsPlain(SortedOn(cur.l, args, name == "rsort"));
      } else if args != [] {
        r := Raise(TypeError, "localcount() takes 1 positional argument");
      } else {
        CountCommand(cur);
        r := Ok(Plain(VNone));
      }
    }

    /** The `add_result` calls of a command outside the model, one entry
        each, in order. */
    method AddLines(lines: seq<string>)
      modifies comp`log, comp`result
      ensures comp.result == Appended(old(comp.result), lines)
      ensures comp.log == old(comp.log) + ResultLog(old(comp.result).None?, lines)
    {
      var i := 0;
      while i < |lines|
        invariant 0 <= i <= |lines|
        invariant comp.result == Appended(old(comp.result), lines[..i])
        invariant comp.log == old(comp.log) + ResultLog(old(comp.result).None?, lines[..i])
      {
        var line := lines[i];
        BufferStep(old(comp.result), old(comp.log), lines[..i], line);
        comp.AddResult([line]);
        assert lines[..i + 1] == lines[..i] + [line];
        i := i + 1;
      }
      assert lines[..i] == lines;
    }

    /** `count`: adds the size line to the result buffer. */
    method CountCommand(cur: Dataset)
      modifies comp`log, comp`result
      ensures comp.result == Appended(old(comp.result), [CountLine(cur.l)])
      ensures comp.log == old(comp.log) + ResultLog(old(comp.result).None?, [CountLine(cur.l)])
    {
      var line := CountLine(cur.l);
      comp.AddResult([line]);
      assert Join(" ", [line]) == line;
      assert ["Added to result:"] + [line] == ["Added to result:", line];
      assert [line][..0] == [];
    }

    /** One pass of the loop: the stage's command is looked up and called,
        and its result reconciled with the current dataset. `step` is any
        stepper that agrees with `Step` in this runtime's context. */
    method RunStage(cur: Dataset, e: Expr.Expression, ghost env: Env, ghost step: Stepper) returns (r: Result<Dataset>)
      requires env == Context() && Agrees(step, env)
      modifies comp`log, comp`result
      ensures Context() == env
      ensures var s := step(Snap(cur.name, cur.l), e);
              Mirrors(r, s.res) &&
              (r.Ok? ==> r.value == cur || r.value in datasets.Values || fresh(r.value)) &&
              comp.result == Appended(old(comp.result), s.lines) &&
              comp.log == old(comp.log) + ResultLog(old(comp.result).None?, s.lines)
    {
      assert step(Snap(cur.name, cur.l), e) == Step(env, Snap(cur.name, cur.l), e);
      var t := Resolve(e.command, user, basic);
      if t.Err? {
        return Err(t.error);
      }
      var ret := Dispatch(cur, t.value, e.command.value, e.arguments, env);
      if ret.Err? {
        return Err(ret.error);
      }
      match ret.value
      case Plain(v) =>
        if v.VNone? {
          r := Ok(cur);
        } else if v.VList? {
          var d := cur.Clone(v);
          r := Ok(d);
        } else {
          r := Raise(RuntimeError, "Got unhandled result type <class '" + TypeName(v) + "'>");
        }
      case Fresh(d) =>
        var n := new Dataset(d.name, d.l);
        r := Ok(n);
      case Indexed(k) =>
        r := Ok(datasets[k]);
    }

    /** The result buffer and the log hold what adding `lines` to `res1`
        and `log1` gives. */
    ghost predicate Recorded(res1: Option<seq<string>>, log1: seq<string>, lines: seq<string>)
      reads comp`result, comp`log
    {
      comp.result == Appended(res1, lines) && comp.log == log1 + ResultLog(res1.None?, lines)
    }

    /** One turn of the stages' loop: runs the first stage left; `run`
        is the whole run, `lines` the lines added so far. */
    method Turn(dataset: Dataset, rest: seq<Expr.Expression>, ghost env: Env, ghost step: Stepper, ghost run: Run, ghost lines: seq<string>, ghost used: nat, ghost res1: Option<seq<string>>, ghost log1: seq<string>)
      returns (next: Result<Dataset>, ghost added: seq<string>)
      requires rest != [] && env == Context() && Agrees(step, env)
      requires run == RunAfter(step, Snap(dataset.name, dataset.l), rest, lines, used)
      requires Recorded(res1, log1, lines)
      modifies comp`log, comp`result
      ensures Context() == env
      ensures Recorded(res1, log1, lines + added)
      ensures next.Err? ==> run == Run(Err(next.error), lines + added, used + 1)
      ensures next.Ok? ==> run == RunAfter(step, Snap(next.value.name, next.value.l), rest[1..], lines + added, used + 1)
    {
      added := step(Snap(dataset.name, dataset.l), rest[0]).lines;
      RunTurn(step, run, Snap(dataset.name, dataset.l), rest, lines, used);
      ghost var res0, log0 := comp.result, comp.log;
      next := RunStage(dataset, rest[0], env, step);
      Bookkeeping(res1, log1, lines, added, res0, log0, comp.result, comp.log);
    }

    /** The stages' loop from `start`: pops and runs the stages until the
        pipeline is empty or one raises. */
    method Drain(start: Dataset, pipeline: seq<Expr.Expression>, ghost env: Env, ghost step: Stepper)
      returns (r: Result<Dataset>, rest: seq<Expr.Expression>)
      requires env == Context() && Agrees(step, env)
      modifies comp`log, comp`result
      ensures Context() == env
      ensures var run := RunWith(step, Snap(start.name, start.l), pipeline);
              Mirrors(r, run.res) && rest == pipeline[run.used..] &&
              comp.result == Appended(old(comp.result), run.lines) &&
              comp.log == old(comp.log) + ResultLog(old(comp.result).None?, run.lines)
    {
      ghost var run := RunWith(step, Snap(start.name, start.l), pipeline);
      ghost var res1, log1 := comp.result, comp.log;
      ghost var lines: seq<string> := [];
      r := Ok(start);
      var i := 0;
      while i < |pipeline| && r.Ok?
        invariant i <= |pipeline|
        invariant r.Ok? ==> run == RunAfter(step, Snap(r.value.name, r.value.l), pipeline[i..], lines, i)
        invariant r.Err? ==> run == Run(Err(r.error), lines, i)
        invariant Recorded(res1, log1, lines)
        invariant env == Context()
        decreases |pipeline| - i
      {
        ghost var added;
        assert pipeline[i..][1..] == pipeline[i + 1..];
        r, added := Turn(r.value, pipeline[i..], env, step, run, lines, i, res1, log1);
        lines := lines + added;
        i := i + 1;
      }
      rest := pipeline[i..];
      if r.Ok? {
        RunAfterDone(step, Snap(r.value.name, r.value.l), lines, i);
      }
    }

    /** The body of `execute` after the parameters: the run from the
        `default` dataset, or KeyError when there is none. */
    method RunDefault(pipeline: seq<Expr.Expression>) returns (r: Result<Dataset>, rest: seq<Expr.Expression>)
      modifies comp`log, comp`result
      ensures var run := Execution(Context(), pipeline);
              Mirrors(r, run.res) && rest == pipeline[run.used..] &&
              comp.result == Appended(old(comp.result), run.lines) &&
              comp.log == old(comp.log) + ResultLog(old(comp.result).None?, run.lines)
    {
      if "default" !in datasets {
        return Raise(KeyError, "'default'"), pipeline;
      }
      ghost var env := Context();
      StepInAgrees(env);
      r, rest := Drain(datasets["default"], pipeline, env, StepIn(env));
    }

    /** `execute(pipeline, parameters)`: applies the parameters, then pops
        and runs every stage from the `default` dataset. Returns the final
        dataset or the error raised, and what is left of the pipeline:
        nothing after a successful run. */
    method Execute(pipeline: seq<Expr.Expression>, params: seq<string>) returns (r: Result<Dataset>, rest: seq<Expr.Expression>)
      modifies comp
      ensures var run := Execution(Context(), pipeline);
              Mirrors(r, run.res) && rest == pipeline[run.used..] &&
              comp.result == Appended(old(comp.result), run.lines) &&
              comp.log == old(comp.log) + ParamLog(comp.name, params) + ResultLog(old(comp.result).None?, run.lines)
      ensures comp.GetFlags() == ApplyParams(old(comp.GetFlags()), params)
    {
      comp.HandleParameters(params);
      r, rest := RunDefault(pipeline);
    }
  }
}
