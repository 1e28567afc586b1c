/** The state every pipeline stage shares (klunk/component.py): mode flags
    set from `+` parameters, a log of lines and an optional result buffer. */
module Comp {
  import opened Wrappers
  import opened Strs

  /** The line `handle_parameters` logs for one word, if it knows the word. */
  function ParamLine(name: string, p: string): seq<string> {
    if p == "debug" then [name + " entered debug mode."]
    else if p == "test" then [name + " entered testing mode."]
    else if p == "timing" then [name + " entered timing mode."]
    else if p == "tb" || p == "tracebacks" then [name + " enabled tracebacks."]
    else if p == "asfile" then [name + " enabled file uploads."]
    else []
  }

  /** The log lines `handle_parameters` writes for the given words. */
  function ParamLog(name: string, params: seq<string>): (lines: seq<string>)
    ensures |lines| <= |params|
  {
    if params == [] then [] else ParamLine(name, params[0]) + ParamLog(name, params[1..])
  }

  /** The `[c:<offset>]` prefix of `llog`; Python renders a missing offset
      as `None`. */
  function LocPrefix(c: Option<int>): string {
    "[c:" + OptIntToString(c) + "]"
  }

  /** The five mode flags of a component. */
  datatype Flags = Flags(debug: bool, isTest: bool, timing: bool, tracebacks: bool, doUpload: bool)

  /** The flags after `handle_parameters(params)`: a word turns its flag on,
      and nothing turns one off. */
  function ApplyParams(f: Flags, params: seq<string>): (g: Flags)
    ensures f.debug ==> g.debug
    ensures f.isTest ==> g.isTest
    ensures f.timing ==> g.timing
    ensures f.tracebacks ==> g.tracebacks
    ensures f.doUpload ==> g.doUpload
    ensures params == [] ==> g == f
  {
    Flags(f.debug || "debug" in params, f.isTest || "test" in params, f.timing || "timing" in params,
          f.tracebacks || "tb" in params || "tracebacks" in params, f.doUpload || "asfile" in params)
  }

  lemma {:induction false} ApplyParamsSnoc(f: Flags, params: seq<string>, p: string)
    ensures ApplyParams(ApplyParams(f, params), [p]) == ApplyParams(f, params + [p])
  {
    assert forall w :: w in params + [p] <==> w in params || w == p;
  }

  lemma {:induction false} ApplyParamsAt(f: Flags, params: seq<string>, i: nat)
    requires i < |params|
    ensures ApplyParams(ApplyParams(f, params[..i]), [params[i]]) == ApplyParams(f, params[..i + 1])
  {
    assert params[..i + 1] == params[..i] + [params[i]];
    ApplyParamsSnoc(f, params[..i], params[i]);
  }

  lemma {:induction false} ParamLogAt(name: string, params: seq<string>, i: nat)
    requires i < |params|
    ensures ParamLog(name, params[i..]) == ParamLine(name, params[i]) + ParamLog(name, params[i + 1..])
  {
    assert params[i..][0] == params[i] && params[i..][1..] == params[i + 1..];
  }

  /** Moving one block of log lines from what is still to come to what was
      written. */
  lemma {:induction false} Shift(log0: seq<string>, line: seq<string>, rest: seq<string>, log: seq<string>, total: seq<string>)
    requires log0 + (line + rest) == total && log == log0 + line
    ensures log + rest == total
  {
  }

  class Component {
    const name: string
    var log: seq<string>
    var debug: bool
    var isTest: bool
    var timing: bool
    var tracebacks: bool
    var doUpload: bool
    var result: Option<seq<string>>

    function GetFlags(): Flags
      reads this`debug, this`isTest, this`timing, this`tracebacks, this`doUpload
    {
      Flags(debug, isTest, timing, tracebacks, doUpload)
    }

    /** A new component has every flag off, an empty log and no result. */
    constructor (name: string)
      ensures this.name == name
      ensures log == [] && result.None?
      ensures !debug && !isTest && !timing && !tracebacks && !doUpload
    {
      this.name := name;
      log := [];
      debug, isTest, timing, tracebacks, doUpload := false, false, false, false, false;
      result := None;
    }

    /** Each known word turns its flag on and logs one line; unknown words
        are ignored, and no flag is ever turned off. */
    method HandleParameters(params: seq<string>)
      modifies this
      ensures GetFlags() == ApplyParams(old(GetFlags()), params)
      ensures log == old(log) + ParamLog(name, params)
      ensures result == old(result)
    {
      ghost var f0, log1 := GetFlags(), log;
      var i := 0;
      while i < |params|
        invariant 0 <= i <= |params|
        invariant GetFlags() == ApplyParams(f0, params[..i])
        invariant log + ParamLog(name, params[i..]) == log1 + ParamLog(name, params)
        invariant result == old(result)
      {
        ParamLogAt(name, params, i);
        ghost var log0 := log;
        HandleParameter(params[i]);
        Shift(log0, ParamLine(name, params[i]), ParamLog(name, params[i + 1..]), log, log1 + ParamLog(name, params));
        ApplyParamsAt(f0, params, i);
        i := i + 1;
      }
      assert params[..i] == params;
    }

    /** One word of `handle_parameters`. */
    method HandleParameter(p: string)
      modifies this
      ensures GetFlags() == ApplyParams(old(GetFlags()), [p])
      ensures log == old(log) + ParamLine(name, p)
      ensures result == old(result)
    {
      if p == "debug" {
        debug := true;
        Log([name + " entered debug mode."]);
      } else if p == "test" {
        isTest := true;
        Log([name + " entered testing mode."]);
      } else if p == "timing" {
        timing := true;
        Log([name + " entered timing mode."]);
      } else if p == "tb" || p == "tracebacks" {
        tracebacks := true;
        Log([name + " enabled tracebacks."]);
      } else if p == "asfile" {
        doUpload := true;
        Log([name + " enabled file uploads."]);
      }
    }

    /** Appends exactly one entry: the arguments joined by spaces. */
    method Log(args: seq<string>)
      modifies this`log
      ensures log == old(log) + [Join(" ", args)]
    {
      log := log + [Join(" ", args)];
    }

    /** Logs with the `[c:<offset>]` prefix. */
    method LLog(c: Option<int>, args: seq<string>)
      modifies this`log
      ensures log == old(log) + [Join(" ", [LocPrefix(c)] + args)]
    {
      Log([LocPrefix(c)] + args);
    }

    /** Logs as if in debug mode and leaves `debug` as it was. */
    method AlwaysLog(args: seq<string>)
      modifies this`log, this`debug
      ensures debug == old(debug)
      ensures log == old(log) + [Join(" ", args)]
    {
      var v := debug;
      debug := true;
      Log(args);
      debug := v;
    }

    /** Starts the result buffer on first use and appends one joined entry. */
    method AddResult(args: seq<string>)
      modifies this`log, this`result
      ensures result == Some(old(result).GetOr([]) + [Join(" ", args)])
      ensures log == old(log) + (if old(result).None? then ["Began recording a result."] else [])
                              + [Join(" ", ["Added to result:"] + args)]
    {
      if result.None? {
        Log(["Began recording a result."]);
        result := Some([]);
      }
      result := Some(result.value + [Join(" ", args)]);
      Log(["Added to result:"] + args);
    }

    /** The log as one text, one entry per line. */
    function DumpLog(): string
      reads this
    {
      Join("\n", log)
    }
  }

  /** A dumped log splits back into its entries when none of them holds a
      newline. */
  lemma {:induction false} DumpLogReadBack(log: seq<string>)
    requires |log| >= 1
    requires forall k :: 0 <= k < |log| ==> '\n' !in log[k]
    ensures Split(Join("\n", log), '\n') == log
  {
    assert "\n" == ['\n'];
    SplitJoin(log, '\n');
  }
}
