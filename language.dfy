/** The front end of the query language (klunk/language.py): a lexer that
    turns a query string into tokens carrying their character offsets, and a
    compiler that groups the tokens into a pipeline of expressions. */
module Language {
  import opened Wrappers
  import opened Strs
  import opened Seqs
  import opened Expr
  import opened Comp

  /** Fixed parts of the error messages. */
  const NO_STRING_END := "Could not find end to string: "
  const UNEXPECTED_CHAR := "Unexpected character while tokenizing: '"
  const QUERY_REMAINDER := "' (Query remainder: '"
  const TOO_MANY_TOKENS := "Exceeded max tokens (1000) The current s is: "
  const LEADING_FUNCTION := "Found leading function in expression (("
  const EMPTY_EXPRESSION := "Expression starting at character "

  /** A lexed token; `c` is its offset in the query, when known. */
  datatype Token =
    | Pipe(c: Option<int>)
    | Str(data: string, c: Option<int>)
    | Function(name: string, args: string, c: Option<int>)
    | Parameters(words: seq<string>, c: Option<int>)
    | List(c: Option<int>)

  /** The token's kind name; `Token.__eq__` compares nothing else. */
  function KindName(t: Token): string {
    match t
    case Pipe(_) => "|"
    case Str(_, _) => "STRING"
    case Function(_, _, _) => "FUNCTION"
    case Parameters(_, _) => "PARAMETERS"
    case List(_) => "LIST"
  }

  predicate SameKind(a: Token, b: Token) {
    KindName(a) == KindName(b)
  }

  /** Token equality holds exactly between tokens of one constructor,
      whatever their data and offsets. */
  lemma {:induction false} SameKindIsConstructor(a: Token, b: Token)
    ensures SameKind(a, b) <==>
      (a.Pipe? && b.Pipe?) || (a.Str? && b.Str?) || (a.Function? && b.Function?) ||
      (a.Parameters? && b.Parameters?) || (a.List? && b.List?)
  {
  }

  /** `peek(s)`: the first character, or "" for an empty string. */
  function Peek(s: string): (r: string)
    ensures |r| <= 1 && (r == [] <==> s == [])
    ensures r != [] ==> r[0] == s[0]
  {
    if s == [] then "" else [s[0]]
  }

  /** `prep_top_level_expression`: a query always starts with a pipe. */
  function PrepTopLevel(e: string): (r: string)
    ensures StartsWith(r, "|")
    ensures StartsWith(e, "|") ==> r == e
    ensures !StartsWith(e, "|") ==> r == "|" + e
  {
    if StartsWith(e, "|") then e else "|" + e
  }

  lemma {:induction false} PrepTopLevelIdempotent(e: string)
    ensures PrepTopLevel(PrepTopLevel(e)) == PrepTopLevel(e)
  {
  }

  /** `split_before(c, p)`: cuts `c` before its first character satisfying
      `p` (after its end when there is none). */
  function SplitBefore(c: string, p: char -> bool): (r: (string, string))
    ensures r.0 + r.1 == c
    ensures forall i :: 0 <= i < |r.0| ==> !p(r.0[i])
    ensures r.1 == [] || p(r.1[0])
  {
    match FirstIndex(c, p)
    case None => (c, "")
    case Some(i) => (c[..i], c[i..])
  }

  /** The two conditions above pin the cut down: no other split meets them. */
  lemma {:induction false} SplitBeforeUnique(c: string, p: char -> bool, a: string, b: string)
    requires a + b == c
    requires forall i :: 0 <= i < |a| ==> !p(a[i])
    requires b == [] || p(b[0])
    ensures SplitBefore(c, p) == (a, b)
  {
    var (x, y) := SplitBefore(c, p);
    assert x == c[..|x|] && a == c[..|a|];
  }

  predicate IsStringEnd(ch: char) {
    ch in "|() "
  }

  /** `consume_string(s)`: a word runs up to a pipe, a parenthesis or a space. */
  function ConsumeString(s: string): (r: (string, string))
    ensures r.0 + r.1 == s
    ensures forall i :: 0 <= i < |r.0| ==> !IsStringEnd(r.0[i])
    ensures r.1 == [] || IsStringEnd(r.1[0])
  {
    SplitBefore(s, IsStringEnd)
  }

  function IsChar(q: char): char -> bool {
    ch => ch == q
  }

  /** The scan of `consume_quoted` after the opening quote `q`: the text up
      to the next `q` is taken, and a backslash right before that `q` turns
      it into a literal `q` and the scan goes on. Returns the text collected
      after `res` and what is left, which is empty or starts at the
      closing quote. */
  function QuotedScan(s: string, q: char, res: string): (r: (string, string))
    ensures IsSuffix(r.1, s)
    ensures r.1 == [] || r.1[0] == q
    decreases |s|
  {
    if s == [] then (res, s)
    else
      var (a, b) := SplitBefore(s, IsChar(q));
      SuffixCat(s, a, b);
      if a != [] && a[|a| - 1] == '\\' && b != [] then
        var r := QuotedScan(b[1..], q, res + a[..|a| - 1] + [b[0]]);
        SuffixCat(b, [b[0]], b[1..]);
        SuffixTrans(r.1, b[1..], b);
        SuffixTrans(r.1, b, s);
        r
      else
        (res + a, b)
  }

  /** One round of the scan. */
  lemma {:induction false} QuotedScanRound(s: string, q: char, res: string)
    requires s != []
    ensures var (a, b) := SplitBefore(s, IsChar(q));
            QuotedScan(s, q, res) ==
              if a != [] && a[|a| - 1] == '\\' && b != [] then QuotedScan(b[1..], q, res + a[..|a| - 1] + [b[0]])
              else (res + a, b)
  {
  }

  /** What `consume_quoted(s)` returns: the unescaped text between the
      opening quote `s[0]` and its closing quote, and the text after it;
      ParseError when the closing quote is missing. */
  function Unquote(s: string): (r: Result<(string, string)>)
    requires s != []
    ensures r.Ok? ==> |r.value.1| < |s| && IsSuffix(r.value.1, s)
    ensures r.Err? ==> r.error.kind == ParseError
  {
    var (res, t) := QuotedScan(s[1..], s[0], "");
    if t == [] then Raise(ParseError, NO_STRING_END + s)
    else
      SuffixCat(t, [t[0]], t[1..]);
      SuffixCat(s, [s[0]], s[1..]);
      SuffixTrans(t[1..], t, s[1..]);
      SuffixTrans(t[1..], s[1..], s);
      Ok((res, t[1..]))
  }

  /** One round of `consume_quoted`'s loop: takes the text up to the next
      `q`; an escaped `q` is kept and the scan goes on, otherwise it stops. */
  method ScanRound(rest: string, q: char, res: string) returns (rest': string, res': string, more: bool)
    requires rest != []
    ensures |rest'| <= |rest| && (more ==> |rest'| < |rest|)
    ensures more ==> QuotedScan(rest', q, res') == QuotedScan(rest, q, res)
    ensures !more ==> (res', rest') == QuotedScan(rest, q, res)
  {
    var (a, b) := SplitBefore(rest, IsChar(q));
    QuotedScanRound(rest, q, res);
    if a != [] && a[|a| - 1] == '\\' && b != [] {
      res', rest', more := res + a[..|a| - 1] + [b[0]], b[1..], true;
    } else {
      res', rest', more := res + a, b, false;
    }
  }

  /** `consume_quoted(s)`. */
  method ConsumeQuoted(s: string) returns (r: Result<(string, string)>)
    requires s != []
    ensures r == Unquote(s)
  {
    var res := "";
    var q := s[0];
    var rest := s[1..];
    var more := true;
    while rest != [] && more
      invariant more ==> QuotedScan(rest, q, res) == QuotedScan(s[1..], q, "")
      invariant !more ==> (res, rest) == QuotedScan(s[1..], q, "")
      decreases |rest| + if more then 1 else 0
    {
      rest, res, more := ScanRound(rest, q, res);
    }
    if rest == [] {
      return Raise(ParseError, NO_STRING_END + s);
    }
    return Ok((res, rest[1..]));
  }

  /** The text a query writer puts between quotes `q` to mean `x`: every `q`
      is preceded by a backslash. */
  function Escape(x: string, q: char): (r: string)
    ensures q !in x ==> r == x
  {
    if x == [] then []
    else (if x[0] == q then ['\\', q] else [x[0]]) + Escape(x[1..], q)
  }

  lemma {:induction false} EscapeAppend(x: string, y: string, q: char)
    ensures Escape(x + y, q) == Escape(x, q) + Escape(y, q)
    decreases |x|
  {
    if x != [] {
      assert (x + y)[1..] == x[1..] + y;
      EscapeAppend(x[1..], y, q);
    } else {
      assert x + y == y;
    }
  }

  /** Quoting round trip: an escaped text between quotes reads back as
      itself, and lexing resumes right after the closing quote. A text that
      ends in a backslash cannot be written this way, as that backslash
      would escape the closing quote. */
  lemma {:induction false} QuotedRoundTrip(q: char, x: string, rest: string)
    requires q != '\\'
    requires x == [] || x[|x| - 1] != '\\'
    ensures Unquote([q] + Escape(x, q) + [q] + rest) == Ok((x, rest))
  {
    var body := Escape(x, q) + [q] + rest;
    assert [q] + Escape(x, q) + [q] + rest == [q] + body;
    DropCons(q, body);
    QuotedScanEscaped(q, x, rest, "");
    DropCons(q, rest);
    assert "" + x == x;
  }

  lemma {:induction false} QuotedScanEscaped(q: char, x: string, rest: string, res: string)
    requires q != '\\'
    requires x == [] || x[|x| - 1] != '\\'
    ensures QuotedScan(Escape(x, q) + [q] + rest, q, res) == (res + x, [q] + rest)
    decreases |x|
  {
    if q !in x {
      QuotedScanPlain(q, x, rest, res);
    } else {
      var i := FirstQuote(x, q);
      var x1, x2 := x[..i], x[i + 1..];
      CutAt(x, i);
      QuotedScanEscapedQuote(q, x1, x2, rest, res);
      QuotedScanEscaped(q, x2, rest, res + x1 + [q]);
      Regroup(res, x1, [q], x2);
    }
  }

  /** The index of the first `q` in a text that contains one. */
  lemma {:induction false} FirstQuote(x: string, q: char) returns (i: nat)
    requires q in x
    ensures i < |x| && x[i] == q && q !in x[..i]
  {
    var f := FirstIndex(x, IsChar(q));
    i := f.value;
    assert IsChar(q)(x[i]);
    forall j | 0 <= j < i ensures x[..i][j] != q {
      assert !IsChar(q)(x[j]);
    }
  }

  /** Text without the quote character is taken up to the closing quote. */
  lemma {:induction false} QuotedScanPlain(q: char, x: string, rest: string, res: string)
    requires q != '\\' && q !in x
    requires x == [] || x[|x| - 1] != '\\'
    ensures QuotedScan(Escape(x, q) + [q] + rest, q, res) == (res + x, [q] + rest)
  {
    var b := [q] + rest;
    assert x + [q] + rest == x + b;
    forall i | 0 <= i < |x| ensures !IsChar(q)(x[i]) {
    }
    SplitBeforeUnique(x + b, IsChar(q), x, b);
  }

  /** An escaped quote is taken as a literal quote and the scan goes on. */
  lemma {:induction false} QuotedScanEscapedQuote(q: char, x1: string, x2: string, rest: string, res: string)
    requires q != '\\' && q !in x1
    ensures QuotedScan(Escape(x1 + [q] + x2, q) + [q] + rest, q, res) ==
            QuotedScan(Escape(x2, q) + [q] + rest, q, res + x1 + [q])
  {
    var tail := Escape(x2, q) + [q] + rest;
    var a, b := x1 + ['\\'], [q] + tail;
    EscapeQuote(q, x1, x2);
    assert Escape(x1 + [q] + x2, q) + [q] + rest == a + b;
    SplitBeforeBackslash(q, x1, b);
    QuotedScanStep(q, a, b, res);
    DropCons(q, tail);
    TakeSnoc(x1, '\\');
  }

  lemma {:induction false} EscapeQuote(q: char, x1: string, x2: string)
    requires q !in x1
    ensures Escape(x1 + [q] + x2, q) == x1 + ['\\'] + ([q] + Escape(x2, q))
  {
    var e2 := Escape(x2, q);
    Regroup([], x1, [q], x2);
    EscapeAppend(x1, [q] + x2, q);
    EscapeCons(q, x2);
    PairSplit(x1, '\\', q, e2);
  }

  lemma {:induction false} PairSplit(x: string, c: char, d: char, e: string)
    ensures x + ([c, d] + e) == x + [c] + ([d] + e)
  {
  }

  lemma {:induction false} EscapeCons(q: char, x: string)
    ensures Escape([q] + x, q) == ['\\', q] + Escape(x, q)
  {
    DropCons(q, x);
  }

  lemma {:induction false} SplitBeforeBackslash(q: char, x1: string, b: string)
    requires q != '\\' && q !in x1 && b != [] && b[0] == q
    ensures SplitBefore(x1 + ['\\'] + b, IsChar(q)) == (x1 + ['\\'], b)
  {
    var a := x1 + ['\\'];
    forall i | 0 <= i < |a| ensures !IsChar(q)(a[i]) {
      if i < |x1| { assert a[i] == x1[i]; }
    }
    SplitBeforeUnique(a + b, IsChar(q), a, b);
  }

  lemma {:induction false} QuotedScanStep(q: char, a: string, b: string, res: string)
    requires a != [] && a[|a| - 1] == '\\' && b != [] && b[0] == q
    requires SplitBefore(a + b, IsChar(q)) == (a, b)
    ensures QuotedScan(a + b, q, res) == QuotedScan(b[1..], q, res + a[..|a| - 1] + [q])
  {
  }

  /** Without a closing quote, `consume_quoted` raises ParseError. */
  lemma {:induction false} UnquoteUnterminated(q: char, x: string)
    requires q !in x
    ensures Unquote([q] + x).Err? && Unquote([q] + x).error.kind == ParseError
  {
    assert ([q] + x)[1..] == x;
    forall j | 0 <= j < |x| ensures !IsChar(q)(x[j]) {
    }
    if x != [] {
      SplitBeforeUnique(x, IsChar(q), x, []);
    }
  }

  const MAX_TOKENS := 1000

  predicate IsQuote(ch: char) {
    ch == '\'' || ch == '"'
  }

  /** One round of the lexer on left-stripped, non-empty text `t` found at
      offset `loc`: the token there and the text after it. */
  function LexOne(t: string, loc: int): (r: Result<(Token, string)>)
    requires t != []
    ensures r.Ok? ==> |r.value.1| < |t| && IsSuffix(r.value.1, t)
    ensures r.Ok? ==> r.value.0.c == Some(loc)
  {
    if t[0] == '|' then
      SuffixCat(t, [t[0]], t[1..]);
      Ok((Pipe(Some(loc)), t[1..]))
    else if IsAlpha(t[0]) || IsDigitChar(t[0]) then
      Ok(LexWord(t, loc))
    else if IsQuote(t[0]) then
      LexQuoted(t, loc)
    else
      Raise(ParseError, UNEXPECTED_CHAR + [t[0]] + QUERY_REMAINDER + t + "')")
  }

  /** A word, or a function call when a word that starts with a letter is
      followed directly by `(`. */
  function LexWord(t: string, loc: int): (r: (Token, string))
    requires t != [] && (IsAlpha(t[0]) || IsDigitChar(t[0]))
    ensures |r.1| < |t| && IsSuffix(r.1, t)
    ensures r.0.c == Some(loc)
    ensures r.0.Str? ==> OccursAt(t, r.0.data, 0)
    ensures r.0.Function? ==> OccursAt(t, r.0.name + "(", 0)
    ensures r.0.Str? || r.0.Function?
  {
    var (word, s) := ConsumeString(t);
    assert !IsStringEnd(t[0]);
    assert word != [];
    SuffixCat(t, word, s);
    if IsAlpha(t[0]) && s != [] && s[0] == '(' then
      var (data, sep, after) := Partition(s[1..], ")");
      SuffixCat(s[1..], data + sep, after);
      SuffixCat(s, [s[0]], s[1..]);
      SuffixTrans(after, s[1..], s);
      SuffixTrans(after, s, t);
      assert t[..|word| + 1] == word + "(";
      (Function(word, data, Some(loc)), after)
    else
      (Str(word, Some(loc)), s)
  }

  /** A quoted string. */
  function LexQuoted(t: string, loc: int): (r: Result<(Token, string)>)
    requires t != []
    ensures r.Ok? ==> |r.value.1| < |t| && IsSuffix(r.value.1, t)
    ensures r.Ok? ==> r.value.0.c == Some(loc) && r.value.0.Str?
  {
    var u := Unquote(t);
    if u.Err? then Err(u.error) else Ok((Str(u.value.0, Some(loc)), u.value.1))
  }

  /** `Then(prefix, r)` puts `prefix` in front of a successful result. */
  function Then(prefix: seq<Token>, r: Result<seq<Token>>): Result<seq<Token>> {
    if r.Ok? then Ok(prefix + r.value) else r
  }

  /** Putting a token after a prefix is putting both in front. */
  lemma {:induction false} ThenSnoc(prefix: seq<Token>, tok: Token, r: Result<seq<Token>>)
    ensures Then(prefix + [tok], r) == Then(prefix, Then([tok], r))
  {
    if r.Ok? {
      assert prefix + ([tok] + r.value) == (prefix + [tok]) + r.value;
    }
  }

  /** The lexer loop from text `s`, with `count` tokens already produced and
      offsets measured from the end of a query of length `size`. */
  function LexLoop(s: string, size: int, count: nat): (r: Result<seq<Token>>)
    ensures r.Ok? ==> count + |r.value| <= MAX_TOKENS
    decreases |s|, 3
  {
    if count > MAX_TOKENS then
      Raise(ParseError, TOO_MANY_TOKENS + s + ".")
    else LexAt(LStrip(s), size, count)
  }

  /** The lexer loop once the text is left-stripped: nothing left ends it. */
  function LexAt(t: string, size: int, count: nat): (r: Result<seq<Token>>)
    requires count <= MAX_TOKENS
    ensures r.Ok? ==> count + |r.value| <= MAX_TOKENS
    decreases |t|, 2
  {
    if t == [] then Ok([]) else LexStep(t, size, count)
  }

  /** The token at the start of the stripped, non-empty text `t`, in front
      of what the loop makes of the rest. */
  function LexStep(t: string, size: int, count: nat): (r: Result<seq<Token>>)
    requires t != [] && count <= MAX_TOKENS
    ensures r.Ok? ==> count + |r.value| <= MAX_TOKENS
    decreases |t|, 1
  {
    var step := LexOne(t, size - |t|);
    if step.Err? then Err(step.error)
    else Then([step.value.0], LexLoop(step.value.1, size, count + 1))
  }

  /** The words of a `+` block: the non-empty pieces between spaces. */
  function ParamWords(head: string): (r: seq<string>)
    ensures forall k :: 0 <= k < |r| ==> r[k] != [] && ' ' !in r[k]
  {
    var pieces := Split(head, ' ');
    SplitPieces(head, ' ');
    var r := Filter(pieces, NonEmpty);
    assert forall k :: 0 <= k < |r| ==> r[k] in pieces && NonEmpty(r[k]);
    r
  }

  predicate NonEmpty(w: string) {
    w != []
  }

  /** `Tokenizer.tokenize(s)`: a leading `+` block up to the first pipe
      becomes one PARAMETERS token at offset 0, then the rest is lexed. */
  function Lex(s: string): (r: Result<seq<Token>>)
    ensures r.Ok? ==> |r.value| <= MAX_TOKENS
  {
    if s != [] && s[0] == '+' then
      var (head, rest) := SplitOnce(s[1..], '|');
      Then([Parameters(ParamWords(head), Some(0))], LexLoop(rest, |s|, 1))
    else
      LexLoop(s, |s|, 0)
  }

  class Tokenizer {
    const comp: Component

    constructor ()
      ensures fresh(comp) && comp.name == "Tokenizer"
      ensures comp.log == [] && comp.result.None? && comp.GetFlags() == Flags(false, false, false, false, false)
    {
      comp := new Component("Tokenizer");
    }

    /** Lexes `s`; the words of a `+` block also go to `handle_parameters`,
        even when lexing later fails. */
    method Tokenize(s: string) returns (r: Result<seq<Token>>)
      modifies comp
      ensures r == Lex(s)
      ensures r.Ok? ==> WellPlaced(s, r.value, 0, |s|)
      ensures s != [] && s[0] == '+' ==>
        var words := ParamWords(SplitOnce(s[1..], '|').0);
        comp.GetFlags() == ApplyParams(old(comp.GetFlags()), words) &&
        comp.log == old(comp.log) + ParamLog(comp.name, words)
      ensures !(s != [] && s[0] == '+') ==> comp.GetFlags() == old(comp.GetFlags()) && comp.log == old(comp.log)
      ensures comp.result == old(comp.result)
    {
      var tokens: seq<Token> := [];
      var cur := s;
      if Peek(s) == "+" {
        var (head, rest) := SplitOnce(s[1..], '|');
        cur := rest;
        SplitOnceSpec(s[1..], '|');
        assert s == ([s[0]] + head) + cur;
        SuffixCat(s, [s[0]] + head, cur);
        var words := ParamWords(head);
        comp.HandleParameters(words);
        tokens := [Parameters(words, Some(0))];
        assert TokenAt(s, tokens[0]) && |cur| < |s|;
      } else {
        var l := LexLoop(s, |s|, 0);
        assert l.Ok? ==> [] + l.value == l.value;
        assert IsSuffix(s, s);
      }
      r := LexFrom(s, tokens, cur);
    }

    /** The `tokenize` loop: lexes `cur`, the rest of the query `q`, after
        the tokens already found. */
    method LexFrom(q: string, tokens0: seq<Token>, cur0: string) returns (r: Result<seq<Token>>)
      requires IsSuffix(cur0, q) && WellPlaced(q, tokens0, 0, |q| - |cur0|)
      ensures r == Then(tokens0, LexLoop(cur0, |q|, |tokens0|))
      ensures r.Ok? ==> WellPlaced(q, r.value, 0, |q|)
    {
      var tokens, cur := tokens0, cur0;
      while true
        invariant Then(tokens, LexLoop(cur, |q|, |tokens|)) == Then(tokens0, LexLoop(cur0, |q|, |tokens0|))
        invariant IsSuffix(cur, q) && WellPlaced(q, tokens, 0, |q| - |cur|)
        decreases |cur|
      {
        if |tokens| > MAX_TOKENS {
          return Raise(ParseError, TOO_MANY_TOKENS + cur + ".");
        }
        var t := LStrip(cur);
        if t == [] {
          break;
        }
        LStripSuffix(cur);
        SuffixTrans(t, cur, q);
        var step := NextToken(q, t, |tokens|);
        if step.Err? {
          return Err(step.error);
        }
        SuffixTrans(step.value.1, t, q);
        WellPlacedSnoc(q, tokens, step.value.0, |q| - |cur|, |q| - |step.value.1|);
        ThenSnoc(tokens, step.value.0, LexLoop(step.value.1, |q|, |tokens| + 1));
        tokens := tokens + [step.value.0];
        cur := step.value.1;
      }
      assert tokens + [] == tokens;
      WellPlacedWiden(q, tokens, |q| - |cur|, |q|);
      return Ok(tokens);
    }

    /** The body of the `tokenize` loop: the token at the start of `t`, the
        left-stripped rest of the query `q`, where `count` tokens are already
        found. It is the token the lexer loop puts next, and it sits where
        its offset says. */
    method NextToken(q: string, t: string, count: nat) returns (r: Result<(Token, string)>)
      requires t != [] && IsSuffix(t, q) && count <= MAX_TOKENS
      ensures r.Err? ==> LexAt(t, |q|, count) == Err(r.error)
      ensures r.Ok? ==> LexAt(t, |q|, count) == Then([r.value.0], LexLoop(r.value.1, |q|, count + 1))
      ensures r.Ok? ==> |r.value.1| < |t| && IsSuffix(r.value.1, t)
      ensures r.Ok? ==> TokenAt(q, r.value.0) && r.value.0.c == Some(|q| - |t|)
    {
      var loc := |q| - |t|;
      LexOneAt(q, t);
      assert LexAt(t, |q|, count) == LexStep(t, |q|, count);
      if t[0] == '|' {
        return Ok((Pipe(Some(loc)), t[1..]));
      }
      if IsAlpha(t[0]) {
        var (word, rest) := ConsumeString(t);
        if Peek(rest) == "(" {
          var (data, _, after) := Partition(rest[1..], ")");
          return Ok((Function(word, data, Some(loc)), after));
        }
        return Ok((Str(word, Some(loc)), rest));
      }
      if IsDigitChar(t[0]) {
        var (word, rest) := ConsumeString(t);
        return Ok((Str(word, Some(loc)), rest));
      }
      if IsQuote(t[0]) {
        var q := ConsumeQuoted(t);
        if q.Err? {
          return Err(q.error);
        }
        return Ok((Str(q.value.0, Some(loc)), q.value.1));
      }
      return Raise(ParseError, UNEXPECTED_CHAR + [t[0]] + QUERY_REMAINDER + t + "')");
    }
  }

  /** The empty query and the lone pipe, as the lexer's tests pin them. */
  lemma {:induction false} LexSmall()
    ensures Lex("") == Ok([])
    ensures Lex("|") == Ok([Pipe(Some(0))])
  {
    assert LStrip("|") == "|";
    assert "|"[1..] == "";
    assert LexOne("|", 0) == Ok((Pipe(Some(0)), ""));
    assert LexLoop("", 1, 1) == LexAt("", 1, 1) == Ok([]);
    assert LexLoop("|", 1, 0) == LexAt("|", 1, 0) == LexStep("|", 1, 0);
    assert [Pipe(Some(0))] + [] == [Pipe(Some(0))];
    assert LexLoop("", 0, 0) == LexAt("", 0, 0);
  }

  /** A first character that no token can start with is a ParseError. */
  lemma {:induction false} LexRejectsBadStart(s: string)
    requires !(s != [] && s[0] == '+')
    requires LStrip(s) != []
    requires var ch := LStrip(s)[0]; ch != '|' && !IsAlpha(ch) && !IsDigitChar(ch) && !IsQuote(ch)
    ensures Lex(s).Err? && Lex(s).error.kind == ParseError
  {
    var t := LStrip(s);
    assert Lex(s) == LexLoop(s, |s|, 0) == LexAt(t, |s|, 0) == LexStep(t, |s|, 0);
  }

  /** Where a token sits in the query `q`: a pipe at its offset; a word (or
      the name and `(` of a call) starts there; a quoted string's quote is
      there; a `+` block is at offset 0. */
  predicate TokenAt(q: string, t: Token) {
    t.c.Some? && 0 <= t.c.value < |q| &&
    match t
    case Pipe(c) => q[c.value] == '|'
    case Str(data, c) => OccursAt(q, data, c.value) || IsQuote(q[c.value])
    case Function(name, _, c) => OccursAt(q, name + "(", c.value)
    case Parameters(_, c) => c.value == 0 && q[0] == '+'
    case List(_) => false
  }

  /** Offsets increase strictly along the token list. */
  predicate Increasing(ts: seq<Token>)
    requires forall k :: 0 <= k < |ts| ==> ts[k].c.Some?
  {
    forall i, j :: 0 <= i < j < |ts| ==> ts[i].c.value < ts[j].c.value
  }

  /** What occurs at the start of a suffix occurs in the whole string. */
  lemma {:induction false} OccursInSuffix(q: string, t: string, w: string)
    requires IsSuffix(t, q) && OccursAt(t, w, 0)
    ensures OccursAt(q, w, |q| - |t|)
  {
    var loc := |q| - |t|;
    SuffixDrop(t, q);
    assert q[loc..loc + |w|] == q[loc..][..|w|];
  }

  lemma {:induction false} LexOneAt(q: string, t: string)
    requires t != [] && IsSuffix(t, q)
    ensures LexOne(t, |q| - |t|).Ok? ==> TokenAt(q, LexOne(t, |q| - |t|).value.0)
  {
    var loc := |q| - |t|;
    SuffixDrop(t, q);
    assert q[loc] == q[loc..][0] == t[0];
    if t[0] != '|' && (IsAlpha(t[0]) || IsDigitChar(t[0])) {
      LexWordAt(q, t);
    }
  }

  lemma {:induction false} LexWordAt(q: string, t: string)
    requires t != [] && IsSuffix(t, q) && (IsAlpha(t[0]) || IsDigitChar(t[0]))
    ensures TokenAt(q, LexWord(t, |q| - |t|).0)
  {
    var tok := LexWord(t, |q| - |t|).0;
    if tok.Str? {
      OccursInSuffix(q, t, tok.data);
    } else {
      OccursInSuffix(q, t, tok.name + "(");
    }
  }

  /** Every token of `ts` sits where its offset says, the offsets lie in
      `[lo, hi)`, and they increase. */
  predicate WellPlaced(q: string, ts: seq<Token>, lo: int, hi: int) {
    (forall k :: 0 <= k < |ts| ==> TokenAt(q, ts[k]) && lo <= ts[k].c.value < hi) && Increasing(ts)
  }

  /** A token placed after every token of `ts` keeps the list well placed. */
  lemma {:induction false} WellPlacedSnoc(q: string, ts: seq<Token>, tok: Token, hi: int, hi': int)
    requires WellPlaced(q, ts, 0, hi) && TokenAt(q, tok) && hi <= tok.c.value < hi'
    ensures WellPlaced(q, ts + [tok], 0, hi')
  {
    var r := ts + [tok];
    forall k | 0 <= k < |r| ensures TokenAt(q, r[k]) && 0 <= r[k].c.value < hi' {
      if k < |ts| { assert r[k] == ts[k]; }
    }
    forall i, j | 0 <= i < j < |r| ensures r[i].c.value < r[j].c.value {
      assert r[i] == ts[i];
      if j < |ts| { assert r[j] == ts[j]; }
    }
  }

  lemma {:induction false} WellPlacedWiden(q: string, ts: seq<Token>, hi: int, hi': int)
    requires WellPlaced(q, ts, 0, hi) && hi <= hi'
    ensures WellPlaced(q, ts, 0, hi')
  {
  }

  /** A `+` block runs to the first pipe, where lexing resumes. */
  lemma {:induction false} LexParameters(head: string, tail: string)
    requires '|' !in head
    ensures Lex(['+'] + (head + ['|'] + tail)) ==
            Then([Parameters(ParamWords(head), Some(0))], LexLoop(['|'] + tail, |head| + |tail| + 2, 1))
  {
    DropCons('+', head + ['|'] + tail);
    SplitOnceAt(head, '|', tail);
  }

  /** Without a pipe, the `+` block is the whole query. */
  lemma {:induction false} LexParametersOnly(head: string)
    requires '|' !in head
    ensures Lex(['+'] + head) == Ok([Parameters(ParamWords(head), Some(0))])
  {
    DropCons('+', head);
    SplitOnceMissing(head, '|');
    assert LexLoop("", |head| + 1, 1) == LexAt("", |head| + 1, 1) == Ok([]);
    assert [Parameters(ParamWords(head), Some(0))] + [] == [Parameters(ParamWords(head), Some(0))];
  }

  lemma {:induction false} LexOneFunction(name: string, args: string, rest: string)
    requires name != [] && IsAlpha(name[0])
    requires forall i :: 0 <= i < |name| ==> !IsStringEnd(name[i])
    requires ')' !in args
    ensures var s := name + "(" + args + ")" + rest;
            s != [] && IsAlpha(s[0]) && LexOne(s, 0) == Ok((Function(name, args, Some(0)), rest))
  {
    var s := name + "(" + args + ")" + rest;
    assert s[0] == name[0];
    LexWordFunction(name, args, rest);
  }

  lemma {:induction false} LexWordFunction(name: string, args: string, rest: string)
    requires name != [] && IsAlpha(name[0])
    requires forall i :: 0 <= i < |name| ==> !IsStringEnd(name[i])
    requires ')' !in args
    ensures var s := name + "(" + args + ")" + rest;
            s[0] == name[0] && LexWord(s, 0) == (Function(name, args, Some(0)), rest)
  {
    var s := name + "(" + args + ")" + rest;
    var after := "(" + args + ")" + rest;
    assert s == name + after;
    SplitBeforeUnique(s, IsStringEnd, name, after);
    assert after[1..] == args + [')'] + rest;
    PartitionAtFirst(args, ')', rest);
  }

  /** A word followed directly by `(` is one FUNCTION token holding the text
      up to the first `)`; parentheses do not nest. */
  lemma {:induction false} LexFunction(name: string, args: string, rest: string)
    requires name != [] && IsAlpha(name[0])
    requires forall i :: 0 <= i < |name| ==> !IsStringEnd(name[i])
    requires ')' !in args
    ensures var s := name + "(" + args + ")" + rest;
            Lex(s) == Then([Function(name, args, Some(0))], LexLoop(rest, |s|, 1))
  {
    var s := name + "(" + args + ")" + rest;
    LexOneFunction(name, args, rest);
    LexFirst(s, Function(name, args, Some(0)), rest);
  }

  /** Text that starts with a letter is lexed from its first token on. */
  lemma {:induction false} LexFirst(s: string, tok: Token, rest: string)
    requires s != [] && IsAlpha(s[0]) && LexOne(s, 0) == Ok((tok, rest))
    ensures Lex(s) == Then([tok], LexLoop(rest, |s|, 1))
  {
    LexPlain(s);
    LexLoopAt(s, |s|, 0, tok, rest);
  }

  lemma {:induction false} LexPlain(s: string)
    requires s != [] && IsAlpha(s[0])
    ensures Lex(s) == LexLoop(s, |s|, 0) && LStrip(s) == s
  {
  }

  /** One round of the lexer loop on text with no leading space. */
  lemma {:induction false} LexLoopAt(s: string, size: int, count: nat, tok: Token, rest: string)
    requires count <= MAX_TOKENS && s != [] && LStrip(s) == s && LexOne(s, size - |s|) == Ok((tok, rest))
    ensures LexLoop(s, size, count) == Then([tok], LexLoop(rest, size, count + 1))
  {
    assert LexLoop(s, size, count) == LexAt(s, size, count) == LexStep(s, size, count);
  }

  /** Python's `repr` of a string, for strings without quotes or backslashes. */
  function StrRepr(s: string): string {
    "'" + s + "'"
  }

  function TokenRepr(t: Token): string {
    var loc := if t.c.None? then "" else ", c:" + IntToString(t.c.value);
    match t
    case Pipe(_) => "Token<|" + loc + ">"
    case Str(data, _) => "Token<STRING, " + data + loc + ">"
    case Function(name, args, _) => "Token<FUNCTION, (" + StrRepr(name) + ", " + StrRepr(args) + ")" + loc + ">"
    case Parameters(words, _) => "Token<PARAMETERS, [" + Join(", ", seq(|words|, k requires 0 <= k < |words| => StrRepr(words[k]))) + "]" + loc + ">"
    case List(_) => "Token<LIST, []" + loc + ">"
  }

  /** `Compiler.validate`: an expression without a command is refused. */
  function Validate(e: Expression): (r: Outcome)
    ensures r.Pass? <==> Truthy(e)
    ensures r.Fail? ==> r.error.kind == CompileError
  {
    if Truthy(e) then Pass
    else Fail(Error(CompileError, EMPTY_EXPRESSION + OptIntToString(e.loc) + " was empty."))
  }

  const LEADING_FUNCTION_HELP := "Expressions must start with a command, which does not have parentheses " +
    "(e.g. \"| filter winner(DesktopFolder)\")"

  /** The token loop of `compile`: feeds `toks` into the pipeline built so far. */
  function Build(toks: seq<Token>, pipeline: seq<Expression>): (r: Result<seq<Expression>>)
    requires pipeline != [] || toks == [] || toks[0].Pipe?
    ensures r.Ok? ==> |r.value| >= |pipeline| && (r.value == [] <==> pipeline == [] && toks == [])
    decreases |toks|
  {
    if toks == [] then Ok(pipeline)
    else
      var tok := toks[0];
      if tok.Pipe? then
        var v := if pipeline == [] then Pass else Validate(pipeline[|pipeline| - 1]);
        if v.Fail? then Err(v.error)
        else Build(toks[1..], pipeline + [NewExpression(tok.c, None, None)])
      else
        var e := pipeline[|pipeline| - 1];
        var init := pipeline[..|pipeline| - 1];
        if tok.Str? then
          var e' := if Truthy(e) then e.(arguments := e.arguments + [Word(tok.data)]) else e.(command := Some(tok.data));
          Build(toks[1..], init + [e'])
        else if tok.Function? then
          if !Truthy(e) then
            Raise(CompileError, LEADING_FUNCTION + StrRepr(tok.name) + ", " + StrRepr(tok.args) +
                                ")). " + LEADING_FUNCTION_HELP)
          else
            Build(toks[1..], init + [e.(arguments := e.arguments + [Call(tok.name, tok.args)])])
        else
          Raise(CompileError, "Unsupported token: " + TokenRepr(tok))
  }

  /** `Compiler.compile(tokens)`: the pipeline and the `+` words. */
  function CompileTokens(tokens: seq<Token>): (r: Result<(seq<Expression>, seq<string>)>)
    ensures tokens == [] ==> r.Err? && r.error.kind == CompileError
  {
    if tokens == [] then Raise(CompileError, "Empty token list.")
    else
      var params := if tokens[0].Parameters? then tokens[0].words else [];
      var rest := if tokens[0].Parameters? then tokens[1..] else tokens;
      if rest == [] then Ok(([], params))
      else
        var body := if rest[0].Pipe? then rest else [Pipe(Some(0))] + rest;
        var pipeline :- Build(body, []);
        Ok((pipeline, params))
  }

  /** The first expression of an unchecked pipeline: the last one is never
      validated, so a lone pipe compiles to one empty expression. */
  lemma {:induction false} CompileLonePipe(c: Option<int>)
    ensures CompileTokens([Pipe(c)]) == Ok(([NewExpression(c, None, None)], []))
  {
    assert [Pipe(c)][1..] == [];
    var e := NewExpression(c, None, None);
    assert [] + [e] == [e];
    assert Build([Pipe(c)], []) == Build([], [e]);
  }

  /** A `+` block alone compiles to no expressions and its words. */
  lemma {:induction false} CompileParametersOnly(words: seq<string>, c: Option<int>)
    ensures CompileTokens([Parameters(words, c)]) == Ok(([], words))
  {
    assert [Parameters(words, c)][1..] == [];
  }

  /** A pipe that closes an expression without a command is refused. */
  lemma {:induction false} CompileEmptyBeforePipe(a: Option<int>, b: Option<int>, rest: seq<Token>)
    ensures CompileTokens([Pipe(a), Pipe(b)] + rest).Err?
    ensures CompileTokens([Pipe(a), Pipe(b)] + rest).error.kind == CompileError
  {
    var toks := [Pipe(a), Pipe(b)] + rest;
    assert toks[0] == Pipe(a) && toks[1..][0] == Pipe(b);
    var e := NewExpression(a, None, None);
    assert [] + [e] == [e] && [e][0] == e;
    assert Build(toks, []) == Build(toks[1..], [e]);
    assert Validate(e).Fail?;
  }

  /** Tokens that start with a pipe are compiled by the token loop alone. */
  lemma {:induction false} CompileFromPipe(tokens: seq<Token>)
    requires tokens != [] && tokens[0].Pipe?
    ensures Build(tokens, []).Err? ==> CompileTokens(tokens) == Err(Build(tokens, []).error)
    ensures Build(tokens, []).Ok? ==> CompileTokens(tokens) == Ok((Build(tokens, []).value, []))
  {
  }

  /** A call may not stand where the command belongs. */
  lemma {:induction false} CompileLeadingFunction(c: Option<int>, name: string, args: string, d: Option<int>, rest: seq<Token>)
    ensures CompileTokens([Pipe(c), Function(name, args, d)] + rest).Err?
    ensures CompileTokens([Pipe(c), Function(name, args, d)] + rest).error.kind == CompileError
  {
    var toks := [Pipe(c), Function(name, args, d)] + rest;
    assert toks[0] == Pipe(c) && toks[1..][0] == Function(name, args, d);
    var e := NewExpression(c, None, None);
    assert [] + [e] == [e] && [e][0] == e;
    assert Build(toks, []) == Build(toks[1..], [e]);
    CompileFromPipe(toks);
  }

  /** A missing leading pipe is supplied at offset 0. */
  lemma {:induction false} CompileInsertsPipe(tokens: seq<Token>)
    requires tokens != [] && !tokens[0].Pipe? && !tokens[0].Parameters?
    ensures CompileTokens(tokens) == CompileTokens([Pipe(Some(0))] + tokens)
  {
    var t := [Pipe(Some(0))] + tokens;
    assert t[0].Pipe? && !t[0].Parameters?;
  }

  /** The arguments of an expression as the compiler collects them: STRING
      words and the `(name, text)` pairs of calls, in order. */
  function ArgToken(a: Arg): (t: Token)
    ensures t.Str? || t.Function?
  {
    match a
    case Word(s) => Str(s, None)
    case Call(name, data) => Function(name, data, None)
  }

  function ArgTokens(args: seq<Arg>): (ts: seq<Token>)
    ensures |ts| == |args|
    ensures forall k :: 0 <= k < |ts| ==> ts[k] == ArgToken(args[k])
  {
    seq(|args|, k requires 0 <= k < |args| => ArgToken(args[k]))
  }

  /** The tokens that spell a pipeline back: for each expression, its pipe,
      its command and its arguments. */
  function Render(p: seq<Expression>): (ts: seq<Token>)
    requires forall k :: 0 <= k < |p| ==> Truthy(p[k])
    ensures p != [] ==> ts != [] && ts[0].Pipe?
  {
    if p == [] then []
    else
      assert Truthy(p[0]);
      [Pipe(p[0].loc), Str(p[0].command.value, None)] + ArgTokens(p[0].arguments) + Render(p[1..])
  }

  /** One argument after a command is appended to it. */
  lemma {:induction false} BuildArg(a: Arg, rest: seq<Token>, init: seq<Expression>, e: Expression)
    requires Truthy(e)
    ensures Build([ArgToken(a)] + rest, init + [e]) ==
            Build(rest, init + [e.(arguments := e.arguments + [a])])
  {
    var toks := [ArgToken(a)] + rest;
    assert toks[0] == ArgToken(a) && toks[1..] == rest;
    assert (init + [e])[..|init|] == init;
  }

  /** Arguments after a command are appended to it, in order. */
  lemma {:induction false} BuildArgs(args: seq<Arg>, rest: seq<Token>, init: seq<Expression>, e: Expression)
    requires Truthy(e)
    ensures Build(ArgTokens(args) + rest, init + [e]) ==
            Build(rest, init + [e.(arguments := e.arguments + args)])
    decreases |args|
  {
    if args == [] {
      assert ArgTokens(args) + rest == rest;
      assert e.arguments + args == e.arguments;
    } else {
      var e' := e.(arguments := e.arguments + [args[0]]);
      ArgTokensCons(args, rest);
      BuildArg(args[0], ArgTokens(args[1..]) + rest, init, e);
      BuildArgs(args[1..], rest, init, e');
      ArgsCons(e.arguments, args);
    }
  }

  lemma {:induction false} ArgTokensCons(args: seq<Arg>, rest: seq<Token>)
    requires args != []
    ensures ArgTokens(args) + rest == [ArgToken(args[0])] + (ArgTokens(args[1..]) + rest)
  {
    var a, b := ArgTokens(args) + rest, [ArgToken(args[0])] + (ArgTokens(args[1..]) + rest);
    assert |a| == |b|;
    forall k | 0 <= k < |a| ensures a[k] == b[k] {
      if k == 0 {
      } else if k < |args| {
        assert b[k] == ArgTokens(args[1..])[k - 1];
      } else {
        assert a[k] == rest[k - |args|] && b[k] == rest[k - |args|];
      }
    }
  }

  lemma {:induction false} ArgsCons(xs: seq<Arg>, args: seq<Arg>)
    requires args != []
    ensures (xs + [args[0]]) + args[1..] == xs + args
  {
    assert args == [args[0]] + args[1..];
    ConcatAssoc(xs, [args[0]], args[1..]);
  }

  /** One expression spelled out is compiled back into that expression. */
  lemma {:induction false} BuildOne(e: Expression, rest: seq<Token>, init: seq<Expression>)
    requires Truthy(e)
    requires init == [] || Truthy(init[|init| - 1])
    ensures Build([Pipe(e.loc), Str(e.command.value, None)] + ArgTokens(e.arguments) + rest, init) ==
            Build(rest, init + [e])
  {
    var toks := [Pipe(e.loc), Str(e.command.value, None)] + ArgTokens(e.arguments) + rest;
    var blank := NewExpression(e.loc, None, None);
    var named := blank.(command := e.command);
    assert toks[0] == Pipe(e.loc);
    assert toks[1..][0] == Str(e.command.value, None);
    assert toks[1..][1..] == ArgTokens(e.arguments) + rest;
    assert (init + [blank])[..|init + [blank]| - 1] == init;
    assert Build(toks, init) == Build(toks[1..][1..], init + [named]);
    BuildArgs(e.arguments, rest, init, named);
    assert named.(arguments := named.arguments + e.arguments) == e;
  }

  lemma {:induction false} BuildRender(p: seq<Expression>, init: seq<Expression>)
    requires forall k :: 0 <= k < |p| ==> Truthy(p[k])
    requires init == [] || Truthy(init[|init| - 1])
    ensures Build(Render(p), init) == Ok(init + p)
    decreases |p|
  {
    if p == [] {
      assert init + p == init;
    } else {
      assert Render(p) == [Pipe(p[0].loc), Str(p[0].command.value, None)] + ArgTokens(p[0].arguments) + Render(p[1..]);
      BuildOne(p[0], Render(p[1..]), init);
      BuildRender(p[1..], init + [p[0]]);
      assert init + [p[0]] + p[1..] == init + p;
    }
  }

  /** Compiling the tokens that spell a pipeline of commands gives that
      pipeline back, with no `+` words. */
  lemma {:induction false} CompileRender(p: seq<Expression>)
    requires p != [] && forall k :: 0 <= k < |p| ==> Truthy(p[k])
    ensures CompileTokens(Render(p)) == Ok((p, []))
  {
    BuildRender(p, []);
    assert [] + p == p;
  }

  class Compiler {
    const comp: Component

    constructor ()
      ensures fresh(comp) && comp.name == "Compiler"
      ensures comp.log == [] && comp.result.None? && comp.GetFlags() == Flags(false, false, false, false, false)
    {
      comp := new Component("Compiler");
    }

    /** `compile(tokens)`: a leading `+` block goes to `handle_parameters`,
        then the expressions are built token by token. */
    method Compile(tokens: seq<Token>) returns (r: Result<(seq<Expression>, seq<string>)>)
      modifies comp
      ensures r == CompileTokens(tokens)
      ensures tokens != [] && tokens[0].Parameters? ==>
        comp.GetFlags() == ApplyParams(old(comp.GetFlags()), tokens[0].words)
      ensures !(tokens != [] && tokens[0].Parameters?) ==> comp.GetFlags() == old(comp.GetFlags())
      ensures comp.result == old(comp.result)
    {
      if tokens == [] {
        return Raise(CompileError, "Empty token list.");
      }
      var toks := tokens;
      var params: seq<string> := [];
      if toks[0].Parameters? {
        params := toks[0].words;
        toks := toks[1..];
        comp.HandleParameters(params);
      }
      if toks == [] {
        return Ok(([], params));
      }
      if !toks[0].Pipe? {
        toks := [Pipe(Some(0))] + toks;
      }
      var built := BuildPipeline(toks);
      if built.Err? {
        return Err(built.error);
      }
      return Ok((built.value, params));
    }

    /** The token loop of `compile`: a new expression at each pipe, the
        first STRING as its command, later STRINGs and calls as arguments. */
    method BuildPipeline(tokens: seq<Token>) returns (r: Result<seq<Expression>>)
      requires tokens != [] && tokens[0].Pipe?
      ensures r == Build(tokens, [])
    {
      var toks := tokens;
      var pipeline: seq<Expression> := [];
      while toks != []
        invariant pipeline != [] || toks == [] || toks[0].Pipe?
        invariant Build(toks, pipeline) == Build(tokens, [])
        decreases |toks|
      {
        var tok := toks[0];
        toks := toks[1..];
        if tok.Pipe? {
          if pipeline != [] {
            var v := Validate(pipeline[|pipeline| - 1]);
            if v.Fail? {
              return Err(v.error);
            }
          }
          pipeline := pipeline + [NewExpression(tok.c, None, None)];
        } else if tok.Str? {
          var expr := pipeline[|pipeline| - 1];
          if Truthy(expr) {
            expr := expr.(arguments := expr.arguments + [Word(tok.data)]);
          } else {
            expr := expr.(command := Some(tok.data));
          }
          pipeline := pipeline[..|pipeline| - 1] + [expr];
        } else if tok.Function? {
          var expr := pipeline[|pipeline| - 1];
          if !Truthy(expr) {
            return Raise(CompileError, LEADING_FUNCTION + StrRepr(tok.name) + ", " + StrRepr(tok.args) +
                                       ")). " + LEADING_FUNCTION_HELP);
          }
          pipeline := pipeline[..|pipeline| - 1] + [expr.(arguments := expr.arguments + [Call(tok.name, tok.args)])];
        } else {
          return Raise(CompileError, "Unsupported token: " + TokenRepr(tok));
        }
      }
      return Ok(pipeline);
    }
  }
}
