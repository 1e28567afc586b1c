/** One stage of a compiled pipeline (klunk/expression.py). */
module Expr {
  import opened Wrappers

  /** An argument as the compiler passes it on: a bare word, or the
      `(name, text)` pair of a function-call token. */
  datatype Arg = Word(s: string) | Call(name: string, data: string)

  /** `loc` is the offset of the stage's pipe in the query, when known. */
  datatype Expression = Expression(loc: Option<int>, command: Option<string>, arguments: seq<Arg>)

  /** `Expression(loc, command, arguments)`: missing or empty arguments
      become a fresh empty list; `loc` and `command` are kept as given. */
  function NewExpression(loc: Option<int>, command: Option<string>, arguments: Option<seq<Arg>>): (e: Expression)
    ensures e.loc == loc && e.command == command
    ensures arguments.Some? ==> e.arguments == arguments.value
    ensures arguments.None? ==> e.arguments == []
  {
    Expression(loc, command, if arguments.None? then [] else arguments.value)
  }

  /** `bool(e)`: an expression is truthy exactly when it has a command. */
  predicate Truthy(e: Expression) {
    e.command.Some?
  }

  /** `a == b`: compares command and arguments, never the location. */
  predicate Equal(a: Expression, b: Expression) {
    a.command == b.command && a.arguments == b.arguments
  }

  /** Equality ignores where an expression starts, and is an equivalence. */
  lemma {:induction false} EqualIgnoresLoc(e: Expression, loc: Option<int>)
    ensures Equal(e, e.(loc := loc)) && Equal(e.(loc := loc), e)
  {
  }

  lemma {:induction false} EqualIsEquivalence(a: Expression, b: Expression, c: Expression)
    ensures Equal(a, a)
    ensures Equal(a, b) ==> Equal(b, a)
    ensures Equal(a, b) && Equal(b, c) ==> Equal(a, c)
  {
  }

  /** Two expressions that are equal are both truthy or both not. */
  lemma {:induction false} EqualSameTruth(a: Expression, b: Expression)
    requires Equal(a, b)
    ensures Truthy(a) <==> Truthy(b)
  {
  }
}
