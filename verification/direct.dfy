/**
  The first `Interpreter` class of `BasicCalc.py`, which computes values
  while it parses instead of building a tree.  A later class of the same
  name replaces it, so `main` never uses it; it is kept here as a second
  evaluator, and the lemmas at the end show that wherever the parser
  succeeds it computes what parse-then-visit computes.
 */
module Direct {
  import opened Tokens
  import opened Results
  import opened Lexing
  import opened Ast
  import opened Parsing
  import opened Interpreting
  import Printing

  /** An intermediate value and the state after it.  `None` is what
      `factor` returns on an unexpected token. */
  datatype Valued = Valued(value: Option<int>, rest: Cursor)

  /** Python's `+ - * //` on two values: `None` on either side is a
      TypeError, a zero divisor a ZeroDivisionError. */
  function Combine(op: Op, a: Option<int>, b: Option<int>): (r: Result<Option<int>>)
    ensures a.None? || b.None? ==> r == Err(OperandIsNone)
    ensures a.Some? && b.Some? ==>
      r == (if Apply(op, a.value, b.value).Ok? then Ok(Some(Apply(op, a.value, b.value).value)) else Err(DivisionByZero))
  {
    if a.None? || b.None? then
      Err(OperandIsNone)
    else
      var v :- Apply(op, a.value, b.value);
      Ok(Some(v))
  }

  /** What the direct interpreter can raise: the lexer's and parser's errors,
      a TypeError and a ZeroDivisionError, but never the visitor's error. */
  predicate DirectError(e: Error) {
    ParseError(e) || e == OperandIsNone || e == DivisionByZero
  }

  /** `factor`: the number's value, or the value of a parenthesised `expr`;
      on any other lookahead nothing is consumed and the value is None. */
  function DirectFactor(text: string, c: Cursor): (r: Result<Valued>)
    decreases Measure(text, c), 0
    ensures r.Ok? ==> Measure(text, r.value.rest) <= Measure(text, c)
    ensures r.Err? ==> DirectError(r.error)
  {
    if c.tok.kind == Integer then
      var c1 :- EatToken(text, c, Integer);
      Ok(Valued(Some(c.tok.value.n), c1))
    else if c.tok.kind == LParen then
      var c1 :- EatToken(text, c, LParen);
      var inner :- DirectExpr(text, c1);
      var c2 :- EatToken(text, inner.rest, RParen);
      Ok(Valued(inner.value, c2))
    else
      Ok(Valued(None, c))
  }

  /** The `while` loop of `term`, with `acc` the value so far: each round
      reads a factor and combines at once. */
  function DirectTermLoop(text: string, acc: Option<int>, c: Cursor): (r: Result<Valued>)
    decreases Measure(text, c), 1
    ensures r.Ok? ==> Measure(text, r.value.rest) <= Measure(text, c)
    ensures r.Err? ==> DirectError(r.error)
  {
    if IsMultiplicative(c.tok.kind) then
      var c1 :- EatToken(text, c, c.tok.kind);
      var right :- DirectFactor(text, c1);
      var v :- Combine(OpOf(c.tok.kind), acc, right.value);
      DirectTermLoop(text, v, right.rest)
    else
      Ok(Valued(acc, c))
  }

  function DirectTerm(text: string, c: Cursor): (r: Result<Valued>)
    decreases Measure(text, c), 2
    ensures r.Ok? ==> Measure(text, r.value.rest) <= Measure(text, c)
    ensures r.Err? ==> DirectError(r.error)
  {
    var first :- DirectFactor(text, c);
    DirectTermLoop(text, first.value, first.rest)
  }

  /** The `while` loop of `expr`, with `acc` the value so far. */
  function DirectExprLoop(text: string, acc: Option<int>, c: Cursor): (r: Result<Valued>)
    decreases Measure(text, c), 3
    ensures r.Ok? ==> Measure(text, r.value.rest) <= Measure(text, c)
    ensures r.Err? ==> DirectError(r.error)
  {
    if IsAdditive(c.tok.kind) then
      var c1 :- EatToken(text, c, c.tok.kind);
      var right :- DirectTerm(text, c1);
      var v :- Combine(OpOf(c.tok.kind), acc, right.value);
      DirectExprLoop(text, v, right.rest)
    else
      Ok(Valued(acc, c))
  }

  function DirectExpr(text: string, c: Cursor): (r: Result<Valued>)
    decreases Measure(text, c), 4
    ensures r.Ok? ==> Measure(text, r.value.rest) <= Measure(text, c)
    ensures r.Err? ==> DirectError(r.error)
  {
    var first :- DirectTerm(text, c);
    DirectExprLoop(text, first.value, first.rest)
  }

  /** `Interpreter(text).expr()`. */
  function DirectEvaluate(text: string): (r: Result<Option<int>>)
    requires |text| > 0
    ensures r.Err? ==> DirectError(r.error)
  {
    var c :- Lookahead(text, 0);
    var r :- DirectExpr(text, c);
    Ok(r.value)
  }

  /** A method's result paired with the state it leaves, as the functions return it. */
  function YieldValue(r: Result<Option<int>>, c: Cursor): Result<Valued> {
    if r.Ok? then Ok(Valued(r.value, c)) else Err(r.error)
  }

  /** The first `Interpreter` of `BasicCalc.py`: its lexer and the lookahead
      `current_token`. */
  class Interpreter {
    const lexer: Lexer
    var currentToken: WfToken

    ghost predicate Valid()
      reads this, lexer
    {
      lexer.Valid()
    }

    /** The interpreter's state as the functions above see it. */
    ghost function State(): Cursor
      reads this, lexer
    {
      Cursor(lexer.pos, currentToken)
    }

    constructor (lexer: Lexer, first: WfToken)
      requires lexer.Valid()
      ensures Valid() && this.lexer == lexer && currentToken == first
    {
      this.lexer := lexer;
      currentToken := first;
    }

    /** `Interpreter(text)`: builds its lexer and reads the first token,
        which can raise. */
    static method Open(text: string) returns (r: Result<Interpreter>)
      requires |text| > 0
      ensures r.Ok? ==> fresh(r.value) && fresh(r.value.lexer) && r.value.Valid() && r.value.lexer.text == text
      ensures Lookahead(text, 0) == if r.Ok? then Ok(r.value.State()) else Err(r.error)
    {
      var lexer := new Lexer(text);
      var first :- lexer.GetNextToken();
      var interpreter := new Interpreter(lexer, first);
      return Ok(interpreter);
    }

    method Eat(k: Kind) returns (r: Outcome)
      requires Valid()
      modifies this, lexer
      ensures Valid()
      ensures EatToken(lexer.text, old(State()), k) == if r.Pass? then Ok(State()) else Err(r.error)
    {
      if currentToken.kind == k {
        var next := lexer.GetNextToken();
        if next.Err? {
          return Fail(next.error);
        }
        currentToken := next.value;
        return Pass;
      } else {
        return Fail(InvalidSyntax(k, currentToken.kind));
      }
    }

    method Factor() returns (r: Result<Option<int>>)
      requires Valid()
      modifies this, lexer
      decreases Measure(lexer.text, State()), 0
      ensures Valid()
      ensures DirectFactor(lexer.text, old(State())) == YieldValue(r, State())
    {
      var token := currentToken;
      if token.kind == Kind.Integer {
        :- Eat(Kind.Integer);
        return Ok(Some(token.value.n));
      } else if token.kind == LParen {
        :- Eat(LParen);
        var result :- Expr();
        :- Eat(RParen);
        return Ok(result);
      }
      return Ok(None);
    }

    method Term() returns (r: Result<Option<int>>)
      requires Valid()
      modifies this, lexer
      decreases Measure(lexer.text, State()), 2
      ensures Valid()
      ensures DirectTerm(lexer.text, old(State())) == YieldValue(r, State())
    {
      var result :- Factor();
      while IsMultiplicative(currentToken.kind)
        invariant Valid()
        invariant Measure(lexer.text, State()) <= Measure(lexer.text, old(State()))
        invariant DirectTerm(lexer.text, old(State())) == DirectTermLoop(lexer.text, result, State())
        decreases Measure(lexer.text, State())
      {
        var token := currentToken;
        if token.kind == Mul {
          :- Eat(Mul);
        } else {
          :- Eat(Div);
        }
        var right :- Factor();
        result :- Combine(OpOf(token.kind), result, right);
      }
      return Ok(result);
    }

    method Expr() returns (r: Result<Option<int>>)
      requires Valid()
      modifies this, lexer
      decreases Measure(lexer.text, State()), 4
      ensures Valid()
      ensures DirectExpr(lexer.text, old(State())) == YieldValue(r, State())
    {
      var result :- Term();
      while IsAdditive(currentToken.kind)
        invariant Valid()
        invariant Measure(lexer.text, State()) <= Measure(lexer.text, old(State()))
        invariant DirectExpr(lexer.text, old(State())) == DirectExprLoop(lexer.text, result, State())
        decreases Measure(lexer.text, State())
      {
        var token := currentToken;
        if token.kind == Plus {
          :- Eat(Plus);
        } else {
          :- Eat(Minus);
        }
        var right :- Term();
        result :- Combine(OpOf(token.kind), result, right);
      }
      return Ok(result);
    }
  }

  /** Building the first interpreter on a text and calling its `expr`. */
  method DirectCalculate(text: string) returns (r: Result<Option<int>>)
    requires |text| > 0
    ensures r == DirectEvaluate(text)
  {
    var interpreter :- Interpreter.Open(text);
    r := interpreter.Expr();
  }

  /** What the direct interpreter computes for a tree it would have built:
      the left operand, then the right one, then the operator. */
  function Run(t: Node): Result<Option<int>> {
    match t
    case Num(v) => Ok(Some(v))
    case Missing => Ok(None)
    case BinOp(op, l, r) =>
      var a :- Run(l);
      var b :- Run(r);
      Combine(op, a, b)
  }

  /** On a tree, the direct order of computation and the visitor give the
      same number; only a missing node on its own is a value (None) for the
      former and an error for the latter. */
  lemma {:induction false} RunAgreesWithEval(t: Node)
    ensures Eval(t).Ok? ==> Run(t) == Ok(Some(Eval(t).value))
    ensures Run(t).Ok? && Run(t).value.Some? ==> Eval(t) == Ok(Run(t).value.value)
    ensures Run(t) == Ok(None) <==> t == Missing
  {
    match t
    case Num(_) =>
    case Missing =>
    case BinOp(_, l, r) =>
      RunAgreesWithEval(l);
      RunAgreesWithEval(r);
  }

  /** A failure met on the left spine is the failure of the whole tree. */
  lemma {:induction false} RunOnLeftSpine(a: Node, n: Node)
    requires OnLeftSpine(a, n) && Run(a).Err?
    ensures Run(n) == Run(a)
  {
    if a != n {
      RunOnLeftSpine(a, n.left);
    }
  }

  /** The direct interpreter's result matches a parse result: where the
      parser yields a tree and a state, it yields the tree's value and the
      same state, or the tree's failure; where the parser fails, it fails. */
  predicate Agrees(p: Result<Parsed>, q: Result<Valued>) {
    if p.Ok? then
      q == (var v :- Run(p.value.node); Ok(Valued(v, p.value.rest)))
    else
      q.Err?
  }

  lemma {:induction false} FactorAgrees(text: string, c: Cursor)
    ensures Agrees(ParseFactor(text, c), DirectFactor(text, c))
    decreases Measure(text, c), 0
  {
    if c.tok.kind == LParen {
      var c1 := EatToken(text, c, LParen);
      if c1.Ok? {
        ExprAgrees(text, c1.value);
      }
    }
  }

  lemma {:induction false} TermLoopAgrees(text: string, acc: Node, a: Option<int>, c: Cursor)
    requires Run(acc) == Ok(a)
    ensures Agrees(TermLoop(text, acc, c), DirectTermLoop(text, a, c))
    decreases Measure(text, c), 1
  {
    if IsMultiplicative(c.tok.kind) {
      var c1 := EatToken(text, c, c.tok.kind);
      if c1.Ok? {
        FactorAgrees(text, c1.value);
        var right := ParseFactor(text, c1.value);
        if right.Ok? {
          var node := BinOp(OpOf(c.tok.kind), acc, right.value.node);
          if Run(node).Ok? {
            TermLoopAgrees(text, node, Run(node).value, right.value.rest);
          } else {
            SpineKeepsFailure(TermLoop(text, node, right.value.rest), node, 1, text, right.value.rest);
          }
        }
      }
    }
  }

  lemma {:induction false} TermAgrees(text: string, c: Cursor)
    ensures Agrees(ParseTerm(text, c), DirectTerm(text, c))
    decreases Measure(text, c), 2
  {
    FactorAgrees(text, c);
    var first := ParseFactor(text, c);
    if first.Ok? {
      if Run(first.value.node).Ok? {
        TermLoopAgrees(text, first.value.node, Run(first.value.node).value, first.value.rest);
      } else {
        SpineKeepsFailure(TermLoop(text, first.value.node, first.value.rest), first.value.node, 1, text, first.value.rest);
      }
    }
  }

  lemma {:induction false} ExprLoopAgrees(text: string, acc: Node, a: Option<int>, c: Cursor)
    requires Run(acc) == Ok(a)
    ensures Agrees(ExprLoop(text, acc, c), DirectExprLoop(text, a, c))
    decreases Measure(text, c), 3
  {
    if IsAdditive(c.tok.kind) {
      var c1 := EatToken(text, c, c.tok.kind);
      if c1.Ok? {
        TermAgrees(text, c1.value);
        var right := ParseTerm(text, c1.value);
        if right.Ok? {
          var node := BinOp(OpOf(c.tok.kind), acc, right.value.node);
          if Run(node).Ok? {
            ExprLoopAgrees(text, node, Run(node).value, right.value.rest);
          } else {
            SpineKeepsFailure(ExprLoop(text, node, right.value.rest), node, 3, text, right.value.rest);
          }
        }
      }
    }
  }

  lemma {:induction false} ExprAgrees(text: string, c: Cursor)
    ensures Agrees(ParseExpr(text, c), DirectExpr(text, c))
    decreases Measure(text, c), 4
  {
    TermAgrees(text, c);
    var first := ParseTerm(text, c);
    if first.Ok? {
      if Run(first.value.node).Ok? {
        ExprLoopAgrees(text, first.value.node, Run(first.value.node).value, first.value.rest);
      } else {
        SpineKeepsFailure(ExprLoop(text, first.value.node, first.value.rest), first.value.node, 3, text, first.value.rest);
      }
    }
  }

  /** When the node built so far fails, a loop that goes on from it ends in
      a tree with the same failure. */
  lemma SpineKeepsFailure(p: Result<Parsed>, acc: Node, level: nat, text: string, c: Cursor)
    requires level == 1 || level == 3
    requires p == (if level == 1 then TermLoop(text, acc, c) else ExprLoop(text, acc, c))
    requires Run(acc).Err?
    ensures p.Ok? ==> Run(p.value.node) == Run(acc)
  {
    if p.Ok? {
      if level == 1 {
        TermLoopFoldsLeft(text, acc, c);
      } else {
        ExprLoopFoldsLeft(text, acc, c);
      }
      RunOnLeftSpine(acc, p.value.node);
    }
  }

  /** Wherever parse-then-visit yields a number the direct interpreter yields
      the same number, and conversely; it yields None exactly when the parser
      yields no node at all, and it fails wherever the parser fails. */
  lemma DirectAgreesWithVisitor(text: string)
    requires |text| > 0
    ensures ParseText(text).Ok? ==> DirectEvaluate(text) == Run(ParseText(text).value)
    ensures Evaluate(text).Ok? ==> DirectEvaluate(text) == Ok(Some(Evaluate(text).value))
    ensures DirectEvaluate(text).Ok? && DirectEvaluate(text).value.Some? ==>
      Evaluate(text) == Ok(DirectEvaluate(text).value.value)
    ensures DirectEvaluate(text) == Ok(None) <==> ParseText(text) == Ok(Missing)
    ensures ParseText(text).Err? ==> DirectEvaluate(text).Err?
  {
    var c := Lookahead(text, 0);
    if c.Ok? {
      ExprAgrees(text, c.value);
      var p := ParseExpr(text, c.value);
      if p.Ok? {
        RunAgreesWithEval(p.value.node);
      }
    }
  }

  /** Where the two evaluators part: a lone `)` is None for the direct one
      and an error for the visitor; a missing operand is a TypeError for the
      direct one. */
  lemma DirectDiffersOnMissing()
    ensures DirectEvaluate(")") == Ok(None) && Evaluate(")") == Err(NoVisitMethod)
    ensures DirectEvaluate("2*") == Err(OperandIsNone) && Evaluate("2*") == Err(NoVisitMethod)
  {
    StrayParenthesisIgnored();
    Printing.TrailingInputIgnored(Missing, "");
    assert Printing.Show(Missing, 0) + [')'] + "" == ")";
    DirectAgreesWithVisitor(")");
    var e := BinOp(Multiply, Num(2), Missing);
    assert Printing.Show(e, 0) == "2*";
    Printing.ParsePrinted(e);
    MissingOperandFailsOnVisit();
    DirectAgreesWithVisitor("2*");
  }
}
