/**
  The recursive-descent parser.  The parser's state is the lexer's cursor
  together with one token of lookahead (`current_token`), a `Cursor` here.
  The functions below say what `eat`, `factor`, `term` and `expr` do from a
  given state; the `while` loops of `term` and `expr` are the functions
  `TermLoop` and `ExprLoop`.  The class `Parser` is proved against them.

  Grammar:  expr := term ((PLUS | MINUS) term)*
            term := factor ((MUL | DIV) factor)*
            factor := INTEGER | LPAREN expr RPAREN
 */
module Parsing {
  import opened Tokens
  import opened Results
  import opened Lexing
  import opened Ast

  /** The lexer's position together with the lookahead token. */
  datatype Cursor = Cursor(pos: nat, tok: WfToken)

  /** A node together with the state after it. */
  datatype Parsed = Parsed(node: Node, rest: Cursor)

  /** The two exceptions parsing can raise: the lexer's `Invalid character`
      and the parser's `Invalid syntax`. */
  predicate ParseError(e: Error) {
    e.InvalidCharacter? || e.InvalidSyntax?
  }

  /** The state after reading one token at `pos`. */
  function Lookahead(text: string, pos: nat): (r: Result<Cursor>)
    ensures r.Ok? && r.value.tok.kind != Eof ==> pos < r.value.pos <= |text|
    ensures r.Ok? && r.value.tok.kind == Eof ==> |text| <= r.value.pos
    ensures r.Err? ==> r.error.InvalidCharacter?
  {
    var l :- Scan(text, pos);
    Ok(Cursor(l.end, l.token))
  }

  /** Characters the lexer has not yet read, plus one for a lookahead that is not EOF. */
  function Measure(text: string, c: Cursor): nat {
    (if c.pos < |text| then |text| - c.pos else 0) + (if c.tok.kind == Eof then 0 else 1)
  }

  /** `eat(k)`: the lookahead must have kind `k`; it is replaced by the next token. */
  function EatToken(text: string, c: Cursor, k: Kind): (r: Result<Cursor>)
    ensures c.tok.kind != k ==> r == Err(InvalidSyntax(k, c.tok.kind))
    ensures c.tok.kind == k ==> r == Lookahead(text, c.pos)
    ensures r.Ok? ==> Measure(text, r.value) <= Measure(text, c)
    ensures r.Ok? && k != Eof ==> Measure(text, r.value) < Measure(text, c)
    ensures r.Err? ==> ParseError(r.error)
  {
    if c.tok.kind != k then Err(InvalidSyntax(k, c.tok.kind)) else Lookahead(text, c.pos)
  }

  predicate IsAdditive(k: Kind) {
    k == Plus || k == Minus
  }

  predicate IsMultiplicative(k: Kind) {
    k == Mul || k == Div
  }

  /** The operator of a `BinOp` built from an operator token. */
  function OpOf(k: Kind): (op: Op)
    requires IsAdditive(k) || IsMultiplicative(k)
    ensures op == Add <==> k == Plus
    ensures op == Subtract <==> k == Minus
    ensures op == Multiply <==> k == Mul
    ensures op == Divide <==> k == Div
  {
    match k
    case Plus => Add
    case Minus => Subtract
    case Mul => Multiply
    case Div => Divide
  }

  /** `factor`: a number, or a parenthesised `expr`; on any other lookahead
      nothing is consumed and no node (Python's None) is produced. */
  function ParseFactor(text: string, c: Cursor): (r: Result<Parsed>)
    decreases Measure(text, c), 0
    ensures r.Ok? ==> Measure(text, r.value.rest) <= Measure(text, c)
    ensures r.Err? ==> ParseError(r.error)
  {
    if c.tok.kind == Integer then
      var c1 :- EatToken(text, c, Integer);
      Ok(Parsed(Num(c.tok.value.n), c1))
    else if c.tok.kind == LParen then
      var c1 :- EatToken(text, c, LParen);
      var inner :- ParseExpr(text, c1);
      var c2 :- EatToken(text, inner.rest, RParen);
      Ok(Parsed(inner.node, c2))
    else
      Ok(Parsed(Missing, c))
  }

  /** The `while` loop of `term`, with `acc` the node built so far. */
  function TermLoop(text: string, acc: Node, c: Cursor): (r: Result<Parsed>)
    decreases Measure(text, c), 1
    ensures r.Ok? ==> Measure(text, r.value.rest) <= Measure(text, c)
    ensures r.Err? ==> ParseError(r.error)
  {
    if IsMultiplicative(c.tok.kind) then
      var c1 :- EatToken(text, c, c.tok.kind);
      var right :- ParseFactor(text, c1);
      TermLoop(text, BinOp(OpOf(c.tok.kind), acc, right.node), right.rest)
    else
      Ok(Parsed(acc, c))
  }

  function ParseTerm(text: string, c: Cursor): (r: Result<Parsed>)
    decreases Measure(text, c), 2
    ensures r.Ok? ==> Measure(text, r.value.rest) <= Measure(text, c)
    ensures r.Err? ==> ParseError(r.error)
  {
    var first :- ParseFactor(text, c);
    TermLoop(text, first.node, first.rest)
  }

  /** The `while` loop of `expr`, with `acc` the node built so far. */
  function ExprLoop(text: string, acc: Node, c: Cursor): (r: Result<Parsed>)
    decreases Measure(text, c), 3
    ensures r.Ok? ==> Measure(text, r.value.rest) <= Measure(text, c)
    ensures r.Err? ==> ParseError(r.error)
  {
    if IsAdditive(c.tok.kind) then
      var c1 :- EatToken(text, c, c.tok.kind);
      var right :- ParseTerm(text, c1);
      ExprLoop(text, BinOp(OpOf(c.tok.kind), acc, right.node), right.rest)
    else
      Ok(Parsed(acc, c))
  }

  function ParseExpr(text: string, c: Cursor): (r: Result<Parsed>)
    decreases Measure(text, c), 4
    ensures r.Ok? ==> Measure(text, r.value.rest) <= Measure(text, c)
    ensures r.Err? ==> ParseError(r.error)
  {
    var first :- ParseTerm(text, c);
    ExprLoop(text, first.node, first.rest)
  }

  /** `Lexer(text)`, `Parser(lexer)` and `parse()`: whatever follows the
      expression is left unread. */
  function ParseText(text: string): (r: Result<Node>)
    requires |text| > 0
    ensures r.Err? ==> ParseError(r.error)
  {
    var c :- Lookahead(text, 0);
    var p :- ParseExpr(text, c);
    Ok(p.node)
  }

  /** `factor` on a lookahead that is neither INTEGER nor LPAREN consumes nothing. */
  lemma FactorWithoutOperand(text: string, c: Cursor)
    requires c.tok.kind != Integer && c.tok.kind != LParen
    ensures ParseFactor(text, c) == Ok(Parsed(Missing, c))
  {
  }

  /** One round of `term`'s loop: an operator, then a factor. */
  lemma TermLoopRound(text: string, acc: Node, c: Cursor, c1: Cursor, right: Parsed)
    requires IsMultiplicative(c.tok.kind) && Lookahead(text, c.pos) == Ok(c1)
    requires ParseFactor(text, c1) == Ok(right)
    ensures TermLoop(text, acc, c) == TermLoop(text, BinOp(OpOf(c.tok.kind), acc, right.node), right.rest)
  {
  }

  /** One round of `expr`'s loop: an operator, then a term. */
  lemma ExprLoopRound(text: string, acc: Node, c: Cursor, c1: Cursor, right: Parsed)
    requires IsAdditive(c.tok.kind) && Lookahead(text, c.pos) == Ok(c1)
    requires ParseTerm(text, c1) == Ok(right)
    ensures ExprLoop(text, acc, c) == ExprLoop(text, BinOp(OpOf(c.tok.kind), acc, right.node), right.rest)
  {
  }

  /** `factor` on an INTEGER lookahead yields its number and reads the next token. */
  lemma FactorNumber(text: string, c: Cursor, v: nat, d: Cursor)
    requires c.tok == Token(Integer, Int(v)) && Lookahead(text, c.pos) == Ok(d)
    ensures ParseFactor(text, c) == Ok(Parsed(Num(v), d))
  {
  }

  /** `factor` on `(`: the inner `expr` must end on `)`, which is then eaten. */
  lemma FactorParenthesised(text: string, c: Cursor, c1: Cursor, e: Node, cr: Cursor, d: Cursor)
    requires c.tok.kind == LParen && Lookahead(text, c.pos) == Ok(c1)
    requires ParseExpr(text, c1) == ExprLoop(text, e, cr) && cr.tok.kind == RParen
    requires Lookahead(text, cr.pos) == Ok(d)
    ensures ParseFactor(text, c) == Ok(Parsed(e, d))
  {
    ExprLoopStops(text, e, cr);
  }

  /** `factor` on `(`: an inner `expr` that stops on anything but `)` makes
      the final `eat(RPAREN)` raise a syntax error. */
  lemma FactorUnclosed(text: string, c: Cursor, c1: Cursor, e: Node, cr: Cursor)
    requires c.tok.kind == LParen && Lookahead(text, c.pos) == Ok(c1)
    requires ParseExpr(text, c1) == Ok(Parsed(e, cr)) && cr.tok.kind != RParen
    ensures ParseFactor(text, c) == Err(InvalidSyntax(RParen, cr.tok.kind))
  {
  }

  /** `term` starts with a factor and goes on with its loop after it. */
  lemma TermStartsWithFactor(text: string, c: Cursor, e: Node, d: Cursor)
    requires ParseFactor(text, c) == Ok(Parsed(e, d))
    ensures ParseTerm(text, c) == TermLoop(text, e, d)
  {
  }

  /** `expr` starts with a term; where the term's loop stops, `expr`'s loop goes on. */
  lemma ExprStartsWithTerm(text: string, c: Cursor, e: Node, d: Cursor)
    requires ParseTerm(text, c) == TermLoop(text, e, d) && !IsMultiplicative(d.tok.kind)
    ensures ParseExpr(text, c) == ExprLoop(text, e, d)
  {
    TermLoopStops(text, e, d);
  }

  /** A term that has read `l` and meets `*` or `/` goes on to `l op r`. */
  lemma TermJoin(text: string, c: Cursor, e: Node, cm: Cursor, c1: Cursor, d: Cursor)
    requires e.BinOp? && IsMultiplicative(cm.tok.kind) && OpOf(cm.tok.kind) == e.op
    requires ParseTerm(text, c) == TermLoop(text, e.left, cm)
    requires Lookahead(text, cm.pos) == Ok(c1) && ParseFactor(text, c1) == Ok(Parsed(e.right, d))
    ensures ParseTerm(text, c) == TermLoop(text, e, d)
  {
    TermLoopRound(text, e.left, cm, c1, Parsed(e.right, d));
  }

  /** An expression that has read `l` and meets `+` or `-` goes on to `l op r`,
      where `r` is a whole term. */
  lemma ExprJoin(text: string, c: Cursor, e: Node, cm: Cursor, c1: Cursor, d: Cursor)
    requires e.BinOp? && IsAdditive(cm.tok.kind) && OpOf(cm.tok.kind) == e.op
    requires ParseExpr(text, c) == ExprLoop(text, e.left, cm)
    requires Lookahead(text, cm.pos) == Ok(c1) && ParseTerm(text, c1) == TermLoop(text, e.right, d)
    requires !IsMultiplicative(d.tok.kind)
    ensures ParseExpr(text, c) == ExprLoop(text, e, d)
  {
    TermLoopStops(text, e.right, d);
    ExprLoopRound(text, e.left, cm, c1, Parsed(e.right, d));
  }

  /** `term`'s loop ends at a lookahead that is not `*` or `/`. */
  lemma TermLoopStops(text: string, acc: Node, c: Cursor)
    requires !IsMultiplicative(c.tok.kind)
    ensures TermLoop(text, acc, c) == Ok(Parsed(acc, c))
  {
  }

  /** `expr`'s loop ends at a lookahead that is not `+` or `-`. */
  lemma ExprLoopStops(text: string, acc: Node, c: Cursor)
    requires !IsAdditive(c.tok.kind)
    ensures ExprLoop(text, acc, c) == Ok(Parsed(acc, c))
  {
  }

  /** `a` lies on the left spine of `n`: it is `n` or on the left spine of `n.left`. */
  predicate OnLeftSpine(a: Node, n: Node) {
    a == n || (n.BinOp? && OnLeftSpine(a, n.left))
  }

  /** The loop of `term` only ever puts the node built so far into the left child. */
  lemma {:induction false} TermLoopFoldsLeft(text: string, acc: Node, c: Cursor)
    requires TermLoop(text, acc, c).Ok?
    ensures OnLeftSpine(acc, TermLoop(text, acc, c).value.node)
    decreases Measure(text, c)
  {
    if IsMultiplicative(c.tok.kind) {
      var c1 := EatToken(text, c, c.tok.kind).value;
      var right := ParseFactor(text, c1).value;
      var next := BinOp(OpOf(c.tok.kind), acc, right.node);
      TermLoopFoldsLeft(text, next, right.rest);
      OnLeftSpineTransitive(acc, next, TermLoop(text, next, right.rest).value.node);
    }
  }

  /** The loop of `expr` only ever puts the node built so far into the left child. */
  lemma {:induction false} ExprLoopFoldsLeft(text: string, acc: Node, c: Cursor)
    requires ExprLoop(text, acc, c).Ok?
    ensures OnLeftSpine(acc, ExprLoop(text, acc, c).value.node)
    decreases Measure(text, c)
  {
    if IsAdditive(c.tok.kind) {
      var c1 := EatToken(text, c, c.tok.kind).value;
      var right := ParseTerm(text, c1).value;
      var next := BinOp(OpOf(c.tok.kind), acc, right.node);
      ExprLoopFoldsLeft(text, next, right.rest);
      OnLeftSpineTransitive(acc, next, ExprLoop(text, next, right.rest).value.node);
    }
  }

  lemma {:induction false} OnLeftSpineTransitive(a: Node, b: Node, n: Node)
    requires b.BinOp? && b.left == a && OnLeftSpine(b, n)
    ensures OnLeftSpine(a, n)
  {
    if b != n {
      OnLeftSpineTransitive(a, b, n.left);
    }
  }

  /** A node is successfully visited only if everything on its left spine is. */
  lemma {:induction false} EvalOnLeftSpine(a: Node, n: Node)
    requires OnLeftSpine(a, n) && Eval(n).Ok?
    ensures Eval(a).Ok?
  {
    if a != n {
      EvalOnLeftSpine(a, n.left);
    }
  }

  /** The parser of `BasicCalc.py`: its lexer and the lookahead `current_token`. */
  class Parser {
    const lexer: Lexer
    var currentToken: WfToken

    ghost predicate Valid()
      reads this, lexer
    {
      lexer.Valid()
    }

    /** The parser's state as the functions above see it. */
    ghost function State(): Cursor
      reads this, lexer
    {
      Cursor(lexer.pos, currentToken)
    }

    constructor (lexer: Lexer, first: WfToken)
      requires lexer.Valid()
      ensures Valid() && this.lexer == lexer && currentToken == first
    {
      this.lexer := lexer;
      currentToken := first;
    }

    /** `Parser(lexer)`: reads the first token, which can raise. */
    static method Open(lexer: Lexer) returns (r: Result<Parser>)
      requires lexer.Valid()
      modifies lexer
      ensures r.Ok? ==> fresh(r.value) && r.value.lexer == lexer && r.value.Valid()
      ensures Lookahead(lexer.text, old(lexer.pos)) == if r.Ok? then Ok(r.value.State()) else Err(r.error)
    {
      var first :- lexer.GetNextToken();
      var p := new Parser(lexer, first);
      return Ok(p);
    }

    method Eat(k: Kind) returns (r: Outcome)
      requires Valid()
      modifies this, lexer
      ensures Valid()
      ensures EatToken(lexer.text, old(State()), k) == if r.Pass? then Ok(State()) else Err(r.error)
    {
      if currentToken.kind == k {
        var next := lexer.GetNextToken();
        if next.Err? {
          return Fail(next.error);
        }
        currentToken := next.value;
        return Pass;
      } else {
        return Fail(InvalidSyntax(k, currentToken.kind));
      }
    }

    method Factor() returns (r: Result<Node>)
      requires Valid()
      modifies this, lexer
      decreases Measure(lexer.text, State()), 0
      ensures Valid()
      ensures ParseFactor(lexer.text, old(State())) == Yield(r, State())
    {
      var token := currentToken;
      if token.kind == Kind.Integer {
        :- Eat(Kind.Integer);
        return Ok(Num(token.value.n));
      } else if token.kind == LParen {
        :- Eat(LParen);
        var node :- Expr();
        :- Eat(RParen);
        return Ok(node);
      }
      return Ok(Missing);
    }

    method Term() returns (r: Result<Node>)
      requires Valid()
      modifies this, lexer
      decreases Measure(lexer.text, State()), 2
      ensures Valid()
      ensures ParseTerm(lexer.text, old(State())) == Yield(r, State())
    {
      var node :- Factor();
      while IsMultiplicative(currentToken.kind)
        invariant Valid()
        invariant Measure(lexer.text, State()) <= Measure(lexer.text, old(State()))
        invariant ParseTerm(lexer.text, old(State())) == TermLoop(lexer.text, node, State())
        decreases Measure(lexer.text, State())
      {
        var token := currentToken;
        if token.kind == Mul {
          :- Eat(Mul);
        } else {
          :- Eat(Div);
        }
        var right :- Factor();
        node := BinOp(OpOf(token.kind), node, right);
      }
      return Ok(node);
    }

    method Expr() returns (r: Result<Node>)
      requires Valid()
      modifies this, lexer
      decreases Measure(lexer.text, State()), 4
      ensures Valid()
      ensures ParseExpr(lexer.text, old(State())) == Yield(r, State())
    {
      var node :- Term();
      while IsAdditive(currentToken.kind)
        invariant Valid()
        invariant Measure(lexer.text, State()) <= Measure(lexer.text, old(State()))
        invariant ParseExpr(lexer.text, old(State())) == ExprLoop(lexer.text, node, State())
        decreases Measure(lexer.text, State())
      {
        var token := currentToken;
        if token.kind == Plus {
          :- Eat(Plus);
        } else {
          :- Eat(Minus);
        }
        var right :- Term();
        node := BinOp(OpOf(token.kind), node, right);
      }
      return Ok(node);
    }

    /** `parse`: one `expr`; the lookahead after it is not examined. */
    method Parse() returns (r: Result<Node>)
      requires Valid()
      modifies this, lexer
      ensures Valid()
      ensures ParseExpr(lexer.text, old(State())) == Yield(r, State())
    {
      r := Expr();
    }
  }

  /** A method's result paired with the state it leaves, as the functions return it. */
  function Yield(r: Result<Node>, c: Cursor): Result<Parsed> {
    if r.Ok? then Ok(Parsed(r.value, c)) else Err(r.error)
  }
}
