/**
  A printer for syntax trees and the proof that the parser reads every
  printed tree back as the same tree.  The printer puts parentheses exactly
  where precedence and left-associativity require them, so the round trip
  states that `*` and `/` bind tighter than `+` and `-`, that operators of one
  level group to the left, and that `factor`'s missing operand is read where
  nothing stands.
 */
module Printing {
  import opened Tokens
  import opened Results
  import opened Lexing
  import opened Ast
  import opened Parsing

  /** The binding strength of a node: 0 for `+ -`, 1 for `* /`, 2 for a factor. */
  function Prec(n: Node): nat {
    match n
    case BinOp(op, _, _) => if op == Add || op == Subtract then 0 else 1
    case _ => 2
  }

  function OpKind(op: Op): (k: Kind)
    ensures (IsAdditive(k) || IsMultiplicative(k)) && OpOf(k) == op
    ensures IsAdditive(k) <==> op == Add || op == Subtract
  {
    match op
    case Add => Plus
    case Subtract => Minus
    case Multiply => Mul
    case Divide => Div
  }

  /** The text of `n` in a context that binds with strength `ctx`: a left
      operand at its operator's level, a right operand one level higher. */
  function Show(n: Node, ctx: nat): string {
    match n
    case Num(v) => Digits(v)
    case Missing => []
    case BinOp(op, l, r) =>
      var s := Show(l, Prec(n)) + [SymbolChar(OpKind(op))] + Show(r, Prec(n) + 1);
      if Prec(n) < ctx then ['('] + s + [')'] else s
  }

  /** The order in which the lemmas below visit one tree at several levels:
      it drops along every step that does not descend into a subtree. */
  function Rank(e: Node, ctx: nat): nat {
    var p := Prec(e);
    if ctx <= p then p - ctx else if ctx <= p + 3 then p + 3 - ctx else 0
  }

  /** `s` stands in `text` at position `i`. */
  predicate Occurs(text: string, i: nat, s: string) {
    i + |s| <= |text| && text[i..i + |s|] == s
  }

  lemma OccursSplit(text: string, i: nat, a: string, b: string)
    requires Occurs(text, i, a + b)
    ensures Occurs(text, i, a) && Occurs(text, i + |a|, b)
  {
    assert text[i..i + |a|] == (a + b)[..|a|];
    assert text[i + |a|..i + |a| + |b|] == (a + b)[|a|..];
  }

  /** `a`, a character `c` and `b` in a row stand apart from each other. */
  lemma OccursAround(text: string, i: nat, a: string, c: char, b: string)
    requires Occurs(text, i, a + [c] + b)
    ensures Occurs(text, i, a) && i + |a| < |text| && text[i + |a|] == c
    ensures Occurs(text, i + |a| + 1, b)
  {
    OccursSplit(text, i, a + [c], b);
    OccursSplit(text, i, a, [c]);
    assert text[i + |a|] == text[i + |a|..i + |a| + 1][0];
  }

  /** The token kinds that end a construct of level `n - 1`: `)` and EOF end
      every construct, `+ -` end a term or factor, `* /` end a factor. */
  predicate StopKind(k: Kind, n: nat) {
    k == RParen || k == Eof || (n >= 1 && IsAdditive(k)) || (n >= 2 && IsMultiplicative(k))
  }

  /** Position `j` is the end of `text` or holds the character of a stop kind. */
  predicate StopAt(text: string, j: nat, n: nat) {
    j == |text| || (j < |text| && IsSymbol(text[j]) && StopKind(SymbolKind(text[j]), n))
  }

  /** How `e` printed in context `ctx` is laid out from position `i` on:
      the digits of a number, nothing for a missing operand, the left
      operand, operator character and right operand of an operator node,
      and a `(` and `)` around it where the context binds tighter. */
  predicate Laid(text: string, i: nat, e: Node, ctx: nat)
    decreases e, if Prec(e) < ctx then 1 else 0
  {
    match e
    case Num(v) => Occurs(text, i, Digits(v))
    case Missing => true
    case BinOp(op, l, r) =>
      var p := Prec(e);
      if p < ctx then
        var k := i + 1 + |Show(e, 0)|;
        && i < |text| && text[i] == '('
        && Laid(text, i + 1, e, 0)
        && k < |text| && text[k] == ')'
      else
        var m := i + |Show(l, p)|;
        && Laid(text, i, l, p)
        && m < |text| && text[m] == SymbolChar(OpKind(op))
        && Laid(text, m + 1, r, p + 1)
  }

  /** The lexer reads the end of the text as EOF. */
  lemma EndRead(text: string)
    ensures Lookahead(text, |text|) == Ok(Cursor(|text|, EofToken))
  {
    assert SkipSpaces(text, |text|) == |text|;
  }

  /** The lexer reads a stop position as a token of a stop kind. */
  lemma StopRead(text: string, j: nat, n: nat)
    requires StopAt(text, j, n)
    ensures Lookahead(text, j).Ok? && StopKind(Lookahead(text, j).value.tok.kind, n)
  {
    if j == |text| {
      EndRead(text);
    } else {
      ScanSymbol(text, j);
    }
  }

  /** The lexer reads the character of a one-character kind as that token. */
  lemma SymbolRead(text: string, i: nat, k: Kind)
    requires k != Integer && k != Eof && i < |text| && text[i] == SymbolChar(k)
    ensures Lookahead(text, i) == Ok(Cursor(i + 1, Token(k, Sym(SymbolChar(k)))))
  {
    ScanSymbol(text, i);
  }

  /** A stop position never holds a digit. */
  lemma StopIsNotDigit(text: string, j: nat, n: nat)
    requires StopAt(text, j, n)
    ensures j == |text| || !IsDigit(text[j])
  {
  }

  /** The printed text of a tree is laid out as the tree says. */
  lemma {:induction false} ShowIsLaid(text: string, i: nat, e: Node, ctx: nat)
    requires Occurs(text, i, Show(e, ctx))
    ensures Laid(text, i, e, ctx)
    decreases e, if Prec(e) < ctx then 1 else 0, 1
  {
    if e.BinOp? {
      if Prec(e) < ctx {
        ParenthesesLaid(text, i, e, ctx);
      } else {
        OperandsSplit(text, i, e, ctx);
        OperandsLaid(text, i, e, Prec(e));
      }
    }
  }

  lemma {:induction false} ParenthesesLaid(text: string, i: nat, e: Node, ctx: nat)
    requires e.BinOp? && Prec(e) < ctx && Occurs(text, i, Show(e, ctx))
    ensures Laid(text, i, e, ctx)
    decreases e, 1, 0
  {
    ParenthesesSplit(text, i, e, ctx);
    ShowIsLaid(text, i + 1, e, 0);
  }

  lemma {:induction false} OperandsLaid(text: string, i: nat, e: Node, p: nat)
    requires e.BinOp? && p == Prec(e)
    requires Occurs(text, i, Show(e.left, p)) && Occurs(text, i + |Show(e.left, p)| + 1, Show(e.right, p + 1))
    ensures Laid(text, i, e.left, p) && Laid(text, i + |Show(e.left, p)| + 1, e.right, p + 1)
    decreases e, 0, 0
  {
    ShowIsLaid(text, i, e.left, p);
    ShowIsLaid(text, i + |Show(e.left, p)| + 1, e.right, p + 1);
  }

  lemma ParenthesesSplit(text: string, i: nat, e: Node, ctx: nat)
    requires e.BinOp? && Prec(e) < ctx && Occurs(text, i, Show(e, ctx))
    ensures var k := i + 1 + |Show(e, 0)|;
      && i < |text| && text[i] == '(' && Occurs(text, i + 1, Show(e, 0))
      && k < |text| && text[k] == ')'
  {
    var s := Show(e, 0);
    assert Show(e, ctx) == ['('] + s + [')'];
    OccursSplit(text, i, ['('] + s, [')']);
    OccursSplit(text, i, ['('], s);
    assert text[i] == '(' && text[i + 1 + |s|] == ')';
  }

  /** Where no parentheses are needed, an operator node prints as its left
      operand, its operator and its right operand. */
  lemma ShowOperands(e: Node, ctx: nat)
    requires e.BinOp? && ctx <= Prec(e)
    ensures Show(e, ctx) == Show(e.left, Prec(e)) + [SymbolChar(OpKind(e.op))] + Show(e.right, Prec(e) + 1)
  {
  }

  lemma OperandsSplit(text: string, i: nat, e: Node, ctx: nat)
    requires e.BinOp? && ctx <= Prec(e) && Occurs(text, i, Show(e, ctx))
    ensures var p := Prec(e); var m := i + |Show(e.left, p)|;
      && Occurs(text, i, Show(e.left, p))
      && m < |text| && text[m] == SymbolChar(OpKind(e.op))
      && Occurs(text, m + 1, Show(e.right, p + 1))
  {
    var p := Prec(e);
    ShowOperands(e, ctx);
    OccursAround(text, i, Show(e.left, p), SymbolChar(OpKind(e.op)), Show(e.right, p + 1));
  }

  /** A tree that needs no parentheses in either context, or needs them in
      both, is printed and laid out the same in both. */
  lemma Reframed(text: string, i: nat, e: Node, a: nat, b: nat)
    requires (Prec(e) < a && Prec(e) < b) || (Prec(e) >= a && Prec(e) >= b)
    requires Laid(text, i, e, a)
    ensures Show(e, b) == Show(e, a) && Laid(text, i, e, b)
  {
  }

  /** `factor`, started on the token at `i`, reads `e` and stops on the token at `j`. */
  predicate FactorReads(text: string, i: nat, e: Node, j: nat) {
    && Lookahead(text, i).Ok? && Lookahead(text, j).Ok?
    && ParseFactor(text, Lookahead(text, i).value) == Ok(Parsed(e, Lookahead(text, j).value))
  }

  /** `term`, started on the token at `i`, reads `e` and goes on with its
      loop from the token at `j`. */
  predicate TermReads(text: string, i: nat, e: Node, j: nat) {
    && Lookahead(text, i).Ok? && Lookahead(text, j).Ok?
    && ParseTerm(text, Lookahead(text, i).value) == TermLoop(text, e, Lookahead(text, j).value)
  }

  /** `expr`, started on the token at `i`, reads `e` and goes on with its
      loop from the token at `j`. */
  predicate ExprReads(text: string, i: nat, e: Node, j: nat) {
    && Lookahead(text, i).Ok? && Lookahead(text, j).Ok?
    && ParseExpr(text, Lookahead(text, i).value) == ExprLoop(text, e, Lookahead(text, j).value)
  }

  /** `factor` reads a printed number. */
  lemma NumberReadsShow(text: string, i: nat, v: nat, j: nat)
    requires Occurs(text, i, Digits(v)) && StopAt(text, j, 3) && j == i + |Digits(v)|
    ensures FactorReads(text, i, Num(v), j)
  {
    StopIsNotDigit(text, j, 3);
    ScanNumeral(text, i, v);
    StopRead(text, j, 3);
    FactorNumber(text, Lookahead(text, i).value, v, Lookahead(text, j).value);
  }

  /** `factor` reads a tree printed as a factor. */
  lemma {:induction false} FactorReadsShow(text: string, i: nat, e: Node, j: nat)
    requires Laid(text, i, e, 2) && StopAt(text, j, 3) && j == i + |Show(e, 2)|
    ensures FactorReads(text, i, e, j)
    decreases e, Rank(e, 2), 1
  {
    match e
    case Num(v) =>
      NumberReadsShow(text, i, v, j);
    case Missing =>
      StopRead(text, i, 3);
      FactorWithoutOperand(text, Lookahead(text, i).value);
    case BinOp(_, _, _) =>
      ParenthesisedReadsShow(text, i, e, j);
  }

  /** `factor` reads a parenthesised tree: `(`, then `expr`, then `)`. */
  lemma {:induction false} ParenthesisedReadsShow(text: string, i: nat, e: Node, j: nat)
    requires e.BinOp? && Laid(text, i, e, 2) && StopAt(text, j, 3) && j == i + |Show(e, 2)|
    ensures FactorReads(text, i, e, j)
    decreases e, Rank(e, 2), 0
  {
    var k := i + 1 + |Show(e, 0)|;
    ExprReadsShow(text, i + 1, e, k);
    ParenthesisedRead(text, i, e, k, j);
  }

  /** `factor` on a `(`: an expression up to the `)` at `k`, then that `)`. */
  lemma ParenthesisedRead(text: string, i: nat, e: Node, k: nat, j: nat)
    requires i < |text| && text[i] == '(' && ExprReads(text, i + 1, e, k)
    requires k < |text| && text[k] == ')' && j == k + 1 && StopAt(text, j, 3)
    ensures FactorReads(text, i, e, j)
  {
    ParenthesesRead(text, i, k, j);
    ParenthesisedCursors(text, i, e, k, j);
  }

  /** The tokens at a `(` at `i`, a `)` at `k` and a stop at `j`. */
  lemma ParenthesesRead(text: string, i: nat, k: nat, j: nat)
    requires i < |text| && text[i] == '(' && k < |text| && text[k] == ')' && j == k + 1
    requires StopAt(text, j, 3)
    ensures Lookahead(text, i).Ok? && Lookahead(text, i).value.tok.kind == LParen
    ensures Lookahead(text, i).value.pos == i + 1
    ensures Lookahead(text, k).Ok? && Lookahead(text, k).value.tok.kind == RParen
    ensures Lookahead(text, k).value.pos == j && Lookahead(text, j).Ok?
  {
    SymbolRead(text, i, LParen);
    SymbolRead(text, k, RParen);
    StopRead(text, j, 3);
  }

  /** `factor` on the token of a `(` at `i`, with `expr` stopping on the token of a `)` at `k`. */
  lemma ParenthesisedCursors(text: string, i: nat, e: Node, k: nat, j: nat)
    requires Lookahead(text, i).Ok? && Lookahead(text, i).value.tok.kind == LParen
    requires Lookahead(text, i).value.pos == i + 1 && ExprReads(text, i + 1, e, k)
    requires Lookahead(text, k).Ok? && Lookahead(text, k).value.tok.kind == RParen
    requires Lookahead(text, k).value.pos == j && Lookahead(text, j).Ok?
    ensures FactorReads(text, i, e, j)
  {
    FactorParenthesised(text, Lookahead(text, i).value, Lookahead(text, i + 1).value, e,
      Lookahead(text, k).value, Lookahead(text, j).value);
  }

  /** `term` reads a tree printed at the level of `*` and `/`. */
  lemma {:induction false} TermReadsShow(text: string, i: nat, e: Node, j: nat)
    requires Laid(text, i, e, 1) && StopAt(text, j, 2) && j == i + |Show(e, 1)|
    ensures TermReads(text, i, e, j)
    decreases e, Rank(e, 1), 1
  {
    if e.BinOp? && Prec(e) == 1 {
      ProductReadsShow(text, i, e, j);
    } else {
      FactorAsTermReadsShow(text, i, e, j);
    }
  }

  /** `term` reads a factor, and its loop goes on from the token after it. */
  lemma {:induction false} FactorAsTermReadsShow(text: string, i: nat, e: Node, j: nat)
    requires !(e.BinOp? && Prec(e) == 1)
    requires Laid(text, i, e, 1) && StopAt(text, j, 2) && j == i + |Show(e, 1)|
    ensures TermReads(text, i, e, j)
    decreases e, Rank(e, 1), 0
  {
    Reframed(text, i, e, 1, 2);
    FactorReadsShow(text, i, e, j);
    TermStartsWithFactor(text, Lookahead(text, i).value, e, Lookahead(text, j).value);
  }

  /** `term` reads `l * r` or `l / r`: first `l`, then one round of its loop. */
  lemma {:induction false} ProductReadsShow(text: string, i: nat, e: Node, j: nat)
    requires e.BinOp? && Prec(e) == 1
    requires Laid(text, i, e, 1) && StopAt(text, j, 2) && j == i + |Show(e, 1)|
    ensures TermReads(text, i, e, j)
    decreases e, Rank(e, 1), 0
  {
    var m := i + |Show(e.left, 1)|;
    TermReadsShow(text, i, e.left, m);
    FactorReadsShow(text, m + 1, e.right, j);
    ProductRead(text, i, e, m, j);
  }

  /** One round of `term`'s loop: `l` read up to the operator at `m`, then a factor. */
  lemma ProductRead(text: string, i: nat, e: Node, m: nat, j: nat)
    requires e.BinOp? && Prec(e) == 1 && m < |text| && text[m] == SymbolChar(OpKind(e.op))
    requires TermReads(text, i, e.left, m) && FactorReads(text, m + 1, e.right, j)
    ensures TermReads(text, i, e, j)
  {
    SymbolRead(text, m, OpKind(e.op));
    TermJoin(text, Lookahead(text, i).value, e, Lookahead(text, m).value,
      Lookahead(text, m + 1).value, Lookahead(text, j).value);
  }

  /** `expr` reads a tree printed at the level of `+` and `-`. */
  lemma {:induction false} ExprReadsShow(text: string, i: nat, e: Node, j: nat)
    requires Laid(text, i, e, 0) && StopAt(text, j, 1) && j == i + |Show(e, 0)|
    ensures ExprReads(text, i, e, j)
    decreases e, Rank(e, 0), 3
  {
    if e.BinOp? && Prec(e) == 0 {
      SumReadsShow(text, i, e, j);
    } else {
      TermAsExprReadsShow(text, i, e, j);
    }
  }

  /** `expr` reads a term, and its loop goes on from the token after it. */
  lemma {:induction false} TermAsExprReadsShow(text: string, i: nat, e: Node, j: nat)
    requires !(e.BinOp? && Prec(e) == 0)
    requires Laid(text, i, e, 0) && StopAt(text, j, 1) && j == i + |Show(e, 0)|
    ensures ExprReads(text, i, e, j)
    decreases e, Rank(e, 0), 0
  {
    Reframed(text, i, e, 0, 1);
    StopRead(text, j, 1);
    TermReadsShow(text, i, e, j);
    ExprStartsWithTerm(text, Lookahead(text, i).value, e, Lookahead(text, j).value);
  }

  /** `expr` reads `l + r` or `l - r`: first `l`, then one round of its loop. */
  lemma {:induction false} SumReadsShow(text: string, i: nat, e: Node, j: nat)
    requires e.BinOp? && Prec(e) == 0
    requires Laid(text, i, e, 0) && StopAt(text, j, 1) && j == i + |Show(e, 0)|
    ensures ExprReads(text, i, e, j)
    decreases e, Rank(e, 0), 2
  {
    SumLayout(text, i, e, j);
    SumPartsRead(text, i, e, i + |Show(e.left, 0)|, j);
  }

  /** `expr` reads `l + r` or `l - r` from where its operands are laid out. */
  lemma {:induction false} SumPartsRead(text: string, i: nat, e: Node, m: nat, j: nat)
    requires e.BinOp? && Prec(e) == 0 && m == i + |Show(e.left, 0)|
    requires Laid(text, i, e.left, 0) && Laid(text, m + 1, e.right, 1)
    requires m < |text| && text[m] == SymbolChar(OpKind(e.op))
    requires StopAt(text, m, 1) && StopAt(text, j, 2) && StopAt(text, j, 1)
    requires j == m + 1 + |Show(e.right, 1)|
    ensures ExprReads(text, i, e, j)
    decreases e, Rank(e, 0), 1
  {
    SumOperandsRead(text, i, e, m, j);
    SumRead(text, i, e, m, j);
  }

  /** The operands of a printed sum: `expr` reads the left one, `term` the right one. */
  lemma {:induction false} SumOperandsRead(text: string, i: nat, e: Node, m: nat, j: nat)
    requires e.BinOp? && Prec(e) == 0 && m == i + |Show(e.left, 0)|
    requires Laid(text, i, e.left, 0) && Laid(text, m + 1, e.right, 1)
    requires StopAt(text, m, 1) && StopAt(text, j, 2) && j == m + 1 + |Show(e.right, 1)|
    ensures ExprReads(text, i, e.left, m) && TermReads(text, m + 1, e.right, j)
    decreases e, Rank(e, 0), 0
  {
    ExprReadsShow(text, i, e.left, m);
    TermReadsShow(text, m + 1, e.right, j);
  }

  /** Where the operands and the operator of a printed sum stand. */
  lemma SumLayout(text: string, i: nat, e: Node, j: nat)
    requires e.BinOp? && Prec(e) == 0
    requires Laid(text, i, e, 0) && StopAt(text, j, 1) && j == i + |Show(e, 0)|
    ensures var m := i + |Show(e.left, 0)|;
      && Laid(text, i, e.left, 0) && Laid(text, m + 1, e.right, 1)
      && m < |text| && text[m] == SymbolChar(OpKind(e.op))
      && StopAt(text, m, 1) && StopAt(text, j, 2) && j == m + 1 + |Show(e.right, 1)|
  {
    var k := OpKind(e.op);
    assert Show(e, 0) == Show(e.left, 0) + [SymbolChar(k)] + Show(e.right, 1);
    assert IsAdditive(k) && SymbolKind(SymbolChar(k)) == k;
  }

  /** One round of `expr`'s loop: `l` read up to the operator at `m`, then a
      term that stops where a `+ -`, `)` or the end stands. */
  lemma SumRead(text: string, i: nat, e: Node, m: nat, j: nat)
    requires e.BinOp? && Prec(e) == 0 && m < |text| && text[m] == SymbolChar(OpKind(e.op))
    requires ExprReads(text, i, e.left, m) && TermReads(text, m + 1, e.right, j) && StopAt(text, j, 1)
    ensures ExprReads(text, i, e, j)
  {
    SymbolRead(text, m, OpKind(e.op));
    StopRead(text, j, 1);
    ExprJoin(text, Lookahead(text, i).value, e, Lookahead(text, m).value,
      Lookahead(text, m + 1).value, Lookahead(text, j).value);
  }

  /** Parsing the printed form of any tree gives the tree back: `*`/`/` bind
      tighter than `+`/`-`, both group to the left, parentheses override. */
  lemma {:induction false} ParsePrinted(e: Node)
    requires e != Missing
    ensures |Show(e, 0)| > 0 && ParseText(Show(e, 0)) == Ok(e)
  {
    var text := Show(e, 0);
    assert text[0..|text|] == text;
    ShowIsLaid(text, 0, e, 0);
    ExprReadsShow(text, 0, e, |text|);
    WholeRead(text, e);
  }

  /** An expression read from the start of the text to its end is what
      parsing the text gives. */
  lemma WholeRead(text: string, e: Node)
    requires |text| > 0 && ExprReads(text, 0, e, |text|)
    ensures ParseText(text) == Ok(e)
  {
    EndRead(text);
    ExprLoopStops(text, e, Cursor(|text|, EofToken));
  }

  /** A `(` followed by an expression that runs to the end of the text:
      `factor` finds EOF where it expects `)`. */
  lemma UnclosedRead(text: string, e: Node)
    requires |text| > 0 && text[0] == '(' && ExprReads(text, 1, e, |text|)
    ensures ParseText(text) == Err(InvalidSyntax(RParen, Eof))
  {
    EndRead(text);
    ExprLoopStops(text, e, Cursor(|text|, EofToken));
    SymbolRead(text, 0, LParen);
    var c := Lookahead(text, 0).value;
    FactorUnclosed(text, c, Lookahead(text, 1).value, e, Cursor(|text|, EofToken));
    assert ParseTerm(text, c).Err?;
  }

  /** `n` copies of `c`. */
  function Repeat(c: char, n: nat): (r: string)
    ensures |r| == n && forall q :: 0 <= q < n ==> r[q] == c
  {
    if n == 0 then [] else [c] + Repeat(c, n - 1)
  }

  /** `n` opening parentheses, then `s`, then `n` closing ones. */
  function Wrapped(s: string, n: nat): (w: string)
    ensures |w| == |s| + 2 * n
  {
    Repeat('(', n) + s + Repeat(')', n)
  }

  lemma WrappedLayout(s: string, n: nat)
    ensures var w := Wrapped(s, n);
      && (forall q :: 0 <= q < n ==> w[q] == '(')
      && (forall q :: n + |s| <= q < n + |s| + n ==> w[q] == ')')
      && Occurs(w, n, s)
  {
    var w := Wrapped(s, n);
    assert w[n..n + |s|] == s;
  }

  /** An expression reading `e` between `(` and `)` is read by `expr` as `e`. */
  lemma ExprInParentheses(text: string, i: nat, e: Node, k: nat)
    requires i < |text| && text[i] == '(' && ExprReads(text, i + 1, e, k)
    requires k < |text| && text[k] == ')' && StopAt(text, k + 1, 1)
    ensures ExprReads(text, i, e, k + 1)
  {
    ParenthesisedRead(text, i, e, k, k + 1);
    FactorReadsAsExpr(text, i, e, k + 1);
  }

  /** The outermost of `n` pairs of parentheses around an expression. */
  lemma OuterParentheses(text: string, i: nat, e: Node, k: nat, n: nat)
    requires n > 0 && Opens(text, i, n) && Closes(text, k, n)
    requires ExprReads(text, i + 1, e, k + n - 1) && StopAt(text, k + n, 1)
    ensures ExprReads(text, i, e, k + n)
  {
    ExprInParentheses(text, i, e, k + n - 1);
  }

  /** Removing the outermost pair leaves `n - 1` pairs, the inner `)` being a stop. */
  lemma PeelParentheses(text: string, i: nat, k: nat, n: nat)
    requires n > 0 && Opens(text, i, n) && Closes(text, k, n)
    ensures Opens(text, i + 1, n - 1) && Closes(text, k, n - 1) && StopAt(text, k + n - 1, 1)
  {
  }

  /** A factor followed by a stop of `expr`'s level is what `expr` reads. */
  lemma FactorReadsAsExpr(text: string, i: nat, e: Node, j: nat)
    requires FactorReads(text, i, e, j) && StopAt(text, j, 1)
    ensures ExprReads(text, i, e, j)
  {
    var c, d := Lookahead(text, i).value, Lookahead(text, j).value;
    TermStartsWithFactor(text, c, e, d);
    StopRead(text, j, 1);
    ExprStartsWithTerm(text, c, e, d);
  }

  /** `n` opening parentheses stand in `text` from `i` on. */
  predicate Opens(text: string, i: nat, n: nat)
    decreases n
  {
    n == 0 || (i < |text| && text[i] == '(' && Opens(text, i + 1, n - 1))
  }

  /** `n` closing parentheses stand in `text` from `k` on. */
  predicate Closes(text: string, k: nat, n: nat) {
    n == 0 || (k + n - 1 < |text| && text[k + n - 1] == ')' && Closes(text, k, n - 1))
  }

  lemma {:induction false} OpensAll(text: string, i: nat, n: nat)
    requires i + n <= |text| && forall q :: i <= q < i + n ==> text[q] == '('
    ensures Opens(text, i, n)
    decreases n
  {
    if n > 0 {
      OpensAll(text, i + 1, n - 1);
    }
  }

  lemma {:induction false} ClosesAll(text: string, k: nat, n: nat)
    requires k + n <= |text| && forall q :: k <= q < k + n ==> text[q] == ')'
    ensures Closes(text, k, n)
    decreases n
  {
    if n > 0 {
      ClosesAll(text, k, n - 1);
    }
  }

  /** `n` pairs of parentheses around an expression do not change what `expr` reads. */
  lemma {:induction false} NestedRead(text: string, i: nat, e: Node, k: nat, n: nat)
    requires Opens(text, i, n) && Closes(text, k, n)
    requires ExprReads(text, i + n, e, k) && StopAt(text, k + n, 1)
    ensures ExprReads(text, i, e, k + n)
    decreases n
  {
    if n > 0 {
      PeelParentheses(text, i, k, n);
      NestedRead(text, i + 1, e, k, n - 1);
      OuterParentheses(text, i, e, k, n);
    }
  }

  /** Redundant parentheses are harmless: any number of them around a printed
      tree give the tree back, and `()` reads as no node at all. */
  lemma {:induction false} RedundantParenthesesIgnored(e: Node, n: nat)
    requires e != Missing || n > 0
    ensures |Wrapped(Show(e, 0), n)| > 0 && ParseText(Wrapped(Show(e, 0), n)) == Ok(e)
  {
    var s := Show(e, 0);
    var text := Wrapped(s, n);
    WrappedLayout(s, n);
    if e != Missing {
      ParsePrinted(e);
    }
    WrappedReads(text, e, n);
  }

  lemma WrappedReads(text: string, e: Node, n: nat)
    requires |text| == |Show(e, 0)| + 2 * n > 0 && Occurs(text, n, Show(e, 0))
    requires forall q :: 0 <= q < n ==> text[q] == '('
    requires forall q :: n + |Show(e, 0)| <= q < |text| ==> text[q] == ')'
    ensures ParseText(text) == Ok(e)
  {
    var k := n + |Show(e, 0)|;
    ShowIsLaid(text, n, e, 0);
    assert k == |text| || text[k] == ')';
    OpensAll(text, 0, n);
    ClosesAll(text, k, n);
    NestedReadsShow(text, e, n, k);
  }

  lemma NestedReadsShow(text: string, e: Node, n: nat, k: nat)
    requires k == n + |Show(e, 0)| && |text| == k + n > 0
    requires Laid(text, n, e, 0) && StopAt(text, k, 1) && Opens(text, 0, n) && Closes(text, k, n)
    ensures ParseText(text) == Ok(e)
  {
    ExprReadsShow(text, n, e, k);
    NestedWholeRead(text, e, n, k);
  }

  /** An expression inside `n` pairs of parentheses that make up the whole text. */
  lemma NestedWholeRead(text: string, e: Node, n: nat, k: nat)
    requires |text| == k + n > 0 && Opens(text, 0, n) && Closes(text, k, n)
    requires ExprReads(text, n, e, k) && StopAt(text, k + n, 1)
    ensures ParseText(text) == Ok(e)
  {
    NestedRead(text, 0, e, k, n);
    WholeRead(text, e);
  }

  /** `parse` does not demand EOF: after a complete expression, a `)` and
      anything at all behind it are ignored. */
  lemma {:induction false} TrailingInputIgnored(e: Node, rest: string)
    ensures ParseText(Show(e, 0) + [')'] + rest) == Ok(e)
  {
    var text := Show(e, 0) + [')'] + rest;
    var j := |Show(e, 0)|;
    OccursSplit(text, 0, Show(e, 0), [')'] + rest);
    assert text[j] == ')';
    ShowIsLaid(text, 0, e, 0);
    ExprReadsShow(text, 0, e, j);
    SymbolRead(text, j, RParen);
    ExprLoopStops(text, e, Lookahead(text, j).value);
  }
}
