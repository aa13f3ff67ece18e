/**
  The visitor `Interpreter`: it asks its parser for a tree and visits it.
  `Evaluate` is what one line typed at the prompt computes; `Calculate` is
  the sequence of calls `main` makes for that line.
 */
module Interpreting {
  import opened Tokens
  import opened Results
  import opened Lexing
  import opened Ast
  import opened Parsing
  import opened Printing

  /** `Lexer(text)`, `Parser(lexer)`, `Interpreter(parser).interpret()`. */
  function Evaluate(text: string): (r: Result<int>)
    requires |text| > 0
    ensures r.Ok? ==> ParseText(text).Ok? && Complete(ParseText(text).value)
    ensures r.Err? ==> ParseError(r.error) || r.error == NoVisitMethod || r.error == DivisionByZero
  {
    var tree :- ParseText(text);
    Eval(tree)
  }

  class Interpreter {
    const parser: Parser

    constructor (parser: Parser)
      ensures this.parser == parser
    {
      this.parser := parser;
    }

    /** `interpret`: parse one expression, then visit the tree. */
    method Interpret() returns (r: Result<int>)
      requires parser.Valid()
      modifies parser, parser.lexer
      ensures parser.Valid()
      ensures r == (var p :- ParseExpr(parser.lexer.text, old(parser.State())); Eval(p.node))
      ensures ParseExpr(parser.lexer.text, old(parser.State())).Ok? ==>
        parser.State() == ParseExpr(parser.lexer.text, old(parser.State())).value.rest
    {
      var tree :- parser.Parse();
      r := Eval(tree);
    }
  }

  /** One line at the prompt: build the lexer, parser and interpreter and
      interpret. */
  method Calculate(text: string) returns (r: Result<int>)
    requires |text| > 0
    ensures r == Evaluate(text)
  {
    var lexer := new Lexer(text);
    var parser :- Parser.Open(lexer);
    var interpreter := new Interpreter(parser);
    r := interpreter.Interpret();
  }

  /** Evaluating the printed form of a tree is visiting the tree. */
  lemma {:induction false} EvaluatePrinted(e: Node)
    requires e != Missing
    ensures |Show(e, 0)| > 0 && Evaluate(Show(e, 0)) == Eval(e)
  {
    ParsePrinted(e);
  }

  /** Operators of one level group to the left: `10-2-3` is `(10-2)-3`. */
  lemma SubtractionGroupsLeft()
    ensures Evaluate("10-2-3") == Ok(5)
  {
    var e := BinOp(Subtract, BinOp(Subtract, Num(10), Num(2)), Num(3));
    assert Show(Num(10), 0) == "10";
    assert Show(e.left, 0) == "10-2";
    assert Show(e, 0) == "10-2-3";
    EvaluatePrinted(e);
  }

  /** `*` binds tighter than `+`. */
  lemma ProductBindsTighter()
    ensures Evaluate("2+3*4") == Ok(14)
  {
    var e := BinOp(Add, Num(2), BinOp(Multiply, Num(3), Num(4)));
    assert Show(e.right, 1) == "3*4";
    assert Show(e, 0) == "2+3*4";
    EvaluatePrinted(e);
  }

  /** Parentheses override precedence. */
  lemma ParenthesesGroupFirst()
    ensures Evaluate("(2+3)*4") == Ok(20)
  {
    var e := BinOp(Multiply, BinOp(Add, Num(2), Num(3)), Num(4));
    assert Show(e.left, 0) == "2+3";
    assert Show(e.left, 1) == "(2+3)";
    assert Show(e, 0) == "(2+3)*4";
    EvaluatePrinted(e);
  }

  /** `/` groups to the left like `-`. */
  lemma DivisionGroupsLeft()
    ensures Evaluate("20/4/5") == Ok(1)
  {
    var e := BinOp(Divide, BinOp(Divide, Num(20), Num(4)), Num(5));
    assert Show(Num(20), 0) == "20";
    assert Show(e.left, 1) == "20/4";
    assert Show(e, 0) == "20/4/5";
    EvaluatePrinted(e);
  }

  /** `/` is Python's `//`: the quotient rounds toward negative infinity. */
  lemma DivisionFloors()
    ensures Evaluate("(0-7)/2") == Ok(-4)
  {
    var e := BinOp(Divide, BinOp(Subtract, Num(0), Num(7)), Num(2));
    assert Show(e.left, 0) == "0-7";
    assert Show(e.left, 1) == "(0-7)";
    assert Show(e, 0) == "(0-7)/2";
    EvaluatePrinted(e);
    FloorDivAgainstEuclidean(-7, 2);
  }

  /** The same rounding with a negative divisor. */
  lemma NegativeDivisorFloors()
    ensures Evaluate("7/(0-2)") == Ok(-4)
  {
    var f := BinOp(Divide, Num(7), BinOp(Subtract, Num(0), Num(2)));
    assert Show(f.right, 0) == "0-2";
    assert Show(f.right, 2) == "(0-2)";
    assert Show(f, 0) == "7/(0-2)";
    EvaluatePrinted(f);
    FloorDivAgainstEuclidean(7, -2);
  }

  /** A divisor that evaluates to zero is an error. */
  lemma ZeroDivisorFails()
    ensures Evaluate("1/(2-2)") == Err(DivisionByZero)
  {
    var e := BinOp(Divide, Num(1), BinOp(Subtract, Num(2), Num(2)));
    assert Show(e.right, 0) == "2-2";
    assert Show(e.right, 2) == "(2-2)";
    assert Show(e, 0) == "1/(2-2)";
    EvaluatePrinted(e);
  }

  /** A missing operand is parsed without complaint and fails only when
      visited. */
  lemma MissingOperandFailsOnVisit()
    ensures Evaluate("+") == Err(NoVisitMethod)
    ensures Evaluate("2*") == Err(NoVisitMethod)
  {
    var e := BinOp(Add, Missing, Missing);
    assert Show(e, 0) == "+";
    EvaluatePrinted(e);
    var f := BinOp(Multiply, Num(2), Missing);
    assert Show(f, 0) == "2*";
    EvaluatePrinted(f);
  }

  /** What follows a complete expression and a `)` is never read. */
  lemma StrayParenthesisIgnored()
    ensures Evaluate(")") == Err(NoVisitMethod)
    ensures Evaluate("1)2") == Ok(1)
  {
    TrailingInputIgnored(Missing, "");
    assert Show(Missing, 0) + [')'] + "" == ")";
    TrailingInputIgnored(Num(1), "2");
    assert Show(Num(1), 0) + [')'] + "2" == "1)2";
  }

  /** An unclosed `(` makes `factor`'s `eat(RPAREN)` meet the end of the text. */
  lemma UnclosedParenthesisFails()
    ensures Evaluate("(1+2") == Err(InvalidSyntax(RParen, Eof))
  {
    var text := "(1+2";
    var e := BinOp(Add, Num(1), Num(2));
    assert Show(e, 0) == "1+2";
    assert Occurs(text, 1, Show(e, 0));
    ShowIsLaid(text, 1, e, 0);
    ExprReadsShow(text, 1, e, 4);
    UnclosedRead(text, e);
  }

  /** A character that is neither a space, a digit nor an operator or
      parenthesis stops the lexer with its position. */
  lemma InvalidCharacterFails()
    ensures Evaluate("1 @ 2") == Err(InvalidCharacter('@', 2))
  {
    var text := "1 @ 2";
    assert Digits(1) == "1";
    ScanNumeral(text, 0, 1);
    InvalidCharacterIsTheOnlyError(text, 1);
    assert SkipSpaces(text, 1) == 2;
  }

  /** Any number of redundant parentheses around an expression are harmless. */
  lemma RedundantParenthesesAreHarmless()
    ensures Evaluate("((((1))))") == Ok(1)
  {
    RedundantParenthesesIgnored(Num(1), 4);
    assert Show(Num(1), 0) == "1";
    assert Wrapped("1", 4) == "((((1))))";
  }
}
