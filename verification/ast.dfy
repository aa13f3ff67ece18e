/**
  The syntax tree and the visitor that evaluates it.  Python's reflective
  `NodeVisitor.visit` becomes a match over `Node`; the `None` that the
  parser's `factor` can produce is the node `Missing`, on which the visitor
  falls back to `generic_visit` and raises.
 */
module Ast {
  import opened Results

  /** The operator of a `BinOp` node: the type of its `op` token. */
  datatype Op = Add | Subtract | Multiply | Divide

  /** `Num` holds the value of its INTEGER token, which is never negative. */
  datatype Node =
    | Num(value: nat)
    | BinOp(op: Op, left: Node, right: Node)
    | Missing

  /** A tree with no `Missing` node anywhere. */
  predicate Complete(n: Node) {
    match n
    case Num(_) => true
    case BinOp(_, l, r) => Complete(l) && Complete(r)
    case Missing => false
  }

  /** Python's `a // b`: the quotient rounded toward negative infinity.
      Dafny's `/` is Euclidean and differs from it when `b < 0`. */
  function FloorDiv(a: int, b: int): (q: int)
    requires b != 0
    ensures b > 0 ==> b * q <= a < b * q + b
    ensures b < 0 ==> b * q + b < a <= b * q
  {
    if b < 0 && a % b != 0 then a / b - 1 else a / b
  }

  /** With a positive divisor floor division and Euclidean division agree;
      with a negative one they can differ. */
  lemma FloorDivAgainstEuclidean(a: int, b: int)
    requires b != 0
    ensures b > 0 ==> FloorDiv(a, b) == a / b
    ensures FloorDiv(7, -2) == -4 && 7 / -2 == -3
    ensures FloorDiv(-7, -2) == 3 && FloorDiv(-7, 2) == -4
  {
  }

  /** `visit_BinOp` on evaluated operands. */
  function Apply(op: Op, a: int, b: int): (r: Result<int>)
    ensures r.Err? <==> op == Divide && b == 0
    ensures r.Err? ==> r.error == DivisionByZero
    ensures op == Divide && b != 0 ==> r == Ok(FloorDiv(a, b))
  {
    match op
    case Add => Ok(a + b)
    case Subtract => Ok(a - b)
    case Multiply => Ok(a * b)
    case Divide => if b == 0 then Err(DivisionByZero) else Ok(FloorDiv(a, b))
  }

  /** `Interpreter.visit`: left operand first, then right, then the operator. */
  function Eval(n: Node): (r: Result<int>)
    ensures r.Ok? ==> Complete(n)
    ensures r.Err? ==> r.error == NoVisitMethod || r.error == DivisionByZero
  {
    match n
    case Num(v) => Ok(v)
    case BinOp(op, l, r) =>
      var a :- Eval(l);
      var b :- Eval(r);
      Apply(op, a, b)
    case Missing => Err(NoVisitMethod)
  }

  /** A tree with no division by a subtree that evaluates to zero. */
  predicate NoZeroDivisor(n: Node) {
    match n
    case Num(_) => true
    case Missing => true
    case BinOp(op, l, r) =>
      NoZeroDivisor(l) && NoZeroDivisor(r) && (op == Divide ==> Eval(r) != Ok(0))
  }

  /** The visitor fails only on a `Missing` node or a division by zero. */
  lemma {:induction false} CompleteTreesEvaluate(n: Node)
    requires Complete(n) && NoZeroDivisor(n)
    ensures Eval(n).Ok?
  {
    match n
    case Num(_) =>
    case BinOp(_, l, r) =>
      CompleteTreesEvaluate(l);
      CompleteTreesEvaluate(r);
  }
}
