/**
 * The constant evaluator `eval` (eggmath.rs): a partial function over exact
 * rationals that folds a tag applied to constant operands. Operands are read
 * by position, and a missing operand makes the whole fold fail (the source
 * reads each operand with `args.get(i)?`, which returns `None` early).
 */
module ConstEval {
  import opened Wrappers
  import opened MathLang

  /** The tags the evaluator folds; every other tag is left alone. */
  predicate IsFoldable(op: Math) {
    op in {Add, Sub, Mul, Div, Fabs, RealToPosit}
  }

  /** How many leading operands a foldable tag reads. */
  function FoldArity(op: Math): nat
    requires IsFoldable(op)
  {
    if op in {Add, Sub, Mul, Div} then 2 else 1
  }

  /**
   * Exact folding. It succeeds exactly for a foldable tag given enough
   * operands, except for a division whose divisor is zero.
   */
  function Eval(op: Math, args: seq<real>): (r: Option<real>)
    ensures r.Some? <==>
      IsFoldable(op) && FoldArity(op) <= |args| && (op == Div ==> args[1] != 0.0)
  {
    match op
    case Add => if |args| < 2 then None else Some(args[0] + args[1])
    case Sub => if |args| < 2 then None else Some(args[0] - args[1])
    case Mul => if |args| < 2 then None else Some(args[0] * args[1])
    // The divisor is read, and compared with zero, before the dividend.
    case Div => if |args| < 2 || args[1] == 0.0 then None else Some(args[0] / args[1])
    // Irrational in general: never folded.
    case Pow => None
    case Exp => None
    case Log => None
    case Sqrt => None
    case Fabs => if |args| < 1 then None else if args[0] < 0.0 then Some(-args[0]) else Some(args[0])
    case RealToPosit => if |args| < 1 then None else Some(args[0])
    case _ => None
  }

  /** Addition, subtraction and multiplication are exact on the first two operands. */
  lemma EvalRing(args: seq<real>)
    requires |args| >= 2
    ensures Eval(Add, args) == Some(args[0] + args[1])
    ensures Eval(Sub, args) == Some(args[0] - args[1])
    ensures Eval(Mul, args) == Some(args[0] * args[1])
  {
  }

  /** Folding a subtraction undoes an addition, and a division undoes a multiplication. */
  lemma EvalInverses(a: real, b: real)
    ensures Eval(Sub, [Eval(Add, [a, b]).value, b]) == Some(a)
    ensures b != 0.0 ==> Eval(Div, [Eval(Mul, [a, b]).value, b]) == Some(a)
  {
    EvalRing([a, b]);
    assert [a, b][0] * [a, b][1] == a * b;
    if b != 0.0 {
      assert (a * b) / b == a;
    }
  }

  /**
   * Division is exact: a folded quotient times the divisor gives back the
   * dividend, and a zero divisor never folds.
   */
  lemma EvalDivExact(args: seq<real>)
    ensures |args| >= 2 && args[1] == 0.0 ==> Eval(Div, args) == None
    ensures Eval(Div, args).Some? ==> Eval(Div, args).value * args[1] == args[0]
  {
  }

  /** `fabs` folds to the magnitude of its operand, which is never negative. */
  lemma EvalFabs(args: seq<real>)
    ensures args == [] ==> Eval(Fabs, args) == None
    ensures args != [] ==> Eval(Fabs, args) == Some(if args[0] < 0.0 then -args[0] else args[0])
    ensures Eval(Fabs, args).Some? ==> Eval(Fabs, args).value >= 0.0
  {
  }

  /** The conversion to a posit passes its operand through unchanged. */
  lemma EvalRealToPosit(args: seq<real>)
    ensures args != [] ==> Eval(RealToPosit, args) == Some(args[0])
  {
  }

  /**
   * Operands past the ones a tag reads are ignored: appending operands never
   * changes a successful fold, nor turns a fold that failed with enough
   * operands into a success.
   */
  lemma EvalIgnoresExtraOperands(op: Math, args: seq<real>, extra: seq<real>)
    requires IsFoldable(op) ==> FoldArity(op) <= |args|
    ensures Eval(op, args + extra) == Eval(op, args)
  {
    var s := args + extra;
    if IsFoldable(op) {
      assert s[0] == args[0];
      if FoldArity(op) == 2 {
        assert s[1] == args[1];
        EvalRing(s);
        EvalRing(args);
        assert s[0] * s[1] == args[0] * args[1];
      }
    }
  }

  /**
   * The exact rational a tree denotes, when every operator in it folds: a
   * constant leaf denotes its value, and an operator node the fold of its
   * children's values. Variables, named float constants and unfoldable
   * operators denote no rational.
   */
  function Value(e: Expr): Option<real>
    decreases e, 1
  {
    if e.op.Constant? then
      if e.children == [] then Some(e.op.c) else None
    else
      var vs :- Values(e.children);
      Eval(e.op, vs)
  }

  /** The values of a sequence of trees, when every one has a value. */
  function Values(es: seq<Expr>): (r: Option<seq<real>>)
    decreases es, 0
    ensures r.Some? <==> forall i :: 0 <= i < |es| ==> Value(es[i]).Some?
    ensures r.Some? ==> |r.value| == |es|
    ensures r.Some? ==> forall i :: 0 <= i < |es| ==> r.value[i] == Value(es[i]).value
  {
    if es == [] then Some([])
    else
      var v :- Value(es[0]);
      var vs :- Values(es[1..]);
      Some([v] + vs)
  }
}
