/**
 * Concrete runs of the metadata protocol on small e-graphs, worked out by
 * the verifier from the definitions.
 */
module Scenarios {
  import opened Wrappers
  import opened MathLang
  import opened ConstEval
  import opened Metadata

  /** Metadata of an e-class whose best witness is the leaf `op`. */
  function LeafMeta(op: Math): (m: Meta)
    requires IsLeafTag(op)
    ensures Consistent(m) && m.best.children == []
  {
    Meta(0, Unit(op))
  }

  /** Exact folding on sample operands, including a zero divisor. */
  lemma EvalSamples(x: real)
    ensures Eval(Div, [1.0, 2.0]) == Some(0.5)
    ensures Eval(Div, [6.0, 3.0]) == Some(2.0)
    ensures Eval(Div, [x, 0.0]) == None
    ensures Eval(Fabs, [-0.75]) == Some(0.75)
    ensures Eval(Fabs, [2.0]) == Some(2.0)
    ensures Eval(Sqrt, [4.0]) == None
    ensures Eval(Add, [1.0]) == None
  {
  }

  /** `(+ 1 2)` folds to the constant 3 at cost 0. */
  lemma MakeAddFolds()
    ensures Make(Add, [LeafMeta(Constant(1.0)), LeafMeta(Constant(2.0))]) == Meta(0, Unit(Constant(3.0)))
  {
    MakeFolds(Add, [LeafMeta(Constant(1.0)), LeafMeta(Constant(2.0))], [1.0, 2.0]);
  }

  /** `(sqrt 4)` is not folded: it stays an operator node of cost 1. */
  lemma MakeSqrtComposes()
    ensures Make(Sqrt, [LeafMeta(Constant(4.0))]) == Meta(1, Node(Sqrt, [Unit(Constant(4.0))]))
  {
    var kids := [LeafMeta(Constant(4.0))];
    MakeComposes(Sqrt, kids);
    assert Bests(kids) == [Unit(Constant(4.0))];
    assert Costs(kids) == [0];
  }

  /**
   * `(/ 1 0)` is not folded, because the divisor is zero: it stays an
   * operator node of cost 1 over its two constant children.
   */
  lemma MakeDivByZeroComposes()
    ensures Make(Div, [LeafMeta(Constant(1.0)), LeafMeta(Constant(0.0))])
      == Meta(1, Node(Div, [Unit(Constant(1.0)), Unit(Constant(0.0))]))
  {
    var kids := [LeafMeta(Constant(1.0)), LeafMeta(Constant(0.0))];
    forall cs: seq<real> | |cs| == |kids| && (forall i :: 0 <= i < |kids| ==> kids[i].best.op == Constant(cs[i]))
      ensures Eval(Div, cs).None?
    {
      assert kids[1].best.op == Constant(cs[1]);
    }
    MakeComposes(Div, kids);
    assert Bests(kids) == [Unit(Constant(1.0)), Unit(Constant(0.0))];
    assert Costs(kids) == [0, 0];
  }

  /** `(+ 1)` is not folded, because its second operand is missing. */
  lemma MakeMissingOperandComposes()
    ensures Make(Add, [LeafMeta(Constant(1.0))]) == Meta(1, Node(Add, [Unit(Constant(1.0))]))
  {
    var kids := [LeafMeta(Constant(1.0))];
    MakeComposes(Add, kids);
    assert Bests(kids) == [Unit(Constant(1.0))];
    assert Costs(kids) == [0];
  }

  /**
   * The rule `+-lft-identity` equates `(+ 0 x)` with `x`. Whichever class is
   * merged into the other, the union's best witness is `x` at cost 0.
   */
  lemma MergeLeftIdentity()
    ensures var x := LeafMeta(Variable("x"));
      var sum := Make(Add, [LeafMeta(Constant(0.0)), x]);
      sum.cost == 1 && Merge(sum, x) == x && Merge(x, sum) == x
  {
    var x := LeafMeta(Variable("x"));
    var kids := [LeafMeta(Constant(0.0)), x];
    assert !kids[1].best.op.Constant?;
    MakeComposes(Add, kids);
    assert Costs(kids) == [0, 0];
  }

  /**
   * `modify` on the class formed by the union of `(+ 0 x)` with `x`: the
   * class already holds the node `x`, and `modify` appends it again.
   */
  method ModifyAfterUnion() returns (nodes: seq<ENode>)
    ensures nodes == [ENode(Add, [0, 1]), ENode(Variable("x"), []), ENode(Variable("x"), [])]
  {
    var x := LeafMeta(Variable("x"));
    var cls := new EClass([ENode(Add, [0, 1]), ENode(Variable("x"), [])], x);
    cls.Modify();
    nodes := cls.nodes;
  }
}
