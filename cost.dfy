/**
 * The structural cost model of `Language::cost` for `Math` (eggmath.rs):
 * leaves cost nothing, every other tag costs one, and a node adds up the
 * costs of its children. Costs are unbounded naturals here.
 */
module CostModel {
  import opened MathLang

  /** The sum of a sequence of costs. */
  function Sum(xs: seq<nat>): nat {
    if xs == [] then 0 else xs[0] + Sum(xs[1..])
  }

  /** Each summand is bounded by the sum. */
  lemma {:induction false} SumBound(xs: seq<nat>, i: nat)
    requires i < |xs|
    ensures xs[i] <= Sum(xs)
  {
    if i > 0 {
      SumBound(xs[1..], i - 1);
    }
  }

  /** Every summand is bounded by the sum. */
  lemma SumBoundAll(xs: seq<nat>)
    ensures forall i :: 0 <= i < |xs| ==> xs[i] <= Sum(xs)
  {
    forall i | 0 <= i < |xs|
      ensures xs[i] <= Sum(xs)
    {
      SumBound(xs, i);
    }
  }

  /**
   * The cost of a tag applied to children of the given costs. A leaf with no
   * children costs 0; any other tag costs at least 1, and at least one more
   * than each of its children.
   */
  function NodeCost(op: Math, childCosts: seq<nat>): (r: nat)
    ensures IsLeafTag(op) && childCosts == [] ==> r == 0
    ensures !IsLeafTag(op) ==> r >= 1
    ensures forall i :: 0 <= i < |childCosts| ==>
      childCosts[i] + (if IsLeafTag(op) then 0 else 1) <= r
  {
    SumBoundAll(childCosts);
    (if IsLeafTag(op) then 0 else 1) + Sum(childCosts)
  }

  /** The cost of a whole expression tree, computed bottom-up. */
  function TreeCost(e: Expr): nat
    decreases e, 1
  {
    NodeCost(e.op, ChildTreeCosts(e.children))
  }

  /** The tree costs of a sequence of expressions, in order. */
  function ChildTreeCosts(es: seq<Expr>): (r: seq<nat>)
    decreases es, 0
    ensures |r| == |es|
    ensures forall i :: 0 <= i < |es| ==> r[i] == TreeCost(es[i])
  {
    if es == [] then [] else [TreeCost(es[0])] + ChildTreeCosts(es[1..])
  }

  /** The operator tags of a tree, in pre-order. */
  function Ops(e: Expr): seq<Math>
    decreases e, 1
  {
    [e.op] + OpsAll(e.children)
  }

  /** The operator tags of a sequence of trees, in pre-order. */
  function OpsAll(es: seq<Expr>): seq<Math>
    decreases es, 0
  {
    if es == [] then [] else Ops(es[0]) + OpsAll(es[1..])
  }

  /** How many tags of a sequence are not leaf tags. */
  function CountOperators(ops: seq<Math>): nat {
    if ops == [] then 0 else (if IsLeafTag(ops[0]) then 0 else 1) + CountOperators(ops[1..])
  }

  lemma {:induction false} CountOperatorsAppend(a: seq<Math>, b: seq<Math>)
    ensures CountOperators(a + b) == CountOperators(a) + CountOperators(b)
  {
    if a != [] {
      assert (a + b)[1..] == a[1..] + b;
      CountOperatorsAppend(a[1..], b);
    } else {
      assert a + b == b;
    }
  }

  /**
   * The cost of a tree is exactly the number of its operator (non-leaf)
   * nodes: cost ranks witnesses by how many operations they apply.
   */
  lemma {:induction false} TreeCostCountsOperators(e: Expr)
    decreases e, 1
    ensures TreeCost(e) == CountOperators(Ops(e))
  {
    ChildCostsCountOperators(e.children);
    CountOperatorsAppend([e.op], OpsAll(e.children));
  }

  lemma {:induction false} ChildCostsCountOperators(es: seq<Expr>)
    decreases es, 0
    ensures Sum(ChildTreeCosts(es)) == CountOperators(OpsAll(es))
  {
    if es != [] {
      TreeCostCountsOperators(es[0]);
      ChildCostsCountOperators(es[1..]);
      CountOperatorsAppend(Ops(es[0]), OpsAll(es[1..]));
    }
  }

  /** A tree costs 0 exactly when every tag in it is a leaf tag. */
  lemma ZeroCostIffAllLeaves(e: Expr)
    ensures TreeCost(e) == 0 <==> forall k :: 0 <= k < |Ops(e)| ==> IsLeafTag(Ops(e)[k])
  {
    TreeCostCountsOperators(e);
    CountOperatorsZero(Ops(e));
  }

  lemma {:induction false} CountOperatorsZero(ops: seq<Math>)
    ensures CountOperators(ops) == 0 <==> forall k :: 0 <= k < |ops| ==> IsLeafTag(ops[k])
  {
    if ops != [] {
      CountOperatorsZero(ops[1..]);
      assert forall k :: 1 <= k < |ops| ==> ops[k] == ops[1..][k - 1];
    }
  }

  /**
   * Every subtree of an operator node is strictly cheaper than the node:
   * replacing an operator node by a constant leaf always lowers the cost.
   */
  lemma ChildCheaperThanOperator(e: Expr, i: nat)
    requires !IsLeafTag(e.op)
    requires i < |e.children|
    ensures TreeCost(e.children[i]) < TreeCost(e)
    ensures TreeCost(e) >= 1
  {
  }
}
