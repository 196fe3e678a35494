/**
 * The e-class metadata analysis (`impl Metadata<Math> for Meta`, eggmath.rs):
 * each e-class carries the cheapest expression known to be equal to it and
 * that expression's cost. The hosting e-graph calls `make` when it inserts an
 * e-node, `merge` when it unions two e-classes, and `modify` afterwards.
 */
module Metadata {
  import opened Wrappers
  import opened MathLang
  import opened CostModel
  import opened ConstEval

  /** The metadata of one e-class: its best known witness and its cost. */
  datatype Meta = Meta(cost: nat, best: Expr)

  /** The invariant the protocol keeps: `cost` is the cost of `best`. */
  predicate Consistent(m: Meta) {
    m.cost == TreeCost(m.best)
  }

  /*** merge ***/

  /**
   * Union of two e-classes keeps the cheaper metadata; on a tie it keeps the
   * first (the metadata of the class merged into).
   */
  function Merge(a: Meta, b: Meta): (m: Meta)
    ensures m == a || m == b
    ensures m.cost <= a.cost && m.cost <= b.cost
    ensures m.cost == a.cost ==> m == a
  {
    if a.cost <= b.cost then a else b
  }

  /** Merging a class with itself changes nothing. */
  lemma MergeIdempotent(a: Meta)
    ensures Merge(a, a) == a
  {
  }

  /** The merged cost does not depend on the order of the two sides. */
  lemma MergeCostCommutes(a: Meta, b: Meta)
    ensures Merge(a, b).cost == Merge(b, a).cost
    ensures a.cost != b.cost ==> Merge(a, b) == Merge(b, a)
  {
  }

  /**
   * Merges may be grouped either way: both keep the leftmost metadata of
   * least cost, so a sequence of unions has one outcome.
   */
  lemma MergeAssociative(a: Meta, b: Meta, c: Meta)
    ensures Merge(Merge(a, b), c) == Merge(a, Merge(b, c))
  {
  }

  /**
   * A chain of unions merged left to right: the outcome is one of the
   * inputs, costs no more than any of them, and is the first metadata when
   * nothing after it is cheaper.
   */
  function MergeAll(first: Meta, rest: seq<Meta>): (m: Meta)
    decreases |rest|
    ensures m == first || m in rest
    ensures m.cost <= first.cost
    ensures forall i :: 0 <= i < |rest| ==> m.cost <= rest[i].cost
    ensures (forall i :: 0 <= i < |rest| ==> first.cost <= rest[i].cost) ==> m == first
  {
    if rest == [] then first else MergeAll(Merge(first, rest[0]), rest[1..])
  }

  /** Merging keeps the invariant. */
  lemma MergeConsistent(a: Meta, b: Meta)
    requires Consistent(a) && Consistent(b)
    ensures Consistent(Merge(a, b))
  {
  }

  /*** make ***/

  /** The best witnesses of the children, in order. */
  function Bests(kids: seq<Meta>): (r: seq<Expr>)
    ensures |r| == |kids|
    ensures forall i :: 0 <= i < |kids| ==> r[i] == kids[i].best
  {
    seq(|kids|, i requires 0 <= i < |kids| => kids[i].best)
  }

  /** The costs of the children, in order. */
  function Costs(kids: seq<Meta>): (r: seq<nat>)
    ensures |r| == |kids|
    ensures forall i :: 0 <= i < |kids| ==> r[i] == kids[i].cost
  {
    seq(|kids|, i requires 0 <= i < |kids| => kids[i].cost)
  }

  /**
   * The constant values at the roots of the children's best witnesses, when
   * every one of them is rooted at a `Constant`.
   */
  function ConstArgs(kids: seq<Meta>): (r: Option<seq<real>>)
    ensures r.Some? <==> forall i :: 0 <= i < |kids| ==> kids[i].best.op.Constant?
    ensures r.Some? ==> |r.value| == |kids|
    ensures r.Some? ==> forall i :: 0 <= i < |kids| ==> r.value[i] == kids[i].best.op.c
  {
    if kids == [] then Some([])
    else
      match kids[0].best.op
      case Constant(c) =>
        var rest :- ConstArgs(kids[1..]);
        Some([c] + rest)
      case _ => None
  }

  /** The folded value of a node over its children, if the node folds. */
  function Fold(op: Math, kids: seq<Meta>): Option<real> {
    match ConstArgs(kids)
    case Some(cs) => Eval(op, cs)
    case None => None
  }

  /**
   * Metadata of a freshly inserted e-node: a constant leaf when the node folds,
   * otherwise the node applied to its children's best witnesses, costed from
   * the children's costs.
   */
  function Make(op: Math, kids: seq<Meta>): (m: Meta)
    ensures m.cost <= NodeCost(op, Costs(kids))
    ensures m.best.op == op || (m.best.op.Constant? && m.best.children == [] && m.cost == 0)
  {
    match Fold(op, kids)
    case Some(c) => Meta(NodeCost(Constant(c), []), Unit(Constant(c)))
    case None => Meta(NodeCost(op, Costs(kids)), Node(op, Bests(kids)))
  }

  /**
   * When every child's best witness is a constant and the evaluator folds the
   * node over those constants, the result is that constant, at cost 0.
   */
  lemma MakeFolds(op: Math, kids: seq<Meta>, cs: seq<real>)
    requires |cs| == |kids|
    requires forall i :: 0 <= i < |kids| ==> kids[i].best.op == Constant(cs[i])
    requires Eval(op, cs).Some?
    ensures Make(op, kids) == Meta(0, Node(Constant(Eval(op, cs).value), []))
  {
    assert ConstArgs(kids).value == cs;
  }

  /**
   * Otherwise (a child whose best witness is not rooted at a constant, or an
   * evaluator that declines the children's constants: a tag it never folds, a
   * missing operand or a zero divisor) the node is composed from the
   * children's best witnesses and costed by the cost model.
   */
  lemma MakeComposes(op: Math, kids: seq<Meta>)
    requires forall cs: seq<real> ::
      |cs| == |kids| && (forall i :: 0 <= i < |kids| ==> kids[i].best.op == Constant(cs[i])) ==>
      Eval(op, cs).None?
    ensures Make(op, kids) == Meta(NodeCost(op, Costs(kids)), Node(op, Bests(kids)))
  {
    if ConstArgs(kids).Some? {
      var cs := ConstArgs(kids).value;
      assert forall i :: 0 <= i < |kids| ==> kids[i].best.op == Constant(cs[i]);
    }
  }

  /** Children whose metadata is consistent give consistent metadata. */
  lemma MakeConsistent(op: Math, kids: seq<Meta>)
    requires forall i :: 0 <= i < |kids| ==> Consistent(kids[i])
    ensures Consistent(Make(op, kids))
  {
    if Fold(op, kids).None? {
      assert ChildTreeCosts(Bests(kids)) == Costs(kids);
    }
  }

  /**
   * Folding is strictly cheaper than composing an operator node, so the cost
   * of a folded node needs no comparison with the structural alternative.
   */
  lemma MakeFoldIsCheaper(op: Math, kids: seq<Meta>)
    requires Fold(op, kids).Some?
    ensures Make(op, kids).cost == 0 < NodeCost(op, Costs(kids))
  {
  }

  /**
   * Folding is exact: whenever the composed node denotes a rational, the
   * result of `make` denotes the same rational, and the other way round.
   */
  lemma MakePreservesValue(op: Math, kids: seq<Meta>)
    requires forall i :: 0 <= i < |kids| ==> WellFormed(kids[i].best)
    ensures Value(Make(op, kids).best) == Value(Node(op, Bests(kids)))
  {
    var bests := Bests(kids);
    if Fold(op, kids).Some? {
      var cs := ConstArgs(kids).value;
      forall i | 0 <= i < |bests|
        ensures Value(bests[i]) == Some(cs[i])
      {
        assert bests[i].op == Constant(cs[i]);
        assert WellFormed(bests[i]);
      }
      assert Values(bests).value == cs;
    }
  }

  /** `make` yields a well-formed witness when the node and its children are well formed. */
  lemma MakeWellFormed(op: Math, kids: seq<Meta>)
    requires IsLeafTag(op) ==> kids == []
    requires forall i :: 0 <= i < |kids| ==> WellFormed(kids[i].best)
    ensures WellFormed(Make(op, kids).best)
  {
  }

  /*** modify ***/

  /** The identifier of an e-class, owned by the e-graph. */
  type Id = nat

  /** An e-node: a tag applied to child e-classes. */
  datatype ENode = ENode(op: Math, children: seq<Id>)

  /**
   * The node list after `modify`: when the best witness is childless, one
   * childless e-node with the witness's tag is appended. Nothing checks
   * whether an equal node is already present.
   */
  function ModifiedNodes(nodes: seq<ENode>, meta: Meta): seq<ENode> {
    if meta.best.children == [] then nodes + [ENode(meta.best.op, [])] else nodes
  }

  /**
   * `modify` makes a bounded change: the old nodes stay in place, at most one
   * node is added, and an added node is the childless form of the best witness.
   */
  lemma ModifyBounded(nodes: seq<ENode>, meta: Meta)
    ensures |nodes| <= |ModifiedNodes(nodes, meta)| <= |nodes| + 1
    ensures ModifiedNodes(nodes, meta)[..|nodes|] == nodes
    ensures forall k :: |nodes| <= k < |ModifiedNodes(nodes, meta)| ==>
      ModifiedNodes(nodes, meta)[k] == ENode(meta.best.op, []) && meta.best.children == []
  {
  }

  /** After `modify`, a class whose best witness is a leaf holds that leaf as a node. */
  lemma ModifyHoldsLeaf(nodes: seq<ENode>, meta: Meta)
    ensures meta.best.children == [] ==> ENode(meta.best.op, []) in ModifiedNodes(nodes, meta)
    ensures meta.best.children != [] ==> ModifiedNodes(nodes, meta) == nodes
  {
  }

  /**
   * Running `modify` twice leaves the same set of nodes as running it once,
   * although a leaf-valued class gets the same node appended a second time.
   */
  lemma ModifyTwice(nodes: seq<ENode>, meta: Meta)
    ensures var once := ModifiedNodes(nodes, meta);
      (set n | n in ModifiedNodes(once, meta)) == (set n | n in once)
    ensures meta.best.children == [] ==> |ModifiedNodes(ModifiedNodes(nodes, meta), meta)| == |nodes| + 2
  {
  }

  /** An e-class as `modify` sees it: its node list and its metadata. */
  class EClass {
    var nodes: seq<ENode>
    var metadata: Meta

    constructor (nodes: seq<ENode>, metadata: Meta)
      ensures this.nodes == nodes && this.metadata == metadata
    {
      this.nodes := nodes;
      this.metadata := metadata;
    }

    /** `modify`: when the best witness is childless, push its root as an e-node. */
    method Modify()
      modifies this`nodes
      ensures nodes == ModifiedNodes(old(nodes), old(metadata))
      ensures metadata == old(metadata)
    {
      var best := metadata.best;
      if best.children == [] {
        nodes := nodes + [ENode(best.op, [])];
      }
    }
  }
}
