# egg-math e-class metadata, modelled in Dafny

This project models the metadata analysis that egg-math attaches to every
e-class of its equality-saturation e-graph (`egg-math/src/eggmath.rs`). The
analysis records, for each e-class, the cheapest expression known to be equal
to it and that expression's cost. It also folds constant sub-expressions
exactly, over arbitrary-precision rationals. It has four parts, one Dafny
module each:

- `MathLang` (`math_lang.dfy`): the operator vocabulary. The `FPConstant` and
  `Math` tag enumerations, the canonical name of every tag, and expression
  trees `Node(op, children)`. It also holds a separate name-to-tag table,
  `TagOfName`, used to prove that no two tags share a name.
- `CostModel` (`cost.dfy`): `Language::cost`. Leaves cost 0, any other tag
  costs 1, and a node adds the costs of its children. `TreeCost` applies this
  bottom-up to a whole tree. The cost of a tree is proved to be the number of
  its operator (non-leaf) nodes.
- `ConstEval` (`eval.dfy`): `eval`, a partial function over exact rationals
  (`BigRational` becomes Dafny's `real`). `Value` is the rational a whole tree
  denotes when every operator in it folds. It is the reference semantics
  against which folding is proved exact.
- `Metadata` (`metadata.dfy`): `Meta { cost, best }` and the three protocol
  operations `merge`, `make` and `modify`. `merge` and `make` are functions.
  `modify` is a method on an `EClass` object that appends to the class's
  node list in place.

`scenarios.dfy` works through these concrete cases:
- folding `(+ 1 2)`;
- not folding `(sqrt 4)`, `(/ 1 0)` or `(+ 1)`;
- the `+-lft-identity` union of `(+ 0 x)` with `x`;
- `modify` on that class.

The model follows the code where the code is narrower than the protocol's
intent:
- `modify` appends the leaf node every time it runs. It does not check
  whether an equal node is already in the class. So on the node list it is
  not idempotent. `ModifyTwice` proves the weaker fact that holds: the set of
  nodes is the same after one call as after two.
- `modify` tests whether the best witness has no children. It does not test
  whether the tag is a leaf tag.
- Cost is not strictly increasing in subtree size, because leaves cost 0. What
  holds is that cost equals the number of operator nodes
  (`TreeCostCountsOperators`), and that every child of an operator node is
  strictly cheaper than the node (`ChildCheaperThanOperator`).
- The vocabulary has no `neg`, `not`, `and`, `or`, `if` or comparison tags.
  Rules that use them are not part of this model.

## Model

| member | source | states |
|---|---|---|
| `MathLang.TagName` | egg-math/src/eggmath.rs:38-114 | Every tag except `Constant` and `Variable` has a canonical name. A float-constant tag is named by its constant's name. |
| `MathLang.NameRoundTripFPConstant` | egg-math/src/eggmath.rs:15-33 | Looking up the name of each named float constant gives back that constant. |
| `MathLang.NameRoundTripComplex` | egg-math/src/eggmath.rs:44-52 | Looking up the name of each complex-number tag gives back that tag. |
| `MathLang.NameRoundTripSpecial` | egg-math/src/eggmath.rs:56-70 | Looking up the name of each rounding, remainder or special-function tag gives back that tag. |
| `MathLang.NameRoundTripArith` | egg-math/src/eggmath.rs:74-84 | Looking up the name of each arithmetic, power, exponential, logarithm or root tag gives back that tag. |
| `MathLang.NameRoundTripTrig` | egg-math/src/eggmath.rs:85-97 | Looking up the name of each trigonometric or hyperbolic tag gives back that tag. |
| `MathLang.NameRoundTripPosit` | egg-math/src/eggmath.rs:99-110 | Looking up the name of each remaining elementary tag or posit tag gives back that tag. |
| `MathLang.TagNameRoundTrip` | egg-math/src/eggmath.rs:38-114 | Every tag with a fixed name is found again from that name. |
| `MathLang.TagNamesDistinct` | egg-math/src/eggmath.rs:13-114 | Canonical names are pairwise distinct across all `Math` and `FPConstant` tags: two tags with the same name are the same tag. |
| `MathLang.FPConstantNamesDistinct` | egg-math/src/eggmath.rs:15-33 | The seventeen float-constant names are pairwise distinct (`PI`, `PI_2`, `2_PI`, ...). |
| `CostModel.SumBound` | egg-math/src/eggmath.rs:123 | Each child cost is at most the sum of the child costs. |
| `CostModel.SumBoundAll` | egg-math/src/eggmath.rs:123 | Every child cost is at most the sum of the child costs. |
| `CostModel.NodeCost` | egg-math/src/eggmath.rs:117-124 | A leaf tag with no children costs 0. Any other tag costs at least 1, and at least one more than each of its children. |
| `CostModel.TreeCostCountsOperators` | egg-math/src/eggmath.rs:117-124 | The cost of a tree equals the number of its nodes whose tag is not a leaf tag. |
| `CostModel.ChildCostsCountOperators` | egg-math/src/eggmath.rs:123 | The summed child costs equal the number of operator nodes among the children's trees. |
| `CostModel.ZeroCostIffAllLeaves` | egg-math/src/eggmath.rs:118-121 | A tree costs 0 exactly when every tag in it is `Constant`, `Variable` or a float constant. |
| `CostModel.ChildCheaperThanOperator` | egg-math/src/eggmath.rs:117-124 | An operator node costs at least 1 and strictly more than each of its subtrees. |
| `ConstEval.Eval` | egg-math/src/eggmath.rs:133-187 | A fold succeeds exactly when the tag is one of `+ - * / fabs real->posit`, enough operands are present, and no divisor is zero. Every other tag gives `None`, whatever the operands. |
| `ConstEval.EvalRing` | egg-math/src/eggmath.rs:136-138 | `+`, `-` and `*` give exactly `a0+a1`, `a0-a1` and `a0*a1`. |
| `ConstEval.EvalInverses` | egg-math/src/eggmath.rs:136-144 | A folded subtraction undoes a folded addition. A folded division by a non-zero divisor undoes a folded multiplication. |
| `ConstEval.EvalDivExact` | egg-math/src/eggmath.rs:139-145 | A zero divisor gives `None`. A folded quotient times the divisor gives back the dividend. |
| `ConstEval.EvalFabs` | egg-math/src/eggmath.rs:177-183 | `fabs` gives `-a0` when `a0 < 0` and `a0` otherwise, never a negative value, and `None` when there is no operand. |
| `ConstEval.EvalRealToPosit` | egg-math/src/eggmath.rs:184 | `real->posit` passes its first operand through unchanged. |
| `ConstEval.EvalIgnoresExtraOperands` | egg-math/src/eggmath.rs:134-145 | Only the leading operands a tag reads matter. Appending operands never changes the result once enough are present. |
| `Metadata.Merge` | egg-math/src/eggmath.rs:191-197 | The result is one of the two inputs. Its cost is the minimum of the two costs. On a tie it is the first input. |
| `Metadata.MergeIdempotent` | egg-math/src/eggmath.rs:191-197 | Merging metadata with itself gives it back. |
| `Metadata.MergeCostCommutes` | egg-math/src/eggmath.rs:191-197 | The merged cost does not depend on operand order. The merged metadata depends on order only on a tie. |
| `Metadata.MergeAssociative` | egg-math/src/eggmath.rs:191-197 | Merges can be grouped either way with the same result. |
| `Metadata.MergeAll` | egg-math/src/eggmath.rs:191-197 | A chain of merges, left to right, yields one of its inputs. The result costs no more than any input, and is the first input when nothing after it is cheaper. |
| `Metadata.MergeConsistent` | egg-math/src/eggmath.rs:191-197 | Merging keeps the invariant that `cost` is the tree cost of `best`. |
| `Metadata.ConstArgs` | egg-math/src/eggmath.rs:201-208 | The children's constants are collected exactly when every child's best witness is rooted at a `Constant`. They are then the constants at those roots, in order. |
| `Metadata.Make` | egg-math/src/eggmath.rs:199-221 | The result never costs more than composing the node. Its best witness is either rooted at the node's tag, or a childless constant at cost 0. |
| `Metadata.MakeFolds` | egg-math/src/eggmath.rs:200-220 | When every child's best witness is a constant and `eval` folds those constants to `c`, the result is `best = Constant(c)` with cost 0. |
| `Metadata.MakeComposes` | egg-math/src/eggmath.rs:200-220 | Whenever `eval` does not fold the children's constants, the result is the node over the children's best witnesses, costed from the children's costs. This covers a child whose best witness is not a constant, a tag that never folds, a missing operand and a zero divisor. Together with `MakeFolds` it covers every input. |
| `Metadata.MakeConsistent` | egg-math/src/eggmath.rs:216-220 | If every child's cost is the tree cost of its best witness, the same holds for the result. |
| `Metadata.MakeFoldIsCheaper` | egg-math/src/eggmath.rs:210-219 | A folded result costs 0, which is strictly less than the composed node would cost. |
| `Metadata.MakePreservesValue` | egg-math/src/eggmath.rs:199-221 | Folding is exact. The result's best witness denotes the same rational as the node composed from the children's best witnesses, or neither denotes one. |
| `Metadata.MakeWellFormed` | egg-math/src/eggmath.rs:212-216 | Leaf tags stay childless in the result when they are childless in the children. |
| `Metadata.ModifyBounded` | egg-math/src/eggmath.rs:223-230 | The old nodes are kept in place. At most one node is added, and an added node is the childless form of the best witness's root. |
| `Metadata.ModifyHoldsLeaf` | egg-math/src/eggmath.rs:226-229 | A childless best witness is present among the nodes afterwards. Otherwise the nodes are unchanged. |
| `Metadata.ModifyTwice` | egg-math/src/eggmath.rs:227-228 | A second call leaves the same set of nodes as one call, although it appends the leaf again. |
| `Metadata.EClass.Modify` | egg-math/src/eggmath.rs:223-230 | Only the node list changes, and it becomes `ModifiedNodes` of the old list and metadata. The metadata is unchanged. |
| `Scenarios.EvalSamples` | egg-math/src/eggmath.rs:133-187 | Sample results: `1/2`, `6/3 = 2`, `x/0` gives `None`, `fabs(-3/4) = 3/4`, `fabs(2) = 2`, `sqrt(4)` gives `None`, and `+` with one operand gives `None`. |
| `Scenarios.MakeAddFolds` | egg-math/src/eggmath.rs:199-221 | `make` on `(+ 1 2)` gives best `3` at cost 0. |
| `Scenarios.MakeSqrtComposes` | egg-math/src/eggmath.rs:146-163 | `make` on `(sqrt 4)` gives best `(sqrt 4)` at cost 1. |
| `Scenarios.MakeDivByZeroComposes` | egg-math/src/eggmath.rs:139-145 | `make` on `(/ 1 0)` does not fold. It gives best `(/ 1 0)` at cost 1. |
| `Scenarios.MakeMissingOperandComposes` | egg-math/src/eggmath.rs:134-136 | `make` on `(+ 1)` does not fold, because an operand is missing. It gives best `(+ 1)` at cost 1. |
| `Scenarios.MergeLeftIdentity` | src/rules.rs:377 | `(+ 0 x)` costs 1. Merged with `x` in either order, it gives best `x` at cost 0. |
| `Scenarios.ModifyAfterUnion` | egg-math/src/eggmath.rs:223-230 | `modify` on the union of `(+ 0 x)` and `x`, whose best witness is `x`, appends the leaf `x` although the class already holds it. |

## Left out

- `CostModel.NodeCost`: costs are unbounded naturals. The `u64` overflow of the summed child costs (eggmath.rs:123) is not modelled.
- The egg e-graph itself is not part of this model: hash-consing, union-find, rebuilding, and when `make`, `merge` and `modify` are called. An e-class is modelled only as its node list and its metadata. An e-node's children are plain natural-number class ids.
- The string parsing and `Display` code generated by `define_term!` are not modelled. `TagOfName` is a plain table from fixed names to tags. It does not parse numerals into `Constant` or identifiers into `Variable`.
- `RecExpr`'s flat-array representation is replaced by the recursive `Expr` datatype.
- The commented-out floating-point folding for `sqrt` and `cbrt` is dead code and is not modelled. The live behaviour, `None`, is.
- The declarative rule table in `src/rules.rs` and its duplicate-group-name panic are not modelled. One rule, `+-lft-identity`, is used as a scenario.
- `Value` is a model-side reference semantics, used only to state that folding is exact. Variables, named float constants and operators that never fold denote no rational in it.
