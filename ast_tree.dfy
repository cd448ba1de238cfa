/**
 * The abstract syntax tree as a value.
 *
 * The five concrete node classes become the five constructors of `Kind`; a
 * node's token and ordered children are the two fields every node class
 * inherits from the abstract node. A `Tree` is what a finished object graph
 * of nodes denotes (see module AstObjects, whose `Node` keeps one up to date).
 */
module AstTree {

  /** The five node classes, in the order the visitor's dispatch tests them. */
  datatype Kind = BinaryExpression | Integer | UnaryExpression | Identifier | StatementList

  /** A node: its kind, its immutable token and its ordered children. */
  datatype Tree = Tree(kind: Kind, token: string, children: seq<Tree>)

  /** Integer literals and identifiers are the leaf kinds. */
  predicate IsLeaf(k: Kind) {
    k == Integer || k == Identifier
  }

  /** The number of nodes in `t`, counting every node of every subtree. */
  function Size(t: Tree): nat
    decreases t, |t.children| + 1
  {
    1 + ChildrenSize(t, |t.children|)
  }

  /** The number of nodes in the first `n` subtrees of `t`. */
  function ChildrenSize(t: Tree, n: nat): nat
    requires n <= |t.children|
    decreases t, n
  {
    if n == 0 then 0 else ChildrenSize(t, n - 1) + Size(t.children[n - 1])
  }

  /**
   * The arity discipline the node classes leave to their callers: no node of
   * a leaf kind has children, anywhere in the tree.
   */
  predicate WellFormed(t: Tree) {
    (IsLeaf(t.kind) ==> t.children == []) &&
    forall i :: 0 <= i < |t.children| ==> WellFormed(t.children[i])
  }
}
