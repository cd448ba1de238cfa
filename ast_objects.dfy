/**
 * The syntax tree as objects, and the print visitor that walks it.
 *
 * A `Node` is built with a kind and a token and then given its children one
 * at a time; its ghost `tree` is the `Tree` value the object graph below it
 * denotes, and its ghost `Repr` is the set of nodes it owns. The
 * `PrintVisitor` collects, in `lines`, what each handler emits.
 */
module AstObjects {
  import opened AstTree
  import opened PrintSpec

  class Node {
    const kind: Kind
    const token: string
    var children: seq<Node>

    ghost var tree: Tree
    ghost var Repr: set<Node>

    /**
     * The object invariant: `tree` mirrors the kind, token and children, and
     * the children own disjoint parts of `Repr` that do not include this node,
     * so the nodes form a tree.
     */
    ghost predicate Valid()
      reads this, Repr
      decreases Repr
    {
      this in Repr &&
      tree.kind == kind && tree.token == token && |tree.children| == |children| &&
      (forall i :: 0 <= i < |children| ==>
        children[i] in Repr && children[i].Repr <= Repr && this !in children[i].Repr &&
        children[i].tree == tree.children[i] && children[i].Valid()) &&
      (forall i, j :: 0 <= i < j < |children| ==> children[i].Repr !! children[j].Repr)
    }

    /** A new node keeps the given kind and token and has no children. */
    constructor (kind: Kind, token: string)
      ensures Valid() && Repr == {this}
      ensures this.kind == kind && this.token == token && children == []
      ensures tree == Tree(kind, token, [])
    {
      this.kind := kind;
      this.token := token;
      children := [];
      tree := Tree(kind, token, []);
      Repr := {this};
    }

    /** Appends `node` as the last child; earlier children and the token stay as they were. */
    method AddChild(node: Node)
      requires Valid() && node.Valid() && Repr !! node.Repr
      modifies this
      ensures Valid()
      ensures children == old(children) + [node]
      ensures tree == Tree(kind, token, old(tree.children) + [node.tree])
      ensures Repr == old(Repr) + node.Repr
    {
      children := children + [node];
      tree := Tree(kind, token, tree.children + [node.tree]);
      Repr := Repr + node.Repr;
    }

    /** A child of a valid node is valid, owns strictly less and denotes the matching subtree. */
    lemma ChildValid(i: nat)
      requires Valid() && i < |children|
      ensures children[i].Valid() && children[i].Repr < Repr
      ensures children[i].tree == tree.children[i]
    {
    }

    /** Hands this node to the visitor's dispatch. */
    method Accept(visitor: PrintVisitor)
      requires Valid()
      modifies visitor
      ensures visitor.lines == old(visitor.lines) + PrintLines(tree)
      decreases Repr, 3
    {
      visitor.Visit(this);
    }
  }

  class PrintVisitor {
    /** Every line emitted so far, oldest first. */
    var lines: seq<string>

    constructor ()
      ensures lines == []
    {
      lines := [];
    }

    /** The type-test chain: run the one handler for the node's kind. */
    method Visit(node: Node)
      requires node.Valid()
      modifies this
      ensures lines == old(lines) + PrintLines(node.tree)
      decreases node.Repr, 2
    {
      match node.kind
      case BinaryExpression => VisitBinaryExpressionNode(node);
      case Integer => VisitIntegerNode(node);
      case UnaryExpression => VisitUnaryExpressionNode(node);
      case Identifier => VisitIdentifierNode(node);
      case StatementList => VisitStatementListNode(node);
    }

    /** Visits every child in order, so that `lines` grows by `ChildLines(node.tree, |node.children|)`. */
    method VisitChildren(node: Node)
      requires node.Valid()
      modifies this
      ensures lines == old(lines) + ChildLines(node.tree, |node.children|)
      decreases node.Repr, 0
    {
      ghost var t := node.tree;
      for i := 0 to |node.children|
        invariant lines == old(lines) + ChildLines(t, i)
      {
        var child := node.children[i];
        node.ChildValid(i);
        child.Accept(this);
      }
    }

    method VisitBinaryExpressionNode(node: Node)
      requires node.Valid()
      modifies this
      ensures lines == old(lines) + ChildLines(node.tree, |node.children|) + [node.token]
      decreases node.Repr, 1
    {
      VisitChildren(node);
      lines := lines + [node.token];
    }

    method VisitIntegerNode(node: Node)
      modifies this
      ensures lines == old(lines) + [node.token]
    {
      lines := lines + [node.token];
    }

    method VisitUnaryExpressionNode(node: Node)
      requires node.Valid()
      modifies this
      ensures lines == old(lines) + ChildLines(node.tree, |node.children|) + [node.token + UnarySuffix]
      decreases node.Repr, 1
    {
      VisitChildren(node);
      lines := lines + [node.token + UnarySuffix];
    }

    method VisitIdentifierNode(node: Node)
      modifies this
      ensures lines == old(lines) + [node.token]
    {
      lines := lines + [node.token];
    }

    method VisitStatementListNode(node: Node)
      requires node.Valid()
      modifies this
      ensures lines == old(lines) + ChildLines(node.tree, |node.children|) + [node.token]
      decreases node.Repr, 1
    {
      VisitChildren(node);
      lines := lines + [node.token];
    }
  }

  /** A binary expression node with children `left` and `right`, built as the driver builds one. */
  method NewBinary(token: string, left: Node, right: Node) returns (node: Node)
    requires left.Valid() && right.Valid() && left.Repr !! right.Repr
    ensures node.Valid() && fresh(node) && node.Repr == {node} + left.Repr + right.Repr
    ensures node.tree == Tree(BinaryExpression, token, [left.tree, right.tree])
  {
    node := new Node(BinaryExpression, token);
    node.AddChild(left);
    node.AddChild(right);
  }

  /** Builds the tree of `3 * 2 + 5` bottom-up and prints it. */
  method PrintThreeTimesTwoPlusFive() returns (lines: seq<string>)
    ensures lines == ["3", "2", "*", "5", "+"]
  {
    var operand1 := new Node(Integer, "3");
    var operand2 := new Node(Integer, "2");
    var operand3 := new Node(Integer, "5");

    var mult := NewBinary("*", operand1, operand2);
    var root := NewBinary("+", mult, operand3);
    assert root.tree == ThreeTimesTwoPlusFive();

    var visitor := new PrintVisitor();
    root.Accept(visitor);
    ExamplePrints();
    lines := visitor.lines;
  }
}
