/**
 * Double dispatch: a visitor offers one handler per node kind and the generic
 * `Visit` sends a node to the one handler named after the node's kind,
 * returning whatever that handler returns. The result type `R` is generic so
 * that visitors other than the printer can compute values.
 */
module Dispatch {
  import opened AstTree

  /** The names of the five per-kind operations of a visitor. */
  datatype Handler =
    | VisitBinaryExpressionNode
    | VisitIntegerNode
    | VisitUnaryExpressionNode
    | VisitIdentifierNode
    | VisitStatementListNode

  /** The routing table: which operation serves nodes of kind `k`. */
  function HandlerFor(k: Kind): Handler {
    match k
    case BinaryExpression => VisitBinaryExpressionNode
    case Integer => VisitIntegerNode
    case UnaryExpression => VisitUnaryExpressionNode
    case Identifier => VisitIdentifierNode
    case StatementList => VisitStatementListNode
  }

  /** The kind an operation is written for. */
  function KindServed(h: Handler): Kind {
    match h
    case VisitBinaryExpressionNode => BinaryExpression
    case VisitIntegerNode => Integer
    case VisitUnaryExpressionNode => UnaryExpression
    case VisitIdentifierNode => Identifier
    case VisitStatementListNode => StatementList
  }

  /** Routing is one-to-one and onto: each kind has its own handler and every handler serves a kind. */
  lemma RoutingIsBijective(k: Kind, h: Handler)
    ensures KindServed(HandlerFor(k)) == k
    ensures HandlerFor(KindServed(h)) == h
    ensures HandlerFor(k) == h <==> KindServed(h) == k
  {
  }

  /** A visitor: one operation per node kind, each returning an `R`. */
  datatype Visitor<R> = Visitor(
    binaryExpression: Tree -> R,
    integer: Tree -> R,
    unaryExpression: Tree -> R,
    identifier: Tree -> R,
    statementList: Tree -> R)
  {
    /** The operation called `h`. */
    function Operation(h: Handler): Tree -> R {
      match h
      case VisitBinaryExpressionNode => binaryExpression
      case VisitIntegerNode => integer
      case VisitUnaryExpressionNode => unaryExpression
      case VisitIdentifierNode => identifier
      case VisitStatementListNode => statementList
    }

    /** This visitor with the operation called `h` replaced by `f`. */
    function Replace(h: Handler, f: Tree -> R): (w: Visitor<R>)
      ensures w.Operation(h) == f
      ensures forall g :: g != h ==> w.Operation(g) == Operation(g)
    {
      match h
      case VisitBinaryExpressionNode => this.(binaryExpression := f)
      case VisitIntegerNode => this.(integer := f)
      case VisitUnaryExpressionNode => this.(unaryExpression := f)
      case VisitIdentifierNode => this.(identifier := f)
      case VisitStatementListNode => this.(statementList := f)
    }

    /**
     * The type-test chain: hand `n` to the operation for its kind. The
     * result is that of the operation the routing table names.
     */
    function Visit(n: Tree): (r: R)
      ensures r == Operation(HandlerFor(n.kind))(n)
    {
      match n.kind
      case BinaryExpression => binaryExpression(n)
      case Integer => integer(n)
      case UnaryExpression => unaryExpression(n)
      case Identifier => identifier(n)
      case StatementList => statementList(n)
    }
  }

  /** Whatever the routed operation is, visiting returns exactly its result. */
  lemma VisitReturnsHandlerResult<R>(v: Visitor<R>, n: Tree, f: Tree -> R)
    ensures v.Replace(HandlerFor(n.kind), f).Visit(n) == f(n)
  {
  }

  /** No other operation takes part: replacing any handler but the routed one leaves the result alone. */
  lemma VisitIgnoresOtherHandlers<R>(v: Visitor<R>, n: Tree, h: Handler, f: Tree -> R)
    requires h != HandlerFor(n.kind)
    ensures v.Replace(h, f).Visit(n) == v.Visit(n)
  {
  }
}
