# AST and visitor of the toy interpreter, in Dafny

This project models the abstract syntax tree and the visitor pattern of a small
teaching interpreter (`chap04-symbol-table/01-variables/ast.py`). Five kinds of node are
modelled: binary expression, integer, unary expression, identifier and statement list.
Each node carries an immutable token and an ordered list of children, and children are
appended one at a time. A visitor has one handler per kind, and the generic `visit` hands
a node to the handler for its kind. The print visitor walks the tree in post-order. It
emits one line per node it visits: the node's token, with ` (Unary)` appended for unary
expressions. Integer and identifier nodes never descend, so children given to them are
not visited; when no node of those two kinds has children, every node is visited and
there is one line per node (`LineCountIsSize`).

The model has two layers.

- **Values** (`ast_tree.dfy`, `dispatch.dfy`, `print_spec.dfy`). `AstTree.Tree` is the
  tree a finished node graph denotes. `Dispatch.Visitor<R>` is a record of the five
  handlers, and `Visit` is the kind test that picks one of them. `PrintSpec.PrintLines`
  is exactly what the print visitor emits. The post-order guarantees are proved about it.
  Nodes are addressed by paths, which are sequences of child indices. `Pos` gives the
  index of a node's line in the output, and it is shown to be a bijection between the
  visited nodes and the output lines. A descendant's line comes before its ancestor's,
  and a subtree's lines form one contiguous block.
- **Objects** (`ast_objects.dfy`). `Node` is a class with `const kind`, `const token`
  and a `children: seq<Node>` field that `AddChild` extends in place. A ghost `tree`
  holds the denoted value and a ghost `Repr` holds the owned nodes, as in
  dynamic-frame style. `PrintVisitor` collects the emitted lines in `lines`. Its five
  handlers, `Visit` and `Node.Accept` are mutually recursive methods, as in the Python.
  The three non-leaf handlers visit the children with a `for` loop. `Visit`, `Accept`
  and the children loop are proved against `PrintLines` and `ChildLines`. The three
  non-leaf handlers are proved against `ChildLines` followed by their own line. The two
  leaf handlers are proved against `[node.token]` for any node.

Output to stdout is modelled as appending to `PrintVisitor.lines`.

## Model

| member | source | states |
|---|---|---|
| `AstObjects.Node.constructor` | chap04-symbol-table/01-variables/ast.py:19-21 | a new node has the given kind and token, no children, and owns only itself |
| `AstObjects.Node.AddChild` | chap04-symbol-table/01-variables/ast.py:23-24 | children become the old children followed by the new one (so earlier children keep their positions and the count grows by one); the denoted tree gains the child's tree as its last subtree; kind and token are constants; the tree invariant is kept |
| `AstObjects.Node.Accept` | chap04-symbol-table/01-variables/ast.py:67-97 | accepting a visitor has exactly the effect of the visitor's `Visit` on the node: it appends the node's post-order print |
| `AstObjects.PrintVisitor.constructor` | chap04-symbol-table/01-variables/ast.py:102 | a new print visitor has emitted nothing |
| `AstObjects.PrintVisitor.Visit` | chap04-symbol-table/01-variables/ast.py:32-42 | the kind test runs the handler for the node's kind, and the whole effect is appending `PrintLines` of the node's tree |
| `AstObjects.PrintVisitor.VisitChildren` | chap04-symbol-table/01-variables/ast.py:104-105 | the loop over the children appends, child by child in order, what printing each child emits |
| `AstObjects.PrintVisitor.VisitBinaryExpressionNode` | chap04-symbol-table/01-variables/ast.py:103-106 | appends the children's output, in order, then the token |
| `AstObjects.PrintVisitor.VisitIntegerNode` | chap04-symbol-table/01-variables/ast.py:108-109 | appends exactly the token, for any node, whatever its children |
| `AstObjects.PrintVisitor.VisitUnaryExpressionNode` | chap04-symbol-table/01-variables/ast.py:111-114 | appends the children's output, in order, then the token followed by " (Unary)" |
| `AstObjects.PrintVisitor.VisitIdentifierNode` | chap04-symbol-table/01-variables/ast.py:116-117 | appends exactly the token, for any node, whatever its children |
| `AstObjects.PrintVisitor.VisitStatementListNode` | chap04-symbol-table/01-variables/ast.py:119-122 | appends the children's output, in order, then the token (so an empty list emits only its token) |
| `AstObjects.NewBinary` | chap04-symbol-table/01-variables/ast.py:133-140 | a fresh binary-expression node given two disjoint valid children in order denotes the binary tree over their trees |
| `AstObjects.PrintThreeTimesTwoPlusFive` | chap04-symbol-table/01-variables/ast.py:127-143 | building `3 * 2 + 5` bottom-up and accepting a print visitor emits exactly `3`, `2`, `*`, `5`, `+` |
| `Dispatch.RoutingIsBijective` | chap04-symbol-table/01-variables/ast.py:32-42 | each of the five kinds is routed to its own handler and every handler serves exactly one kind |
| `Dispatch.Visitor.Visit` | chap04-symbol-table/01-variables/ast.py:32-42 | the type-test chain returns the result of the handler that the routing table names for the node's kind |
| `Dispatch.VisitReturnsHandlerResult` | chap04-symbol-table/01-variables/ast.py:32-42 | whatever function stands in the routed handler's place, visiting returns exactly that function's result on the node |
| `Dispatch.VisitIgnoresOtherHandlers` | chap04-symbol-table/01-variables/ast.py:32-42 | replacing any handler other than the routed one does not change the result: no other handler takes part |
| `PrintSpec.PrintLines` | chap04-symbol-table/01-variables/ast.py:103-122 | the post-order print of a tree emits at least one line |
| `PrintSpec.LastLineIsOwn` | chap04-symbol-table/01-variables/ast.py:103-122 | the last line emitted is the root's own line (its token, annotated for unary) |
| `PrintSpec.LeafPrintsToken` | chap04-symbol-table/01-variables/ast.py:108-117 | integer and identifier nodes emit exactly their token and never descend, even when they have children |
| `PrintSpec.ComposedPrint` | chap04-symbol-table/01-variables/ast.py:103-122 | binary, unary and statement-list nodes emit the concatenation of their children's outputs in child order, followed by the token (binary, statement list) or the token plus " (Unary)" (unary) |
| `PrintSpec.PosLine` | chap04-symbol-table/01-variables/ast.py:103-122 | every visited node's own line appears in the output at position `Pos` |
| `PrintSpec.DescendantBeforeRoot` | chap04-symbol-table/01-variables/ast.py:103-122 | the line of every proper descendant comes before the root's line |
| `PrintSpec.PosCompose` | chap04-symbol-table/01-variables/ast.py:103-122 | a node's position inside a subtree's output is shifted by where that subtree's output begins |
| `PrintSpec.PostOrder` | chap04-symbol-table/01-variables/ast.py:103-122 | each node's line comes after the lines of all its descendants, and every descendant's line lies in the window of the node's output length that ends at the node's own line |
| `PrintSpec.WindowIsSubtree` | chap04-symbol-table/01-variables/ast.py:103-122 | conversely, every line in the window of a node's output length that ends at its own line is the line of a node of its subtree; with `PostOrder`, a subtree's lines are exactly one contiguous block |
| `PrintSpec.PosInjective` | chap04-symbol-table/01-variables/ast.py:103-122 | two different visited nodes emit at different positions: no node is printed twice |
| `PrintSpec.PathAt` | chap04-symbol-table/01-variables/ast.py:103-122 | every output line is the own line of some visited node (positions are onto) |
| `PrintSpec.WellFormedVisitsAll` | chap04-symbol-table/01-variables/ast.py:103-122 | in a tree whose leaf-kind nodes have no children, every node is visited |
| `PrintSpec.LineCountIsSize` | chap04-symbol-table/01-variables/ast.py:103-122 | in a tree whose leaf-kind nodes have no children, the number of lines equals the number of nodes |
| `PrintSpec.ExamplePrints` | chap04-symbol-table/01-variables/ast.py:127-143 | the tree of `3 * 2 + 5` has five nodes and prints `3`, `2`, `*`, `5`, `+` |
| `PrintSpec.UnaryExamplePrints` | chap04-symbol-table/01-variables/ast.py:111-114 | a unary `-` over the integer `7` prints `7`, then `- (Unary)` |
| `PrintSpec.StatementListExamplesPrint` | chap04-symbol-table/01-variables/ast.py:119-122 | a statement list `;` over `1` and `2` prints `1`, `2`, `;`; an empty statement list `block` prints only `block` |

## Left out

- The abstract base classes are left out: `ABCMeta`, `@abstractmethod` and the `NotImplementedError` raises (ast.py:5-17, 29-30, 44-62). The closed `Kind` datatype replaces them, and Dafny's exhaustive `match` does the checking. There is no runtime failure to model.
- The fall-through of `visit` is left out. For an object of none of the five classes, `visit` returns `None` (after ast.py:42). With a closed set of kinds no such node exists. The code silently returns `None` rather than raising an "unhandled kind" error, and the model follows the code.
- Printing to standard output is left out. `print` and `str.format` become appending a string to `PrintVisitor.lines`.
- `AstObjects.Node.AddChild`: requires both nodes to satisfy the tree invariant and requires the new child's nodes to be disjoint from the receiver's. Python accepts any object, so it also allows sharing a node between parents and cycles. The model covers trees only.
- Changing a node after it has been attached to a parent is left out. `Valid()` of the parent is then no longer guaranteed, so trees are built bottom-up, as the driver does.
- Recursion depth and stack exhaustion are left out. These are runtime resource limits.
- `Dispatch.Visitor` does not model a visitor object with state. It is a record of five pure handlers, used to state what dispatch does for any result type. The stateful visitor of the source is `AstObjects.PrintVisitor`, whose `Visit` runs through the same five-way kind test.
