/**
 * The tree of the toy statement/expression language, as built and rewritten
 * by the boxed-AST experiment.
 *
 * Every child is owned by exactly one parent (a `Box` or a `Vec` element in
 * the original), so the tree has no sharing and no cycles: a value-typed
 * datatype describes it exactly. The `Binary` and `VarDecl` records, which the
 * original keeps behind a `Box`, are inlined into the constructors of the kind
 * that holds them.
 */
module Ast {

  /** The usual optional value; the initializer of a variable declaration. */
  datatype Option<T> = None | Some(value: T)

  /** Exclusive upper bound of a `usize` on the 64-bit targets the experiment runs on. */
  const UsizeBound: nat := 0x1_0000_0000_0000_0000

  /**
   * A `Range<usize>` tagging a node. Both ends are independent random numbers:
   * nothing relates `start` to `end`.
   */
  datatype Span = Span(start: nat, end: nat)

  datatype BinOp = Add | Sub | Mul | Div

  datatype Expr = Expr(kind: ExprKind, span: Span)

  datatype ExprKind =
    | Variable(name: string)
    | Binary(left: Expr, op: BinOp, right: Expr)
    | Grouping(inner: Expr)
    | Comma(exprs: seq<Expr>)

  datatype Stmt = Stmt(kind: StmtKind, span: Span)

  datatype StmtKind =
    | VarDecl(name: string, initializer: Option<Expr>)
    | List(stmts: seq<Stmt>)
    | ExprStmt(expr: Expr)
      /** The placeholder a statement holds while its kind is taken out. */
    | NullNode

  predicate SpanInRange(sp: Span) {
    sp.start < UsizeBound && sp.end < UsizeBound
  }

  /** The addition and multiplication operators, which `wrangle` keeps. */
  predicate Commutes(op: BinOp) {
    op.Add? || op.Mul?
  }

  /** Number of levels below `e`: a leaf has height 0. */
  function ExprHeight(e: Expr): nat
    decreases e
  {
    match e.kind
    case Variable(_) => 0
    case Binary(l, _, r) => 1 + Max(ExprHeight(l), ExprHeight(r))
    case Grouping(g) => 1 + ExprHeight(g)
    case Comma(c) => if c == [] then 0 else 1 + ExprsHeight(c)
  }

  function ExprsHeight(c: seq<Expr>): nat
    decreases c
  {
    if c == [] then 0 else Max(ExprsHeight(c[..|c| - 1]), ExprHeight(c[|c| - 1]))
  }

  function StmtHeight(s: Stmt): nat
    decreases s
  {
    match s.kind
    case VarDecl(_, init) => if init.Some? then 1 + ExprHeight(init.value) else 0
    case List(c) => if c == [] then 0 else 1 + StmtsHeight(c)
    case ExprStmt(e) => 1 + ExprHeight(e)
    case NullNode => 0
  }

  function StmtsHeight(c: seq<Stmt>): nat
    decreases c
  {
    if c == [] then 0 else Max(StmtsHeight(c[..|c| - 1]), StmtHeight(c[|c| - 1]))
  }

  function Max(a: nat, b: nat): nat {
    if a < b then b else a
  }

  /** Does a `NullNode` occur anywhere in the statement tree? */
  predicate HasNull(s: Stmt)
    decreases s
  {
    match s.kind
    case VarDecl(_, _) => false
    case List(c) => exists k :: 0 <= k < |c| && HasNull(c[k])
    case ExprStmt(_) => false
    case NullNode => true
  }

  /** The names of the `Variable` leaves, left to right. */
  function ExprNames(e: Expr): seq<string>
    decreases e
  {
    match e.kind
    case Variable(v) => [v]
    case Binary(l, _, r) => ExprNames(l) + ExprNames(r)
    case Grouping(g) => ExprNames(g)
    case Comma(c) => ExprsNames(c)
  }

  function ExprsNames(c: seq<Expr>): seq<string>
    decreases c
  {
    if c == [] then [] else ExprsNames(c[..|c| - 1]) + ExprNames(c[|c| - 1])
  }

  /** The names of the `VarDecl` and `Variable` nodes, in pre-order, left to right. */
  function StmtNames(s: Stmt): seq<string>
    decreases s
  {
    match s.kind
    case VarDecl(n, init) => [n] + (if init.Some? then ExprNames(init.value) else [])
    case List(c) => StmtsNames(c)
    case ExprStmt(e) => ExprNames(e)
    case NullNode => []
  }

  function StmtsNames(c: seq<Stmt>): seq<string>
    decreases c
  {
    if c == [] then [] else StmtsNames(c[..|c| - 1]) + StmtNames(c[|c| - 1])
  }
}
