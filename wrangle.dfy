/**
 * `wrangle`: one depth-first pass that feeds names and operators to a hash
 * accumulator and rewrites the tree on the way back up.
 *
 * `Wrangled`, `WrangledStmt`, `ExprTrace` and `StmtTrace` say what one pass
 * produces and what it feeds; `WrangleExpr` and `WrangleStmt` are the pass
 * itself, in the original's step-by-step form, proved to agree with them.
 */
module Wrangle {
  import opened Ast
  import opened Hashing
  import opened Sequences

  /**
   * The node one pass makes of `e`: operands of `+` and `*` swap places,
   * `-` and `/` turn into a two-element comma list of their operands in the
   * original order, a grouping gives way to its (rewritten) contents, and a
   * comma list is rewritten element by element and then reversed.
   */
  function Wrangled(e: Expr): (r: Expr)
    ensures r.span == e.span
    ensures e.kind.Variable? ==> r == e
    ensures !r.kind.Grouping?
    ensures r.kind.Binary? ==> Commutes(r.kind.op)
    ensures e.kind.Binary? && Commutes(e.kind.op) ==> r.kind.Binary? && r.kind.op == e.kind.op
    ensures e.kind.Binary? && !Commutes(e.kind.op) ==> r.kind.Comma? && |r.kind.exprs| == 2
    ensures e.kind.Comma? ==> r.kind.Comma? && |r.kind.exprs| == |e.kind.exprs|
    decreases e
  {
    match e.kind
    case Variable(_) => e
    case Binary(l, op, r) =>
      if Commutes(op) then e.(kind := Binary(Wrangled(r), op, Wrangled(l)))
      else e.(kind := Comma([Wrangled(l), Wrangled(r)]))
    case Grouping(g) => e.(kind := Wrangled(g).kind)
    case Comma(c) => e.(kind := Comma(Reversed(WrangledExprs(c))))
  }

  /** Each element rewritten in place, order kept. */
  function WrangledExprs(c: seq<Expr>): (r: seq<Expr>)
    ensures |r| == |c|
    ensures forall k :: 0 <= k < |c| ==> r[k] == Wrangled(c[k])
    decreases c
  {
    if c == [] then [] else WrangledExprs(c[..|c| - 1]) + [Wrangled(c[|c| - 1])]
  }

  /**
   * The statement one pass makes of `s`: a declaration keeps its name and
   * rewrites its initializer if it has one, a list is rewritten element by
   * element and then reversed, an expression statement rewrites its
   * expression, and the placeholder stays a placeholder.
   */
  function WrangledStmt(s: Stmt): (r: Stmt)
    ensures r.span == s.span
    ensures r.kind.VarDecl? <==> s.kind.VarDecl?
    ensures r.kind.VarDecl? ==>
      r.kind.name == s.kind.name && (r.kind.initializer.Some? <==> s.kind.initializer.Some?)
    ensures r.kind.List? <==> s.kind.List?
    ensures r.kind.List? ==> |r.kind.stmts| == |s.kind.stmts|
    ensures r.kind.ExprStmt? <==> s.kind.ExprStmt?
    ensures r.kind.NullNode? <==> s.kind.NullNode?
    decreases s
  {
    match s.kind
    case VarDecl(n, init) =>
      s.(kind := VarDecl(n, if init.Some? then Some(Wrangled(init.value)) else None))
    case List(c) => s.(kind := List(Reversed(WrangledStmts(c))))
    case ExprStmt(e) => s.(kind := ExprStmt(Wrangled(e)))
    case NullNode => s
  }

  function WrangledStmts(c: seq<Stmt>): (r: seq<Stmt>)
    ensures |r| == |c|
    ensures forall k :: 0 <= k < |c| ==> r[k] == WrangledStmt(c[k])
    decreases c
  {
    if c == [] then [] else WrangledStmts(c[..|c| - 1]) + [WrangledStmt(c[|c| - 1])]
  }

  /**
   * What one pass over `e` feeds the accumulator: pre-order, left before
   * right. A variable feeds its name and nothing else; a binary node feeds its
   * operator before anything of its operands.
   */
  function ExprTrace(e: Expr): (t: seq<Token>)
    ensures e.kind.Variable? ==> t == [NameToken(e.kind.name)]
    ensures e.kind.Binary? ==> |t| > 0 && t[0] == OpToken(e.kind.op)
    decreases e
  {
    match e.kind
    case Variable(v) => [NameToken(v)]
    case Binary(l, op, r) => [OpToken(op)] + ExprTrace(l) + ExprTrace(r)
    case Grouping(g) => ExprTrace(g)
    case Comma(c) => ExprsTrace(c)
  }

  function ExprsTrace(c: seq<Expr>): seq<Token>
    decreases c
  {
    if c == [] then [] else ExprsTrace(c[..|c| - 1]) + ExprTrace(c[|c| - 1])
  }

  /** What one pass over `s` feeds: a declaration's name before anything of its initializer. */
  function StmtTrace(s: Stmt): (t: seq<Token>)
    ensures s.kind.VarDecl? ==> |t| > 0 && t[0] == NameToken(s.kind.name)
    ensures s.kind.NullNode? ==> t == []
    decreases s
  {
    match s.kind
    case VarDecl(n, init) => [NameToken(n)] + (if init.Some? then ExprTrace(init.value) else [])
    case List(c) => StmtsTrace(c)
    case ExprStmt(e) => ExprTrace(e)
    case NullNode => []
  }

  function StmtsTrace(c: seq<Stmt>): seq<Token>
    decreases c
  {
    if c == [] then [] else StmtsTrace(c[..|c| - 1]) + StmtTrace(c[|c| - 1])
  }

  /**
   * `Expr::wrangle`. The node's kind is taken out, the new kind is computed
   * from the old one and the rewritten children, and written back; the span is
   * never touched. The original leaves a `Variable("")` in the node while the
   * kind is out; on a value nothing can observe that placeholder, so it has no
   * counterpart here.
   */
  method WrangleExpr(e: Expr, h: Hasher) returns (r: Expr)
    modifies h
    ensures r == Wrangled(e)
    ensures h.trace == old(h.trace) + ExprTrace(e)
    decreases e
  {
    var kind := e.kind;
    var newKind: ExprKind;
    match kind {
      case Variable(v) =>
        h.Feed(NameToken(v));
        newKind := Variable(v);
      case Binary(l, op, rt) =>
        h.Feed(OpToken(op));
        var left := WrangleExpr(l, h);
        var right := WrangleExpr(rt, h);
        if Commutes(op) {
          left, right := right, left;
          newKind := Binary(left, op, right);
        } else {
          newKind := Comma([left, right]);
        }
      case Grouping(g) =>
        var inner := WrangleExpr(g, h);
        newKind := inner.kind;
      case Comma(c) =>
        var c' := WrangleExprs(c, h);
        newKind := Comma(c');
    }
    r := e.(kind := newKind);
  }

  /**
   * The comma arm of `Expr::wrangle`: rewrites the elements of the vector in
   * place, left to right, then reverses the vector in place.
   */
  method WrangleExprs(c: seq<Expr>, h: Hasher) returns (r: seq<Expr>)
    modifies h
    ensures r == Reversed(WrangledExprs(c))
    ensures h.trace == old(h.trace) + ExprsTrace(c)
    decreases c
  {
    var buf := new Expr[|c|](k requires 0 <= k < |c| => c[k]);
    for i := 0 to buf.Length
      invariant forall k :: 0 <= k < i ==> buf[k] == Wrangled(c[k])
      invariant forall k :: i <= k < buf.Length ==> buf[k] == c[k]
      invariant h.trace == old(h.trace) + ExprsTrace(c[..i])
    {
      ExprsTraceStep(c, i);
      buf[i] := WrangleExpr(buf[i], h);
    }
    assert c[..|c|] == c;
    assert buf[..] == WrangledExprs(c);
    ReverseInPlace(buf);
    r := buf[..];
  }

  /**
   * `Stmt::wrangle`. As for expressions, the `NullNode` the original leaves in
   * the node while the kind is out cannot be observed on a value.
   */
  method WrangleStmt(s: Stmt, h: Hasher) returns (r: Stmt)
    modifies h
    ensures r == WrangledStmt(s)
    ensures h.trace == old(h.trace) + StmtTrace(s)
    decreases s
  {
    var kind := s.kind;
    var newKind: StmtKind;
    match kind {
      case VarDecl(n, init) =>
        h.Feed(NameToken(n));
        if init.Some? {
          var x := WrangleExpr(init.value, h);
          newKind := VarDecl(n, Some(x));
        } else {
          newKind := VarDecl(n, None);
        }
      case ExprStmt(x) =>
        var y := WrangleExpr(x, h);
        newKind := ExprStmt(y);
      case List(c) =>
        var c' := WrangleStmts(c, h);
        newKind := List(c');
      case NullNode =>
        newKind := NullNode;
    }
    r := s.(kind := newKind);
  }

  /** The list arm of `Stmt::wrangle`: the same policy as for comma lists. */
  method WrangleStmts(c: seq<Stmt>, h: Hasher) returns (r: seq<Stmt>)
    modifies h
    ensures r == Reversed(WrangledStmts(c))
    ensures h.trace == old(h.trace) + StmtsTrace(c)
    decreases c
  {
    var buf := new Stmt[|c|](k requires 0 <= k < |c| => c[k]);
    for i := 0 to buf.Length
      invariant forall k :: 0 <= k < i ==> buf[k] == WrangledStmt(c[k])
      invariant forall k :: i <= k < buf.Length ==> buf[k] == c[k]
      invariant h.trace == old(h.trace) + StmtsTrace(c[..i])
    {
      StmtsTraceStep(c, i);
      buf[i] := WrangleStmt(buf[i], h);
    }
    assert c[..|c|] == c;
    assert buf[..] == WrangledStmts(c);
    ReverseInPlace(buf);
    r := buf[..];
  }

  /** One more element of a list extends its trace by that element's trace. */
  lemma ExprsTraceStep(c: seq<Expr>, i: nat)
    requires i < |c|
    ensures ExprsTrace(c[..i + 1]) == ExprsTrace(c[..i]) + ExprTrace(c[i])
  {
    assert c[..i + 1][..i] == c[..i];
  }

  /** One more element of a list extends its trace by that element's trace. */
  lemma StmtsTraceStep(c: seq<Stmt>, i: nat)
    requires i < |c|
    ensures StmtsTrace(c[..i + 1]) == StmtsTrace(c[..i]) + StmtTrace(c[i])
  {
    assert c[..i + 1][..i] == c[..i];
  }
}
