/**
 * The random tree builder: `gen_slice`, `Expr::build_random_tree_with_rng`,
 * `Stmt::build_random_tree_with_rng` and `Stmt::build_random_tree`.
 *
 * `Slice`, `BuildExpr`, `BuildExprs`, `BuildStmt` and `BuildStmts` say what a
 * build produces from a stream of draws starting at a position, and where in
 * the stream it stops; the methods are the builder in its original form,
 * advancing one shared `Rng`, proved to agree with them. Draws are consumed
 * in the original's order: a node's kind is built completely before the two
 * draws of its span, and a binary operator is drawn after both operands.
 */
module Generator {
  import opened Ast
  import opened Random

  /**
   * How a build can fail, each a panic of the original. A declaration at depth
   * 0 that draws an initializer builds it at depth `0 - 1` in `usize`; a list
   * drawn with width 0 samples its count from the empty range `0..0`.
   */
  datatype BuildError = DepthUnderflow | EmptyRange

  datatype Result<T> = Ok(value: T) | Err(error: BuildError)

  /** `name` is `source[i..j]` for some `i <= j` short of the last character. */
  ghost predicate IsSliceOf(name: string, source: string) {
    exists i, j :: 0 <= i <= j < |source| && name == source[i..j]
  }

  /** The operator a draw below 4 selects; the even draws give the ones `wrangle` keeps. */
  function OpOfDraw(k: nat): (op: BinOp)
    requires k < 4
    ensures Commutes(op) <==> k % 2 == 0
  {
    match k
    case 0 => Add
    case 1 => Sub
    case 2 => Mul
    case 3 => Div
  }

  /** The two positions after `pos` hold a node's span. */
  function SpanAt(draws: Stream, pos: nat): (sp: Span)
    ensures SpanInRange(sp)
  {
    Span(DrawUsize(draws, pos), DrawUsize(draws, pos + 1))
  }

  /**
   * `gen_slice`: a start drawn from the whole source, then an end drawn from
   * the start up to but excluding the length. The slice may be empty and never
   * contains the last character.
   */
  function Slice(source: string, draws: Stream, pos: nat): (r: (string, nat))
    requires |source| > 0
    ensures r.1 == pos + 2
    ensures IsSliceOf(r.0, source)
    ensures |r.0| < |source|
  {
    var start := DrawRange(draws, pos, 0, |source|);
    var end := DrawRange(draws, pos + 1, start, |source|);
    (source[start..end], pos + 2)
  }

  /** An expression built at `depth` with `width`, and the position after its last draw. */
  function BuildExpr(source: string, depth: nat, width: nat, draws: Stream, pos: nat): (r: (Expr, nat))
    requires |source| > 0
    ensures pos < r.1
    ensures r.0.kind.Variable? <==> depth == 0
    ensures depth == 0 ==> r.1 == pos + 4
    decreases depth, 3
  {
    var k := BuildExprKind(source, depth, width, draws, pos);
    (Expr(k.0, SpanAt(draws, k.1)), k.1 + 2)
  }

  /**
   * The kind of such an expression, built before its span is drawn: a variable
   * at depth 0, otherwise a binary node, a comma list or a grouping as the
   * first draw says, where the first two need a width of at least 2.
   */
  function BuildExprKind(source: string, depth: nat, width: nat, draws: Stream, pos: nat)
    : (r: (ExprKind, nat))
    requires |source| > 0
    ensures pos < r.1
    ensures r.0.Variable? <==> depth == 0
    ensures depth == 0 ==> r.1 == pos + 2
    ensures r.0.Binary? || r.0.Comma? ==> width >= 2
    decreases depth, 2
  {
    if depth > 0 then
      var choice := DrawRange(draws, pos, 0, 3);
      if choice == 0 && width >= 2 then BuildBinary(source, depth, width, draws, pos + 1)
      else if choice == 1 && width >= 2 then BuildComma(source, depth, width, draws, pos + 1)
      else BuildGrouping(source, depth, width, draws, pos + 1)
    else
      var name := Slice(source, draws, pos);
      (Variable(name.0), name.1)
  }

  /** The binary arm: both operands with the width less 2, then the operator. */
  function BuildBinary(source: string, depth: nat, width: nat, draws: Stream, pos: nat): (r: (ExprKind, nat))
    requires |source| > 0
    requires depth > 0 && width >= 2
    ensures pos < r.1
    ensures r.0.Binary?
    decreases depth, 1
  {
    var l := BuildExpr(source, depth - 1, width - 2, draws, pos);
    var r := BuildExpr(source, depth - 1, width - 2, draws, l.1);
    (Binary(l.0, OpOfDraw(DrawRange(draws, r.1, 0, 4)), r.0), r.1 + 1)
  }

  /** The comma arm: a count below the width, then that many elements with the width less the count. */
  function BuildComma(source: string, depth: nat, width: nat, draws: Stream, pos: nat): (r: (ExprKind, nat))
    requires |source| > 0
    requires depth > 0 && width >= 2
    ensures pos < r.1
    ensures r.0.Comma? && |r.0.exprs| < width
    decreases depth, 1
  {
    var count := DrawRange(draws, pos, 0, width);
    var c := BuildExprs(source, depth - 1, width - count, count, draws, pos + 1);
    (Comma(c.0), c.1)
  }

  /** The grouping arm: one inner expression with the same width. */
  function BuildGrouping(source: string, depth: nat, width: nat, draws: Stream, pos: nat): (r: (ExprKind, nat))
    requires |source| > 0
    requires depth > 0
    ensures pos < r.1
    ensures r.0.Grouping?
    decreases depth, 1
  {
    var g := BuildExpr(source, depth - 1, width, draws, pos);
    (Grouping(g.0), g.1)
  }

  /** `count` expressions built one after another at `depth` with `width`. */
  function BuildExprs(source: string, depth: nat, width: nat, count: nat, draws: Stream, pos: nat)
    : (r: (seq<Expr>, nat))
    requires |source| > 0
    ensures |r.0| == count
    ensures pos <= r.1
    ensures count > 0 ==> pos < r.1
    decreases depth + 1, 0, count
  {
    if count == 0 then ([], pos)
    else
      var c := BuildExprs(source, depth, width, count - 1, draws, pos);
      var e := BuildExpr(source, depth, width, draws, c.1);
      (c.0 + [e.0], e.1)
  }

  /**
   * A statement built at `depth` with `width`, and the position after its last
   * draw, or the failure the build runs into.
   */
  function BuildStmt(source: string, depth: nat, width: nat, draws: Stream, pos: nat)
    : (r: Result<(Stmt, nat)>)
    requires |source| > 0
    ensures r.Ok? ==> pos < r.value.1
    ensures r.Ok? ==> (r.value.0.kind.VarDecl? <==> depth == 0) && !r.value.0.kind.NullNode?
    decreases depth, 3
  {
    var k := BuildStmtKind(source, depth, width, draws, pos);
    if k.Err? then Err(k.error)
    else Ok((Stmt(k.value.0, SpanAt(draws, k.value.1)), k.value.1 + 2))
  }

  /**
   * The kind of such a statement, built before its span is drawn: a list or an
   * expression statement as a coin says, or a declaration at depth 0.
   */
  function BuildStmtKind(source: string, depth: nat, width: nat, draws: Stream, pos: nat)
    : (r: Result<(StmtKind, nat)>)
    requires |source| > 0
    ensures r.Ok? ==> pos < r.value.1
    ensures r.Ok? ==> (r.value.0.VarDecl? <==> depth == 0) && !r.value.0.NullNode?
    decreases depth, 2
  {
    if depth > 0 then
      if !DrawBool(draws, pos) then BuildList(source, depth, width, draws, pos + 1)
      else BuildExprStmt(source, depth, width, draws, pos + 1)
    else BuildDecl(source, draws, pos)
  }

  /** The list arm: a count below the width, which must not be 0, then that many statements with the width less the count. */
  function BuildList(source: string, depth: nat, width: nat, draws: Stream, pos: nat)
    : (r: Result<(StmtKind, nat)>)
    requires |source| > 0
    requires depth > 0
    ensures r.Ok? ==> pos < r.value.1
    ensures r.Ok? ==> r.value.0.List? && |r.value.0.stmts| < width
    ensures width == 0 ==> r == Err(EmptyRange)
    decreases depth, 1
  {
    if width == 0 then Err(EmptyRange)
    else
      var count := DrawRange(draws, pos, 0, width);
      var c := BuildStmts(source, depth - 1, width - count, count, draws, pos + 1);
      if c.Err? then Err(c.error) else Ok((List(c.value.0), c.value.1))
  }

  /** The expression-statement arm: one expression one level down, with the same width. */
  function BuildExprStmt(source: string, depth: nat, width: nat, draws: Stream, pos: nat)
    : (r: Result<(StmtKind, nat)>)
    requires |source| > 0
    requires depth > 0
    ensures r.Ok? && pos < r.value.1
    ensures r.value.0.ExprStmt?
    decreases depth, 1
  {
    var e := BuildExpr(source, depth - 1, width, draws, pos);
    Ok((ExprStmt(e.0), e.1))
  }

  /**
   * The depth-0 arm: a name, then a coin for the initializer; an initializer
   * would be built at depth `0 - 1`, which fails.
   */
  function BuildDecl(source: string, draws: Stream, pos: nat): (r: Result<(StmtKind, nat)>)
    requires |source| > 0
    ensures r.Ok? ==> r.value == (VarDecl(Slice(source, draws, pos).0, None), pos + 3)
    ensures r.Err? <==> DrawBool(draws, pos + 2)
  {
    var name := Slice(source, draws, pos);
    if DrawBool(draws, name.1) then Err(DepthUnderflow)
    else Ok((VarDecl(name.0, None), name.1 + 1))
  }

  /** `count` statements built one after another, stopping at the first failure. */
  function BuildStmts(source: string, depth: nat, width: nat, count: nat, draws: Stream, pos: nat)
    : (r: Result<(seq<Stmt>, nat)>)
    requires |source| > 0
    ensures r.Ok? ==> |r.value.0| == count && pos <= r.value.1
    ensures r.Ok? && count > 0 ==> pos < r.value.1
    decreases depth + 1, 0, count
  {
    if count == 0 then Ok(([], pos))
    else
      var c := BuildStmts(source, depth, width, count - 1, draws, pos);
      if c.Err? then Err(c.error)
      else
        var s := BuildStmt(source, depth, width, draws, c.value.1);
        if s.Err? then Err(s.error)
        else Ok((c.value.0 + [s.value.0], s.value.1))
  }

  /** The tree of a build, without the stream position. */
  function TreeOf(r: Result<(Stmt, nat)>): Result<Stmt> {
    match r
    case Ok((s, _)) => Ok(s)
    case Err(err) => Err(err)
  }

  method GenSlice(source: string, rng: Rng) returns (name: string)
    requires |source| > 0
    modifies rng
    ensures (name, rng.pos) == Slice(source, rng.draws, old(rng.pos))
  {
    var start := rng.GenRange(0, |source|);
    var end := rng.GenRange(start, |source|);
    name := source[start..end];
  }

  /** `Expr::build_random_tree_with_rng`. */
  method BuildExprWithRng(source: string, depth: nat, maxWidth: nat, rng: Rng) returns (e: Expr)
    requires |source| > 0
    modifies rng
    ensures (e, rng.pos) == BuildExpr(source, depth, maxWidth, rng.draws, old(rng.pos))
    decreases depth, 3
  {
    var kind := BuildExprKindWithRng(source, depth, maxWidth, rng);
    var start := rng.GenUsize();
    var end := rng.GenUsize();
    e := Expr(kind, Span(start, end));
  }

  /** The kind-building part of `Expr::build_random_tree_with_rng`. */
  method BuildExprKindWithRng(source: string, depth: nat, maxWidth: nat, rng: Rng) returns (kind: ExprKind)
    requires |source| > 0
    modifies rng
    ensures (kind, rng.pos) == BuildExprKind(source, depth, maxWidth, rng.draws, old(rng.pos))
    decreases depth, 2
  {
    if depth > 0 {
      var choice := rng.GenRange(0, 3);
      if choice == 0 && maxWidth >= 2 {
        kind := BuildBinaryWithRng(source, depth, maxWidth, rng);
      } else if choice == 1 && maxWidth >= 2 {
        var count := rng.GenRange(0, maxWidth);
        var exprs := BuildCommaWithRng(source, depth - 1, maxWidth - count, count, rng);
        kind := Comma(exprs);
      } else {
        var inner := BuildExprWithRng(source, depth - 1, maxWidth, rng);
        kind := Grouping(inner);
      }
    } else {
      var name := GenSlice(source, rng);
      kind := Variable(name);
    }
  }

  /** The binary arm of `Expr::build_random_tree_with_rng`. */
  method BuildBinaryWithRng(source: string, depth: nat, maxWidth: nat, rng: Rng) returns (kind: ExprKind)
    requires |source| > 0
    requires depth > 0 && maxWidth >= 2
    modifies rng
    ensures (kind, rng.pos) == BuildBinary(source, depth, maxWidth, rng.draws, old(rng.pos))
    decreases depth, 1
  {
    var left := BuildExprWithRng(source, depth - 1, maxWidth - 2, rng);
    var right := BuildExprWithRng(source, depth - 1, maxWidth - 2, rng);
    var k := rng.GenRange(0, 4);
    kind := Binary(left, OpOfDraw(k), right);
  }

  /** The loop of the comma arm: `count` elements pushed in order. */
  method BuildCommaWithRng(source: string, depth: nat, width: nat, count: nat, rng: Rng)
    returns (exprs: seq<Expr>)
    requires |source| > 0
    modifies rng
    ensures (exprs, rng.pos) == BuildExprs(source, depth, width, count, rng.draws, old(rng.pos))
    decreases depth + 1, 0
  {
    exprs := [];
    for i := 0 to count
      invariant (exprs, rng.pos) == BuildExprs(source, depth, width, i, rng.draws, old(rng.pos))
    {
      var x := BuildExprWithRng(source, depth, width, rng);
      exprs := exprs + [x];
    }
  }

  /** `Stmt::build_random_tree_with_rng`; a panic is an `Err` result. */
  method BuildStmtWithRng(source: string, depth: nat, maxWidth: nat, rng: Rng) returns (r: Result<Stmt>)
    requires |source| > 0
    modifies rng
    ensures r == TreeOf(BuildStmt(source, depth, maxWidth, rng.draws, old(rng.pos)))
    ensures r.Ok? ==> rng.pos == BuildStmt(source, depth, maxWidth, rng.draws, old(rng.pos)).value.1
    decreases depth, 3
  {
    var kind := BuildStmtKindWithRng(source, depth, maxWidth, rng);
    if kind.Err? {
      return Err(kind.error);
    }
    var start := rng.GenUsize();
    var end := rng.GenUsize();
    r := Ok(Stmt(kind.value, Span(start, end)));
  }

  /** The kind-building part of `Stmt::build_random_tree_with_rng`. */
  method BuildStmtKindWithRng(source: string, depth: nat, maxWidth: nat, rng: Rng) returns (r: Result<StmtKind>)
    requires |source| > 0
    modifies rng
    ensures BuildStmtKind(source, depth, maxWidth, rng.draws, old(rng.pos)).Ok? <==> r.Ok?
    ensures r.Ok? ==> (r.value, rng.pos) == BuildStmtKind(source, depth, maxWidth, rng.draws, old(rng.pos)).value
    ensures r.Err? ==> r.error == BuildStmtKind(source, depth, maxWidth, rng.draws, old(rng.pos)).error
    decreases depth, 2
  {
    if depth > 0 {
      var coin := rng.GenBool();
      if !coin {
        if maxWidth == 0 {
          return Err(EmptyRange);
        }
        var count := rng.GenRange(0, maxWidth);
        var stmts := BuildListWithRng(source, depth - 1, maxWidth - count, count, rng);
        if stmts.Err? {
          return Err(stmts.error);
        }
        r := Ok(List(stmts.value));
      } else {
        var inner := BuildExprWithRng(source, depth - 1, maxWidth, rng);
        r := Ok(ExprStmt(inner));
      }
    } else {
      var name := GenSlice(source, rng);
      var hasInit := rng.GenBool();
      if hasInit {
        return Err(DepthUnderflow);
      }
      r := Ok(VarDecl(name, None));
    }
  }

  /** The loop of the list arm: `count` statements pushed in order. */
  method BuildListWithRng(source: string, depth: nat, width: nat, count: nat, rng: Rng)
    returns (r: Result<seq<Stmt>>)
    requires |source| > 0
    modifies rng
    ensures BuildStmts(source, depth, width, count, rng.draws, old(rng.pos)).Ok? <==> r.Ok?
    ensures r.Ok? ==> (r.value, rng.pos) == BuildStmts(source, depth, width, count, rng.draws, old(rng.pos)).value
    ensures r.Err? ==> r.error == BuildStmts(source, depth, width, count, rng.draws, old(rng.pos)).error
    decreases depth + 1, 0
  {
    var stmts := [];
    for i := 0 to count
      invariant BuildStmts(source, depth, width, i, rng.draws, old(rng.pos)) == Ok((stmts, rng.pos))
    {
      var x := BuildStmtWithRng(source, depth, width, rng);
      if x.Err? {
        BuildStmtsFailureSticks(source, depth, width, i + 1, count, rng.draws, old(rng.pos));
        return Err(x.error);
      }
      stmts := stmts + [x.value];
    }
    r := Ok(stmts);
  }

  /** Once the `k`-th statement fails, building more of them fails the same way. */
  lemma {:induction false} BuildStmtsFailureSticks(source: string, depth: nat, width: nat, k: nat, count: nat,
                                                   draws: Stream, pos: nat)
    requires |source| > 0
    requires k <= count
    requires BuildStmts(source, depth, width, k, draws, pos).Err?
    ensures BuildStmts(source, depth, width, count, draws, pos) == BuildStmts(source, depth, width, k, draws, pos)
    decreases count - k
  {
    if k < count {
      BuildStmtsFailureSticks(source, depth, width, k + 1, count, draws, pos);
    }
  }

  /**
   * `Stmt::build_random_tree`: the stream a seed selects is a parameter, since
   * how the original's generator expands a seed is not part of this model.
   */
  method BuildRandomTree(source: string, seed: nat, depth: nat, maxWidth: nat, streamOf: nat -> Stream)
    returns (r: Result<Stmt>)
    requires |source| > 0
    ensures r == TreeOf(BuildStmt(source, depth, maxWidth, streamOf(seed), 0))
  {
    var rng := new Rng(streamOf(seed));
    r := BuildStmtWithRng(source, depth, maxWidth, rng);
  }
}
