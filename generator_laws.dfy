/**
 * What the random tree builder can and cannot produce.
 *
 * `ExprFits` and `StmtFits` describe, without reference to any stream, the
 * trees a build at a given depth and width may return. Every successful build
 * fits (`BuildExprFits`, `BuildStmtFits`), and every fitting tree is the
 * result of some stream (`EncodedExprBuilds`, `EncodedStmtBuilds`), so the two
 * predicates are exactly the builder's possible outputs.
 */
module GeneratorLaws {
  import opened Ast
  import opened Random
  import opened Generator
  import opened Wrangle
  import opened WrangleLaws

  /** `e` is a possible expression at `depth` with `width`. */
  ghost predicate ExprFits(e: Expr, depth: nat, width: nat, source: string)
    decreases e
  {
    SpanInRange(e.span) && ExprKindFits(e.kind, depth, width, source)
  }

  /**
   * A variable exactly at depth 0; a binary node or a comma list only when the
   * width is at least 2, a comma list of fewer than `width` elements; children
   * one level down, with the width less 2 under a binary node, less the count
   * under a comma list, and unchanged under a grouping.
   */
  ghost predicate ExprKindFits(k: ExprKind, depth: nat, width: nat, source: string)
    decreases k
  {
    match k
    case Variable(n) => depth == 0 && IsSliceOf(n, source)
    case Binary(l, _, r) =>
      && depth > 0 && width >= 2
      && ExprFits(l, depth - 1, width - 2, source) && ExprFits(r, depth - 1, width - 2, source)
    case Comma(c) =>
      depth > 0 && width >= 2 && |c| < width && ExprsFit(c, depth - 1, width - |c|, source)
    case Grouping(g) => depth > 0 && ExprFits(g, depth - 1, width, source)
  }

  /** Every element of `c` fits at `depth` with `width`. */
  ghost predicate ExprsFit(c: seq<Expr>, depth: nat, width: nat, source: string)
    decreases c
  {
    c == [] || (ExprsFit(c[..|c| - 1], depth, width, source) && ExprFits(c[|c| - 1], depth, width, source))
  }

  /** `s` is a possible statement at `depth` with `width`. */
  ghost predicate StmtFits(s: Stmt, depth: nat, width: nat, source: string)
    decreases s
  {
    SpanInRange(s.span) && StmtKindFits(s.kind, depth, width, source)
  }

  /**
   * A declaration without initializer exactly at depth 0, otherwise a list of
   * fewer than `width` statements each given the width less the count, or an
   * expression statement; never the placeholder.
   */
  ghost predicate StmtKindFits(k: StmtKind, depth: nat, width: nat, source: string)
    decreases k
  {
    match k
    case VarDecl(n, init) => depth == 0 && IsSliceOf(n, source) && init.None?
    case List(c) => depth > 0 && |c| < width && StmtsFit(c, depth - 1, width - |c|, source)
    case ExprStmt(e) => depth > 0 && ExprFits(e, depth - 1, width, source)
    case NullNode => false
  }

  /** Every element of `c` fits at `depth` with `width`. */
  ghost predicate StmtsFit(c: seq<Stmt>, depth: nat, width: nat, source: string)
    decreases c
  {
    c == [] || (StmtsFit(c[..|c| - 1], depth, width, source) && StmtFits(c[|c| - 1], depth, width, source))
  }

  // ---------------------------------------------------------------------------
  // Every build fits

  lemma {:induction false} BuildExprFits(source: string, depth: nat, width: nat, draws: Stream, pos: nat)
    requires |source| > 0
    ensures ExprFits(BuildExpr(source, depth, width, draws, pos).0, depth, width, source)
    decreases depth, 3
  {
    BuildExprKindFits(source, depth, width, draws, pos);
  }

  lemma {:induction false} BuildExprKindFits(source: string, depth: nat, width: nat, draws: Stream, pos: nat)
    requires |source| > 0
    ensures ExprKindFits(BuildExprKind(source, depth, width, draws, pos).0, depth, width, source)
    decreases depth, 2
  {
    if depth > 0 {
      var choice := DrawRange(draws, pos, 0, 3);
      if choice == 0 && width >= 2 {
        BuildBinaryFits(source, depth, width, draws, pos + 1);
      } else if choice == 1 && width >= 2 {
        BuildCommaFits(source, depth, width, draws, pos + 1);
      } else {
        BuildGroupingFits(source, depth, width, draws, pos + 1);
      }
    }
  }

  lemma {:induction false} BuildGroupingFits(source: string, depth: nat, width: nat, draws: Stream, pos: nat)
    requires |source| > 0
    requires depth > 0
    ensures ExprKindFits(BuildGrouping(source, depth, width, draws, pos).0, depth, width, source)
    decreases depth, 1
  {
    BuildExprFits(source, depth - 1, width, draws, pos);
  }

  lemma {:induction false} BuildBinaryFits(source: string, depth: nat, width: nat, draws: Stream, pos: nat)
    requires |source| > 0
    requires depth > 0 && width >= 2
    ensures ExprKindFits(BuildBinary(source, depth, width, draws, pos).0, depth, width, source)
    decreases depth, 1
  {
    var l := BuildExpr(source, depth - 1, width - 2, draws, pos);
    BuildExprFits(source, depth - 1, width - 2, draws, pos);
    BuildExprFits(source, depth - 1, width - 2, draws, l.1);
  }

  lemma {:induction false} BuildCommaFits(source: string, depth: nat, width: nat, draws: Stream, pos: nat)
    requires |source| > 0
    requires depth > 0 && width >= 2
    ensures ExprKindFits(BuildComma(source, depth, width, draws, pos).0, depth, width, source)
    decreases depth, 1
  {
    var count := DrawRange(draws, pos, 0, width);
    var c := BuildExprs(source, depth - 1, width - count, count, draws, pos + 1);
    BuildExprsFit(source, depth - 1, width - count, count, draws, pos + 1);
    assert |c.0| == count < width;
  }

  lemma {:induction false} BuildExprsFit(source: string, depth: nat, width: nat, count: nat, draws: Stream, pos: nat)
    requires |source| > 0
    ensures ExprsFit(BuildExprs(source, depth, width, count, draws, pos).0, depth, width, source)
    decreases depth + 1, 0, count
  {
    if count > 0 {
      var c := BuildExprs(source, depth, width, count - 1, draws, pos);
      var e := BuildExpr(source, depth, width, draws, c.1);
      BuildExprsFit(source, depth, width, count - 1, draws, pos);
      BuildExprFits(source, depth, width, draws, c.1);
      assert (c.0 + [e.0])[..count - 1] == c.0;
    }
  }

  lemma {:induction false} BuildStmtFits(source: string, depth: nat, width: nat, draws: Stream, pos: nat)
    requires |source| > 0
    ensures var r := BuildStmt(source, depth, width, draws, pos);
            r.Ok? ==> StmtFits(r.value.0, depth, width, source)
    decreases depth, 3
  {
    BuildStmtKindFits(source, depth, width, draws, pos);
  }

  lemma {:induction false} BuildStmtKindFits(source: string, depth: nat, width: nat, draws: Stream, pos: nat)
    requires |source| > 0
    ensures var r := BuildStmtKind(source, depth, width, draws, pos);
            r.Ok? ==> StmtKindFits(r.value.0, depth, width, source)
    decreases depth, 2
  {
    if depth > 0 {
      if !DrawBool(draws, pos) && width > 0 {
        var count := DrawRange(draws, pos + 1, 0, width);
        BuildStmtsFit(source, depth - 1, width - count, count, draws, pos + 2);
      } else {
        BuildExprFits(source, depth - 1, width, draws, pos + 1);
      }
    }
  }

  lemma {:induction false} BuildStmtsFit(source: string, depth: nat, width: nat, count: nat, draws: Stream, pos: nat)
    requires |source| > 0
    ensures var r := BuildStmts(source, depth, width, count, draws, pos);
            r.Ok? ==> StmtsFit(r.value.0, depth, width, source)
    decreases depth + 1, 0, count
  {
    if count > 0 {
      var c := BuildStmts(source, depth, width, count - 1, draws, pos);
      BuildStmtsFit(source, depth, width, count - 1, draws, pos);
      if c.Ok? {
        var s := BuildStmt(source, depth, width, draws, c.value.1);
        BuildStmtFits(source, depth, width, draws, c.value.1);
        if s.Ok? {
          assert (c.value.0 + [s.value.0])[..count - 1] == c.value.0;
        }
      }
    }
  }

  // ---------------------------------------------------------------------------
  // Every fitting tree is built by some stream

  /** `draws` holds `ds` from position `pos` on. */
  ghost predicate Holds(draws: Stream, pos: nat, ds: seq<nat>)
    decreases |ds|
  {
    ds == [] || (At(draws, pos) == ds[0] && Holds(draws, pos + 1, ds[1..]))
  }

  lemma {:induction false} HoldsSplit(draws: Stream, pos: nat, a: seq<nat>, b: seq<nat>)
    requires Holds(draws, pos, a + b)
    ensures Holds(draws, pos, a) && Holds(draws, pos + |a|, b)
    decreases |a|
  {
    if a == [] {
      assert a + b == b;
    } else {
      assert (a + b)[0] == a[0];
      assert (a + b)[1..] == a[1..] + b;
      HoldsSplit(draws, pos + 1, a[1..], b);
    }
  }

  lemma {:induction false} HoldsAt(draws: Stream, pos: nat, ds: seq<nat>, k: nat)
    requires Holds(draws, pos, ds) && k < |ds|
    ensures At(draws, pos + k) == ds[k]
    decreases k
  {
    if k > 0 {
      HoldsAt(draws, pos + 1, ds[1..], k - 1);
    }
  }

  /** A stream holds its own suffix from any position. */
  lemma {:induction false} HoldsSuffix(ds: seq<nat>, pos: nat)
    requires pos <= |ds|
    ensures Holds(ds, pos, ds[pos..])
    decreases |ds| - pos
  {
    if pos < |ds| {
      HoldsSuffix(ds, pos + 1);
      assert ds[pos..][1..] == ds[pos + 1..];
    }
  }

  lemma {:induction false} ModOfSmaller(a: nat, m: nat)
    requires a < m
    ensures a % m == a
  {
  }

  lemma SpanFromDraws(draws: Stream, p: nat, sp: Span)
    requires SpanInRange(sp)
    requires Holds(draws, p, [sp.start, sp.end])
    ensures SpanAt(draws, p) == sp
  {
    HoldsAt(draws, p, [sp.start, sp.end], 0);
    HoldsAt(draws, p, [sp.start, sp.end], 1);
    ModOfSmaller(sp.start, UsizeBound);
    ModOfSmaller(sp.end, UsizeBound);
  }

  function OpIndex(op: BinOp): (k: nat)
    ensures k < 4 && OpOfDraw(k) == op
  {
    match op
    case Add => 0
    case Sub => 1
    case Mul => 2
    case Div => 3
  }

  /** The two draws `gen_slice` needs to return `name`. */
  ghost function SliceDraws(name: string, source: string): (ds: seq<nat>)
    requires IsSliceOf(name, source)
    ensures |ds| == 2
    ensures ds[0] < |source| && ds[1] < |source| - ds[0]
    ensures name == source[ds[0]..ds[0] + ds[1]]
  {
    var i, j :| 0 <= i <= j < |source| && name == source[i..j];
    [i, j - i]
  }

  /** Draws that make a build at `depth` with `width` return `e`. */
  ghost function ExprDraws(e: Expr, depth: nat, width: nat, source: string): seq<nat>
    requires ExprFits(e, depth, width, source)
    decreases e
  {
    ExprKindDraws(e.kind, depth, width, source) + [e.span.start, e.span.end]
  }

  /** The draws for the kind of `e`, which come before those of its span. */
  ghost function ExprKindDraws(k: ExprKind, depth: nat, width: nat, source: string): seq<nat>
    requires ExprKindFits(k, depth, width, source)
    decreases k
  {
    match k
    case Variable(n) => SliceDraws(n, source)
    case Binary(l, op, r) =>
      [0] + ExprDraws(l, depth - 1, width - 2, source) + ExprDraws(r, depth - 1, width - 2, source) + [OpIndex(op)]
    case Comma(c) => [1, |c|] + ExprsDraws(c, depth - 1, width - |c|, source)
    case Grouping(g) => [2] + ExprDraws(g, depth - 1, width, source)
  }

  ghost function ExprsDraws(c: seq<Expr>, depth: nat, width: nat, source: string): seq<nat>
    requires ExprsFit(c, depth, width, source)
    decreases c
  {
    if c == [] then []
    else ExprsDraws(c[..|c| - 1], depth, width, source) + ExprDraws(c[|c| - 1], depth, width, source)
  }

  ghost function StmtDraws(s: Stmt, depth: nat, width: nat, source: string): seq<nat>
    requires StmtFits(s, depth, width, source)
    decreases s
  {
    StmtKindDraws(s.kind, depth, width, source) + [s.span.start, s.span.end]
  }

  ghost function StmtKindDraws(k: StmtKind, depth: nat, width: nat, source: string): seq<nat>
    requires StmtKindFits(k, depth, width, source)
    decreases k
  {
    match k
    case VarDecl(n, _) => SliceDraws(n, source) + [0]
    case List(c) => [0, |c|] + StmtsDraws(c, depth - 1, width - |c|, source)
    case ExprStmt(e) => [1] + ExprDraws(e, depth - 1, width, source)
  }

  ghost function StmtsDraws(c: seq<Stmt>, depth: nat, width: nat, source: string): seq<nat>
    requires StmtsFit(c, depth, width, source)
    decreases c
  {
    if c == [] then []
    else StmtsDraws(c[..|c| - 1], depth, width, source) + StmtDraws(c[|c| - 1], depth, width, source)
  }

  lemma SliceFromDraws(source: string, name: string, draws: Stream, pos: nat)
    requires |source| > 0
    requires IsSliceOf(name, source)
    requires Holds(draws, pos, SliceDraws(name, source))
    ensures Slice(source, draws, pos) == (name, pos + 2)
  {
    var ds := SliceDraws(name, source);
    HoldsAt(draws, pos, ds, 0);
    HoldsAt(draws, pos, ds, 1);
    ModOfSmaller(ds[0], |source|);
    ModOfSmaller(ds[1], |source| - ds[0]);
    var start := DrawRange(draws, pos, 0, |source|);
    assert start == ds[0];
    assert DrawRange(draws, pos + 1, start, |source|) == ds[0] + ds[1];
  }

  lemma {:induction false} EncodedExprBuilds(e: Expr, depth: nat, width: nat, source: string, draws: Stream, pos: nat)
    requires |source| > 0
    requires ExprFits(e, depth, width, source)
    requires Holds(draws, pos, ExprDraws(e, depth, width, source))
    ensures BuildExpr(source, depth, width, draws, pos) == (e, pos + |ExprDraws(e, depth, width, source)|)
    decreases e, 2
  {
    var kindDraws := ExprKindDraws(e.kind, depth, width, source);
    HoldsSplit(draws, pos, kindDraws, [e.span.start, e.span.end]);
    SpanFromDraws(draws, pos + |kindDraws|, e.span);
    EncodedExprKindBuilds(e, depth, width, source, draws, pos);
  }

  lemma {:induction false} EncodedExprKindBuilds(e: Expr, depth: nat, width: nat, source: string, draws: Stream, pos: nat)
    requires |source| > 0
    requires ExprFits(e, depth, width, source)
    requires Holds(draws, pos, ExprKindDraws(e.kind, depth, width, source))
    ensures BuildExprKind(source, depth, width, draws, pos) == (e.kind, pos + |ExprKindDraws(e.kind, depth, width, source)|)
    decreases e, 1
  {
    match e.kind
    case Variable(n) =>
      SliceFromDraws(source, n, draws, pos);
    case Binary(_, _, _) =>
      EncodedBinaryBuilds(e, depth, width, source, draws, pos);
    case Comma(_) =>
      EncodedCommaBuilds(e, depth, width, source, draws, pos);
    case Grouping(_) =>
      EncodedGroupingBuilds(e, depth, width, source, draws, pos);
  }

  lemma {:induction false} EncodedBinaryBuilds(e: Expr, depth: nat, width: nat, source: string, draws: Stream, pos: nat)
    requires |source| > 0
    requires e.kind.Binary? && ExprFits(e, depth, width, source)
    requires Holds(draws, pos, ExprKindDraws(e.kind, depth, width, source))
    ensures BuildExprKind(source, depth, width, draws, pos) == (e.kind, pos + |ExprKindDraws(e.kind, depth, width, source)|)
    decreases e, 0
  {
    var l, op, r := e.kind.left, e.kind.op, e.kind.right;
    var dl := ExprDraws(l, depth - 1, width - 2, source);
    var dr := ExprDraws(r, depth - 1, width - 2, source);
    assert ExprKindDraws(e.kind, depth, width, source) == [0] + dl + dr + [OpIndex(op)];
    HoldsSplit(draws, pos, [0] + dl + dr, [OpIndex(op)]);
    HoldsSplit(draws, pos, [0] + dl, dr);
    HoldsSplit(draws, pos, [0], dl);
    HoldsAt(draws, pos, [0], 0);
    EncodedExprBuilds(l, depth - 1, width - 2, source, draws, pos + 1);
    EncodedExprBuilds(r, depth - 1, width - 2, source, draws, pos + 1 + |dl|);
    var opPos := pos + 1 + |dl| + |dr|;
    HoldsAt(draws, opPos, [OpIndex(op)], 0);
    assert BuildExprKind(source, depth, width, draws, pos)
        == (Binary(l, OpOfDraw(DrawRange(draws, opPos, 0, 4)), r), opPos + 1);
  }

  lemma {:induction false} EncodedCommaBuilds(e: Expr, depth: nat, width: nat, source: string, draws: Stream, pos: nat)
    requires |source| > 0
    requires e.kind.Comma? && ExprFits(e, depth, width, source)
    requires Holds(draws, pos, ExprKindDraws(e.kind, depth, width, source))
    ensures BuildExprKind(source, depth, width, draws, pos) == (e.kind, pos + |ExprKindDraws(e.kind, depth, width, source)|)
    decreases e, 0
  {
    var c := e.kind.exprs;
    var dc := ExprsDraws(c, depth - 1, width - |c|, source);
    assert ExprKindDraws(e.kind, depth, width, source) == [1, |c|] + dc;
    HoldsSplit(draws, pos, [1, |c|], dc);
    HoldsAt(draws, pos, [1, |c|], 0);
    HoldsAt(draws, pos, [1, |c|], 1);
    assert DrawRange(draws, pos, 0, 3) == 1;
    ModOfSmaller(|c|, width);
    assert DrawRange(draws, pos + 1, 0, width) == |c|;
    EncodedExprsBuild(c, depth - 1, width - |c|, source, draws, pos + 2);
  }

  lemma {:induction false} EncodedGroupingBuilds(e: Expr, depth: nat, width: nat, source: string, draws: Stream, pos: nat)
    requires |source| > 0
    requires e.kind.Grouping? && ExprFits(e, depth, width, source)
    requires Holds(draws, pos, ExprKindDraws(e.kind, depth, width, source))
    ensures BuildExprKind(source, depth, width, draws, pos) == (e.kind, pos + |ExprKindDraws(e.kind, depth, width, source)|)
    decreases e, 0
  {
    var g := e.kind.inner;
    var dg := ExprDraws(g, depth - 1, width, source);
    assert ExprKindDraws(e.kind, depth, width, source) == [2] + dg;
    HoldsSplit(draws, pos, [2], dg);
    HoldsAt(draws, pos, [2], 0);
    assert DrawRange(draws, pos, 0, 3) == 2;
    EncodedExprBuilds(g, depth - 1, width, source, draws, pos + 1);
  }

  lemma {:induction false} EncodedExprsBuild(c: seq<Expr>, depth: nat, width: nat, source: string, draws: Stream, pos: nat)
    requires |source| > 0
    requires ExprsFit(c, depth, width, source)
    requires Holds(draws, pos, ExprsDraws(c, depth, width, source))
    ensures BuildExprs(source, depth, width, |c|, draws, pos) == (c, pos + |ExprsDraws(c, depth, width, source)|)
    decreases c, 3
  {
    if c != [] {
      var front, last := c[..|c| - 1], c[|c| - 1];
      var df := ExprsDraws(front, depth, width, source);
      var dl := ExprDraws(last, depth, width, source);
      HoldsSplit(draws, pos, df, dl);
      EncodedExprsBuild(front, depth, width, source, draws, pos);
      EncodedExprBuilds(last, depth, width, source, draws, pos + |df|);
      BuildExprsSnoc(source, depth, width, draws, pos, front, last);
      assert front + [last] == c;
    }
  }

  /** One more element built after `front` is appended to it. */
  lemma BuildExprsSnoc(source: string, depth: nat, width: nat, draws: Stream, pos: nat, front: seq<Expr>, last: Expr)
    requires |source| > 0
    requires BuildExprs(source, depth, width, |front|, draws, pos).0 == front
    requires BuildExpr(source, depth, width, draws, BuildExprs(source, depth, width, |front|, draws, pos).1).0 == last
    ensures BuildExprs(source, depth, width, |front| + 1, draws, pos)
         == (front + [last], BuildExpr(source, depth, width, draws, BuildExprs(source, depth, width, |front|, draws, pos).1).1)
  {
  }

  lemma {:induction false} EncodedStmtBuilds(s: Stmt, depth: nat, width: nat, source: string, draws: Stream, pos: nat)
    requires |source| > 0
    requires StmtFits(s, depth, width, source)
    requires Holds(draws, pos, StmtDraws(s, depth, width, source))
    ensures BuildStmt(source, depth, width, draws, pos) == Ok((s, pos + |StmtDraws(s, depth, width, source)|))
    decreases s, 2
  {
    var kindDraws := StmtKindDraws(s.kind, depth, width, source);
    HoldsSplit(draws, pos, kindDraws, [s.span.start, s.span.end]);
    SpanFromDraws(draws, pos + |kindDraws|, s.span);
    EncodedStmtKindBuilds(s, depth, width, source, draws, pos);
  }

  lemma {:induction false} EncodedStmtKindBuilds(s: Stmt, depth: nat, width: nat, source: string, draws: Stream, pos: nat)
    requires |source| > 0
    requires StmtFits(s, depth, width, source)
    requires Holds(draws, pos, StmtKindDraws(s.kind, depth, width, source))
    ensures BuildStmtKind(source, depth, width, draws, pos) == Ok((s.kind, pos + |StmtKindDraws(s.kind, depth, width, source)|))
    decreases s, 1
  {
    match s.kind
    case VarDecl(_, _) =>
      EncodedVarDeclBuilds(s, width, source, draws, pos);
    case List(_) =>
      EncodedListBuilds(s, depth, width, source, draws, pos);
    case ExprStmt(_) =>
      EncodedExprStmtBuilds(s, depth, width, source, draws, pos);
  }

  lemma EncodedVarDeclBuilds(s: Stmt, width: nat, source: string, draws: Stream, pos: nat)
    requires |source| > 0
    requires s.kind.VarDecl? && StmtFits(s, 0, width, source)
    requires Holds(draws, pos, StmtKindDraws(s.kind, 0, width, source))
    ensures BuildStmtKind(source, 0, width, draws, pos) == Ok((s.kind, pos + |StmtKindDraws(s.kind, 0, width, source)|))
  {
    var n := s.kind.name;
    var dn := SliceDraws(n, source);
    assert StmtKindDraws(s.kind, 0, width, source) == dn + [0];
    HoldsSplit(draws, pos, dn, [0]);
    SliceFromDraws(source, n, draws, pos);
    HoldsAt(draws, pos + 2, [0], 0);
    assert !DrawBool(draws, pos + 2);
  }

  lemma {:induction false} EncodedListBuilds(s: Stmt, depth: nat, width: nat, source: string, draws: Stream, pos: nat)
    requires |source| > 0
    requires s.kind.List? && StmtFits(s, depth, width, source)
    requires Holds(draws, pos, StmtKindDraws(s.kind, depth, width, source))
    ensures BuildStmtKind(source, depth, width, draws, pos) == Ok((s.kind, pos + |StmtKindDraws(s.kind, depth, width, source)|))
    decreases s, 0
  {
    var c := s.kind.stmts;
    ListDraws(s, depth, width, source, draws, pos);
    EncodedStmtsBuild(c, depth - 1, width - |c|, source, draws, pos + 2);
    assert BuildStmtKind(source, depth, width, draws, pos) == BuildList(source, depth, width, draws, pos + 1);
  }

  /** The encoding of a list: the coin for a list, its length, then its elements' draws. */
  lemma ListDraws(s: Stmt, depth: nat, width: nat, source: string, draws: Stream, pos: nat)
    requires s.kind.List? && StmtFits(s, depth, width, source)
    requires Holds(draws, pos, StmtKindDraws(s.kind, depth, width, source))
    ensures depth > 0 && |s.kind.stmts| < width
    ensures StmtsFit(s.kind.stmts, depth - 1, width - |s.kind.stmts|, source)
    ensures !DrawBool(draws, pos)
    ensures DrawRange(draws, pos + 1, 0, width) == |s.kind.stmts|
    ensures Holds(draws, pos + 2, StmtsDraws(s.kind.stmts, depth - 1, width - |s.kind.stmts|, source))
    ensures |StmtKindDraws(s.kind, depth, width, source)|
         == 2 + |StmtsDraws(s.kind.stmts, depth - 1, width - |s.kind.stmts|, source)|
  {
    var c := s.kind.stmts;
    var dc := StmtsDraws(c, depth - 1, width - |c|, source);
    assert StmtKindDraws(s.kind, depth, width, source) == [0, |c|] + dc;
    HoldsSplit(draws, pos, [0, |c|], dc);
    HoldsAt(draws, pos, [0, |c|], 0);
    HoldsAt(draws, pos, [0, |c|], 1);
    ModOfSmaller(|c|, width);
  }

  lemma {:induction false} EncodedExprStmtBuilds(s: Stmt, depth: nat, width: nat, source: string, draws: Stream, pos: nat)
    requires |source| > 0
    requires s.kind.ExprStmt? && StmtFits(s, depth, width, source)
    requires Holds(draws, pos, StmtKindDraws(s.kind, depth, width, source))
    ensures BuildStmtKind(source, depth, width, draws, pos) == Ok((s.kind, pos + |StmtKindDraws(s.kind, depth, width, source)|))
    decreases s, 0
  {
    var e := s.kind.expr;
    var de := ExprDraws(e, depth - 1, width, source);
    assert StmtKindDraws(s.kind, depth, width, source) == [1] + de;
    HoldsSplit(draws, pos, [1], de);
    HoldsAt(draws, pos, [1], 0);
    assert DrawBool(draws, pos);
    EncodedExprBuilds(e, depth - 1, width, source, draws, pos + 1);
  }

  lemma {:induction false} EncodedStmtsBuild(c: seq<Stmt>, depth: nat, width: nat, source: string, draws: Stream, pos: nat)
    requires |source| > 0
    requires StmtsFit(c, depth, width, source)
    requires Holds(draws, pos, StmtsDraws(c, depth, width, source))
    ensures BuildStmts(source, depth, width, |c|, draws, pos).Ok?
    ensures BuildStmts(source, depth, width, |c|, draws, pos).value.0 == c
    ensures BuildStmts(source, depth, width, |c|, draws, pos).value.1 == pos + |StmtsDraws(c, depth, width, source)|
    decreases c, 3
  {
    if c != [] {
      var front, last := c[..|c| - 1], c[|c| - 1];
      StmtsDrawsSplit(c, depth, width, source, draws, pos);
      var mid := pos + |StmtsDraws(front, depth, width, source)|;
      EncodedStmtsBuild(front, depth, width, source, draws, pos);
      EncodedStmtBuilds(last, depth, width, source, draws, mid);
      BuildStmtsStep(source, depth, width, draws, pos, c, mid, mid + |StmtDraws(last, depth, width, source)|);
    }
  }

  lemma StmtsDrawsSplit(c: seq<Stmt>, depth: nat, width: nat, source: string, draws: Stream, pos: nat)
    requires c != [] && StmtsFit(c, depth, width, source)
    requires Holds(draws, pos, StmtsDraws(c, depth, width, source))
    ensures StmtsFit(c[..|c| - 1], depth, width, source) && StmtFits(c[|c| - 1], depth, width, source)
    ensures Holds(draws, pos, StmtsDraws(c[..|c| - 1], depth, width, source))
    ensures Holds(draws, pos + |StmtsDraws(c[..|c| - 1], depth, width, source)|, StmtDraws(c[|c| - 1], depth, width, source))
    ensures |StmtsDraws(c, depth, width, source)|
         == |StmtsDraws(c[..|c| - 1], depth, width, source)| + |StmtDraws(c[|c| - 1], depth, width, source)|
  {
    StmtsDrawsSnoc(c, depth, width, source);
    HoldsSplit(draws, pos, StmtsDraws(c[..|c| - 1], depth, width, source), StmtDraws(c[|c| - 1], depth, width, source));
  }

  /** The draws of a nonempty list are those of all but its last element, then the last one's. */
  lemma StmtsDrawsSnoc(c: seq<Stmt>, depth: nat, width: nat, source: string)
    requires c != [] && StmtsFit(c, depth, width, source)
    ensures StmtsFit(c[..|c| - 1], depth, width, source) && StmtFits(c[|c| - 1], depth, width, source)
    ensures StmtsDraws(c, depth, width, source)
         == StmtsDraws(c[..|c| - 1], depth, width, source) + StmtDraws(c[|c| - 1], depth, width, source)
  {
  }

  lemma BuildStmtsStep(source: string, depth: nat, width: nat, draws: Stream, pos: nat,
                       c: seq<Stmt>, mid: nat, end: nat)
    requires |source| > 0
    requires c != []
    requires BuildStmts(source, depth, width, |c| - 1, draws, pos).Ok?
    requires BuildStmts(source, depth, width, |c| - 1, draws, pos).value.0 == c[..|c| - 1]
    requires BuildStmts(source, depth, width, |c| - 1, draws, pos).value.1 == mid
    requires BuildStmt(source, depth, width, draws, mid) == Ok((c[|c| - 1], end))
    ensures BuildStmts(source, depth, width, |c|, draws, pos).Ok?
    ensures BuildStmts(source, depth, width, |c|, draws, pos).value.0 == c
    ensures BuildStmts(source, depth, width, |c|, draws, pos).value.1 == end
  {
    assert c[..|c| - 1] + [c[|c| - 1]] == c;
  }

  /**
   * The trees a statement build can return are exactly the fitting ones: a
   * build that returns `s` means `s` fits, and a fitting `s` is what the build
   * returns on the stream of its own draws.
   */
  lemma BuildableIffFits(source: string, depth: nat, width: nat, s: Stmt, draws: Stream, pos: nat)
    requires |source| > 0
    ensures TreeOf(BuildStmt(source, depth, width, draws, pos)) == Ok(s) ==> StmtFits(s, depth, width, source)
    ensures StmtFits(s, depth, width, source) ==>
      TreeOf(BuildStmt(source, depth, width, StmtDraws(s, depth, width, source), 0)) == Ok(s)
  {
    BuildStmtFits(source, depth, width, draws, pos);
    if StmtFits(s, depth, width, source) {
      var ds := StmtDraws(s, depth, width, source);
      HoldsSuffix(ds, 0);
      assert ds[0..] == ds;
      EncodedStmtBuilds(s, depth, width, source, ds, 0);
    }
  }

  // ---------------------------------------------------------------------------
  // Consequences

  lemma {:induction false} ExprFitsHeight(e: Expr, depth: nat, width: nat, source: string)
    requires ExprFits(e, depth, width, source)
    ensures ExprHeight(e) <= depth
    decreases e
  {
    match e.kind
    case Variable(_) =>
    case Binary(l, _, r) =>
      ExprFitsHeight(l, depth - 1, width - 2, source);
      ExprFitsHeight(r, depth - 1, width - 2, source);
    case Grouping(g) =>
      ExprFitsHeight(g, depth - 1, width, source);
    case Comma(c) =>
      ExprsFitHeight(c, depth - 1, width - |c|, source);
  }

  lemma {:induction false} ExprsFitHeight(c: seq<Expr>, depth: nat, width: nat, source: string)
    requires ExprsFit(c, depth, width, source)
    ensures ExprsHeight(c) <= depth
    decreases c
  {
    if c != [] {
      ExprsFitHeight(c[..|c| - 1], depth, width, source);
      ExprFitsHeight(c[|c| - 1], depth, width, source);
    }
  }

  /** A fitting statement is no deeper than the depth it was built at. */
  lemma {:induction false} StmtFitsHeight(s: Stmt, depth: nat, width: nat, source: string)
    requires StmtFits(s, depth, width, source)
    ensures StmtHeight(s) <= depth
    decreases s
  {
    match s.kind
    case VarDecl(_, _) =>
    case ExprStmt(e) =>
      ExprFitsHeight(e, depth - 1, width, source);
    case List(c) =>
      StmtsFitHeight(c, depth - 1, width - |c|, source);
  }

  lemma {:induction false} StmtsFitHeight(c: seq<Stmt>, depth: nat, width: nat, source: string)
    requires StmtsFit(c, depth, width, source)
    ensures StmtsHeight(c) <= depth
    decreases c
  {
    if c != [] {
      StmtsFitHeight(c[..|c| - 1], depth, width, source);
      StmtFitsHeight(c[|c| - 1], depth, width, source);
    }
  }

  /** A fitting statement holds no placeholder. */
  lemma {:induction false} StmtFitsHasNoNull(s: Stmt, depth: nat, width: nat, source: string)
    requires StmtFits(s, depth, width, source)
    ensures !HasNull(s)
    decreases s
  {
    match s.kind
    case VarDecl(_, _) =>
    case ExprStmt(_) =>
    case List(c) =>
      StmtsFitHaveNoNull(c, depth - 1, width - |c|, source);
  }

  lemma {:induction false} StmtsFitHaveNoNull(c: seq<Stmt>, depth: nat, width: nat, source: string)
    requires StmtsFit(c, depth, width, source)
    ensures forall k :: 0 <= k < |c| ==> !HasNull(c[k])
    decreases c
  {
    if c != [] {
      StmtsFitHaveNoNull(c[..|c| - 1], depth, width, source);
      StmtFitsHasNoNull(c[|c| - 1], depth, width, source);
      assert forall k :: 0 <= k < |c| - 1 ==> c[k] == c[..|c| - 1][k];
    }
  }

  /**
   * At depth 0 the build is a declaration, and it fails exactly when the
   * initializer coin (the draw after the name's two) comes up true: the
   * initializer would be built at depth `0 - 1`.
   */
  lemma LeafUnderflow(source: string, width: nat, draws: Stream, pos: nat)
    requires |source| > 0
    ensures var r := BuildStmt(source, 0, width, draws, pos);
            && (r.Err? <==> DrawBool(draws, pos + 2))
            && (r.Err? ==> r.error == DepthUnderflow)
            && (r.Ok? ==> r.value.0.kind.VarDecl? && r.value.0.kind.initializer.None?)
  {
  }

  /**
   * Above depth 0 with width 0, the build fails exactly when the first coin
   * asks for a list, whose count would be drawn from an empty range; the other
   * coin gives an expression statement.
   */
  lemma EmptyWidthList(source: string, depth: nat, draws: Stream, pos: nat)
    requires |source| > 0
    requires depth > 0
    ensures var r := BuildStmt(source, depth, 0, draws, pos);
            && (r.Err? <==> !DrawBool(draws, pos))
            && (r.Err? ==> r.error == EmptyRange)
            && (r.Ok? ==> r.value.0.kind.ExprStmt?)
  {
    var k := BuildStmtKind(source, depth, 0, draws, pos);
    if !DrawBool(draws, pos) {
      assert BuildList(source, depth, 0, draws, pos + 1) == Err(EmptyRange);
    } else {
      assert k.Ok? && k.value.0.ExprStmt?;
    }
  }

  /**
   * A width of at least 1 at the root rules out the empty-range failure
   * everywhere below it: a list of `count` statements gives each of them
   * `width - count`, which is at least 1 again. Only the depth underflow is left.
   */
  lemma {:induction false} NoEmptyRange(source: string, depth: nat, width: nat, draws: Stream, pos: nat)
    requires |source| > 0
    requires width >= 1
    ensures var r := BuildStmt(source, depth, width, draws, pos);
            r.Err? ==> r.error == DepthUnderflow
    decreases depth, 3
  {
    var k := BuildStmtKind(source, depth, width, draws, pos);
    if depth > 0 && !DrawBool(draws, pos) {
      var count := DrawRange(draws, pos + 1, 0, width);
      NoEmptyRangeInList(source, depth - 1, width - count, count, draws, pos + 2);
      var c := BuildStmts(source, depth - 1, width - count, count, draws, pos + 2);
      assert k == BuildList(source, depth, width, draws, pos + 1);
      assert k.Err? ==> c.Err? && k.error == c.error;
    } else if depth > 0 {
      assert k == BuildExprStmt(source, depth, width, draws, pos + 1);
    } else {
      assert k == BuildDecl(source, draws, pos);
    }
    assert k.Err? ==> k.error == DepthUnderflow;
  }

  lemma {:induction false} NoEmptyRangeInList(source: string, depth: nat, width: nat, count: nat,
                                              draws: Stream, pos: nat)
    requires |source| > 0
    requires width >= 1
    ensures var r := BuildStmts(source, depth, width, count, draws, pos);
            r.Err? ==> r.error == DepthUnderflow
    decreases depth + 1, 0, count
  {
    if count > 0 {
      NoEmptyRangeInList(source, depth, width, count - 1, draws, pos);
      var c := BuildStmts(source, depth, width, count - 1, draws, pos);
      if c.Ok? {
        NoEmptyRange(source, depth, width, draws, c.value.1);
      }
    }
  }

  /**
   * With the source "source", depth 0 and width 0, a build either fails on
   * the initializer coin or returns one declaration without initializer whose
   * name is a slice of "source" shorter than it.
   */
  lemma ScenarioDepthZero(draws: Stream)
    ensures var r := TreeOf(BuildStmt("source", 0, 0, draws, 0));
            r.Ok? ==>
              && r.value.kind.VarDecl?
              && r.value.kind.initializer.None?
              && IsSliceOf(r.value.kind.name, "source")
              && |r.value.kind.name| < 6
              && StmtHeight(r.value) == 0
  {
    BuildStmtFits("source", 0, 0, draws, 0);
  }

  /**
   * Building and then wrangling: the tree that comes out holds no placeholder,
   * no grouping and no `-` or `/`, keeps the built tree's names, and, like the
   * built tree, is no taller than the build depth.
   */
  lemma BuildThenWrangle(source: string, depth: nat, width: nat, draws: Stream, pos: nat)
    requires |source| > 0
    ensures var r := BuildStmt(source, depth, width, draws, pos);
            r.Ok? ==>
              && !HasNull(WrangledStmt(r.value.0))
              && SettledStmt(WrangledStmt(r.value.0))
              && multiset(StmtNames(WrangledStmt(r.value.0))) == multiset(StmtNames(r.value.0))
              && StmtHeight(r.value.0) <= depth
              && StmtHeight(WrangledStmt(r.value.0)) <= depth
  {
    var r := BuildStmt(source, depth, width, draws, pos);
    if r.Ok? {
      BuildStmtFits(source, depth, width, draws, pos);
      StmtFitsHasNoNull(r.value.0, depth, width, source);
      StmtFitsHeight(r.value.0, depth, width, source);
      WrangledHasNull(r.value.0);
      WrangledStmtIsSettled(r.value.0);
      WrangledStmtKeepsNames(r.value.0);
      WrangledStmtHeight(r.value.0);
    }
  }
}
