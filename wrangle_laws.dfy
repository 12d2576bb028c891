/**
 * What one `wrangle` pass guarantees about the tree it leaves behind and about
 * what it feeds the accumulator.
 */
module WrangleLaws {
  import opened Ast
  import opened Hashing
  import opened Sequences
  import opened Wrangle

  /**
   * The shape every wrangled expression has: no grouping anywhere, and only
   * `+` and `*` left as binary operators.
   */
  predicate Settled(e: Expr)
    decreases e
  {
    match e.kind
    case Variable(_) => true
    case Binary(l, op, r) => Commutes(op) && Settled(l) && Settled(r)
    case Grouping(_) => false
    case Comma(c) => forall k :: 0 <= k < |c| ==> Settled(c[k])
  }

  predicate SettledStmt(s: Stmt)
    decreases s
  {
    match s.kind
    case VarDecl(_, init) => init.Some? ==> Settled(init.value)
    case List(c) => forall k :: 0 <= k < |c| ==> SettledStmt(c[k])
    case ExprStmt(e) => Settled(e)
    case NullNode => true
  }

  // ---------------------------------------------------------------------------
  // Binary and grouping nodes

  /**
   * A `+` or `*` node keeps its operator and gets its rewritten operands in
   * swapped places; a `-` or `/` node becomes the comma list of its rewritten
   * operands, left first. Either way the node keeps its span.
   */
  lemma BinaryRewrite(e: Expr)
    requires e.kind.Binary?
    ensures Commutes(e.kind.op) ==>
      Wrangled(e) == Expr(Binary(Wrangled(e.kind.right), e.kind.op, Wrangled(e.kind.left)), e.span)
    ensures !Commutes(e.kind.op) ==>
      Wrangled(e) == Expr(Comma([Wrangled(e.kind.left), Wrangled(e.kind.right)]), e.span)
  {
  }

  /** A grouping takes on the kind of its rewritten contents and keeps its own span. */
  lemma GroupingCollapses(e: Expr)
    requires e.kind.Grouping?
    ensures Wrangled(e) == Expr(Wrangled(e.kind.inner).kind, e.span)
  {
  }

  // ---------------------------------------------------------------------------
  // Comma and list elements: rewritten left to right, then reversed

  /** The element at index `k` of a comma list ends, rewritten, at index `n - 1 - k`. */
  lemma CommaReversal(e: Expr, k: nat)
    requires e.kind.Comma? && k < |e.kind.exprs|
    ensures Wrangled(e).kind.Comma?
    ensures |Wrangled(e).kind.exprs| == |e.kind.exprs|
    ensures Wrangled(e).kind.exprs[|e.kind.exprs| - 1 - k] == Wrangled(e.kind.exprs[k])
  {
    ReversedAt(WrangledExprs(e.kind.exprs), k);
  }

  /** The statement at index `k` of a list ends, rewritten, at index `n - 1 - k`. */
  lemma ListReversal(s: Stmt, k: nat)
    requires s.kind.List? && k < |s.kind.stmts|
    ensures WrangledStmt(s).kind.List?
    ensures |WrangledStmt(s).kind.stmts| == |s.kind.stmts|
    ensures WrangledStmt(s).kind.stmts[|s.kind.stmts| - 1 - k] == WrangledStmt(s.kind.stmts[k])
  {
    ReversedAt(WrangledStmts(s.kind.stmts), k);
  }

  // ---------------------------------------------------------------------------
  // One pass removes every grouping and every `-` and `/`

  lemma {:induction false} WrangledIsSettled(e: Expr)
    ensures Settled(Wrangled(e))
    decreases e
  {
    match e.kind
    case Variable(_) =>
    case Binary(l, _, r) =>
      WrangledIsSettled(l);
      WrangledIsSettled(r);
    case Grouping(g) =>
      WrangledIsSettled(g);
    case Comma(c) =>
      var w := WrangledExprs(c);
      ReversedIndices(w);
      forall k | 0 <= k < |c| ensures Settled(Reversed(w)[k]) {
        WrangledIsSettled(c[|c| - 1 - k]);
      }
  }

  lemma {:induction false} WrangledStmtIsSettled(s: Stmt)
    ensures SettledStmt(WrangledStmt(s))
    decreases s
  {
    match s.kind
    case VarDecl(_, init) =>
      if init.Some? {
        WrangledIsSettled(init.value);
      }
    case List(c) =>
      var w := WrangledStmts(c);
      ReversedIndices(w);
      forall k | 0 <= k < |c| ensures SettledStmt(Reversed(w)[k]) {
        WrangledStmtIsSettled(c[|c| - 1 - k]);
      }
    case ExprStmt(e) =>
      WrangledIsSettled(e);
    case NullNode =>
  }

  // ---------------------------------------------------------------------------
  // On a settled tree a pass is its own inverse, so passes after the first
  // alternate between two trees

  lemma {:induction false} SettledInvolution(e: Expr)
    requires Settled(e)
    ensures Wrangled(Wrangled(e)) == e
    decreases e
  {
    match e.kind
    case Variable(_) =>
    case Binary(l, _, r) =>
      SettledInvolution(l);
      SettledInvolution(r);
    case Comma(c) =>
      var w := WrangledExprs(c);
      var w2 := WrangledExprs(Reversed(w));
      ReversedIndices(w);
      ReversedIndices(w2);
      forall k | 0 <= k < |c| ensures Reversed(w2)[k] == c[k] {
        SettledInvolution(c[k]);
      }
      assert Reversed(w2) == c;
  }

  lemma {:induction false} SettledStmtInvolution(s: Stmt)
    requires SettledStmt(s)
    ensures WrangledStmt(WrangledStmt(s)) == s
    decreases s
  {
    match s.kind
    case VarDecl(_, init) =>
      if init.Some? {
        SettledInvolution(init.value);
      }
    case List(c) =>
      var w := WrangledStmts(c);
      var w2 := WrangledStmts(Reversed(w));
      ReversedIndices(w);
      ReversedIndices(w2);
      forall k | 0 <= k < |c| ensures Reversed(w2)[k] == c[k] {
        SettledStmtInvolution(c[k]);
      }
      assert Reversed(w2) == c;
    case ExprStmt(e) =>
      SettledInvolution(e);
    case NullNode =>
  }

  /** A third pass gives back what the first one made. */
  lemma WrangleThrice(e: Expr)
    ensures Wrangled(Wrangled(Wrangled(e))) == Wrangled(e)
  {
    WrangledIsSettled(e);
    SettledInvolution(Wrangled(e));
  }

  lemma WrangleStmtThrice(s: Stmt)
    ensures WrangledStmt(WrangledStmt(WrangledStmt(s))) == WrangledStmt(s)
  {
    WrangledStmtIsSettled(s);
    SettledStmtInvolution(WrangledStmt(s));
  }

  // ---------------------------------------------------------------------------
  // The placeholder never appears unless it was there

  lemma {:induction false} WrangledHasNull(s: Stmt)
    ensures HasNull(WrangledStmt(s)) <==> HasNull(s)
    decreases s
  {
    match s.kind
    case VarDecl(_, _) =>
    case ExprStmt(_) =>
    case NullNode =>
    case List(c) =>
      var w := WrangledStmts(c);
      forall j | 0 <= j < |c| ensures HasNull(w[j]) <==> HasNull(c[j]) {
        WrangledHasNull(c[j]);
      }
      ReversalKeepsSomeNull(c, w);
      assert WrangledStmt(s).kind == List(Reversed(w));
  }

  /** Reversing a list whose members agree one by one on containing a null keeps whether some member does. */
  lemma ReversalKeepsSomeNull(c: seq<Stmt>, w: seq<Stmt>)
    requires |w| == |c|
    requires forall j :: 0 <= j < |c| ==> (HasNull(w[j]) <==> HasNull(c[j]))
    ensures (exists k :: 0 <= k < |w| && HasNull(Reversed(w)[k])) <==> (exists j :: 0 <= j < |c| && HasNull(c[j]))
  {
    var n := |c|;
    ReversedIndices(w);
    if j :| 0 <= j < n && HasNull(c[j]) {
      assert HasNull(Reversed(w)[n - 1 - j]);
    }
    if k :| 0 <= k < n && HasNull(Reversed(w)[k]) {
      assert HasNull(c[n - 1 - k]);
    }
  }

  // ---------------------------------------------------------------------------
  // Height: a pass never makes a tree taller

  /** No element of a sequence is taller than the sequence's height. */
  lemma {:induction false} ExprsHeightAtLeast(c: seq<Expr>, k: nat)
    requires k < |c|
    ensures ExprHeight(c[k]) <= ExprsHeight(c)
    decreases |c|
  {
    if k < |c| - 1 {
      ExprsHeightAtLeast(c[..|c| - 1], k);
    }
  }

  /** A bound on every element bounds the sequence's height. */
  lemma {:induction false} ExprsHeightAtMost(c: seq<Expr>, h: nat)
    requires forall k :: 0 <= k < |c| ==> ExprHeight(c[k]) <= h
    ensures ExprsHeight(c) <= h
    decreases |c|
  {
    if c != [] {
      ExprsHeightAtMost(c[..|c| - 1], h);
    }
  }

  lemma {:induction false} StmtsHeightAtLeast(c: seq<Stmt>, k: nat)
    requires k < |c|
    ensures StmtHeight(c[k]) <= StmtsHeight(c)
    decreases |c|
  {
    if k < |c| - 1 {
      StmtsHeightAtLeast(c[..|c| - 1], k);
    }
  }

  lemma {:induction false} StmtsHeightAtMost(c: seq<Stmt>, h: nat)
    requires forall k :: 0 <= k < |c| ==> StmtHeight(c[k]) <= h
    ensures StmtsHeight(c) <= h
    decreases |c|
  {
    if c != [] {
      StmtsHeightAtMost(c[..|c| - 1], h);
    }
  }

  /**
   * A pass never makes an expression taller: a grouping loses a level, a `-`
   * or `/` trades its binary level for a comma level, and reversal keeps the
   * tallest element.
   */
  lemma {:induction false} WrangledHeight(e: Expr)
    ensures ExprHeight(Wrangled(e)) <= ExprHeight(e)
    decreases e
  {
    match e.kind
    case Variable(_) =>
    case Binary(l, op, r) =>
      WrangledHeight(l);
      WrangledHeight(r);
      if !Commutes(op) {
        ExprsHeightAtMost([Wrangled(l), Wrangled(r)], Max(ExprHeight(l), ExprHeight(r)));
      }
    case Grouping(g) =>
      WrangledHeight(g);
    case Comma(c) =>
      if c != [] {
        var n := |c|;
        var w := WrangledExprs(c);
        ReversedIndices(w);
        forall k | 0 <= k < n ensures ExprHeight(Reversed(w)[k]) <= ExprsHeight(c) {
          WrangledHeight(c[n - 1 - k]);
          ExprsHeightAtLeast(c, n - 1 - k);
        }
        ExprsHeightAtMost(Reversed(w), ExprsHeight(c));
      }
  }

  /** A pass never makes a statement taller. */
  lemma {:induction false} WrangledStmtHeight(s: Stmt)
    ensures StmtHeight(WrangledStmt(s)) <= StmtHeight(s)
    decreases s
  {
    match s.kind
    case VarDecl(_, init) =>
      if init.Some? {
        WrangledHeight(init.value);
      }
    case List(c) =>
      if c != [] {
        var n := |c|;
        var w := WrangledStmts(c);
        ReversedIndices(w);
        forall k | 0 <= k < n ensures StmtHeight(Reversed(w)[k]) <= StmtsHeight(c) {
          WrangledStmtHeight(c[n - 1 - k]);
          StmtsHeightAtLeast(c, n - 1 - k);
        }
        StmtsHeightAtMost(Reversed(w), StmtsHeight(c));
      }
    case ExprStmt(e) =>
      WrangledHeight(e);
    case NullNode =>
  }

  // ---------------------------------------------------------------------------
  // Names: the pass moves leaves around but keeps every one of them

  lemma {:induction false} ExprsNamesAppend(a: seq<Expr>, b: seq<Expr>)
    ensures ExprsNames(a + b) == ExprsNames(a) + ExprsNames(b)
    decreases |b|
  {
    if b == [] {
      assert a + b == a;
    } else {
      ExprsNamesAppend(a, b[..|b| - 1]);
      assert (a + b)[..|a + b| - 1] == a + b[..|b| - 1];
    }
  }

  lemma {:induction false} StmtsNamesAppend(a: seq<Stmt>, b: seq<Stmt>)
    ensures StmtsNames(a + b) == StmtsNames(a) + StmtsNames(b)
    decreases |b|
  {
    if b == [] {
      assert a + b == a;
    } else {
      StmtsNamesAppend(a, b[..|b| - 1]);
      assert (a + b)[..|a + b| - 1] == a + b[..|b| - 1];
    }
  }

  lemma {:induction false} ExprsNamesReversed(c: seq<Expr>)
    ensures multiset(ExprsNames(Reversed(c))) == multiset(ExprsNames(c))
    decreases |c|
  {
    if c != [] {
      var front := c[..|c| - 1];
      ExprsNamesReversed(front);
      ExprsNamesAppend([c[|c| - 1]], Reversed(front));
      assert ExprsNames([c[|c| - 1]]) == ExprNames(c[|c| - 1]) by {
        assert [c[|c| - 1]][..0] == [];
      }
    }
  }

  lemma {:induction false} StmtsNamesReversed(c: seq<Stmt>)
    ensures multiset(StmtsNames(Reversed(c))) == multiset(StmtsNames(c))
    decreases |c|
  {
    if c != [] {
      var front := c[..|c| - 1];
      StmtsNamesReversed(front);
      StmtsNamesAppend([c[|c| - 1]], Reversed(front));
      assert StmtsNames([c[|c| - 1]]) == StmtNames(c[|c| - 1]) by {
        assert [c[|c| - 1]][..0] == [];
      }
    }
  }

  /** The names of the rewritten expression are those of the original, each as often. */
  lemma {:induction false} WrangledKeepsNames(e: Expr)
    ensures multiset(ExprNames(Wrangled(e))) == multiset(ExprNames(e))
    decreases e
  {
    match e.kind
    case Variable(_) =>
    case Binary(l, op, r) =>
      WrangledKeepsNames(l);
      WrangledKeepsNames(r);
      if !Commutes(op) {
        ExprsNamesAppend([Wrangled(l)], [Wrangled(r)]);
        assert [Wrangled(l)][..0] == [] && [Wrangled(r)][..0] == [];
        assert [Wrangled(l)] + [Wrangled(r)] == [Wrangled(l), Wrangled(r)];
      }
    case Grouping(g) =>
      WrangledKeepsNames(g);
    case Comma(c) =>
      ExprsNamesReversed(WrangledExprs(c));
      WrangledExprsKeepNames(c);
  }

  lemma {:induction false} WrangledExprsKeepNames(c: seq<Expr>)
    ensures multiset(ExprsNames(WrangledExprs(c))) == multiset(ExprsNames(c))
    decreases c
  {
    if c != [] {
      var front := c[..|c| - 1];
      WrangledExprsKeepNames(front);
      WrangledKeepsNames(c[|c| - 1]);
      var w := WrangledExprs(c);
      assert w[..|w| - 1] == WrangledExprs(front);
    }
  }

  /** The names of the rewritten statement are those of the original, each as often. */
  lemma {:induction false} WrangledStmtKeepsNames(s: Stmt)
    ensures multiset(StmtNames(WrangledStmt(s))) == multiset(StmtNames(s))
    decreases s
  {
    match s.kind
    case VarDecl(_, init) =>
      if init.Some? {
        WrangledKeepsNames(init.value);
      }
    case List(c) =>
      StmtsNamesReversed(WrangledStmts(c));
      WrangledStmtsKeepNames(c);
    case ExprStmt(e) =>
      WrangledKeepsNames(e);
    case NullNode =>
  }

  lemma {:induction false} WrangledStmtsKeepNames(c: seq<Stmt>)
    ensures multiset(StmtsNames(WrangledStmts(c))) == multiset(StmtsNames(c))
    decreases c
  {
    if c != [] {
      var front := c[..|c| - 1];
      WrangledStmtsKeepNames(front);
      WrangledStmtKeepsNames(c[|c| - 1]);
      var w := WrangledStmts(c);
      assert w[..|w| - 1] == WrangledStmts(front);
    }
  }

  // ---------------------------------------------------------------------------
  // The accumulator is fed exactly the tree's names, in pre-order

  lemma {:induction false} ExprTraceNames(e: Expr)
    ensures NamesFed(ExprTrace(e)) == ExprNames(e)
    decreases e
  {
    match e.kind
    case Variable(v) =>
      assert [NameToken(v)][..0] == [];
    case Binary(l, op, r) =>
      ExprTraceNames(l);
      ExprTraceNames(r);
      NamesFedAppend([OpToken(op)] + ExprTrace(l), ExprTrace(r));
      NamesFedAppend([OpToken(op)], ExprTrace(l));
      assert [OpToken(op)][..0] == [];
    case Grouping(g) =>
      ExprTraceNames(g);
    case Comma(c) =>
      ExprsTraceNames(c);
  }

  lemma {:induction false} ExprsTraceNames(c: seq<Expr>)
    ensures NamesFed(ExprsTrace(c)) == ExprsNames(c)
    decreases c
  {
    if c != [] {
      ExprsTraceNames(c[..|c| - 1]);
      ExprTraceNames(c[|c| - 1]);
      NamesFedAppend(ExprsTrace(c[..|c| - 1]), ExprTrace(c[|c| - 1]));
    }
  }

  lemma {:induction false} StmtTraceNames(s: Stmt)
    ensures NamesFed(StmtTrace(s)) == StmtNames(s)
    decreases s
  {
    match s.kind
    case VarDecl(n, init) =>
      var rest := if init.Some? then ExprTrace(init.value) else [];
      if init.Some? {
        ExprTraceNames(init.value);
      }
      NamesFedAppend([NameToken(n)], rest);
      assert [NameToken(n)][..0] == [];
    case List(c) =>
      StmtsTraceNames(c);
    case ExprStmt(e) =>
      ExprTraceNames(e);
    case NullNode =>
  }

  lemma {:induction false} StmtsTraceNames(c: seq<Stmt>)
    ensures NamesFed(StmtsTrace(c)) == StmtsNames(c)
    decreases c
  {
    if c != [] {
      StmtsTraceNames(c[..|c| - 1]);
      StmtTraceNames(c[|c| - 1]);
      NamesFedAppend(StmtsTrace(c[..|c| - 1]), StmtTrace(c[|c| - 1]));
    }
  }

  /**
   * The names a pass feeds the accumulator are, up to order, the names of the
   * tree the pass leaves behind.
   */
  lemma FedNamesSurviveWrangle(s: Stmt)
    ensures multiset(NamesFed(StmtTrace(s))) == multiset(StmtNames(WrangledStmt(s)))
  {
    StmtTraceNames(s);
    WrangledStmtKeepsNames(s);
  }
}
