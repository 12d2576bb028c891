# Boxed AST experiment: build a random tree, then wrangle it

This project models the boxed-AST experiment of the jrcc repository
(`experiments/src/ast_boxed.rs`). The experiment does two things.

- It builds a pseudo-random syntax tree of a toy language. Statements are
  declarations, lists and expression statements. Expressions are variables,
  binary operations, groupings and comma lists. Depth and width budgets bound
  the tree, and one seeded generator makes every choice.
- It runs `wrangle`, one depth-first pass over the tree. The pass feeds every
  name and operator to a hash accumulator and rewrites the tree as it goes:
  - `+` and `*` swap their operands;
  - `-` and `/` become a two-element comma list;
  - groupings collapse into their contents;
  - comma lists and statement lists are reversed.

The model is split into modules as follows.

- `Ast` (ast.dfy) holds the tree as value datatypes. Every node has exactly one
  owner, so sharing and cycles cannot occur. It also defines the measures the
  laws talk about: height, names, and whether a placeholder node occurs.
- `Hashing` (hashing.dfy) models the accumulator as a class holding the
  sequence of tokens fed to it. The digest algorithm is foreign.
- `Sequences` (sequences.dfy) defines reversal and the in-place reversal of an
  array, which is the `reverse` of a vector.
- `Wrangle` (wrangle.dfy) gives what a pass produces (`Wrangled`,
  `WrangledStmt`) and what it feeds (`ExprTrace`, `StmtTrace`) as functions.
  The pass itself is written as methods that feed a `Hasher` and reverse
  children in an array buffer. The methods are proved to agree with the
  functions.
- `WrangleLaws` (wrangle_laws.dfy) proves what one pass guarantees:
  - the exact per-node rewrites;
  - where a reversed child ends up;
  - no tree gets taller;
  - no grouping, `-` or `/` survives, and on such a tree a pass is its own
    inverse, so a third pass repeats the first;
  - placeholders are neither created nor removed;
  - the multiset of names is kept, and the names fed to the accumulator are
    the tree's names in pre-order.
- `Random` (random.dfy) models the generator as an oracle: a stream of numbers
  and a position in it. Each sampling call consumes one number and reduces it
  into the requested range. The stream is a finite sequence that reads as 0
  past its end.
- `Generator` (generator.dfy) holds the builder. Each of its parts is a
  specification function from a stream and a start position to the tree and
  the position after its last draw. The original's draw order is kept:
  - a node's kind is built before the two draws of its span;
  - a binary operator is drawn after both operands;
  - a declaration draws its name, then its initializer coin.

  The methods are the builder in its original form, advancing one shared
  `Rng` and filling lists in loops. They are proved equal to the functions.
  `Stmt::build_random_tree` takes the seed-to-stream expansion as a parameter.
- `GeneratorLaws` (generator_laws.dfy) characterises the trees the builder can
  return, as "fits" predicates over depth, width and source.
  - Every build fits.
  - Every fitting tree is built by some stream, namely its own encoding as
    draws.
  - A fitting tree is no taller than the depth budget and holds no placeholder.
  - At depth 0 the build fails exactly on the initializer coin.
  - Above depth 0 with width 0, it fails exactly when a list is drawn.
  - With a width of at least 1, the only possible failure is the depth
    underflow.

Two behaviours of the code are modelled as failures (`Err` results) rather
than ruled out by preconditions, because the original reaches them.

- At depth 0, a declaration whose coin asks for an initializer builds it at
  depth `depth - 1` with `depth == 0` in `usize`
  (experiments/src/ast_boxed.rs:264-271), which underflows: a checked build
  panics. The model returns `Err(DepthUnderflow)`.
- A statement above depth 0 with width 0 that draws a list samples its count
  from the empty range `0..0` (experiments/src/ast_boxed.rs:242), which
  panics. The model returns `Err(EmptyRange)`. A width of at least 1 at the
  root keeps every list below it at least 1 wide, so this failure comes only
  from a width-0 root.

## Model

| member | source | states |
|---|---|---|
| `Hashing.Hasher.constructor` | experiments/src/lib.rs:13 | a fresh accumulator has been fed nothing |
| `Hashing.Hasher.Feed` | experiments/src/ast_boxed.rs:97 | hashing a value appends exactly that value to what was fed, and nothing else changes |
| `Sequences.ReverseInPlace` | experiments/src/ast_boxed.rs:121 | `reverse` leaves the buffer holding the reversal of its old contents |
| `Sequences.ReversedAt` | experiments/src/ast_boxed.rs:213 | after reversal, the element at index k is at index n-1-k |
| `Sequences.ReversedMultiset` | experiments/src/ast_boxed.rs:121 | reversal is a permutation |
| `Wrangle.Wrangled` | experiments/src/ast_boxed.rs:93-125 | the span is kept; a variable is unchanged; no grouping is left; a `+`/`*` stays binary with its operator; a `-`/`/` becomes a two-element comma list; a comma list keeps its length; only `+`/`*` remain binary |
| `Wrangle.WrangledStmt` | experiments/src/ast_boxed.rs:197-218 | the span is kept; a declaration keeps its name and whether it has an initializer; lists, expression statements and placeholders keep their kind; a list keeps its length |
| `Wrangle.WrangleExpr` | experiments/src/ast_boxed.rs:93-125 | the in-place pass leaves the node the pass function gives, and appends that node's pre-order trace to the accumulator |
| `Wrangle.WrangleExprs` | experiments/src/ast_boxed.rs:119-122 | elements are rewritten left to right, feeding their traces in that order, and then reversed |
| `Wrangle.WrangleStmt` | experiments/src/ast_boxed.rs:197-218 | the in-place statement pass leaves the statement the pass function gives, and appends its trace to the accumulator |
| `Wrangle.WrangleStmts` | experiments/src/ast_boxed.rs:211-214 | list elements are rewritten left to right, feeding their traces in order, and then reversed |
| `Wrangle.ExprTrace` | experiments/src/ast_boxed.rs:96-103 | a variable feeds its name and nothing else; a binary node feeds its operator before anything of its operands |
| `Wrangle.StmtTrace` | experiments/src/ast_boxed.rs:200-214 | a declaration feeds its name before anything of its initializer; a placeholder feeds nothing |
| `WrangleLaws.BinaryRewrite` | experiments/src/ast_boxed.rs:100-113 | `+`/`*` give `Binary(r', op, l')`; `-`/`/` give `Comma([l', r'])` in source order; the span is kept |
| `WrangleLaws.GroupingCollapses` | experiments/src/ast_boxed.rs:115-118 | a grouping takes the rewritten inner kind and keeps the outer span |
| `WrangleLaws.CommaReversal` | experiments/src/ast_boxed.rs:119-122 | a comma list keeps its length, and element k, rewritten, ends at index n-1-k |
| `WrangleLaws.ListReversal` | experiments/src/ast_boxed.rs:211-214 | a statement list keeps its length, and element k, rewritten, ends at index n-1-k |
| `WrangleLaws.WrangledIsSettled` | experiments/src/ast_boxed.rs:100-118 | after one pass no grouping and no `-` or `/` remains anywhere in an expression |
| `WrangleLaws.WrangledStmtIsSettled` | experiments/src/ast_boxed.rs:197-218 | after one pass no grouping and no `-` or `/` remains anywhere in a statement |
| `WrangleLaws.SettledInvolution` | experiments/src/ast_boxed.rs:100-122 | on an expression with no grouping, `-` or `/`, two passes give the expression back |
| `WrangleLaws.SettledStmtInvolution` | experiments/src/ast_boxed.rs:197-218 | on such a statement, two passes give the statement back |
| `WrangleLaws.WrangleThrice` | experiments/src/ast_boxed.rs:93-125 | a third pass over an expression gives back the result of the first |
| `WrangleLaws.WrangleStmtThrice` | experiments/src/ast_boxed.rs:197-218 | a third pass over a statement gives back the result of the first |
| `WrangleLaws.WrangledHasNull` | experiments/src/ast_boxed.rs:216 | a placeholder occurs after the pass if and only if one occurred before |
| `WrangleLaws.WrangledHeight` | experiments/src/ast_boxed.rs:100-122 | a pass never makes an expression taller: groupings lose a level, `-`/`/` trade a binary level for a comma level, reversal keeps the tallest element |
| `WrangleLaws.WrangledStmtHeight` | experiments/src/ast_boxed.rs:197-218 | a pass never makes a statement taller |
| `WrangleLaws.WrangledKeepsNames` | experiments/src/ast_boxed.rs:93-125 | the multiset of variable names in an expression is unchanged by the pass |
| `WrangleLaws.WrangledStmtKeepsNames` | experiments/src/ast_boxed.rs:197-218 | the multiset of variable and declaration names in a statement is unchanged by the pass |
| `WrangleLaws.ExprTraceNames` | experiments/src/ast_boxed.rs:96-103 | the names an expression pass feeds are the expression's names in pre-order, left before right |
| `WrangleLaws.StmtTraceNames` | experiments/src/ast_boxed.rs:200-214 | the names a statement pass feeds are the statement's names in pre-order |
| `WrangleLaws.FedNamesSurviveWrangle` | experiments/src/ast_boxed.rs:197-218 | the names fed to the accumulator are, as a multiset, the names of the rewritten tree |
| `Random.DrawRange` | experiments/src/ast_boxed.rs:87 | a `gen_range(lo..hi)` draw lies in `[lo, hi)` |
| `Random.DrawRangeReaches` | experiments/src/ast_boxed.rs:135 | every value of the range is drawn by some stream |
| `Random.DrawBoolReaches` | experiments/src/ast_boxed.rs:240 | a `gen::<bool>()` draw is the parity of the current number, and both outcomes are drawn by some stream |
| `Random.DrawUsize` | experiments/src/ast_boxed.rs:191 | a `gen::<usize>()` draw is below 2^64 |
| `Random.Rng.GenRange` | experiments/src/ast_boxed.rs:167 | sampling a range returns the current draw reduced into the range and advances by one |
| `Random.Rng.GenBool` | experiments/src/ast_boxed.rs:240 | sampling a coin returns the current draw's parity and advances by one |
| `Random.Rng.GenUsize` | experiments/src/ast_boxed.rs:282 | sampling a `usize` returns the current draw below 2^64 and advances by one |
| `Generator.Slice` | experiments/src/ast_boxed.rs:86-90 | two draws are consumed; the name is `source[i..j]` with `i <= j < len`, so it may be empty and never holds the last character |
| `Generator.SpanAt` | experiments/src/ast_boxed.rs:189-192 | a span's two ends are independent `usize` draws |
| `Generator.GenSlice` | experiments/src/ast_boxed.rs:86-90 | `gen_slice` returns the slice and advances the generator as `Slice` says |
| `Generator.BuildDecl` | experiments/src/ast_boxed.rs:261-277 | at depth 0 the result is a declaration without initializer after three draws, and it fails exactly when the initializer coin is true |
| `Generator.OpOfDraw` | experiments/src/ast_boxed.rs:155-161 | the operator drawn commutes (`+`, `*`) exactly when the draw is even |
| `Generator.BuildExpr` | experiments/src/ast_boxed.rs:127-193 | the built node is a variable exactly at depth 0, where the build consumes four draws (two for the slice, two for the span) |
| `Generator.BuildExprKind` | experiments/src/ast_boxed.rs:134-187 | the kind is a variable exactly at depth 0, where it consumes two draws; a binary node or a comma list is built only with width at least 2 |
| `Generator.BuildBinary` | experiments/src/ast_boxed.rs:136-165 | the binary arm always gives a binary node |
| `Generator.BuildComma` | experiments/src/ast_boxed.rs:166-179 | the comma arm always gives a comma list with fewer elements than the width |
| `Generator.BuildGrouping` | experiments/src/ast_boxed.rs:180-183 | the grouping arm always gives a grouping |
| `Generator.BuildExprs` | experiments/src/ast_boxed.rs:169-177 | building at least one element consumes at least one draw |
| `Generator.BuildStmt` | experiments/src/ast_boxed.rs:232-284 | a successful build is a declaration exactly at depth 0, and is never a placeholder |
| `Generator.BuildStmtKind` | experiments/src/ast_boxed.rs:239-278 | a successful kind is a declaration exactly at depth 0, and is never a placeholder |
| `Generator.BuildList` | experiments/src/ast_boxed.rs:241-254 | a width of 0 fails with an empty range; a successful build is a list with fewer statements than the width |
| `Generator.BuildExprStmt` | experiments/src/ast_boxed.rs:255-258 | the expression-statement arm never fails, gives an expression statement and consumes at least one draw |
| `Generator.BuildStmts` | experiments/src/ast_boxed.rs:244-252 | building at least one statement successfully consumes at least one draw |
| `Generator.BuildExprWithRng` | experiments/src/ast_boxed.rs:127-193 | the expression builder returns the tree and the generator position that `Generator.BuildExpr` gives |
| `Generator.BuildExprKindWithRng` | experiments/src/ast_boxed.rs:134-187 | the choice among binary, comma and grouping above depth 0, and the variable at depth 0, give what `Generator.BuildExprKind` gives |
| `Generator.BuildBinaryWithRng` | experiments/src/ast_boxed.rs:136-165 | both operands are built with width less 2, then the operator is drawn, giving what `Generator.BuildBinary` gives |
| `Generator.BuildCommaWithRng` | experiments/src/ast_boxed.rs:169-177 | the push loop builds the `count` elements in order, giving the elements and position that `Generator.BuildExprs` gives; the `count` draw is made by `Generator.BuildExprKindWithRng`, and the two together give `Generator.BuildComma` |
| `Generator.BuildStmtWithRng` | experiments/src/ast_boxed.rs:232-284 | the statement builder returns the tree or the failure that `Generator.BuildStmt` gives, and on success the position too |
| `Generator.BuildStmtKindWithRng` | experiments/src/ast_boxed.rs:239-278 | list, expression statement or declaration, and the failures, are what `Generator.BuildStmtKind` gives |
| `Generator.BuildListWithRng` | experiments/src/ast_boxed.rs:244-252 | the push loop builds the statements in order and stops at the first failure, giving the statements or the failure that `Generator.BuildStmts` gives, with the position on success; the width-0 check and the `count` draw are made by `Generator.BuildStmtKindWithRng`, and the two together give `Generator.BuildList` |
| `Generator.BuildStmtsFailureSticks` | experiments/src/ast_boxed.rs:244-252 | once one statement of a list fails, the whole list build fails with that error |
| `Generator.BuildRandomTree` | experiments/src/ast_boxed.rs:220-230 | the tree is a function of source, seed, depth and width: the build from the seed's stream, starting at its first draw |
| `GeneratorLaws.OpIndex` | experiments/src/ast_boxed.rs:155-161 | every operator is drawn by some value below 4 |
| `GeneratorLaws.SliceFromDraws` | experiments/src/ast_boxed.rs:86-90 | every slice `source[i..j]` with `i <= j < len` is returned by `gen_slice` from the draws `i` and `j - i` |
| `GeneratorLaws.BuildExprFits` | experiments/src/ast_boxed.rs:127-193 | every built expression fits: variables only at depth 0, binary and comma only with width at least 2, counts below the width, children one level down with the width the original passes, spans within `usize` |
| `GeneratorLaws.BuildBinaryFits` | experiments/src/ast_boxed.rs:136-165 | a built binary node's operands fit one level down with width less 2 |
| `GeneratorLaws.BuildCommaFits` | experiments/src/ast_boxed.rs:166-179 | a built comma list has fewer elements than the width, each fitting with the width less the count |
| `GeneratorLaws.BuildGroupingFits` | experiments/src/ast_boxed.rs:180-183 | a built grouping's contents fit one level down with the same width |
| `GeneratorLaws.BuildStmtFits` | experiments/src/ast_boxed.rs:232-284 | every statement a build returns fits: a declaration without initializer only at depth 0, lists of fewer than width elements, never a placeholder |
| `GeneratorLaws.BuildStmtsFit` | experiments/src/ast_boxed.rs:244-252 | every statement of a built list fits with the width less the count |
| `GeneratorLaws.EncodedExprBuilds` | experiments/src/ast_boxed.rs:127-193 | every fitting expression is built from its own encoding as draws, which are consumed exactly |
| `GeneratorLaws.EncodedExprsBuild` | experiments/src/ast_boxed.rs:169-177 | every sequence of fitting expressions is built by the push loop from the concatenated encodings |
| `GeneratorLaws.EncodedStmtBuilds` | experiments/src/ast_boxed.rs:232-284 | every fitting statement is built from its own encoding as draws |
| `GeneratorLaws.EncodedStmtsBuild` | experiments/src/ast_boxed.rs:244-252 | every sequence of fitting statements is built by the push loop from the concatenated encodings |
| `GeneratorLaws.BuildableIffFits` | experiments/src/ast_boxed.rs:220-284 | a statement is a possible build result if and only if it fits |
| `GeneratorLaws.ExprFitsHeight` | experiments/src/ast_boxed.rs:134-187 | a fitting expression is no taller than the depth budget |
| `GeneratorLaws.StmtFitsHeight` | experiments/src/ast_boxed.rs:239-278 | a fitting statement is no taller than the depth budget |
| `GeneratorLaws.StmtFitsHasNoNull` | experiments/src/ast_boxed.rs:239-278 | a fitting statement holds no placeholder anywhere |
| `GeneratorLaws.LeafUnderflow` | experiments/src/ast_boxed.rs:261-277 | at depth 0 the build fails with the depth underflow exactly when the initializer coin is true, and otherwise gives a declaration without initializer |
| `GeneratorLaws.EmptyWidthList` | experiments/src/ast_boxed.rs:239-258 | above depth 0 with width 0 the build fails with an empty range exactly when the coin picks a list, and otherwise gives an expression statement |
| `GeneratorLaws.NoEmptyRange` | experiments/src/ast_boxed.rs:239-253 | with a width of at least 1, a statement build can fail only with the depth underflow, never with an empty range |
| `GeneratorLaws.NoEmptyRangeInList` | experiments/src/ast_boxed.rs:242-252 | each list child gets `width - count`, at least 1, so a list built with width at least 1 can fail only with the depth underflow |
| `GeneratorLaws.ScenarioDepthZero` | experiments/src/ast_boxed.rs:260-283 | with source "source", depth 0 and width 0, a successful build is one declaration without initializer, named by a slice of "source" shorter than it, of height 0 |
| `GeneratorLaws.BuildThenWrangle` | experiments/src/lib.rs:10-14 | building and then wrangling gives a tree with no placeholder, no grouping and no `-` or `/`, with the built tree's names; the built tree and the wrangled tree are both no taller than the depth budget |

## Left out

- The hash digest (`DefaultHasher`, SipHash) is foreign. The accumulator is the sequence of values fed to it. A name and an operator are one token each, and the byte encoding `Hash` writes for them is not modelled.
- The generator algorithm (`StdRng`), its seeding, and rand's sampling algorithms are foreign. Each `gen_range`, `gen::<bool>` and `gen::<usize>` call is one number of a stream, reduced into range by remainder, parity and remainder modulo 2^64. rand may consume several raw numbers per call or reject some; the stream stands for the numbers after sampling. The map from a seed to its stream is a parameter of `Generator.BuildRandomTree`.
- Generator.Slice: an empty source makes `gen_slice` panic in `gen_range(0..0)`. The model requires a non-empty source instead of returning a failure. The builder members that take a source require the same, although a build that never reaches a leaf does not panic on an empty source: at depth 1, a list with count 0 gives `List([])` without calling `gen_slice`. Those builds are left out. Every caller in the repository passes the source "source".
- In a release build, `depth - 1` at depth 0 wraps to `usize::MAX` instead of panicking, and the build then recurses with that depth. The model stops at the underflow with `Err(DepthUnderflow)`.
- Depths and widths are unbounded naturals. No `usize` overflow can occur on the paths the model covers: counts are below the width, and `max_width - 2` is taken only when the width is at least 2.
- The tree is rewritten in place in the original. `mem::replace` leaves a placeholder kind, `mem::swap` exchanges operands, and `reverse` permutes a vector. The model computes the new node as a value and returns it. Only the reversal of a child vector is modelled in place, on an array. Aliasing cannot arise in a uniquely owned tree.
- The `Vec` newtype with `PhantomData`, its `Deref`/`DerefMut`, and `alloc`/`alloc_vec` are ownership plumbing with a unit context. They are modelled as Dafny sequences.
- Memory, ownership, and freeing of the tree are left out. So is the borrow of the source text.
- Slicing is modelled on characters. UTF-8 boundary checks are left out, since the source text is ASCII.
- experiments/src/ast_bumped.rs is not part of this model. It expands a macro whose definition is not in the repository, so there is no visible code to compare the arena strategy against.
- The benchmark in experiments/benches/ast_ops.rs only measures time and deallocation. The test in experiments/src/lib.rs ends in an unconditional panic that dumps the tree; only the build-then-wrangle sequence it runs is stated, in `GeneratorLaws.BuildThenWrangle`.
