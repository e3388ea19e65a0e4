/**
  What the run-folding pass guarantees: it only regroups (flattening the
  wrappers it builds gives the input back, and the rendering is unchanged),
  every wrapper it builds carries the right count, runs are maximal, the
  nodes it does not fold keep their order, and a second pass changes nothing.
*/
module OptimizerProperties {
  import opened Wrappers
  import opened Ast
  import opened Optimizer

  /** A wrapper of one of the three kinds the pass builds and extends. */
  predicate IsFoldWrapper(e: Expr)
  {
    e.Wrapper? && (e.kind == PointerMove || e.kind == MultipleValueIncrement || e.kind == MultipleValueDecrement)
  }

  /** A node with its wrapper taken apart one level: the children for a fold wrapper, else itself. */
  function Unfold(e: Expr): seq<Expr>
  {
    if IsFoldWrapper(e) then e.exprs else [e]
  }

  /** The list with every top-level fold wrapper replaced by its children. */
  function Flatten(es: seq<Expr>): seq<Expr>
    decreases |es|
  {
    if es == [] then [] else Flatten(es[..|es| - 1]) + Unfold(es[|es| - 1])
  }

  /** No top-level fold wrapper: what the parser produces. */
  predicate NoFoldWrappers(es: seq<Expr>)
  {
    forall i :: 0 <= i < |es| ==> !IsFoldWrapper(es[i])
  }

  /** No top-level `>`, `<`, `+` or `-`. */
  predicate NoBarePrimitives(es: seq<Expr>)
  {
    forall i :: 0 <= i < |es| ==> FoldKind(es[i]).None?
  }

  /** Every top-level wrapper has at least one child. */
  predicate WrappersNonEmpty(es: seq<Expr>)
  {
    forall i :: 0 <= i < |es| ==> es[i].Wrapper? ==> |es[i].exprs| > 0
  }

  /** A node the pass neither folds nor extends. */
  predicate Kept(e: Expr)
  {
    FoldKind(e).None? && !IsFoldWrapper(e)
  }

  /** The kept nodes of a list, in order. */
  function Others(es: seq<Expr>): seq<Expr>
    decreases |es|
  {
    if es == [] then [] else Others(es[..|es| - 1]) + (if Kept(es[|es| - 1]) then [es[|es| - 1]] else [])
  }

  /** Number of `>` nodes. */
  function Ups(es: seq<Expr>): nat
    decreases |es|
  {
    if es == [] then 0 else Ups(es[..|es| - 1]) + (if es[|es| - 1].PointerIncrement? then 1 else 0)
  }

  /** Number of `<` nodes. */
  function Downs(es: seq<Expr>): nat
    decreases |es|
  {
    if es == [] then 0 else Downs(es[..|es| - 1]) + (if es[|es| - 1].PointerDecrement? then 1 else 0)
  }

  /** True when every node of `es` folds into a wrapper of kind `k`. */
  predicate AllFoldInto(es: seq<Expr>, k: WrapperKind)
  {
    forall i :: 0 <= i < |es| ==> FoldKind(es[i]).Some? && FoldKind(es[i]).value.0 == k
  }

  /** The count a wrapper of kind `k` has after absorbing the run `es`. */
  function RunCount(k: WrapperKind, es: seq<Expr>): int
  {
    if k == PointerMove then Ups(es) - Downs(es) else |es|
  }

  /** A wrapper the pass built from `>`/`<`, `+` or `-` nodes, with the count that run gives. */
  predicate Canonical(e: Expr)
  {
    IsFoldWrapper(e) && |e.exprs| > 0 && AllFoldInto(e.exprs, e.kind) && e.count == RunCount(e.kind, e.exprs)
  }

  /** Every top-level fold wrapper of `es` is canonical. */
  predicate AllCanonical(es: seq<Expr>)
  {
    forall i :: 0 <= i < |es| ==> IsFoldWrapper(es[i]) ==> Canonical(es[i])
  }

  /** Two neighbours that are fold wrappers of the same kind. */
  predicate SameFoldKind(a: Expr, b: Expr)
  {
    IsFoldWrapper(a) && IsFoldWrapper(b) && a.kind == b.kind
  }

  /** No two neighbours of `es` are fold wrappers of the same kind. */
  predicate NoAdjacentSameKind(es: seq<Expr>)
  {
    forall j :: 0 <= j < |es| - 1 ==> !SameFoldKind(es[j], es[j + 1])
  }

  // ---------------------------------------------------------------------
  // Flattening and rendering

  lemma FlattenPush(acc: seq<Expr>, w: Expr)
    ensures Flatten(acc + [w]) == Flatten(acc) + Unfold(w)
  {
    assert (acc + [w])[..|acc|] == acc;
  }

  lemma FlattenExtendLast(acc: seq<Expr>, k: WrapperKind, d: int, e: Expr)
    requires EndsWith(acc, k) && IsFoldWrapper(acc[|acc| - 1]) && !e.Wrapper?
    ensures var last := acc[|acc| - 1];
      Flatten(acc[..|acc| - 1] + [Wrapper(k, last.count + d, last.exprs + [e])]) == Flatten(acc) + [e]
  {
    var n := |acc|;
    var last := acc[n - 1];
    var pre := acc[..n - 1];
    var w := Wrapper(k, last.count + d, last.exprs + [e]);
    assert Flatten(acc) == Flatten(pre) + Unfold(last);
    FlattenPush(pre, w);
    assert Unfold(w) == Unfold(last) + [e];
    assert Flatten(pre) + (Unfold(last) + [e]) == (Flatten(pre) + Unfold(last)) + [e];
  }

  lemma FlattenNewWrapper(acc: seq<Expr>, k: WrapperKind, d: int, e: Expr)
    requires k == PointerMove || k == MultipleValueIncrement || k == MultipleValueDecrement
    ensures Flatten(acc + [Wrapper(k, d, [e])]) == Flatten(acc) + [e]
  {
    FlattenPush(acc, Wrapper(k, d, [e]));
  }

  lemma FlattenFoldStep(acc: seq<Expr>, e: Expr)
    ensures Flatten(FoldStep(acc, e)) == Flatten(acc) + Unfold(e)
  {
    var f := FoldKind(e);
    if f.None? {
      FlattenPush(acc, e);
    } else if EndsWith(acc, f.value.0) {
      FoldStepExtend(acc, e, f.value.0, f.value.1);
      FlattenExtendLast(acc, f.value.0, f.value.1, e);
    } else {
      FoldStepNew(acc, e, f.value.0, f.value.1);
      FlattenNewWrapper(acc, f.value.0, f.value.1, e);
    }
  }

  /** Flattening the pass's output gives the flattened input back. */
  lemma {:induction false} FlattenFolded(es: seq<Expr>)
    ensures Flatten(Folded(es)) == Flatten(es)
    decreases |es|
  {
    if es != [] {
      FlattenFolded(es[..|es| - 1]);
      FlattenFoldStep(Folded(es[..|es| - 1]), es[|es| - 1]);
    }
  }

  /** A list without fold wrappers is its own flattening. */
  lemma {:induction false} FlattenPlain(es: seq<Expr>)
    requires NoFoldWrappers(es)
    ensures Flatten(es) == es
    decreases |es|
  {
    if es != [] {
      var n := |es|;
      assert NoFoldWrappers(es[..n - 1]);
      FlattenPlain(es[..n - 1]);
      assert es == es[..n - 1] + [es[n - 1]];
    }
  }

  /**
    Round trip: for a parsed list, replacing each wrapper the pass built by
    its children reproduces the input exactly, in order.
  */
  lemma RoundTrip(es: seq<Expr>)
    requires NoFoldWrappers(es)
    ensures Flatten(Folded(es)) == es
  {
    FlattenFolded(es);
    FlattenPlain(es);
  }

  lemma BytesOfPush(acc: seq<Expr>, w: Expr)
    ensures BytesOf(acc + [w]) == BytesOf(acc) + Bytes(w)
  {
    assert (acc + [w])[..|acc|] == acc;
  }

  lemma BytesExtendLast(acc: seq<Expr>, k: WrapperKind, d: int, e: Expr)
    requires |acc| > 0 && acc[|acc| - 1].Wrapper?
    ensures var last := acc[|acc| - 1];
      BytesOf(acc[..|acc| - 1] + [Wrapper(k, last.count + d, last.exprs + [e])]) == BytesOf(acc) + Bytes(e)
  {
    var n := |acc|;
    var last := acc[n - 1];
    var pre := acc[..n - 1];
    var w := Wrapper(k, last.count + d, last.exprs + [e]);
    assert BytesOf(acc) == BytesOf(pre) + Bytes(last);
    BytesOfPush(pre, w);
    WrapperBytesPush(k, last.count + d, last.exprs, e);
    WrapperBytesIgnoreCount(k, last.kind, last.count + d, last.count, last.exprs);
    assert Bytes(w) == Bytes(last) + Bytes(e);
    assert BytesOf(pre) + (Bytes(last) + Bytes(e)) == (BytesOf(pre) + Bytes(last)) + Bytes(e);
  }

  lemma BytesNewWrapper(acc: seq<Expr>, k: WrapperKind, d: int, e: Expr)
    ensures BytesOf(acc + [Wrapper(k, d, [e])]) == BytesOf(acc) + Bytes(e)
  {
    BytesOfPush(acc, Wrapper(k, d, [e]));
    BytesOfPush([], e);
    assert [] + [e] == [e];
  }

  lemma BytesFoldStep(acc: seq<Expr>, e: Expr)
    ensures BytesOf(FoldStep(acc, e)) == BytesOf(acc) + Bytes(e)
  {
    var f := FoldKind(e);
    if f.None? {
      BytesOfPush(acc, e);
    } else if EndsWith(acc, f.value.0) {
      BytesExtendLast(acc, f.value.0, f.value.1, e);
    } else {
      BytesNewWrapper(acc, f.value.0, f.value.1, e);
    }
  }

  /** The pass preserves the rendering of the program, byte for byte. */
  lemma {:induction false} RenderingPreserved(es: seq<Expr>)
    ensures BytesOf(Folded(es)) == BytesOf(es)
    decreases |es|
  {
    if es != [] {
      RenderingPreserved(es[..|es| - 1]);
      BytesFoldStep(Folded(es[..|es| - 1]), es[|es| - 1]);
    }
  }

  // ---------------------------------------------------------------------
  // Shape of the output

  /** The output is never longer than the input. */
  lemma {:induction false} LengthBound(es: seq<Expr>)
    ensures |Folded(es)| <= |es|
    decreases |es|
  {
    if es != [] {
      LengthBound(es[..|es| - 1]);
    }
  }

  lemma NonEmptyFoldStep(acc: seq<Expr>, e: Expr)
    requires WrappersNonEmpty(acc)
    requires e.Wrapper? ==> |e.exprs| > 0
    ensures WrappersNonEmpty(FoldStep(acc, e))
  {
  }

  /** Every wrapper the pass builds has children; input wrappers keep theirs. */
  lemma {:induction false} CreatedWrappersNonEmpty(es: seq<Expr>)
    requires WrappersNonEmpty(es)
    ensures WrappersNonEmpty(Folded(es))
    decreases |es|
  {
    if es != [] {
      var n := |es|;
      assert WrappersNonEmpty(es[..n - 1]);
      CreatedWrappersNonEmpty(es[..n - 1]);
      NonEmptyFoldStep(Folded(es[..n - 1]), es[n - 1]);
    }
  }

  lemma OthersPush(acc: seq<Expr>, w: Expr)
    ensures Others(acc + [w]) == Others(acc) + (if Kept(w) then [w] else [])
  {
    assert (acc + [w])[..|acc|] == acc;
  }

  lemma OthersExtendLast(acc: seq<Expr>, w: Expr)
    requires |acc| > 0 && IsFoldWrapper(acc[|acc| - 1]) && IsFoldWrapper(w)
    ensures Others(acc[..|acc| - 1] + [w]) == Others(acc)
  {
    var pre := acc[..|acc| - 1];
    assert Others(acc) == Others(pre);
    OthersPush(pre, w);
  }

  lemma OthersFoldStep(acc: seq<Expr>, e: Expr)
    ensures Others(FoldStep(acc, e)) == Others(acc) + (if Kept(e) then [e] else [])
  {
    var f := FoldKind(e);
    if f.None? {
      OthersPush(acc, e);
    } else if EndsWith(acc, f.value.0) {
      var last := acc[|acc| - 1];
      FoldStepExtend(acc, e, f.value.0, f.value.1);
      OthersExtendLast(acc, Wrapper(f.value.0, last.count + f.value.1, last.exprs + [e]));
    } else {
      FoldStepNew(acc, e, f.value.0, f.value.1);
      OthersPush(acc, Wrapper(f.value.0, f.value.1, [e]));
    }
  }

  /**
    Every node other than `>`, `<`, `+`, `-` and the fold wrappers (outputs,
    inputs, loops with their bodies, the other wrappers) comes out unchanged
    and in its original order.
  */
  lemma {:induction false} OthersKept(es: seq<Expr>)
    ensures Others(Folded(es)) == Others(es)
    decreases |es|
  {
    if es != [] {
      OthersKept(es[..|es| - 1]);
      OthersFoldStep(Folded(es[..|es| - 1]), es[|es| - 1]);
    }
  }

  lemma NoBareFoldStep(acc: seq<Expr>, e: Expr)
    requires NoBarePrimitives(acc)
    ensures NoBarePrimitives(FoldStep(acc, e)) <==> FoldKind(e).Some? || NoBarePrimitives([e])
  {
  }

  /** No bare `>`, `<`, `+` or `-` is left at the top level. */
  lemma {:induction false} NoBareAfterFold(es: seq<Expr>)
    ensures NoBarePrimitives(Folded(es))
    decreases |es|
  {
    if es != [] {
      var n := |es|;
      NoBareAfterFold(es[..n - 1]);
      var acc := Folded(es[..n - 1]);
      var e := es[n - 1];
      if FoldKind(e).None? {
        assert FoldStep(acc, e) == acc + [e];
      }
    }
  }

  /** A list without bare primitives passes through the pass unchanged. */
  lemma {:induction false} FoldedPassThrough(es: seq<Expr>)
    requires NoBarePrimitives(es)
    ensures Folded(es) == es
    decreases |es|
  {
    if es != [] {
      var n := |es|;
      assert NoBarePrimitives(es[..n - 1]);
      FoldedPassThrough(es[..n - 1]);
      assert es == es[..n - 1] + [es[n - 1]];
    }
  }

  /** Optimising the pass's own output returns the same list. */
  lemma Idempotent(es: seq<Expr>)
    ensures Folded(Folded(es)) == Folded(es)
  {
    NoBareAfterFold(es);
    FoldedPassThrough(Folded(es));
  }

  /** The pass's output after one more node is one more FoldStep. */
  lemma FoldedPush(xs: seq<Expr>, y: Expr)
    ensures Folded(xs + [y]) == FoldStep(Folded(xs), y)
  {
    assert (xs + [y])[..|xs|] == xs;
  }

  /** A folding node after output not ending in its kind opens a new wrapper. */
  lemma RunStart(acc: seq<Expr>, y: Expr, k: WrapperKind)
    requires !EndsWith(acc, k) && FoldKind(y).Some? && FoldKind(y).value.0 == k
    ensures FoldStep(acc, y) == acc + [Wrapper(k, RunCount(k, [y]), [y])]
  {
    var none: seq<Expr> := [];
    RunCountPush(k, none, y);
    assert none + [y] == [y];
  }

  /** A folding node after a wrapper of its kind joins that wrapper. */
  lemma RunExtend(acc: seq<Expr>, init: seq<Expr>, y: Expr, k: WrapperKind)
    requires FoldKind(y).Some? && FoldKind(y).value.0 == k
    ensures FoldStep(acc + [Wrapper(k, RunCount(k, init), init)], y) ==
      acc + [Wrapper(k, RunCount(k, init + [y]), init + [y])]
  {
    var w := Wrapper(k, RunCount(k, init), init);
    var out := acc + [w];
    RunCountPush(k, init, y);
    assert EndsWith(out, k);
    assert out[..|out| - 1] == acc;
  }

  lemma RunCountPush(k: WrapperKind, xs: seq<Expr>, e: Expr)
    requires FoldKind(e).Some? && FoldKind(e).value.0 == k
    ensures RunCount(k, xs + [e]) == RunCount(k, xs) + FoldKind(e).value.1
  {
    assert (xs + [e])[..|xs|] == xs;
  }

  lemma AllFoldIntoPush(xs: seq<Expr>, e: Expr, k: WrapperKind)
    requires AllFoldInto(xs, k) && FoldKind(e).Some? && FoldKind(e).value.0 == k
    ensures AllFoldInto(xs + [e], k)
  {
    assert forall i :: 0 <= i < |xs| ==> (xs + [e])[i] == xs[i];
  }

  lemma AllCanonicalPush(xs: seq<Expr>, w: Expr)
    requires AllCanonical(xs) && (IsFoldWrapper(w) ==> Canonical(w))
    ensures AllCanonical(xs + [w])
  {
    assert forall i :: 0 <= i < |xs| ==> (xs + [w])[i] == xs[i];
  }

  lemma CanonicalExtendLast(acc: seq<Expr>, k: WrapperKind, d: int, e: Expr)
    requires AllCanonical(acc) && EndsWith(acc, k) && IsFoldWrapper(acc[|acc| - 1])
    requires FoldKind(e) == Some((k, d))
    ensures var last := acc[|acc| - 1];
      AllCanonical(acc[..|acc| - 1] + [Wrapper(k, last.count + d, last.exprs + [e])])
  {
    var n := |acc|;
    var last := acc[n - 1];
    var pre := acc[..n - 1];
    var w := Wrapper(k, last.count + d, last.exprs + [e]);
    assert Canonical(last);
    RunCountPush(k, last.exprs, e);
    AllFoldIntoPush(last.exprs, e, k);
    assert Canonical(w);
    assert AllCanonical(pre) by {
      assert forall i :: 0 <= i < n - 1 ==> pre[i] == acc[i];
    }
    AllCanonicalPush(pre, w);
  }

  lemma CanonicalNewWrapper(acc: seq<Expr>, k: WrapperKind, d: int, e: Expr)
    requires AllCanonical(acc) && FoldKind(e) == Some((k, d))
    ensures AllCanonical(acc + [Wrapper(k, d, [e])])
  {
    var none: seq<Expr> := [];
    RunCountPush(k, none, e);
    assert none + [e] == [e];
    AllFoldIntoPush(none, e, k);
    assert Canonical(Wrapper(k, d, [e]));
    AllCanonicalPush(acc, Wrapper(k, d, [e]));
  }

  lemma CanonicalFoldStep(acc: seq<Expr>, e: Expr)
    requires AllCanonical(acc)
    requires !IsFoldWrapper(e)
    ensures AllCanonical(FoldStep(acc, e))
  {
    var f := FoldKind(e);
    if f.None? {
      AllCanonicalPush(acc, e);
    } else if EndsWith(acc, f.value.0) {
      FoldStepExtend(acc, e, f.value.0, f.value.1);
      CanonicalExtendLast(acc, f.value.0, f.value.1, e);
    } else {
      FoldStepNew(acc, e, f.value.0, f.value.1);
      CanonicalNewWrapper(acc, f.value.0, f.value.1, e);
    }
  }

  /**
    For a parsed list, every fold wrapper in the output is non-empty, holds
    only nodes of its own kind, and has count #`>` - #`<` (PointerMove) or
    the number of its children (MultipleValueIncrement/Decrement).
  */
  lemma {:induction false} FoldedCanonical(es: seq<Expr>)
    requires NoFoldWrappers(es)
    ensures AllCanonical(Folded(es))
    decreases |es|
  {
    if es != [] {
      var n := |es|;
      assert NoFoldWrappers(es[..n - 1]);
      FoldedCanonical(es[..n - 1]);
      CanonicalFoldStep(Folded(es[..n - 1]), es[n - 1]);
    }
  }

  lemma NoAdjacentFoldStep(acc: seq<Expr>, e: Expr)
    requires NoAdjacentSameKind(acc)
    requires !IsFoldWrapper(e)
    ensures NoAdjacentSameKind(FoldStep(acc, e))
  {
  }

  /**
    For a parsed list, no two neighbours in the output are fold wrappers of
    the same kind: each run was folded into one node.
  */
  lemma {:induction false} NoAdjacentRuns(es: seq<Expr>)
    requires NoFoldWrappers(es)
    ensures NoAdjacentSameKind(Folded(es))
    decreases |es|
  {
    if es != [] {
      var n := |es|;
      assert NoFoldWrappers(es[..n - 1]);
      NoAdjacentRuns(es[..n - 1]);
      NoAdjacentFoldStep(Folded(es[..n - 1]), es[n - 1]);
    }
  }

  /**
    A run `ys` of nodes that all fold into kind `k`, after output that does
    not end in such a wrapper, becomes one wrapper holding the whole run in
    order, with the run's count.
  */
  lemma {:induction false} FoldRun(xs: seq<Expr>, ys: seq<Expr>, k: WrapperKind)
    requires !EndsWith(Folded(xs), k)
    requires |ys| > 0 && AllFoldInto(ys, k)
    ensures Folded(xs + ys) == Folded(xs) + [Wrapper(k, RunCount(k, ys), ys)]
    decreases |ys|
  {
    var n := |ys|;
    var y := ys[n - 1];
    var init := ys[..n - 1];
    assert init + [y] == ys;
    assert xs + ys == (xs + init) + [y];
    FoldedPush(xs + init, y);
    if n == 1 {
      assert xs + init == xs;
      RunStart(Folded(xs), y, k);
    } else {
      assert AllFoldInto(init, k);
      FoldRun(xs, init, k);
      RunExtend(Folded(xs), init, y, k);
    }
  }

  /** A list that is a single run of kind `k` becomes one wrapper holding it. */
  lemma OneRun(ys: seq<Expr>, k: WrapperKind)
    requires |ys| > 0 && AllFoldInto(ys, k)
    ensures Folded(ys) == [Wrapper(k, RunCount(k, ys), ys)]
  {
    var none: seq<Expr> := [];
    assert Folded(none) == [];
    FoldRun(none, ys, k);
    assert none + ys == ys;
  }

  /**
    A program that is one run of `>`/`<` nodes becomes a single PointerMove
    holding the run, with count #`>` - #`<`.
  */
  lemma PointerRun(ys: seq<Expr>)
    requires |ys| > 0 && forall i :: 0 <= i < |ys| ==> ys[i].PointerIncrement? || ys[i].PointerDecrement?
    ensures |Folded(ys)| == 1 && Folded(ys)[0].Wrapper? && Folded(ys)[0].kind == PointerMove
    ensures Folded(ys)[0].exprs == ys && Folded(ys)[0].count == Ups(ys) - Downs(ys)
  {
    assert AllFoldInto(ys, PointerMove) by {
      forall i | 0 <= i < |ys| ensures FoldKind(ys[i]).Some? && FoldKind(ys[i]).value.0 == PointerMove {
      }
    }
    OneRun(ys, PointerMove);
  }

  /**
    A program that is one run of `+` nodes, or one run of `-` nodes, becomes a
    single MultipleValueIncrement (or MultipleValueDecrement) holding the run,
    with the run's length as its count.
  */
  lemma ValueRun(ys: seq<Expr>)
    requires |ys| > 0
    requires (forall i :: 0 <= i < |ys| ==> ys[i].ValueIncrement?) || (forall i :: 0 <= i < |ys| ==> ys[i].ValueDecrement?)
    ensures var k := if ys[0].ValueIncrement? then MultipleValueIncrement else MultipleValueDecrement;
      Folded(ys) == [Wrapper(k, |ys|, ys)]
  {
    var k := if ys[0].ValueIncrement? then MultipleValueIncrement else MultipleValueDecrement;
    assert AllFoldInto(ys, k) by {
      forall i | 0 <= i < |ys| ensures FoldKind(ys[i]) == Some((k, 1)) {
      }
    }
    OneRun(ys, k);
  }

  /** A run of `+` nodes followed by a run of `-` nodes becomes two value wrappers. */
  lemma UpThenDown(ups: seq<Expr>, downs: seq<Expr>)
    requires |ups| > 0 && forall i :: 0 <= i < |ups| ==> ups[i].ValueIncrement?
    requires |downs| > 0 && forall i :: 0 <= i < |downs| ==> downs[i].ValueDecrement?
    ensures Folded(ups + downs) == [Wrapper(MultipleValueIncrement, |ups|, ups), Wrapper(MultipleValueDecrement, |downs|, downs)]
  {
    ValueRun(ups);
    assert AllFoldInto(downs, MultipleValueDecrement) by {
      forall i | 0 <= i < |downs| ensures FoldKind(downs[i]) == Some((MultipleValueDecrement, 1)) {
      }
    }
    FoldRun(ups, downs, MultipleValueDecrement);
  }

  /**
    `+++++-----` becomes a MultipleValueIncrement with count 5 holding the
    five `+` nodes, then a MultipleValueDecrement with count 5 holding the
    five `-` nodes.
  */
  lemma ValueRunsExample(ts: seq<Token>)
    requires |ts| == 10
    ensures var es := seq(10, i requires 0 <= i < 10 => if i < 5 then ValueIncrement(ts[i]) else ValueDecrement(ts[i]));
      Folded(es) == [Wrapper(MultipleValueIncrement, 5, es[..5]), Wrapper(MultipleValueDecrement, 5, es[5..])]
  {
    var es := seq(10, i requires 0 <= i < 10 => if i < 5 then ValueIncrement(ts[i]) else ValueDecrement(ts[i]));
    var ups, downs := es[..5], es[5..];
    assert forall i :: 0 <= i < |ups| ==> ups[i].ValueIncrement?;
    assert forall i :: 0 <= i < |downs| ==> downs[i].ValueDecrement?;
    assert ups + downs == es;
    UpThenDown(ups, downs);
  }
}
