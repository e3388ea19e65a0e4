/**
  The run-folding pass of optimizer/optimizer.go: one left-to-right pass over
  the top-level list that folds each `>`/`<` into a trailing PointerMove and
  each `+` (`-`) into a trailing MultipleValueIncrement (MultipleValueDecrement),
  starting a new wrapper when the last node of the output is of another kind.
  Each node is first given to optimizeExpression, which is the identity, so
  loop bodies are not visited and every other node passes through.
*/
module Optimizer {
  import opened Wrappers
  import opened Ast

  /**
    For the four foldable primitives, the wrapper kind they fold into and
    what they add to its count; `None` for every other node.
  */
  function FoldKind(e: Expr): (r: Option<(WrapperKind, int)>)
    ensures r.Some? <==> e.PointerIncrement? || e.PointerDecrement? || e.ValueIncrement? || e.ValueDecrement?
  {
    match e
    case PointerIncrement(_) => Some((PointerMove, 1))
    case PointerDecrement(_) => Some((PointerMove, -1))
    case ValueIncrement(_) => Some((MultipleValueIncrement, 1))
    case ValueDecrement(_) => Some((MultipleValueDecrement, 1))
    case _ => None
  }

  /**
    `>` and `<` move the pointer by +1 and -1; `+` and `-` each add one to
    the count of their own value wrapper.
  */
  lemma FoldKindValues(e: Expr)
    ensures e.PointerIncrement? ==> FoldKind(e) == Some((PointerMove, 1))
    ensures e.PointerDecrement? ==> FoldKind(e) == Some((PointerMove, -1))
    ensures e.ValueIncrement? ==> FoldKind(e) == Some((MultipleValueIncrement, 1))
    ensures e.ValueDecrement? ==> FoldKind(e) == Some((MultipleValueDecrement, 1))
  {
  }

  /** True when the last node of `acc` is a wrapper of kind `k`. */
  predicate EndsWith(acc: seq<Expr>, k: WrapperKind)
  {
    |acc| > 0 && acc[|acc| - 1].Wrapper? && acc[|acc| - 1].kind == k
  }

  /** One iteration of the loop: what the output list becomes after `e`. */
  function FoldStep(acc: seq<Expr>, e: Expr): seq<Expr>
  {
    match FoldKind(e)
    case None => acc + [e]
    case Some((k, d)) =>
      if EndsWith(acc, k) then
        var last := acc[|acc| - 1];
        acc[..|acc| - 1] + [Wrapper(k, last.count + d, last.exprs + [e])]
      else
        acc + [Wrapper(k, d, [e])]
  }

  /** A step adds at most one node to the output and never removes one. */
  lemma FoldStepLength(acc: seq<Expr>, e: Expr)
    ensures |acc| <= |FoldStep(acc, e)| <= |acc| + 1
  {
  }

  /** A step rewrites at most the last output node: everything before it is kept. */
  lemma FoldStepKeepsPrefix(acc: seq<Expr>, e: Expr)
    requires |acc| > 0
    ensures FoldStep(acc, e)[..|acc| - 1] == acc[..|acc| - 1]
  {
  }

  /** FoldStep when the last output node is a wrapper of the same kind. */
  lemma FoldStepExtend(acc: seq<Expr>, e: Expr, k: WrapperKind, d: int)
    requires FoldKind(e) == Some((k, d)) && EndsWith(acc, k)
    ensures var last := acc[|acc| - 1];
      FoldStep(acc, e) == acc[..|acc| - 1] + [Wrapper(k, last.count + d, last.exprs + [e])]
  {
  }

  /** FoldStep when the output does not end in a wrapper of that kind. */
  lemma FoldStepNew(acc: seq<Expr>, e: Expr, k: WrapperKind, d: int)
    requires FoldKind(e) == Some((k, d)) && !EndsWith(acc, k)
    ensures FoldStep(acc, e) == acc + [Wrapper(k, d, [e])]
  {
  }

  /** The list the pass produces from `es`. */
  function Folded(es: seq<Expr>): seq<Expr>
    decreases |es|
  {
    if es == [] then [] else FoldStep(Folded(es[..|es| - 1]), es[|es| - 1])
  }

  /** The output is empty exactly when the input is. */
  lemma FoldedEmpty(es: seq<Expr>)
    ensures Folded(es) == [] <==> es == []
  {
    if es != [] {
      FoldStepLength(Folded(es[..|es| - 1]), es[|es| - 1]);
    }
  }

  /** The pass over one more node of `es` is one more FoldStep. */
  lemma FoldedPrefix(es: seq<Expr>, i: int)
    requires 0 <= i < |es|
    ensures Folded(es[..i + 1]) == FoldStep(Folded(es[..i]), es[i])
  {
    assert es[..i + 1][..i] == es[..i];
  }

  /** Overwriting the last element is dropping it and appending the new one. */
  lemma UpdateLast(xs: seq<Expr>, w: Expr)
    requires |xs| > 0
    ensures xs[|xs| - 1 := w] == xs[..|xs| - 1] + [w]
  {
  }

  /**
    One iteration of the loop of optimizeExpressions: a folding node either
    extends the trailing wrapper of its kind in place (Go's `continue`) or
    is appended inside a new one-node wrapper; any other node is appended.
  */
  method FoldInto(optimized: seq<Expr>, expr: Expr) returns (r: seq<Expr>)
    ensures r == FoldStep(optimized, expr)
  {
    var fold := FoldKind(expr);
    if fold.Some? {
      var (kind, delta) := fold.value;
      var n := |optimized|;
      if n > 0 && optimized[n - 1].Wrapper? && optimized[n - 1].kind == kind {
        var last := optimized[n - 1];
        FoldStepExtend(optimized, expr, kind, delta);
        UpdateLast(optimized, Wrapper(kind, last.count + delta, last.exprs + [expr]));
        return optimized[n - 1 := Wrapper(kind, last.count + delta, last.exprs + [expr])];
      }
      FoldStepNew(optimized, expr, kind, delta);
      return optimized + [Wrapper(kind, delta, [expr])];
    }
    return optimized + [expr];
  }

  /**
    optimizeExpressions. Go's error result is nil on every path, so the
    model returns the list only.
  */
  method OptimizeExpressions(exprs: seq<Expr>) returns (optimized: seq<Expr>)
    ensures optimized == Folded(exprs)
  {
    optimized := [];
    for i := 0 to |exprs|
      invariant optimized == Folded(exprs[..i])
    {
      FoldedPrefix(exprs, i);
      optimized := FoldInto(optimized, exprs[i]);
    }
    assert exprs[..|exprs|] == exprs;
  }

  /** Optimize: a new program holding the folded list; it never fails. */
  method Optimize(p: Program) returns (prog: Program)
    ensures prog == Program(Folded(p.exprs))
  {
    var exprs := OptimizeExpressions(p.exprs);
    prog := Program(exprs);
  }
}
