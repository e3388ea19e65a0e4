/**
  The expression tree of a Brainf*ck program.

  Primitive nodes and loops are built by the parser, which records for each
  of them its first and last source offset and its original bytes; the model
  takes those as given data (a `Token`). The wrapper nodes hold a count and
  the original nodes they stand for. Their positions and their rendering are
  derived from those children, as ast/optimize.go does for the
  MultiplePointerIncrement and MultiplePointerDecrement wrappers.
*/
module Ast {
  import opened Wrappers

  /** A byte: a tape cell or one byte of source text. */
  type Byte = b: int | 0 <= b < 256

  /** What the parser records for a node: first and last offset, original bytes. */
  datatype Token = Token(start: int, end: int, raw: seq<Byte>)

  /** The kinds of wrapper node; all five share one shape (a count and children). */
  datatype WrapperKind =
    | PointerMove
    | MultipleValueIncrement
    | MultipleValueDecrement
    | MultiplePointerIncrement
    | MultiplePointerDecrement

  datatype Expr =
    | PointerIncrement(tok: Token)   // >
    | PointerDecrement(tok: Token)   // <
    | ValueIncrement(tok: Token)     // +
    | ValueDecrement(tok: Token)     // -
    | Output(tok: Token)             // .
    | Input(tok: Token)              // ,
    | While(tok: Token, body: seq<Expr>)
    | Wrapper(kind: WrapperKind, count: int, exprs: seq<Expr>)

  datatype Program = Program(exprs: seq<Expr>)

  /** Every wrapper, at every depth, has at least one child. */
  ghost predicate WellFormed(e: Expr)
    decreases e
  {
    match e
    case Wrapper(_, _, es) => |es| > 0 && forall i :: 0 <= i < |es| ==> WellFormed(es[i])
    case While(_, body) => forall i :: 0 <= i < |body| ==> WellFormed(body[i])
    case _ => true
  }

  /**
    The first source offset of a node. A wrapper takes it from its first
    child; `None` stands for the index panic an empty wrapper causes.
  */
  function StartPos(e: Expr): (r: Option<int>)
    decreases e
    ensures r.None? ==> e.Wrapper?
  {
    match e
    case Wrapper(_, _, es) => if |es| == 0 then None else StartPos(es[0])
    case _ => Some(e.tok.start)
  }

  /**
    The last source offset of a node. A wrapper takes it from its last
    child; `None` stands for the index panic an empty wrapper causes.
  */
  function EndPos(e: Expr): (r: Option<int>)
    decreases e
    ensures r.None? ==> e.Wrapper?
  {
    match e
    case Wrapper(_, _, es) => if |es| == 0 then None else EndPos(es[|es| - 1])
    case _ => Some(e.tok.end)
  }

  /** The original source bytes of a node. */
  function Bytes(e: Expr): seq<Byte>
    decreases e
  {
    match e
    case Wrapper(_, _, es) => BytesOf(es)
    case _ => e.tok.raw
  }

  /**
    The in-order concatenation of the renderings of `es`, appended one child
    after the other.
  */
  function BytesOf(es: seq<Expr>): seq<Byte>
    decreases es
  {
    if es == [] then [] else BytesOf(es[..|es| - 1]) + Bytes(es[|es| - 1])
  }

  /** The rendering as a Go string: one character per byte, with that byte's code. */
  function String(e: Expr): (s: string)
    ensures |s| == |Bytes(e)|
    ensures forall i :: 0 <= i < |s| ==> s[i] as int == Bytes(e)[i]
  {
    var b := Bytes(e);
    seq(|b|, i requires 0 <= i < |b| => b[i] as char)
  }

  /** A wrapper starts where its first child starts; appending children keeps that. */
  lemma WrapperStartPos(k: WrapperKind, c: int, xs: seq<Expr>, ys: seq<Expr>)
    requires |xs| > 0
    ensures StartPos(Wrapper(k, c, xs + ys)) == StartPos(xs[0])
  {
    assert (xs + ys)[0] == xs[0];
  }

  /** A wrapper ends where its last child ends, so appending a child moves its end there. */
  lemma WrapperEndPos(k: WrapperKind, c: int, xs: seq<Expr>, y: Expr)
    ensures EndPos(Wrapper(k, c, xs + [y])) == EndPos(y)
  {
  }

  /** A wrapper without children has no position: asking for one panics. */
  lemma EmptyWrapperHasNoPosition(k: WrapperKind, c: int)
    ensures StartPos(Wrapper(k, c, [])) == None
    ensures EndPos(Wrapper(k, c, [])) == None
  {
  }

  /** In a well-formed tree every node has both positions. */
  lemma {:induction false} WellFormedHasPositions(e: Expr)
    requires WellFormed(e)
    ensures StartPos(e).Some? && EndPos(e).Some?
    decreases e
  {
    match e
    case Wrapper(_, _, es) =>
      WellFormedHasPositions(es[0]);
      WellFormedHasPositions(es[|es| - 1]);
    case _ =>
  }

  /** Rendering a concatenation of children is concatenating their renderings. */
  lemma {:induction false} BytesOfAppend(xs: seq<Expr>, ys: seq<Expr>)
    ensures BytesOf(xs + ys) == BytesOf(xs) + BytesOf(ys)
    decreases |ys|
  {
    if ys == [] {
      assert xs + ys == xs;
    } else {
      var n := |ys|;
      assert (xs + ys)[..|xs + ys| - 1] == xs + ys[..n - 1];
      assert (xs + ys)[|xs + ys| - 1] == ys[n - 1];
      BytesOfAppend(xs, ys[..n - 1]);
    }
  }

  /** A wrapper whose children are `xs + ys` renders as the rendering of `xs` then that of `ys`. */
  lemma WrapperBytesAppend(k: WrapperKind, c: int, xs: seq<Expr>, ys: seq<Expr>)
    ensures Bytes(Wrapper(k, c, xs + ys)) == BytesOf(xs) + BytesOf(ys)
    ensures Bytes(Wrapper(k, c, xs + ys)) == Bytes(Wrapper(k, c, xs)) + Bytes(Wrapper(k, c, ys))
  {
    BytesOfAppend(xs, ys);
  }

  /** Appending one child to a wrapper appends that child's rendering. */
  lemma WrapperBytesPush(k: WrapperKind, c: int, xs: seq<Expr>, y: Expr)
    ensures Bytes(Wrapper(k, c, xs + [y])) == Bytes(Wrapper(k, c, xs)) + Bytes(y)
  {
    assert (xs + [y])[..|xs|] == xs;
  }

  /** The rendering of a wrapper depends on its children only, not on its count or its kind. */
  lemma WrapperBytesIgnoreCount(k1: WrapperKind, k2: WrapperKind, c1: int, c2: int, es: seq<Expr>)
    ensures Bytes(Wrapper(k1, c1, es)) == Bytes(Wrapper(k2, c2, es)) == BytesOf(es)
  {
  }
}
