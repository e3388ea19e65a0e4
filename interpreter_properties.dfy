/**
  What the evaluator guarantees, node by node and for whole runs: the guards
  of RaiseErrorOnOverflow, 8-bit wrap-around, reading and writing, step
  counting, stopping at the first error, the end-of-input rule of Run, the
  pointer staying on the tape when the guards are on and no
  MultiplePointer wrapper is run, and the places where it does not.
*/
module InterpreterProperties {
  import opened Wrappers
  import opened Ast
  import Optimizer
  import opened Interpreter

  // ---------------------------------------------------------------------
  // One node at a time

  /** Once the context is done, a node does nothing and costs nothing. */
  lemma CancelledWhenDone(cfg: Config, e: Expr, s: State)
    requires s.budget == 0
    ensures Eval(cfg, e, s) == Outcome(0, Some(Cancelled), s)
  {
  }

  /** `>` fails at the last cell when guarded and leaves the pointer; otherwise it moves one right. */
  lemma PointerIncrementStep(cfg: Config, tok: Token, s: State)
    requires s.budget > 0
    ensures var r := Eval(cfg, PointerIncrement(tok), s);
      var t := s.(budget := s.budget - 1);
      r.count == 1 &&
      (r.err.Some? <==> cfg.raiseErrorOnOverflow && s.pointer == |s.memory| - 1) &&
      (r.err.Some? ==> r.err == Some(MemoryOverflow(s.pointer, tok.start, tok.end)) && r.st == t) &&
      (r.err.None? ==> r.st == t.(pointer := s.pointer + 1))
  {
  }

  /** `<` fails at cell 0 when guarded and leaves the pointer; otherwise it moves one left. */
  lemma PointerDecrementStep(cfg: Config, tok: Token, s: State)
    requires s.budget > 0
    ensures var r := Eval(cfg, PointerDecrement(tok), s);
      var t := s.(budget := s.budget - 1);
      r.count == 1 &&
      (r.err.Some? <==> cfg.raiseErrorOnOverflow && s.pointer == 0) &&
      (r.err.Some? ==> r.err == Some(MemoryOverflow(s.pointer, tok.start, tok.end)) && r.st == t) &&
      (r.err.None? ==> r.st == t.(pointer := s.pointer - 1))
  {
  }

  /**
    Both MultiplePointer wrappers fail only at the last cell (the decrement
    too), and otherwise move by their count with no further bound check.
  */
  lemma PointerJumpStep(cfg: Config, k: WrapperKind, c: int, es: seq<Expr>, s: State)
    requires k == MultiplePointerIncrement || k == MultiplePointerDecrement
    requires s.budget > 0
    ensures var r := Eval(cfg, Wrapper(k, c, es), s);
      var t := s.(budget := s.budget - 1);
      r.count == 1 &&
      (r.err.Some? <==> cfg.raiseErrorOnOverflow && s.pointer == |s.memory| - 1) &&
      (r.err.Some? ==> r.st == t && (r.err.value.MemoryOverflow? <==> |es| > 0 && StartPos(es[0]).Some? && EndPos(es[|es| - 1]).Some?)) &&
      (r.err.Some? && |es| > 0 && StartPos(es[0]).Some? && EndPos(es[|es| - 1]).Some? ==>
        r.err == Some(MemoryOverflow(s.pointer, StartPos(es[0]).value, EndPos(es[|es| - 1]).value))) &&
      (r.err.Some? && !r.err.value.MemoryOverflow? ==> r.err == Some(IndexPanic)) &&
      (r.err.None? ==> r.st == t.(pointer := if k == MultiplePointerIncrement then s.pointer + c else s.pointer - c))
  {
  }

  /** `+` on 255 fails when guarded and leaves the tape; otherwise the cell becomes (v + 1) mod 256. */
  lemma ValueIncrementStep(cfg: Config, tok: Token, s: State)
    requires s.budget > 0 && OnTape(s)
    ensures var r := Eval(cfg, ValueIncrement(tok), s);
      var t := s.(budget := s.budget - 1);
      var v := s.memory[s.pointer];
      r.count == 1 &&
      (r.err.Some? <==> cfg.raiseErrorOnOverflow && v == 255) &&
      (r.err.Some? ==> r.err == Some(MemoryOverflow(s.pointer, tok.start, tok.end)) && r.st == t) &&
      (r.err.None? ==> r.st == t.(memory := s.memory[s.pointer := if v == 255 then 0 else v + 1]))
  {
  }

  /** `-` on 0 fails when guarded and leaves the tape; otherwise the cell becomes (v - 1) mod 256. */
  lemma ValueDecrementStep(cfg: Config, tok: Token, s: State)
    requires s.budget > 0 && OnTape(s)
    ensures var r := Eval(cfg, ValueDecrement(tok), s);
      var t := s.(budget := s.budget - 1);
      var v := s.memory[s.pointer];
      r.count == 1 &&
      (r.err.Some? <==> cfg.raiseErrorOnOverflow && v == 0) &&
      (r.err.Some? ==> r.err == Some(MemoryOverflow(s.pointer, tok.start, tok.end)) && r.st == t) &&
      (r.err.None? ==> r.st == t.(memory := s.memory[s.pointer := if v == 0 then 255 else v - 1]))
  {
  }

  /** `,` at end of input fails with InputFinished and changes nothing; otherwise it stores the next byte. */
  lemma InputStep(cfg: Config, tok: Token, s: State)
    requires s.budget > 0 && OnTape(s)
    ensures var r := Eval(cfg, Input(tok), s);
      var t := s.(budget := s.budget - 1);
      r.count == 1 &&
      (r.err.Some? <==> s.input == []) &&
      (r.err.Some? ==> r.err == Some(InputFinished) && r.st == t) &&
      (r.err.None? ==> r.st == t.(memory := s.memory[s.pointer := s.input[0]], input := s.input[1..]))
  {
  }

  /** `.` appends the current cell to the output and changes nothing else. */
  lemma OutputStep(cfg: Config, tok: Token, s: State)
    requires s.budget > 0 && OnTape(s)
    ensures Eval(cfg, Output(tok), s) == Outcome(1, None, s.(output := s.output + [s.memory[s.pointer]], budget := s.budget - 1))
  {
  }

  /** Reading or writing the current cell off the tape is Go's index panic. */
  lemma OffTapeAccessPanics(cfg: Config, e: Expr, s: State)
    requires s.budget > 0 && !OnTape(s)
    requires e.ValueIncrement? || e.ValueDecrement? || e.Output? || e.While? || (e.Input? && s.input != [])
    ensures Eval(cfg, e, s).err == Some(IndexPanic)
  {
  }

  /** A loop on a zero cell costs exactly one step and changes nothing. */
  lemma WhileOnZero(cfg: Config, tok: Token, body: seq<Expr>, s: State)
    requires s.budget > 0 && OnTape(s) && s.memory[s.pointer] == 0
    ensures Eval(cfg, While(tok, body), s) == Outcome(1, None, s.(budget := s.budget - 1))
  {
  }

  /** An empty loop body on a nonzero cell never ends, and no context check stops it. */
  lemma EmptyLoopHangs(cfg: Config, tok: Token, s: State)
    requires s.budget > 0 && OnTape(s) && s.memory[s.pointer] != 0
    ensures Eval(cfg, While(tok, []), s) == Outcome(1, Some(Hang), s.(budget := s.budget - 1))
  {
  }

  /**
    The wrappers the optimizer builds have no case in the interpreter: each
    costs one step and changes nothing.
  */
  lemma FoldWrapperIsNoOp(cfg: Config, k: WrapperKind, c: int, es: seq<Expr>, s: State)
    requires k == PointerMove || k == MultipleValueIncrement || k == MultipleValueDecrement
    requires s.budget > 0
    ensures Eval(cfg, Wrapper(k, c, es), s) == Outcome(1, None, s.(budget := s.budget - 1))
  {
  }

  // ---------------------------------------------------------------------
  // Lists of nodes

  /** Running `xs + ys` runs `xs`, stops there on an error, and otherwise runs `ys` after it. */
  lemma {:induction false} EvalSeqAppend(cfg: Config, xs: seq<Expr>, ys: seq<Expr>, s: State)
    ensures var a := EvalSeq(cfg, xs, s);
      EvalSeq(cfg, xs + ys, s) == if a.err.Some? then a else After(a.count, EvalSeq(cfg, ys, a.st))
    decreases |xs|
  {
    if xs == [] {
      assert xs + ys == ys;
    } else {
      assert (xs + ys)[0] == xs[0] && (xs + ys)[1..] == xs[1..] + ys;
      var h := Eval(cfg, xs[0], s);
      if h.err.None? {
        EvalSeqAppend(cfg, xs[1..], ys, h.st);
      }
    }
  }

  /**
    A node that fails after `xs` completed ends the list: the count is that of
    `xs` alone, without the failing node's own, and `ys` never runs.
  */
  lemma FailingNodeDropsCount(cfg: Config, xs: seq<Expr>, e: Expr, ys: seq<Expr>, s: State)
    requires EvalSeq(cfg, xs, s).err.None?
    requires Eval(cfg, e, EvalSeq(cfg, xs, s).st).err.Some?
    ensures var a := EvalSeq(cfg, xs, s);
      var h := Eval(cfg, e, a.st);
      EvalSeq(cfg, xs + [e] + ys, s) == Outcome(a.count, h.err, h.st)
  {
    var a := EvalSeq(cfg, xs, s);
    assert xs + [e] + ys == xs + ([e] + ys);
    assert ([e] + ys)[0] == e;
    EvalSeqAppend(cfg, xs, [e] + ys, s);
  }

  /** A list without loops that completes costs exactly one step per node. */
  lemma {:induction false} StraightLineCount(cfg: Config, es: seq<Expr>, s: State)
    requires forall i :: 0 <= i < |es| ==> !es[i].While?
    requires EvalSeq(cfg, es, s).err.None?
    ensures EvalSeq(cfg, es, s).count == |es|
    decreases |es|
  {
    if es != [] {
      var h := Eval(cfg, es[0], s);
      assert h.count == 1;
      StraightLineCount(cfg, es[1..], h.st);
    }
  }

  // ---------------------------------------------------------------------
  // Reader and writer

  /** `rest` is `from` with some prefix dropped. */
  ghost predicate Consumed(rest: seq<Byte>, from: seq<Byte>)
    decreases |from|
  {
    rest == from || (from != [] && Consumed(rest, from[1..]))
  }

  lemma {:induction false} ConsumedTrans(a: seq<Byte>, b: seq<Byte>, c: seq<Byte>)
    requires Consumed(a, b) && Consumed(b, c)
    ensures Consumed(a, c)
    decreases |c|
  {
    if b != c {
      ConsumedTrans(a, b, c[1..]);
    }
  }

  /** `t` is `s` with some input consumed and some output appended. */
  ghost predicate Advanced(s: State, t: State)
  {
    Consumed(t.input, s.input) && s.output <= t.output
  }

  lemma AdvancedTrans(a: State, b: State, c: State)
    requires Advanced(a, b) && Advanced(b, c)
    ensures Advanced(a, c)
  {
    ConsumedTrans(c.input, b.input, a.input);
  }

  lemma AdvancedSame(s: State, t: State)
    requires t.input == s.input && t.output == s.output
    ensures Advanced(s, t)
  {
  }

  lemma AdvancedRead(s: State, t: State)
    requires s.input != [] && t.input == s.input[1..] && t.output == s.output
    ensures Advanced(s, t)
  {
  }

  lemma AdvancedWrite(s: State, t: State, b: Byte)
    requires t.input == s.input && t.output == s.output + [b]
    ensures Advanced(s, t)
  {
  }

  /** `,` consumes at most the next input byte and writes nothing. */
  lemma InputStreams(cfg: Config, e: Expr, s: State)
    requires s.budget > 0 && e.Input?
    ensures var r := Eval(cfg, e, s);
      Advanced(s, r.st) && (r.err == Some(InputFinished) ==> r.st.input == [])
  {
    var r := Eval(cfg, e, s);
    if s.input == [] {
      AdvancedSame(s, r.st);
    } else {
      AdvancedRead(s, r.st);
    }
  }

  /** `.` appends at most one byte and reads nothing. */
  lemma OutputStreams(cfg: Config, e: Expr, s: State)
    requires s.budget > 0 && e.Output?
    ensures var r := Eval(cfg, e, s);
      Advanced(s, r.st) && r.err != Some(InputFinished)
  {
    var r := Eval(cfg, e, s);
    if OnTape(s) {
      AdvancedWrite(s, r.st, s.memory[s.pointer]);
    } else {
      AdvancedSame(s, r.st);
    }
  }

  /** Every other node that starts no loop body leaves both streams alone. */
  lemma QuietStreams(cfg: Config, e: Expr, s: State)
    requires s.budget == 0 || (!e.While? && !e.Input? && !e.Output?)
    ensures var r := Eval(cfg, e, s);
      r.st.input == s.input && r.st.output == s.output && r.err != Some(InputFinished)
  {
  }

  /**
    Input is only consumed and output only appended, and InputFinished is
    only ever reported once the input is exhausted.
  */
  lemma {:induction false} EvalStreams(cfg: Config, e: Expr, s: State)
    ensures var r := Eval(cfg, e, s);
      Advanced(s, r.st) && (r.err == Some(InputFinished) ==> r.st.input == [])
    decreases s.budget, 0, 0
  {
    if s.budget > 0 && e.While? {
      var t := s.(budget := s.budget - 1);
      EvalLoopStreams(cfg, e.body, t, 1);
      assert Eval(cfg, e, s) == EvalLoop(cfg, e.body, t, 1);
    } else if s.budget > 0 && e.Input? {
      InputStreams(cfg, e, s);
    } else if s.budget > 0 && e.Output? {
      OutputStreams(cfg, e, s);
    } else {
      QuietStreams(cfg, e, s);
      AdvancedSame(s, Eval(cfg, e, s).st);
    }
  }

  lemma {:induction false} EvalSeqStreams(cfg: Config, es: seq<Expr>, s: State)
    ensures var r := EvalSeq(cfg, es, s);
      Advanced(s, r.st) && (r.err == Some(InputFinished) ==> r.st.input == [])
    decreases s.budget, 1, |es|
  {
    if es != [] {
      var h := Eval(cfg, es[0], s);
      EvalStreams(cfg, es[0], s);
      if h.err.None? {
        EvalSeqStreams(cfg, es[1..], h.st);
        AdvancedTrans(s, h.st, EvalSeq(cfg, es[1..], h.st).st);
      }
    }
  }

  lemma {:induction false} EvalLoopStreams(cfg: Config, body: seq<Expr>, s: State, count: int)
    ensures var r := EvalLoop(cfg, body, s, count);
      Advanced(s, r.st) && (r.err == Some(InputFinished) ==> r.st.input == [])
    decreases s.budget, 2, 1
  {
    if OnTape(s) && s.memory[s.pointer] != 0 && body != [] {
      IterationStreams(cfg, body, s, count);
    } else {
      LoopStops(cfg, body, s, count);
      AdvancedSame(s, s);
    }
  }

  /** The stream facts for a loop that runs its body at least once. */
  lemma {:induction false} IterationStreams(cfg: Config, body: seq<Expr>, s: State, count: int)
    requires OnTape(s) && s.memory[s.pointer] != 0 && body != []
    ensures var r := EvalLoop(cfg, body, s, count);
      Advanced(s, r.st) && (r.err == Some(InputFinished) ==> r.st.input == [])
    decreases s.budget, 2, 0
  {
    var b := EvalSeq(cfg, body, s);
    var rest := EvalLoop(cfg, body, b.st, count + b.count);
    EvalSeqStreams(cfg, body, s);
    LoopIterates(cfg, body, s, count);
    if b.err.None? {
      EvalLoopStreams(cfg, body, b.st, count + b.count);
    }
    CombineStreams(s, b, rest, EvalLoop(cfg, body, s, count), count);
  }

  /** One iteration followed by the rest of the loop, on plain outcomes. */
  lemma CombineStreams(s: State, b: Outcome, rest: Outcome, r: Outcome, count: int)
    requires Advanced(s, b.st) && (b.err == Some(InputFinished) ==> b.st.input == [])
    requires b.err.None? ==> Advanced(b.st, rest.st) && (rest.err == Some(InputFinished) ==> rest.st.input == [])
    requires r == if b.err.Some? then Outcome(count, b.err, b.st) else rest
    ensures Advanced(s, r.st) && (r.err == Some(InputFinished) ==> r.st.input == [])
  {
    if b.err.None? {
      AdvancedTrans(s, b.st, rest.st);
    }
  }

  /** A loop that does not run its body leaves the state as it is. */
  lemma LoopStops(cfg: Config, body: seq<Expr>, s: State, count: int)
    requires !(OnTape(s) && s.memory[s.pointer] != 0 && body != [])
    ensures var r := EvalLoop(cfg, body, s, count);
      r.st == s && r.err != Some(InputFinished)
  {
  }

  /** A loop that runs its body: stop on the body's error, else go round again. */
  lemma LoopIterates(cfg: Config, body: seq<Expr>, s: State, count: int)
    requires OnTape(s) && s.memory[s.pointer] != 0 && body != []
    ensures var b := EvalSeq(cfg, body, s);
      EvalLoop(cfg, body, s, count) ==
        if b.err.Some? then Outcome(count, b.err, b.st) else EvalLoop(cfg, body, b.st, count + b.count)
  {
  }

  // ---------------------------------------------------------------------
  // The pointer under RaiseErrorOnOverflow

  /** No MultiplePointer wrapper is run anywhere in `e`, loop bodies included. */
  predicate NoJumps(e: Expr)
    decreases e
  {
    match e
    case Wrapper(k, _, _) => k != MultiplePointerIncrement && k != MultiplePointerDecrement
    case While(_, body) => forall i :: 0 <= i < |body| ==> NoJumps(body[i])
    case _ => true
  }

  /**
    With the guards on, a node free of MultiplePointer wrappers keeps the
    pointer on the tape and never causes an index panic.
  */
  lemma {:induction false} EvalKeepsPointerOnTape(cfg: Config, e: Expr, s: State)
    requires cfg.raiseErrorOnOverflow && OnTape(s) && NoJumps(e)
    ensures var r := Eval(cfg, e, s);
      OnTape(r.st) && r.err != Some(IndexPanic)
    decreases s.budget, 0, 0
  {
    if s.budget > 0 {
      match e
      case While(_, body) =>
        EvalLoopKeepsPointerOnTape(cfg, body, s.(budget := s.budget - 1), 1);
      case _ =>
    }
  }

  lemma {:induction false} EvalSeqKeepsPointerOnTape(cfg: Config, es: seq<Expr>, s: State)
    requires cfg.raiseErrorOnOverflow && OnTape(s)
    requires forall i :: 0 <= i < |es| ==> NoJumps(es[i])
    ensures var r := EvalSeq(cfg, es, s);
      OnTape(r.st) && r.err != Some(IndexPanic)
    decreases s.budget, 1, |es|
  {
    if es != [] {
      var h := Eval(cfg, es[0], s);
      EvalKeepsPointerOnTape(cfg, es[0], s);
      if h.err.None? {
        EvalSeqKeepsPointerOnTape(cfg, es[1..], h.st);
      }
    }
  }

  lemma {:induction false} EvalLoopKeepsPointerOnTape(cfg: Config, body: seq<Expr>, s: State, count: int)
    requires cfg.raiseErrorOnOverflow && OnTape(s)
    requires forall i :: 0 <= i < |body| ==> NoJumps(body[i])
    ensures var r := EvalLoop(cfg, body, s, count);
      OnTape(r.st) && r.err != Some(IndexPanic)
    decreases s.budget, 2, 0
  {
    if s.memory[s.pointer] != 0 && body != [] {
      var b := EvalSeq(cfg, body, s);
      EvalSeqKeepsPointerOnTape(cfg, body, s);
      if b.err.None? {
        EvalLoopKeepsPointerOnTape(cfg, body, b.st, count + b.count);
      }
    }
  }

  /**
    The MultiplePointerDecrement guard looks at the last cell, not at cell 0:
    with the guards on and the pointer at 0 it moves the pointer off the tape,
    and the next `.` panics.
  */
  lemma JumpLeftEscapesTape(cfg: Config, c: int, es: seq<Expr>, tok: Token, s: State)
    requires cfg.raiseErrorOnOverflow && s.pointer == 0 && |s.memory| >= 2 && s.budget >= 2 && c > 0
    ensures var r := Eval(cfg, Wrapper(MultiplePointerDecrement, c, es), s);
      r.err.None? && r.st.pointer == -c
    ensures EvalSeq(cfg, [Wrapper(MultiplePointerDecrement, c, es), Output(tok)], s).err == Some(IndexPanic)
  {
    var h := Eval(cfg, Wrapper(MultiplePointerDecrement, c, es), s);
    assert [Wrapper(MultiplePointerDecrement, c, es), Output(tok)][1..] == [Output(tok)];
    assert EvalSeq(cfg, [Output(tok)], h.st).err == Some(IndexPanic);
  }

  // ---------------------------------------------------------------------
  // Run

  /**
    Run reports InputFinished only when RaiseErrorOnEOF is set (and the input
    is exhausted); without the flag, running out of input is success with
    the steps counted so far. Every other outcome is passed on unchanged.
  */
  lemma RunEndOfInput(cfg: Config, p: Program, s: State)
    ensures var o := EvalSeq(cfg, Optimizer.Folded(p.exprs), s);
      var r := EvalRun(cfg, p, s);
      r.count == o.count && r.st == o.st &&
      (r.err == Some(InputFinished) ==> cfg.raiseErrorOnEOF && r.st.input == []) &&
      (o.err == Some(InputFinished) && !cfg.raiseErrorOnEOF ==> r.err.None?) &&
      (o.err != Some(InputFinished) || cfg.raiseErrorOnEOF ==> r == o)
  {
    EvalSeqStreams(cfg, Optimizer.Folded(p.exprs), s);
  }

  // ---------------------------------------------------------------------
  // The echo program `+[>,.<]`

  function EchoBody(ts: seq<Token>): seq<Expr>
    requires |ts| == 6
  {
    [PointerIncrement(ts[2]), Input(ts[3]), Output(ts[4]), PointerDecrement(ts[5])]
  }

  function Echo(ts: seq<Token>): seq<Expr>
    requires |ts| == 6
  {
    [ValueIncrement(ts[0]), While(ts[1], EchoBody(ts))]
  }

  /** One iteration of the echo body copies one input byte to cell 1 and to the output. */
  lemma EchoIteration(cfg: Config, ts: seq<Token>, s: State)
    requires |ts| == 6
    requires s.pointer == 0 && |s.memory| >= 2 && s.memory[0] == 1 && s.input != [] && s.budget >= 4
    ensures EvalSeq(cfg, EchoBody(ts), s) ==
      Outcome(4, None, s.(memory := s.memory[1 := s.input[0]], input := s.input[1..],
                          output := s.output + [s.input[0]], budget := s.budget - 4))
  {
    var body := EchoBody(ts);
    var s1 := s.(pointer := 1, budget := s.budget - 1);
    var s2 := s1.(memory := s.memory[1 := s.input[0]], input := s.input[1..], budget := s.budget - 2);
    var s3 := s2.(output := s.output + [s.input[0]], budget := s.budget - 3);
    var s4 := s3.(pointer := 0, budget := s.budget - 4);
    assert Eval(cfg, body[0], s) == Outcome(1, None, s1);
    assert Eval(cfg, body[1], s1) == Outcome(1, None, s2);
    assert Eval(cfg, body[2], s2) == Outcome(1, None, s3);
    assert Eval(cfg, body[3], s3) == Outcome(1, None, s4);
    assert body[1..][1..][1..][1..] == [];
    assert EvalSeq(cfg, body[3..], s3) == Outcome(1, None, s4);
    assert body[1..][1..] == body[2..] && body[2..][1..] == body[3..];
    assert EvalSeq(cfg, body[2..], s2) == Outcome(2, None, s4);
    assert EvalSeq(cfg, body[1..], s1) == Outcome(3, None, s4);
  }

  /**
    The echo loop copies the whole input to the output and then stops with
    InputFinished at the `,` that finds the input empty.
  */
  lemma {:induction false} EchoLoop(cfg: Config, ts: seq<Token>, s: State, count: int)
    requires |ts| == 6
    requires s.pointer == 0 && |s.memory| >= 2 && s.memory[0] == 1
    requires s.budget >= 4 * |s.input| + 2
    ensures var r := EvalLoop(cfg, EchoBody(ts), s, count);
      r.count == count + 4 * |s.input| && r.err == Some(InputFinished) && r.st.output == s.output + s.input
    decreases |s.input|
  {
    var body := EchoBody(ts);
    if s.input == [] {
      var s1 := s.(pointer := 1, budget := s.budget - 1);
      assert Eval(cfg, body[0], s) == Outcome(1, None, s1);
      assert Eval(cfg, body[1], s1).err == Some(InputFinished);
      assert EvalSeq(cfg, body[1..], s1).err == Some(InputFinished);
      assert EvalSeq(cfg, body, s).err == Some(InputFinished);
    } else {
      EchoIteration(cfg, ts, s);
      var b := EvalSeq(cfg, body, s);
      assert EvalLoop(cfg, body, s, count) == EvalLoop(cfg, body, b.st, count + 4);
      EchoLoop(cfg, ts, b.st, count + 4);
      assert s.input == [s.input[0]] + b.st.input;
    }
  }

  /**
    On the tree as parsed, `+[>,.<]` with input "Hello" writes "Hello" and
    stops with InputFinished, counting 1 step: the loop's steps are dropped
    with its error.
  */
  lemma EchoUnfolded(cfg: Config, ts: seq<Token>, s: State)
    requires |ts| == 6
    requires s.pointer == 0 && |s.memory| >= 2 && forall k :: 0 <= k < |s.memory| ==> s.memory[k] == 0
    requires s.input == [72, 101, 108, 108, 111] && s.output == [] && s.budget >= 24
    ensures var r := EvalSeq(cfg, Echo(ts), s);
      r.count == 1 && r.err == Some(InputFinished) && r.st.output == [72, 101, 108, 108, 111]
  {
    var es := Echo(ts);
    var s1 := s.(memory := s.memory[0 := 1], budget := s.budget - 1);
    assert Eval(cfg, es[0], s) == Outcome(1, None, s1);
    EchoLoop(cfg, ts, s1.(budget := s1.budget - 1), 1);
    assert Eval(cfg, es[1], s1).err == Some(InputFinished);
    assert es[1..] == [es[1]];
  }

  /** The optimiser folds the `+` of the echo program into a MultipleValueIncrement. */
  lemma EchoFolds(ts: seq<Token>)
    requires |ts| == 6
    ensures var es := Echo(ts);
      Optimizer.Folded(es) == [Wrapper(MultipleValueIncrement, 1, [es[0]]), es[1]]
  {
    var es := Echo(ts);
    var none: seq<Expr> := [];
    var w := Wrapper(MultipleValueIncrement, 1, [es[0]]);
    Optimizer.FoldedPrefix(es, 0);
    assert es[..0] == none;
    Optimizer.FoldStepNew(none, es[0], MultipleValueIncrement, 1);
    assert none + [w] == [w];
    Optimizer.FoldedPrefix(es, 1);
    assert es[..2] == es;
    assert Optimizer.FoldStep([w], es[1]) == [w] + [es[1]];
  }

  /**
    Through Run, which optimises first, the `+` is folded into a
    MultipleValueIncrement that the interpreter does not execute, so the
    loop sees a zero cell: the run succeeds after 2 steps and writes nothing.
  */
  lemma EchoThroughRun(cfg: Config, ts: seq<Token>, s: State)
    requires |ts| == 6
    requires s.pointer == 0 && |s.memory| >= 1 && s.memory[0] == 0 && s.budget >= 2
    ensures var r := EvalRun(cfg, Program(Echo(ts)), s);
      r.count == 2 && r.err.None? && r.st.output == s.output && r.st.memory == s.memory
  {
    var es := Echo(ts);
    EchoFolds(ts);
    var folded := [Wrapper(MultipleValueIncrement, 1, [es[0]]), es[1]];
    var s1 := s.(budget := s.budget - 1);
    var s2 := s1.(budget := s1.budget - 1);
    assert Eval(cfg, folded[0], s) == Outcome(1, None, s1);
    assert Eval(cfg, folded[1], s1) == Outcome(1, None, s2);
    assert folded[1..] == [folded[1]] && folded[1..][1..] == [];
    assert EvalSeq(cfg, folded[1..], s1) == Outcome(1, None, s2);
    assert EvalSeq(cfg, folded, s) == Outcome(2, None, s2);
  }
}
