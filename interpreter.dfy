/**
  The tape-machine evaluator of interpreter/interpreter.go.

  The state is a byte tape of fixed length, a pointer that nothing keeps on
  the tape unless the overflow guards are asked for, the bytes the reader has
  still to deliver, the bytes written so far, and a budget that stands for
  the cancellation context: every node about to run first asks the context,
  and once the budget is spent that question answers "done".

  Eval, EvalSeq and EvalLoop state what runExpression, runExpressions and the
  `while` loop do; the methods of the class Interpreter update the tape and
  the pointer in place and are proved to agree with them.
*/
module Interpreter {
  import opened Wrappers
  import opened Ast
  import Optimizer

  /** The options of Config that the core reads; the reader and writer are part of the State. */
  datatype Config = Config(memorySize: nat, raiseErrorOnOverflow: bool, raiseErrorOnEOF: bool)

  /**
    How a run can stop early. InputFinished and MemoryOverflow are the
    package's two error values (the latter with the pointer and the node's
    span that its message reports); Cancelled is the context's error;
    IndexPanic is Go's index-out-of-range panic; Hang is a loop that spins
    forever without asking the context.
  */
  datatype Error =
    | InputFinished
    | MemoryOverflow(pointer: int, start: int, end: int)
    | Cancelled
    | IndexPanic
    | Hang

  datatype State = State(memory: seq<Byte>, pointer: int, input: seq<Byte>, output: seq<Byte>, budget: nat)

  /** What runExpression and runExpressions return, with the state they leave. */
  datatype Outcome = Outcome(count: int, err: Option<Error>, st: State)

  predicate OnTape(s: State)
  {
    0 <= s.pointer < |s.memory|
  }

  /** A Go byte's wrap-around: the value modulo 256. */
  function Wrap(v: int): (b: Byte)
    ensures (b - v) % 256 == 0
    ensures 0 <= v < 256 ==> b == v
  {
    v % 256
  }

  function Done(s: State): Outcome
  {
    Outcome(1, None, s)
  }

  function Fail(s: State, err: Error): Outcome
  {
    Outcome(1, Some(err), s)
  }

  /** The overflow error for node `e`; building its message asks for both positions. */
  function OverflowError(pointer: int, e: Expr): (err: Error)
    ensures err.MemoryOverflow? <==> StartPos(e).Some? && EndPos(e).Some?
    ensures err.MemoryOverflow? ==> err.pointer == pointer
    ensures err.MemoryOverflow? ==> err.start == StartPos(e).value && err.end == EndPos(e).value
    ensures !err.MemoryOverflow? ==> err == IndexPanic
  {
    match (StartPos(e), EndPos(e))
    case (Some(a), Some(b)) => MemoryOverflow(pointer, a, b)
    case _ => IndexPanic
  }

  /**
    runExpression: one node. The count is 1 plus, for a loop, the steps of
    its completed iterations; every node kind without a case of its own
    costs 1 and changes nothing.
  */
  function Eval(cfg: Config, e: Expr, s: State): (r: Outcome)
    decreases s.budget, 0, 0
    ensures |r.st.memory| == |s.memory|
    ensures 0 <= r.count <= s.budget - r.st.budget
    ensures r.err.None? ==> 1 <= r.count == s.budget - r.st.budget
  {
    if s.budget == 0 then Outcome(0, Some(Cancelled), s)
    else
      var t := s.(budget := s.budget - 1);
      var guard := cfg.raiseErrorOnOverflow;
      var atLast := t.pointer == |t.memory| - 1;
      match e
      case PointerIncrement(_) =>
        if atLast && guard then Fail(t, OverflowError(t.pointer, e)) else Done(t.(pointer := t.pointer + 1))
      case Wrapper(MultiplePointerIncrement, c, _) =>
        if atLast && guard then Fail(t, OverflowError(t.pointer, e)) else Done(t.(pointer := t.pointer + c))
      case PointerDecrement(_) =>
        if t.pointer == 0 && guard then Fail(t, OverflowError(t.pointer, e)) else Done(t.(pointer := t.pointer - 1))
      case Wrapper(MultiplePointerDecrement, c, _) =>
        if atLast && guard then Fail(t, OverflowError(t.pointer, e)) else Done(t.(pointer := t.pointer - c))
      case ValueIncrement(_) =>
        if !OnTape(t) then Fail(t, IndexPanic)
        else if t.memory[t.pointer] == 255 && guard then Fail(t, OverflowError(t.pointer, e))
        else Done(t.(memory := t.memory[t.pointer := Wrap(t.memory[t.pointer] as int + 1)]))
      case ValueDecrement(_) =>
        if !OnTape(t) then Fail(t, IndexPanic)
        else if t.memory[t.pointer] == 0 && guard then Fail(t, OverflowError(t.pointer, e))
        else Done(t.(memory := t.memory[t.pointer := Wrap(t.memory[t.pointer] as int - 1)]))
      case Output(_) =>
        if !OnTape(t) then Fail(t, IndexPanic)
        else Done(t.(output := t.output + [t.memory[t.pointer]]))
      case Input(_) =>
        if t.input == [] then Fail(t, InputFinished)
        else
          var b := t.input[0];
          var u := t.(input := t.input[1..]);
          if !OnTape(u) then Fail(u, IndexPanic)
          else Done(u.(memory := u.memory[u.pointer := b]))
      case While(_, body) => EvalLoop(cfg, body, t, 1)
      case Wrapper(_, _, _) => Done(t)
  }

  /**
    runExpressions: the nodes in order, stopping at the first error. The
    count is the sum of the counts of the nodes that completed; the failing
    node's own count is dropped.
  */
  function EvalSeq(cfg: Config, es: seq<Expr>, s: State): (r: Outcome)
    decreases s.budget, 1, |es|
    ensures |r.st.memory| == |s.memory|
    ensures 0 <= r.count <= s.budget - r.st.budget
    ensures r.err.None? ==> r.count == s.budget - r.st.budget
    ensures r.err.None? && |es| > 0 ==> r.st.budget < s.budget
  {
    if es == [] then Outcome(0, None, s)
    else
      var h := Eval(cfg, es[0], s);
      if h.err.Some? then Outcome(0, h.err, h.st)
      else
        var t := EvalSeq(cfg, es[1..], h.st);
        Outcome(h.count + t.count, t.err, t.st)
  }

  /**
    The `for Memory[Pointer] != 0` loop of a While node, with `count` steps
    counted so far. An empty body never reaches the context check, so a
    nonzero cell makes it spin forever.
  */
  function EvalLoop(cfg: Config, body: seq<Expr>, s: State, count: int): (r: Outcome)
    decreases s.budget, 2, 0
    ensures |r.st.memory| == |s.memory|
    ensures count <= r.count <= count + s.budget - r.st.budget
    ensures r.err.None? ==> r.count == count + s.budget - r.st.budget
  {
    if !OnTape(s) then Outcome(count, Some(IndexPanic), s)
    else if s.memory[s.pointer] == 0 then Outcome(count, None, s)
    else if body == [] then Outcome(count, Some(Hang), s)
    else
      var b := EvalSeq(cfg, body, s);
      if b.err.Some? then Outcome(count, b.err, b.st)
      else EvalLoop(cfg, body, b.st, count + b.count)
  }

  /**
    Interpreter.Run: optimise the program, run its list, and turn
    InputFinished into success unless RaiseErrorOnEOF is set.
  */
  function EvalRun(cfg: Config, p: Program, s: State): (r: Outcome)
    ensures r.err == Some(InputFinished) ==> cfg.raiseErrorOnEOF
  {
    var o := EvalSeq(cfg, Optimizer.Folded(p.exprs), s);
    if o.err == Some(InputFinished) && !cfg.raiseErrorOnEOF then o.(err := None) else o
  }

  /** `c` steps counted before the rest of a list, whose outcome is `r`. */
  function After(c: int, r: Outcome): Outcome
  {
    Outcome(c + r.count, r.err, r.st)
  }

  class Interpreter {
    const program: Program
    const config: Config
    const memory: array<Byte>
    var pointer: int
    /** The bytes the reader has still to deliver. */
    var input: seq<Byte>
    /** The bytes written so far. */
    var output: seq<Byte>
    /** How many more nodes may start before the context is done. */
    var budget: nat

    ghost function Snapshot(): State
      reads this, memory
    {
      State(memory[..], pointer, input, output, budget)
    }

    /** NewInterpreter: a tape of MemorySize zero bytes and the pointer at 0. */
    constructor (p: Program, c: Config, reader: seq<Byte>)
      ensures program == p && config == c
      ensures fresh(memory) && memory.Length == c.memorySize
      ensures forall k :: 0 <= k < memory.Length ==> memory[k] == 0
      ensures pointer == 0 && input == reader && output == [] && budget == 0
    {
      program := p;
      config := c;
      memory := new Byte[c.memorySize](_ => 0);
      pointer := 0;
      input := reader;
      output := [];
      budget := 0;
    }

    /** Run: optimise, then run with `deadline` node starts left before the context is done. */
    method Run(deadline: nat) returns (count: int, err: Option<Error>)
      modifies this, memory
      ensures Outcome(count, err, Snapshot()) == EvalRun(config, program, old(Snapshot()).(budget := deadline))
    {
      var p := Optimizer.Optimize(program);
      budget := deadline;
      count, err := RunExpressions(p.exprs);
      if err == Some(InputFinished) && !config.raiseErrorOnEOF {
        err := None;
      }
    }

    method RunExpressions(exprs: seq<Expr>) returns (count: int, err: Option<Error>)
      modifies this, memory
      decreases budget, 1, |exprs|
      ensures Outcome(count, err, Snapshot()) == EvalSeq(config, exprs, old(Snapshot()))
    {
      count := 0;
      err := None;
      for k := 0 to |exprs|
        invariant budget <= old(budget)
        invariant After(count, EvalSeq(config, exprs[k..], Snapshot())) == EvalSeq(config, exprs, old(Snapshot()))
      {
        assert exprs[k..][0] == exprs[k] && exprs[k..][1..] == exprs[k + 1..];
        var exprCount, exprErr := RunExpression(exprs[k]);
        if exprErr.Some? {
          return count, exprErr;
        }
        count := count + exprCount;
      }
    }

    method RunExpression(expr: Expr) returns (count: int, err: Option<Error>)
      modifies this, memory
      decreases budget, 0, 0
      ensures Outcome(count, err, Snapshot()) == Eval(config, expr, old(Snapshot()))
    {
      if budget == 0 {
        return 0, Some(Cancelled);
      }
      budget := budget - 1;
      count := 1;
      err := None;
      var guard := config.raiseErrorOnOverflow;
      match expr {
        case PointerIncrement(_) =>
          if pointer == memory.Length - 1 && guard {
            return count, Some(OverflowError(pointer, expr));
          }
          pointer := pointer + 1;
        case Wrapper(MultiplePointerIncrement, c, _) =>
          if pointer == memory.Length - 1 && guard {
            return count, Some(OverflowError(pointer, expr));
          }
          pointer := pointer + c;
        case PointerDecrement(_) =>
          if pointer == 0 && guard {
            return count, Some(OverflowError(pointer, expr));
          }
          pointer := pointer - 1;
        case Wrapper(MultiplePointerDecrement, c, _) =>
          if pointer == memory.Length - 1 && guard {
            return count, Some(OverflowError(pointer, expr));
          }
          pointer := pointer - c;
        case ValueIncrement(_) =>
          if !(0 <= pointer < memory.Length) {
            return count, Some(IndexPanic);
          }
          if memory[pointer] == 255 && guard {
            return count, Some(OverflowError(pointer, expr));
          }
          memory[pointer] := Wrap(memory[pointer] as int + 1);
        case ValueDecrement(_) =>
          if !(0 <= pointer < memory.Length) {
            return count, Some(IndexPanic);
          }
          if memory[pointer] == 0 && guard {
            return count, Some(OverflowError(pointer, expr));
          }
          memory[pointer] := Wrap(memory[pointer] as int - 1);
        case Output(_) =>
          if !(0 <= pointer < memory.Length) {
            return count, Some(IndexPanic);
          }
          output := output + [memory[pointer]];
        case Input(_) =>
          if input == [] {
            return count, Some(InputFinished);
          }
          var b := input[0];
          input := input[1..];
          if !(0 <= pointer < memory.Length) {
            return count, Some(IndexPanic);
          }
          memory[pointer] := b;
        case While(_, body) =>
          count, err := RunWhile(body, count);
        case Wrapper(_, _, _) =>
      }
    }
  
    /** The `for Memory[Pointer] != 0` loop of a While node, `count` steps counted so far. */
    method RunWhile(body: seq<Expr>, count0: int) returns (count: int, err: Option<Error>)
      modifies this, memory
      decreases budget, 2, 0
      ensures Outcome(count, err, Snapshot()) == EvalLoop(config, body, old(Snapshot()), count0)
    {
      count := count0;
      err := None;
      while true
        invariant budget <= old(budget)
        invariant EvalLoop(config, body, Snapshot(), count) == EvalLoop(config, body, old(Snapshot()), count0)
        decreases budget
      {
        if !(0 <= pointer < memory.Length) {
          return count, Some(IndexPanic);
        }
        if memory[pointer] == 0 {
          break;
        }
        if body == [] {
          return count, Some(Hang);
        }
        var bodyCount, bodyErr := RunExpressions(body);
        if bodyErr.Some? {
          return count, bodyErr;
        }
        count := count + bodyCount;
      }
    }
  }
}
