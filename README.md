# A verified model of the opt-brainfxxk core

This project models, in Dafny, the core of a Brainf*ck tool chain written in
Go: the wrapper nodes of its expression tree, its run-folding optimizer, and
its tape-machine interpreter. It proves properties of that model.

- **`Ast`** (`ast.dfy`): the node kinds as one closed datatype. Six
  primitives (`>`, `<`, `+`, `-`, `.`, `,`) and `While` carry a `Token`.
  A token is what the parser records: first and last offset and the
  original bytes. The five wrapper kinds share one shape, `Wrapper(kind,
  count, exprs)`. `StartPos`, `EndPos` and `Bytes` of a wrapper come from
  its children, as in `ast/optimize.go`. A position is `None` where Go
  would panic on an empty child list.
- **`Optimizer`** (`optimizer.dfy`): `OptimizeExpressions` is the Go loop
  as an imperative method. Its body, `FoldInto`, updates the trailing
  wrapper in place or appends. The loop is proved equal to the
  specification function `Folded`.
  `OptimizerProperties` proves what the pass guarantees, all about `Folded`.
- **`Interpreter`** (`interpreter.dfy`): the class `Interpreter` has the
  tape as an `array<Byte>`, the pointer, the unread input, the output
  written so far, and a `budget`. Its methods `RunExpression`,
  `RunExpressions`, `RunWhile` and `Run` change this state in place. Each
  is proved to agree with the functions `Eval`, `EvalSeq`, `EvalLoop` and
  `EvalRun`. `InterpreterProperties` proves the guards, wrap-around, I/O,
  step counting, error propagation and the end-of-input rule.

Modelling choices:

- **Cancellation.** The `context.Context` becomes `budget`: the number of
  nodes that may still start before `ctx.Done()` fires. At 0,
  `runExpression` returns `Cancelled` with count 0.
- **Reader and writer.** The reader is the sequence of bytes still to
  read. End of input is `io.EOF`. The writer is the output sequence,
  appended to.
- **Go panics and hangs.** Both are returned as distinct outcomes, so
  every path stays total:
  - `IndexPanic`: `Memory[Pointer]` off the tape, or the error message of
    an empty MultiplePointer wrapper.
  - `Hang`: a loop with an empty body on a nonzero cell. Go spins forever
    there without ever polling the context.
- **Bytes.** Cells wrap modulo 256 explicitly (`Wrap`). Pointers and counts
  are unbounded integers.

## Model

| member | source | states |
|---|---|---|
| `Ast.StartPos` | ast/optimize.go:8-10 | A node's start offset; it is missing only for a wrapper. A wrapper's start is its first child's (`WrapperStartPos`, `EmptyWrapperHasNoPosition`, `WellFormedHasPositions`). |
| `Ast.EndPos` | ast/optimize.go:12-14 | A node's end offset; it is missing only for a wrapper. A wrapper's end is its last child's (`WrapperEndPos`, `EmptyWrapperHasNoPosition`, `WellFormedHasPositions`). |
| `Ast.WrapperStartPos` | ast/optimize.go:8-10 | A wrapper starts where its first child starts, and appending children does not change that (both variants, also lines 33-35). |
| `Ast.WrapperEndPos` | ast/optimize.go:12-14 | A wrapper ends where its last child ends, so appending a child moves the end to that child's end (also lines 37-39). |
| `Ast.EmptyWrapperHasNoPosition` | ast/optimize.go:8-14 | With no children, start and end are undefined (Go indexes an empty slice and panics). |
| `Ast.WellFormedHasPositions` | ast/optimize.go:8-14 | In a tree where every wrapper has children, every node has both a start and an end position. |
| `Ast.Bytes` | ast/optimize.go:16-22 | A node's rendering; a wrapper renders as its children's concatenated renderings. Its contract is given by `WrapperBytesAppend`, `WrapperBytesPush` and `WrapperBytesIgnoreCount`. |
| `Ast.BytesOf` | ast/optimize.go:16-22 | The append loop over a child list; it distributes over list concatenation (`BytesOfAppend`). |
| `Ast.BytesOfAppend` | ast/optimize.go:16-22 | The rendering of a child list `xs + ys` is the rendering of `xs` followed by that of `ys`. |
| `Ast.WrapperBytesAppend` | ast/optimize.go:16-22 | A wrapper over `xs + ys` renders as the concatenation of the two parts' renderings. |
| `Ast.WrapperBytesPush` | ast/optimize.go:41-47 | Appending one child to a wrapper appends exactly that child's bytes. |
| `Ast.WrapperBytesIgnoreCount` | ast/optimize.go:16-22 | A wrapper's rendering depends only on its children, not on its count or its kind (the two variants render alike). |
| `Ast.String` | ast/optimize.go:24-26 | The string has one character per rendered byte, with that byte's code, for both variants (also lines 49-51). |
| `Optimizer.FoldKind` | optimizer/optimizer.go:33-88 | Exactly `>`, `<`, `+` and `-` are folded; every other node is left alone. |
| `Optimizer.FoldKindValues` | optimizer/optimizer.go:33-88 | `>` and `<` go to PointerMove with +1 and −1; `+` goes to MultipleValueIncrement and `-` to MultipleValueDecrement, each with +1. |
| `Optimizer.FoldStep` | optimizer/optimizer.go:34-88 | One iteration of the loop, as a function. Its contract is in `FoldStepLength` and `FoldStepKeepsPrefix`, and in `FoldInto`, which computes it the way Go does. |
| `Optimizer.FoldStepLength` | optimizer/optimizer.go:34-88 | One iteration adds at most one node to the output and removes none. |
| `Optimizer.FoldStepKeepsPrefix` | optimizer/optimizer.go:34-88 | Every output node before the last is left as it was by one iteration. |
| `Optimizer.Folded` | optimizer/optimizer.go:33-90 | The list the pass returns. Its properties are `FoldedEmpty` and the `OptimizerProperties` lemmas below. |
| `Optimizer.FoldedEmpty` | optimizer/optimizer.go:33-90 | The output is empty exactly when the input is. |
| `Optimizer.FoldInto` | optimizer/optimizer.go:34-88 | The body of the Go loop: it extends the trailing wrapper of the node's kind in place and stops there, or appends a new one-node wrapper, or appends the node. The resulting list is `FoldStep` of the list and the node. |
| `Optimizer.OptimizeExpressions` | optimizer/optimizer.go:25-94 | The loop over the input, running `FoldInto` for each node, returns `Folded(exprs)`. |
| `Optimizer.Optimize` | optimizer/optimizer.go:12-23 | Never fails and returns a new Program whose list is the folded list. |
| `OptimizerProperties.FlattenFolded` | optimizer/optimizer.go:33-93 | Replacing each fold wrapper of the output by its children gives the same list as doing so on the input: nothing dropped, duplicated or reordered. |
| `OptimizerProperties.FlattenPlain` | optimizer/optimizer.go:33-93 | A list with no fold wrapper is its own flattening. |
| `OptimizerProperties.RoundTrip` | optimizer/optimizer.go:33-93 | For a parsed list (no fold wrappers), flattening the output reproduces the input exactly, in order. |
| `OptimizerProperties.RenderingPreserved` | optimizer/optimizer.go:33-93 | The output list renders to exactly the same bytes as the input list. |
| `OptimizerProperties.LengthBound` | optimizer/optimizer.go:90 | The output is never longer than the input. |
| `OptimizerProperties.CreatedWrappersNonEmpty` | optimizer/optimizer.go:43-87 | If every top-level input wrapper has children, so does every top-level output wrapper; the ones the pass builds start with one child and only grow. |
| `OptimizerProperties.OthersKept` | optimizer/optimizer.go:88-99 | The nodes neither folded nor extended (outputs, inputs, loops with their bodies untouched, MultiplePointer wrappers) come out unchanged and in their original order. |
| `OptimizerProperties.NoBareAfterFold` | optimizer/optimizer.go:33-90 | No bare `>`, `<`, `+` or `-` is left at the top level of the output. |
| `OptimizerProperties.FoldedPassThrough` | optimizer/optimizer.go:33-90 | A list without bare `>`, `<`, `+`, `-` passes through unchanged. |
| `OptimizerProperties.Idempotent` | optimizer/optimizer.go:25-94 | Optimising the pass's own output returns the same list. |
| `OptimizerProperties.FoldedCanonical` | optimizer/optimizer.go:34-87 | For a parsed list, every fold wrapper in the output is non-empty and holds only nodes of its kind. PointerMove's count is #`>` − #`<`; a MultipleValue wrapper's count is its number of children (positive). |
| `OptimizerProperties.NoAdjacentRuns` | optimizer/optimizer.go:35-82 | For a parsed list, no two neighbouring output nodes are fold wrappers of the same kind. |
| `OptimizerProperties.FoldRun` | optimizer/optimizer.go:34-90 | Take a run of nodes folding into kind `k` that follows output not ending in a `k` wrapper. The whole run, in order, becomes one `k` wrapper with the run's count. |
| `OptimizerProperties.PointerRun` | optimizer/optimizer.go:34-60 | A list made of one run of `>`/`<` becomes a single PointerMove with count #`>` − #`<` holding the run. |
| `OptimizerProperties.ValueRun` | optimizer/optimizer.go:61-87 | A list made of one run of `+` (or of `-`) becomes a single MultipleValueIncrement (or MultipleValueDecrement) holding the run, with the run's length as count. |
| `OptimizerProperties.ValueRunsExample` | optimizer/optimizer_test.go:19-41 | `+++++-----` becomes a MultipleValueIncrement with count 5, then a MultipleValueDecrement with count 5, each holding its five nodes. |
| `Interpreter.Wrap` | interpreter/interpreter.go:103-108 | A byte's wrap-around: the result is congruent to the value modulo 256 and equals it within 0..255. |
| `Interpreter.OverflowError` | interpreter/interpreter.go:84-88 | The overflow error carries the current pointer and the node's start and end. It is an index panic, and nothing else, exactly when the node has no start or end position. |
| `Interpreter.Eval` | interpreter/interpreter.go:69-132 | One node never shrinks the tape. Its count is at most the number of nodes started, and exactly that (at least 1) when it succeeds. |
| `Interpreter.EvalSeq` | interpreter/interpreter.go:57-67 | A list keeps the tape size. Its count is at most the number of nodes started, and on success it is exactly that, and a non-empty list has then consumed budget. The error-path count is fixed by `FailingNodeDropsCount`. |
| `Interpreter.EvalLoop` | interpreter/interpreter.go:122-129 | A loop keeps the tape size and never lowers the count. Its count is at most the starting count plus the nodes started, and exactly that when it completes. That a failing iteration adds nothing is stated by `LoopIterates`. |
| `Interpreter.EvalRun` | interpreter/interpreter.go:44-55 | Run's result: the optimised list's outcome, with InputFinished reported only when RaiseErrorOnEOF is set (both directions are in `RunEndOfInput`). |
| `Interpreter.Interpreter.constructor` | interpreter/interpreter.go:35-42 | A fresh interpreter has a tape of MemorySize zero bytes, pointer 0 and nothing written. |
| `Interpreter.Interpreter.Run` | interpreter/interpreter.go:44-55 | Optimises, runs the optimised list and applies the end-of-input rule. Result and final state are those of `EvalRun`. |
| `Interpreter.Interpreter.RunExpressions` | interpreter/interpreter.go:57-67 | The loop over the list leaves count, error and state as `EvalSeq` gives them. |
| `Interpreter.Interpreter.RunExpression` | interpreter/interpreter.go:69-132 | The in-place update of tape, pointer, reader and writer for one node is the one `Eval` gives. |
| `Interpreter.Interpreter.RunWhile` | interpreter/interpreter.go:122-129 | The `for Memory[Pointer] != 0` loop leaves count, error and state as `EvalLoop` gives them. |
| `InterpreterProperties.CancelledWhenDone` | interpreter/interpreter.go:70-74 | Once the context is done, a node returns the context's error with count 0 and changes nothing. |
| `InterpreterProperties.PointerIncrementStep` | interpreter/interpreter.go:79-83 | `>` fails iff guarded and the pointer is at the last index. Failing leaves the pointer; otherwise it becomes pointer + 1. Cost 1. |
| `InterpreterProperties.PointerDecrementStep` | interpreter/interpreter.go:89-93 | `<` fails iff guarded and the pointer is 0. Failing leaves the pointer; otherwise it becomes pointer − 1. Cost 1. |
| `InterpreterProperties.PointerJumpStep` | interpreter/interpreter.go:84-98 | Both MultiplePointer nodes fail iff guarded and the pointer is at the last index, the decrement included. The error is MemoryOverflow with the pointer, the first child's start and the last child's end, or an index panic when a position is missing. Otherwise the pointer moves by ±Count with no bound check. |
| `InterpreterProperties.ValueIncrementStep` | interpreter/interpreter.go:99-103 | Guarded `+` on 255 fails and leaves the tape. Otherwise the cell becomes (v + 1) mod 256. |
| `InterpreterProperties.ValueDecrementStep` | interpreter/interpreter.go:104-108 | Guarded `-` on 0 fails and leaves the tape. Otherwise the cell becomes (v − 1) mod 256. |
| `InterpreterProperties.InputStep` | interpreter/interpreter.go:113-121 | `,` fails with InputFinished iff the input is exhausted, leaving the cell. Otherwise it stores the next byte and consumes it. |
| `InterpreterProperties.OutputStep` | interpreter/interpreter.go:109-112 | `.` appends the current cell to the output and changes nothing else. |
| `InterpreterProperties.OffTapeAccessPanics` | interpreter/interpreter.go:99-123 | Reading or writing the current cell while the pointer is off the tape is an index panic. |
| `InterpreterProperties.WhileOnZero` | interpreter/interpreter.go:122-131 | A loop on a zero cell costs exactly 1 and changes nothing. |
| `InterpreterProperties.LoopIterates` | interpreter/interpreter.go:122-129 | On a nonzero cell the loop runs its body: if the body fails, the loop returns the count before this iteration with the body's error; otherwise it goes round again with the body's count added. |
| `InterpreterProperties.EmptyLoopHangs` | interpreter/interpreter.go:122-129 | An empty body on a nonzero cell loops forever without reaching a context check. |
| `InterpreterProperties.FoldWrapperIsNoOp` | interpreter/interpreter.go:76-78 | PointerMove and MultipleValue nodes have no case: each costs 1 step and changes nothing. |
| `InterpreterProperties.EvalSeqAppend` | interpreter/interpreter.go:57-67 | Running `xs + ys` runs `xs` and stops there on its first error. Otherwise it runs `ys`, adding the counts. |
| `InterpreterProperties.FailingNodeDropsCount` | interpreter/interpreter.go:57-67 | When a node fails after `xs` completed, the list returns the count of `xs` alone, the node's error and state, and runs nothing after it. |
| `InterpreterProperties.StraightLineCount` | interpreter/interpreter.go:76-78 | A loop-free list that completes costs exactly one step per node. |
| `InterpreterProperties.EvalStreams` | interpreter/interpreter.go:109-121 | A node only consumes input and only appends output. InputFinished comes only with the input exhausted. |
| `InterpreterProperties.EvalSeqStreams` | interpreter/interpreter.go:57-67 | The same for a list of nodes. |
| `InterpreterProperties.EvalLoopStreams` | interpreter/interpreter.go:122-129 | The same for a loop. |
| `InterpreterProperties.EvalKeepsPointerOnTape` | interpreter/interpreter.go:79-93 | Guards on, no MultiplePointer node anywhere, pointer on the tape: it stays on the tape and no index panic occurs. |
| `InterpreterProperties.EvalSeqKeepsPointerOnTape` | interpreter/interpreter.go:57-67 | The same for a list of nodes. |
| `InterpreterProperties.EvalLoopKeepsPointerOnTape` | interpreter/interpreter.go:122-129 | The same for a loop. |
| `InterpreterProperties.JumpLeftEscapesTape` | interpreter/interpreter.go:94-98 | Guards on and pointer at 0: a MultiplePointerDecrement moves the pointer to −Count without error, and a following `.` panics. |
| `InterpreterProperties.RunEndOfInput` | interpreter/interpreter.go:44-55 | Run reports InputFinished only when RaiseErrorOnEOF is set and the input is exhausted. Without the flag that outcome becomes success with the same count and state. With the flag, or for any other outcome, the list's outcome is returned unchanged. |
| `InterpreterProperties.EchoIteration` | interpreter/interpreter_test.go:43-47 | One pass of the echo body `>,.<` copies the next input byte to cell 1 and to the output in 4 steps. |
| `InterpreterProperties.EchoLoop` | interpreter/interpreter_test.go:43-47 | The echo loop copies all of the input to the output, then stops with InputFinished. |
| `InterpreterProperties.EchoUnfolded` | interpreter/interpreter_test.go:43-47 | On the unfolded tree, `+[>,.<]` with input "Hello" writes "Hello" and stops with InputFinished after count 1. |
| `InterpreterProperties.EchoThroughRun` | interpreter/interpreter.go:44-55 | Through Run, the `+` is folded into a node the interpreter ignores. The loop sees 0, and the run succeeds after 2 steps with no output. |

What the code does, as modelled:

- The pass does not recurse into loop bodies: `optimizeExpression` is the
  identity.
- The interpreter has no case for the nodes the optimizer builds. So
  `Run`, which optimises first, does not execute folded `+`, `-`, `>`, `<`
  runs (`EchoThroughRun`). The test's expectation for `+[>,.<]` holds only
  for the unfolded tree (`EchoUnfolded`).
- Every node kind without a case costs one step.
- A loop's count is 1 plus the steps of its completed iterations; a failing
  iteration's steps are dropped (`LoopIterates`).
- A failing node's partial count is dropped by `runExpressions`
  (`FailingNodeDropsCount`).

## Left out

- `ast/tool.go` (tree printing via `fmt`, `reflect` and a global counter) is I/O with no behavioural contract.
- `interpreter.Run(ctx, io.Reader, *Config)`: it only parses and then calls `Interpreter.Run`; the parser is not part of this model, which starts from a built tree.
- The positions and rendering of primitive and loop nodes are defined outside the core. They are parser data in the `Token` of each node.
- PointerMove and MultipleValueIncrement/Decrement are defined outside the core. They are given the same shape and contract as the two MultiplePointer wrappers of `ast/optimize.go`.
- Wall-clock timeouts and concurrent cancellation: the context is the node budget described above.
- Writer errors: the writer never fails. Read errors other than end of input, short reads, and the text of error messages are also left out. An error keeps only its kind, the pointer and the node's span.
- The count returned with `IndexPanic` and `Hang` has no Go counterpart: Go never returns from those.
- The full-pipeline test counts and outputs (Hello World 379, primes 420, FizzBuzz 11103) do not hold of this code, whose optimiser output the interpreter ignores.
- The pointer half of `optimizer/optimizer_test.go` expects separate MultiplePointerIncrement/Decrement nodes; the code folds both directions into one PointerMove, and the model follows the code.
- Optimizer.OptimizeExpressions: the model works on values. Go's pass appends into a trailing wrapper in place, and when that wrapper came from the caller's list, the caller's node changes too. That aliasing is not modelled; the returned list is the same.
- `Config.memorySize` is a `nat`: the panic of `make([]byte, c.MemorySize)` for a negative MemorySize is not modelled.
- 64-bit overflow of Go's `int` for `Pointer` and `Count` is not modelled (unbounded integers).
- `NewOptimizer` and the empty `Optimizer` struct carry no state; `Optimize` is a plain method.
