# interpreters-test in Dafny

A model of the two toy compilers in `interpreters-test` and of how their output is run and
listed.

- **imsta** compiles an expression tree into a flat tape of 64-bit words. Each opcode word is
  the address of a Rust "dispatch function". A `CallContext` runs the tape by fetching the next
  function and calling it (`src/compilers/imsta.rs`, `src/compilers/implementations.rs`).
- **The disassembler** walks the same tape and prints it back as source text
  (`src/compilers/dissassembler.rs`).
- **The closure compiler** turns the same trees into nested boxed closures over an operand
  stack and a constants slice (`src/compilers/closure.rs`).

Modules, in dependency order:

| module | file | what it holds |
|---|---|---|
| `Wrappers` | wrappers.dfy | `Option`, `Result`, and the failures that stand for the source's panics and undefined behaviour |
| `Values` | values.dfy | `Value` (`Nil`, `Boolean`, `Float`), `truthy`, and the derived `PartialOrd` |
| `Ast` | ast.dfy | `Binding`, `Operator` and `Expr`, with the `expr.rs` builder helpers |
| `Words` | words.dfy | a tape word: an opcode, or a number used as a hint, a global slot, an offset or float bits |
| `Interning` | interning.dfy | `constant_get_or_def`, the name table shared by both compilers |
| `TapeCursor` | tape.dfy | `Tape`: a raw pointer plus an offset counter, as a class with the cursor functions that specify it |
| `Compiler` | compiler.dfy | `ImCompiler`, the backpatching compiler proved equal to a direct layout |
| `Semantics` | semantics.dfy | every dispatch function as a fuel-bounded function of the tape and the machine state |
| `Runtime` | runtime.dfy | `CallContext`, whose methods are proved to do what `Semantics` says |
| `Correctness` | correctness.dfy | a reference evaluator; compiled-then-run equals evaluated, for straight-line programs |
| `Steps` | steps.dfy | one dispatch at a time from a given cursor, and the three outcomes of the hint check `loop_body!` |
| `Programs` | programs.dfy | the programs of the `nested` and `tape_test` tests and `{ x = n; return x }`, compiled and run as written |
| `Conditionals` | conditional.dfy | `conditional` on a hand-laid tape: the first truthy branch wins, and the offset lag of `move_to` |
| `Disassembler` | disassembler.dfy | `Dissassembler` as a class over pure listing functions; listing a compiled tree prints its rendering |
| `Closures` | closure.dfy | `ClosureCompiler` and its closures, defunctionalised; running the closure equals a reference evaluator |

Conventions used across the model:

- **Opcodes.** A dispatch function's address is an `Opcode` constructor.
  - Transmuting a function between two types is undefined behaviour in the source. So is
    reading a number word as a function, or a function word as a number. Each of these is the
    failure `IllTyped`.
  - `compile_expr` declares its own inner `var` and `assign` functions
    (`imsta.rs:189-192`, `203-210`). They are distinct from `operations::var` and
    `operations::assign`, so they get their own opcodes, `OpLocalVar` and `OpLocalAssign`.
    They run like the others, but the disassembler does not recognise them.
- **Floats.** A float is its bit pattern (`Num`).
  - `+`, `-`, `*`, `/` and `<` are parameters (`FloatOps`).
  - `==` on floats is bit equality.
  - `truthy` tests for the bit pattern of `1.0`.
- **Panics.** `unwrap` on `None` is `StackUnderflow`. A vector index out of range is
  `IndexOutOfBounds`. Reading past the tape is `OutOfRange`. An invalid block hint is
  `InvalidHint(n)`. A non-float operand of an arithmetic operator is `TypeMismatch`.
- **The tape's cursor.** `Tape` keeps a pointer and an offset counter. `move_to` moves only the
  pointer and leaves the offset where it was, so the model carries both (`Cursor(pos, offset)`).
- **Fuel.** The interpreter can loop forever. `Semantics` takes a step bound: every dispatch
  and every loop iteration spends one unit, and running out is `OutOfFuel`.

Behaviours of the source that the model keeps as written:

- **Operators.**
  - `%` computes `+` (`implementations.rs:158`), as `Semantics.OperatorLaws` states.
- **The tape interpreter.**
  - `move_to` does not update the offset counter (`imsta.rs:127-130`). The counter therefore
    drifts from the pointer, as `TapeCursor.DriftLaws` states.
  - `while_loop` leaves with `skip(next_idx)`, a relative skip by an absolute offset
    (`implementations.rs:81`).
  - A `Block` stops compiling at its first `Return`: the `Return` and everything after it are
    dropped (`imsta.rs:233-236`, `Compiler.ReturnDropsRest`).
  - `Expr::Add` compiles to nothing in imsta (`imsta.rs:293`).
- **The disassembler.**
  - It compares against `native_op_eq` where it means `native_op_neq`
    (`dissassembler.rs:108`), so a `!=` word prints nothing.
  - It does not know the compiler's local `var`/`assign`, nor `conditional`. These words are
    consumed without output (`Disassembler.UnrecognisedWords`).
  - Its `block_checked` loop reads one word before every statement, hint or not
    (`dissassembler.rs:141`).
- **Programs with a Return or a While, run as written.**
  - Because the compiler drops a block's `Return`, `{ x = n; return x }` returns Nil, though
    the store happens (`Programs.ReturnRun`).
  - In the `nested` test, `test` receives Nil for the same reason. `test2` receives 50 through
    the While hint, the `Return` hint inside the loop and `move_to(end)` (`Programs.NestedRun`).
  - In the `tape_test` test, the loop counts `x` down until it is no longer above zero. Then
    `skip(21)` from word 14 leaves both counters at 35, past the 21-word tape. The block reads
    that as finished and returns Nil, never reaching the dropped `return x`
    (`Programs.TapeRun`). In general, a falsy While in a checked block ends the block once the
    skip carries the offset past the block's end word (`Steps.FalsyWhileEndsBlock`).
- **`conditional`**, which no compiler emits.
  - It returns the first truthy branch's value and otherwise the final expression's value
    (`Conditionals.ConditionalRuns`).
  - Its `move_to` calls leave the offset behind, so after `i` skipped branches the jump words
    are read with a lag of `2i`. Branch jumps chain correctly only if branch `i` names
    `7 + 2i`. With jumps naming the next branch's word position, the second skip lands inside
    the third branch and fails (`Conditionals.AbsoluteJumpsFail`).
- **The closure compiler.**
  - An assignment whose value is itself an assignment pops an empty stack
    (`closure.rs:73-77`, `Closures.NestedAssignUnderflows`).
  - Booleans, `Return`, `While` and `BinaryOp` compile to no-ops (`closure.rs:115`).

The source disagrees with itself. `src/expr.rs` declares only `Float`,
`Assign`, `Add`, `Block` and `Var`, but `imsta.rs` also matches on `Boolean`, `Return`, `While`
and `BinaryOp(lhs, Operator, rhs)`. `Ast.Expr` follows the code that uses it and has all nine
variants. `Operator` follows the match of `imsta.rs:273-285`.

## Model

| member | source | states |
|---|---|---|
| Values.Truthy | src/compilers/imsta.rs:22-30 | truthy exactly for `Boolean(true)` and the float `1.0`; `0.0` and `Nil` are falsy |
| Values.VariantOrder | src/compilers/imsta.rs:8-13 | the derived order puts `Nil < Boolean(_) < Float(_)` and `false < true`, whatever the float order |
| Values.ValueOrderTotal | src/compilers/imsta.rs:8-13 | on a strict total float order, `Value`'s order is irreflexive, transitive, total and asymmetric |
| Values.Less | src/compilers/imsta.rs:8 | the derived `<`: a value of an earlier variant is below one of a later variant, never above it, and `Nil` is not below `Nil` |
| Values.LessEq | src/compilers/imsta.rs:8 | the derived `<=` holds for equal values and wherever `<` does, and across variants only upwards |
| Ast.GlobalRef | src/expr.rs:22-24 | `Expr::global(name)` is a read of the global binding `name` |
| Ast.AssignTo | src/expr.rs:16-18 | `binding.assign(v)` stores `v` into that binding |
| Ast.AddTo | src/expr.rs:26-28 | `lhs.add(rhs)` keeps the receiver as the left operand |
| Words.IsHintWord | src/compilers/implementations.rs:24 | recognises the range `1001..=2000` of numeric words that the hint check tests |
| Interning.IndexOf | src/compilers/imsta.rs:167 | the position found holds the name and no earlier position does (`iter().position`) |
| Interning.Intern | src/compilers/imsta.rs:160-171 | the slot returned holds the name in the new table, which extends the old one |
| Interning.InternContract | src/compilers/closure.rs:39-50 | a known name keeps the table and returns its first position; a new name is appended at the end; the table stays duplicate-free |
| Interning.InternIdempotent | src/compilers/imsta.rs:160-171 | interning the same name twice is the same as once |
| Interning.IndexOfExtended | src/compilers/imsta.rs:163-167 | appending names never changes the slot of a name already present |
| Interning.Position | src/compilers/imsta.rs:163-167 | the search loop finds the name iff it is in the table, at its first position |
| TapeCursor.At | src/compilers/imsta.rs:74-75 | reading through the pointer succeeds exactly inside the buffer; anywhere else it is a wild read |
| TapeCursor.Next | src/compilers/imsta.rs:62-80 | `get_next` panics iff `offset >= size`; otherwise it yields the word under the pointer and advances pointer and offset by one |
| TapeCursor.NextIndex | src/compilers/imsta.rs:62-80 | succeeds iff `get_next` does and the word is numeric; yields that number |
| TapeCursor.NextNum | src/compilers/imsta.rs:104-106 | `get_next_float` succeeds iff `get_next` does on a non-function word, and yields those bits |
| TapeCursor.NextOp | src/compilers/imsta.rs:108-111 | `get_next_func` succeeds iff `get_next` does on a function word; yields that function |
| TapeCursor.PeekAt | src/compilers/imsta.rs:82-84 | `peek` reads one past the pointer |
| TapeCursor.ReadAt | src/compilers/imsta.rs:86-88 | `read` reads at the pointer without moving |
| TapeCursor.Skipped | src/compilers/imsta.rs:122-125 | `skip(n)` moves pointer and offset by exactly `n` |
| TapeCursor.Moved | src/compilers/imsta.rs:127-130 | `move_to(dest)` sets the pointer to `dest` plus the drift and leaves the offset unchanged |
| TapeCursor.DriftLaws | src/compilers/imsta.rs:113-130 | `get_next`, `skip` and `restore(save())` keep `pointer - offset`; `move_to(dest)` shifts it by `dest - offset`; with no drift, `move_to` lands on `dest` |
| TapeCursor.MovedThenNext | src/compilers/imsta.rs:127-130 | after `move_to(dest)` the next word is read from `dest + drift`, not from `dest` |
| TapeCursor.Tape.constructor | src/compilers/imsta.rs:54-60 | a new tape is at its first word with offset 0 |
| TapeCursor.Tape.GetNext | src/compilers/imsta.rs:62-80 | returns and moves to exactly what `Next` says |
| TapeCursor.Tape.GetNextIndex | src/compilers/imsta.rs:62-80 | returns and moves to exactly what `NextIndex` says |
| TapeCursor.Tape.GetNextFloat | src/compilers/imsta.rs:104-106 | returns and moves to exactly what `NextNum` says |
| TapeCursor.Tape.GetNextFunc | src/compilers/imsta.rs:108-111 | returns and moves to exactly what `NextOp` says |
| TapeCursor.Tape.Peek | src/compilers/imsta.rs:82-84 | returns `PeekAt` and moves nothing |
| TapeCursor.Tape.Read | src/compilers/imsta.rs:86-88 | returns `ReadAt` and moves nothing |
| TapeCursor.Tape.Save | src/compilers/imsta.rs:113-115 | returns the current cursor |
| TapeCursor.Tape.Restore | src/compilers/imsta.rs:117-120 | the cursor becomes exactly the saved one |
| TapeCursor.Tape.Skip | src/compilers/imsta.rs:122-125 | the cursor becomes `Skipped` of the old one |
| TapeCursor.Tape.MoveTo | src/compilers/imsta.rs:127-130 | the cursor becomes `Moved` of the old one |
| Compiler.Compile | src/compilers/imsta.rs:173-295 | compiling only appends to the tape and to the names table, even where it patches its placeholders |
| Compiler.CompileStatements | src/compilers/imsta.rs:233-242 | the statement loop only appends to the tape and to the names table |
| Compiler.CompileIsLayout | src/compilers/imsta.rs:173-295 | backpatched compilation appends exactly the direct layout: every placeholder ends up holding its opcode or the absolute offset just past its construct |
| Compiler.CompileStatementsIsLayout | src/compilers/imsta.rs:231-248 | the statement loop appends the statements' layouts; `has_return \|\| has_while` is set iff some statement from here on is a `Return` or a `While` |
| Compiler.CheckedCons | src/compilers/imsta.rs:234-239 | a `Return` or `While` occurs among the statements from `i` iff it is statement `i` or occurs after it |
| Compiler.BlockKind | src/compilers/imsta.rs:244-248 | the placeholder becomes `block_checked` exactly when the block has a `Return` or a `While`, and `block` exactly when it has neither (the whole header: `Compiler.BlockHeader`) |
| Compiler.BlockHeader | src/compilers/imsta.rs:224-253 | a block starts with `block_checked` iff one of its statements is a `Return` or a `While` (else `block`), then the tape length after the block |
| Compiler.WhileHeader | src/compilers/imsta.rs:255-270 | a loop is the `While` hint, `while_loop`, the offset past the loop, then the condition's code |
| Compiler.ReturnDropsRest | src/compilers/imsta.rs:233-236 | a block with a `Return` at statement `j` lays out exactly as its first `j` statements |
| Compiler.CompileKeepsNames | src/compilers/imsta.rs:160-171 | compiling keeps the names table free of duplicates |
| Compiler.StatementsKeepNames | src/compilers/imsta.rs:233-242 | the statement loop keeps the names table free of duplicates |
| Compiler.LayoutSlots | src/compilers/imsta.rs:194-197 | the layout only extends the names table, and every slot word it emits indexes into the final table |
| Compiler.StatementSlots | src/compilers/imsta.rs:233-242 | the same for a block's statements |
| Compiler.ProgramSlots | src/compilers/imsta.rs:306-312 | a program compiled from scratch has every slot inside the globals vector that `CallContext::new` sizes from its names table, and no duplicate names |
| Compiler.ImCompiler.constructor | src/compilers/imsta.rs:149-154 | a new compiler has an empty tape and an empty table |
| Compiler.ImCompiler.Push | src/compilers/imsta.rs:156-158 | appends one word and leaves the table alone |
| Compiler.ImCompiler.ConstantGetOrDef | src/compilers/imsta.rs:160-171 | returns the slot and table of `Intern` and leaves the tape alone |
| Compiler.ImCompiler.CompileExpr | src/compilers/imsta.rs:173-295 | leaves tape and table exactly as `Compile` says |
| Semantics.MIndex | src/compilers/implementations.rs:110 | reading an index word advances the offset by one and leaves the globals alone |
| Semantics.Apply | src/compilers/implementations.rs:134-165 | an arithmetic operator succeeds iff both operands are floats, else it is the "Invalid arguments!" panic; a comparison always yields a Boolean |
| Semantics.Arith | src/compilers/implementations.rs:132-143 | an arithmetic operator yields a float exactly when both operands are floats; otherwise it is the "Invalid arguments!" panic |
| Semantics.OperatorLaws | src/compilers/implementations.rs:147-164 | `!=` negates `==`; `>`, `>=` are `<`, `<=` swapped; `<=` is `<` or `==`; on a total float order exactly one of `<`, `==`, `>` holds; `%` is `+` |
| Semantics.Dispatch | src/compilers/imsta.rs:314-316 | a successful call keeps the globals' count and advances the offset |
| Semantics.DispatchOpt | src/compilers/implementations.rs:35 | a successful `Option` call keeps the globals' count and advances the offset |
| Semantics.HintCheck | src/compilers/implementations.rs:22-46 | no hint word means the check changes nothing; otherwise it keeps the globals' count and never moves the offset back (what each hint does: `Steps.ReturnHintExits`, `Steps.WhileHintRuns`) |
| Semantics.BlockLoop | src/compilers/implementations.rs:60-68 | a block returns `Nil` with its offset at or past its end word |
| Semantics.CheckedLoop | src/compilers/implementations.rs:47-58 | `block_checked` keeps the globals' count and never moves the offset back (its runs: `Steps.FalsyWhileEndsBlock` and the `Programs` lemmas) |
| Semantics.WhileIter | src/compilers/implementations.rs:70-84 | an iteration never goes back before the saved cursor; a loop that ran out leaves the offset at or past its end (its rounds: `Steps.WhileFalsy`, `Steps.WhileTruthyRound`, `Programs.TapeLoopEnds`) |
| Semantics.CondLoop | src/compilers/implementations.rs:86-103 | the branch loop keeps the globals' count and advances the offset (which branch wins: `Conditionals.BranchesFrom`) |
| Semantics.ExecVar | src/compilers/implementations.rs:109-112 | `var` succeeds iff the index word is a number inside the globals; it returns that global and consumes one word |
| Semantics.ExecAssign | src/compilers/implementations.rs:114-121 | `assign` returns `Nil`, keeps the globals' count and advances the offset |
| Semantics.ExecNative | src/compilers/implementations.rs:123-131 | an operator call keeps the globals' count and advances the offset |
| Semantics.ExecWhile | src/compilers/implementations.rs:70-84 | `while_loop` keeps the globals' count and advances the offset (what it returns: `Steps.WhileHintRuns`) |
| Semantics.Exec | src/compilers/implementations.rs:1-177 | every dispatch function keeps the globals' count and never moves the offset back |
| Semantics.Start | src/compilers/imsta.rs:306-312 | `CallContext::new` starts at offset 0 with `globals_amt` globals, all `0.0` |
| Semantics.Execute | src/compilers/imsta.rs:314-316 | a successful run keeps `globals_amt` globals and has read at least one word |
| Runtime.CallContext.constructor | src/compilers/imsta.rs:306-312 | the new context's state is `Start(globals_amt)` over a fresh tape |
| Runtime.CallContext.Execute | src/compilers/imsta.rs:314-316 | the result and the new state are what `Semantics.Dispatch` computes from the old state |
| Runtime.CallContext.Dispatch | src/compilers/implementations.rs:64-65 | fetching and calling the next function is what `Semantics.Dispatch` says |
| Runtime.CallContext.DispatchOpt | src/compilers/implementations.rs:35 | the `Option`-typed call is what `Semantics.DispatchOpt` says |
| Runtime.CallContext.Exec | src/compilers/implementations.rs:4-15 | each opcode's function is what `Semantics.Exec` says; the literals return their value |
| Runtime.CallContext.Var | src/compilers/implementations.rs:109-112 | is what `ExecVar` says |
| Runtime.CallContext.Assign | src/compilers/implementations.rs:114-121 | is what `ExecAssign` says |
| Runtime.CallContext.Native | src/compilers/implementations.rs:125-130 | is what `ExecNative` says |
| Runtime.CallContext.Block | src/compilers/implementations.rs:60-68 | the loop does what `Semantics.Exec` says for `block` |
| Runtime.CallContext.HintCheck | src/compilers/implementations.rs:22-46 | the macro body does what `Semantics.HintCheck` says |
| Runtime.CallContext.BlockChecked | src/compilers/implementations.rs:47-58 | the loop does what `Semantics.Exec` says for `block_checked` |
| Runtime.CallContext.WhileLoop | src/compilers/implementations.rs:70-84 | the loop does what `ExecWhile` says |
| Runtime.CallContext.Conditional | src/compilers/implementations.rs:86-103 | the loop does what `Semantics.Exec` says for `conditional` |
| Correctness.DispatchOpAt | src/compilers/imsta.rs:62-80 | from a synced cursor on a function word, a dispatch runs that function one word further on |
| Correctness.IndexAt | src/compilers/imsta.rs:62-80 | from a synced cursor on a numeric word, reading an index yields it one word further on |
| Correctness.StraightNonEmpty | src/compilers/imsta.rs:173-291 | every straight-line expression occupies at least one word |
| Correctness.SlotOfName | src/compilers/imsta.rs:194-197 | the slot a name is interned at names it in every later table |
| Correctness.DispatchAgrees | src/compilers/imsta.rs:173-295 | running the code laid out for a straight-line expression returns what the evaluator returns, leaves the cursor synced just past that code, and leaves globals matching the evaluator's environment; any failure is the same |
| Correctness.AssignStep | src/compilers/implementations.rs:114-121 | `assign` writes the called value into the slot it read, or fails as the call or the index does |
| Correctness.StoreStep | src/compilers/implementations.rs:114-121 | `assign` whose value code agrees with the evaluator fails with the value's error or stores the value under the slot's name |
| Correctness.NativeStep | src/compilers/implementations.rs:125-130 | an operator runs its left operand, then its right, then `Apply`, and propagates the first failure |
| Correctness.OperandsStep | src/compilers/implementations.rs:125-130 | an operator whose operands' code agrees with evaluating them fails with the first operand error, else with `Apply`'s verdict on the two values |
| Correctness.AssignAgrees | src/compilers/imsta.rs:201-217 | the same agreement for an assignment |
| Correctness.BinaryAgrees | src/compilers/imsta.rs:272-291 | the same agreement for a binary operator |
| Correctness.OperandsAgree | src/compilers/implementations.rs:125-130 | an operator whose operands' code is in place agrees with evaluating the operands left to right and applying the operator |
| Correctness.BlockAgrees | src/compilers/imsta.rs:224-253 | the same agreement for a block (its value is `Nil`) |
| Correctness.StatementsAgree | src/compilers/implementations.rs:60-68 | the `block` loop over laid-out statements agrees with evaluating them in order |
| Correctness.LoopStep | src/compilers/implementations.rs:60-68 | one turn of the `block` loop: a failing statement ends the loop with its error, a succeeding one hands over to the rest of the loop |
| Correctness.ProgramAgrees | src/compilers/imsta.rs:306-316 | a straight-line program compiled from scratch and run from `CallContext::new` returns the evaluator's value, stops exactly at the tape's end, and leaves globals holding the evaluator's environment |
| Steps.BoolRuns | src/compilers/implementations.rs:4-10 | `tr`/`fl` yields its Boolean and moves pointer and offset one word on |
| Steps.FloatRuns | src/compilers/implementations.rs:12-15 | `float` yields the next word's bits as a float and moves both counters two words on |
| Steps.VarRuns | src/compilers/imsta.rs:189-192 | the compiler's `var` yields the global in the slot its operand names, two words on |
| Steps.AssignRuns | src/compilers/imsta.rs:203-210 | the compiler's `assign` runs the value after its slot word, stores that value in the slot and returns Nil |
| Steps.NativeRuns | src/compilers/implementations.rs:123-131 | an operator runs its left operand, then its right, and returns `Apply` of the two where the right one left the cursor |
| Steps.BlockRuns | src/compilers/implementations.rs:47-68 | `block` and `block_checked` read their end word and hand over to their statement loop two words on |
| Steps.ConditionalOpens | src/compilers/implementations.rs:86-88 | `conditional` reads the branch count and the end jump and hands over to the branch loop three words on |
| Steps.NoHint | src/compilers/implementations.rs:24 | on a function word the hint check falls through and changes nothing |
| Steps.ReturnHintExits | src/compilers/implementations.rs:29-33 | on hint 1001 the expression after the hint is the enclosing function's value, with the pointer moved to the block's end |
| Steps.WhileHintRuns | src/compilers/implementations.rs:34-41 | on hint 1003 `while_loop` runs from the words after the hint; `Some(v)` returns `v` with the pointer moved to the block's end, `None` continues the enclosing loop where the loop left the cursor, and a failure propagates |
| Steps.WhileFalsy | src/compilers/implementations.rs:74-83 | a falsy condition ends `while_loop` with None and `skip(next_idx)` from just after the condition |
| Steps.WhileTruthyRound | src/compilers/implementations.rs:74-83 | a truthy condition whose hint check proceeds runs the body once, restores the saved cursor and starts the loop again with one unit less fuel |
| Steps.FalsyWhileEndsBlock | src/compilers/implementations.rs:22-84 | a While in a checked block whose condition is falsy on entry adds the loop's absolute end to both counters; when that reaches the block's end, the block returns Nil |
| Programs.NestedCompiles | src/compilers/imsta.rs:320-337 | the `nested` program compiles to a 17-word tape: `test`'s block is an empty checked block (its Return dropped), `test2`'s holds the While hint, `while_loop`, `tr`, the Return hint and the float |
| Programs.NestedLayout | src/compilers/imsta.rs:224-270 | the direct layout of the `nested` program is that tape, with the names in order of appearance |
| Programs.ReturnBlockLayout | src/compilers/imsta.rs:224-253 | `{ return x }` lays out as a checked block with nothing in it |
| Programs.LoopBlockLayout | src/compilers/imsta.rs:224-270 | `{ while true { return y } }` lays out as a checked block around the While hint, `while_loop`, its end, `tr`, the Return hint and the float |
| Programs.NestedWords | src/compilers/imsta.rs:320-337 | the `nested` tape holds those words at those positions |
| Programs.NestedRun | src/compilers/imsta.rs:320-349 | the `nested` test as written: `test` ends holding Nil, `test2` holds the loop's returned float, and the program returns Nil with the cursor synced at the tape's end |
| Programs.NestedRuns | src/compilers/implementations.rs:22-68 | the same run over any code holding the `nested` words |
| Programs.FirstAssignRuns | src/compilers/implementations.rs:47-58 | `test = { }`: the empty checked block returns Nil at once and Nil is stored in slot 0 |
| Programs.SecondAssignRuns | src/compilers/implementations.rs:22-58 | `test2 = { while true { return y } }`: the block's value `y` is stored in slot 1, with the cursor at the tape's end |
| Programs.LoopBlockRuns | src/compilers/implementations.rs:34-41 | the checked block returns the loop's `Some(y)` with the pointer moved to its end |
| Programs.LoopReturns | src/compilers/implementations.rs:29-33 | `while true { return y }`: the first round returns `Some(y)` with the pointer moved to the loop's end |
| Programs.ReturnCompiles | src/compilers/imsta.rs:224-253 | `{ x = n; return x }` compiles to a checked block holding only the store |
| Programs.ReturnRun | src/compilers/imsta.rs:233-236 | `{ x = n; return x }` as written returns Nil, not `n`, and leaves `n` in `x`'s slot |
| Programs.TapeCompiles | src/compilers/imsta.rs:352-376 | the `tape_test` program compiles to a 21-word tape with one name and no Return |
| Programs.TapeLayout | src/compilers/imsta.rs:224-270 | the direct layout of the `tape_test` program is that tape |
| Programs.LoopLayout | src/compilers/imsta.rs:255-291 | `while x > 0 { x = x - 1 }` at word 6 lays out as the hint, `while_loop`, end 21, the condition and the body |
| Programs.TapeWords | src/compilers/imsta.rs:352-376 | the `tape_test` tape holds those words at those positions |
| Programs.TapeCondRuns | src/compilers/implementations.rs:123-131 | `x > 0` with `x` holding a float yields whether `0 < x`, five words on |
| Programs.TapeBodyRuns | src/compilers/imsta.rs:203-210 | `x = x - 1` stores `x - 1` in slot 0 and ends at word 21 |
| Programs.TapeRound | src/compilers/implementations.rs:74-79 | a round with `x` above zero stores `x - 1` and restarts the loop from the saved cursor |
| Programs.TapeExit | src/compilers/implementations.rs:74-83 | a round with `x` not above zero returns None with both counters at 35 and `x` unchanged |
| Programs.TapeStarves | src/compilers/implementations.rs:74-79 | one unit of fuel does not reach the condition, and two do not reach the body |
| Programs.TapeBodyStarves | src/compilers/imsta.rs:203-210 | two units of fuel do not reach the subtraction inside the body's store |
| Programs.TapeLoopEnds | src/compilers/implementations.rs:70-84 | for every fuel and starting value the loop runs out of fuel or returns None with `x` not above zero and both counters at 35, past the 21-word tape; not above zero on entry, it does so at once with `x` unchanged |
| Programs.TapeHeadRuns | src/compilers/implementations.rs:47-58 | the checked block stores `n` in `x` and carries on at the While hint, word 6 |
| Programs.TapeTailRuns | src/compilers/implementations.rs:34-58 | from the While hint, `while_loop`'s None sends the block loop round again, and there its offset 35 is past the end 21: the block returns Nil |
| Programs.TapeRuns | src/compilers/implementations.rs:22-84 | the same outcome over any code holding the `tape_test` words |
| Programs.TapeRun | src/compilers/imsta.rs:351-387 | the `tape_test` test as written, for every starting value: out of fuel, or Nil (never the value of `x`) with `x` not above zero and both counters at 35, past the 21-word tape; starting at or below zero, with `x` unchanged |
| Conditionals.FirstTrue | src/compilers/implementations.rs:89-100 | the branch found is the first at or after `i` whose condition holds, or there is none |
| Conditionals.BranchSkips | src/compilers/implementations.rs:91-99 | a falsy branch moves the pointer to its jump plus the lag and the offset only two words on |
| Conditionals.BranchTaken | src/compilers/implementations.rs:91-97 | a truthy branch returns its value with the pointer at `end_jmp` plus the lag |
| Conditionals.FinalRuns | src/compilers/implementations.rs:102 | with no branch left, the final expression's value, read just past the last branch |
| Conditionals.TakenAt | src/compilers/implementations.rs:94-97 | a truthy branch `i` ends the loop with the outcome for first truthy branch `i` |
| Conditionals.SkippedAt | src/compilers/implementations.rs:91-99 | a falsy branch over a hopping jump hands over to the next branch, and the first truthy branch is the same from there |
| Conditionals.BranchesFrom | src/compilers/implementations.rs:89-102 | on a tape of literal branches, from any branch on, the loop returns the first truthy branch's value with the pointer at `end_jmp` plus the lag, or the final value if no later branch is truthy |
| Conditionals.ConditionalRuns | src/compilers/implementations.rs:85-103 | on a tape of literal branches, `conditional` returns the first truthy branch's value with the pointer moved to `end_jmp`, or with none the final expression's value, when every jump hops to the next branch |
| Conditionals.AbsoluteSkips | src/compilers/implementations.rs:91-99 | two falsy branches with jumps 7 and 11 leave the pointer at word 13 with the offset at 7 |
| Conditionals.AbsoluteJumpsFail | src/compilers/implementations.rs:91-99 | jumps naming the next branch's word position fail after two falsy branches: the pointer lands on a function word where a jump is read |
| Disassembler.Indent | src/compilers/dissassembler.rs:89 | `{:>ident$}` of the empty string is `level` spaces |
| Disassembler.ReadWord | src/compilers/dissassembler.rs:33-38 | `read` succeeds iff the offset is inside the tape, yields that word and advances by one |
| Disassembler.PeekWord | src/compilers/dissassembler.rs:40-42 | `peek` succeeds iff one past the offset is inside the tape |
| Disassembler.GlobalName | src/compilers/dissassembler.rs:91-92 | a name lookup succeeds iff the word is a number inside the names table |
| Disassembler.Symbol | src/compilers/dissassembler.rs:102-112 | every operator but `!=` has a printed symbol |
| Disassembler.Diss | src/compilers/dissassembler.rs:57-64 | one `dissassemble` call consumes at least one word, stays inside the tape, keeps the indentation and only appends output |
| Disassembler.Handle | src/compilers/dissassembler.rs:60-63 | the handler chain keeps the indentation, only appends output and never moves back |
| Disassembler.FnListing | src/compilers/dissassembler.rs:117-195 | a block or loop listing consumes words, restores the indentation it raised and only appends output |
| Disassembler.BlockBody | src/compilers/dissassembler.rs:127-130 | the `block` loop ends only when the offset equals the end word |
| Disassembler.CheckedBody | src/compilers/dissassembler.rs:140-159 | the `block_checked` loop ends only when the offset equals the end word |
| Disassembler.Statement | src/compilers/dissassembler.rs:141-158 | one checked statement consumes at least its leading word |
| Disassembler.LiteralListing | src/compilers/dissassembler.rs:66-83 | `true`/`false` print their name and consume nothing more; a float consumes one more word |
| Disassembler.OperationListing | src/compilers/dissassembler.rs:85-115 | a word that is not `assign`, `var` or a printable operator is consumed with no output |
| Disassembler.DissProgram | src/compilers/dissassembler.rs:52-55 | the program listing succeeds iff the listing of its one expression does, and its output ends with a newline |
| Disassembler.UnrecognisedWords | src/compilers/dissassembler.rs:108 | the compiler's local `var`/`assign`, `conditional`, `native_op_neq` and every number word are recognised by no handler |
| Disassembler.SilentWord | src/compilers/dissassembler.rs:57-64 | an unrecognised word is consumed alone with no output |
| Disassembler.Literals | src/compilers/dissassembler.rs:69-77 | a float prints as its rendering followed by `f64` over two words; `true`/`false` over one |
| Disassembler.Globals | src/compilers/dissassembler.rs:88-99 | `var` prints the name at its slot over two words; `assign` prints `global NAME = ` at the indentation, then lists its value |
| Disassembler.OperatorWord | src/compilers/dissassembler.rs:21-30 | after an operator word and its left operand, the listing continues with the symbol between spaces |
| Disassembler.OperatorStep | src/compilers/dissassembler.rs:21-30 | an operator lists its left operand, then its symbol between spaces, then its right operand |
| Disassembler.ListingOfLayout | src/compilers/dissassembler.rs:57-195 | wherever the layout of a listable expression sits in the tape, listing from there prints exactly that expression's rendering and stops just past its code |
| Disassembler.BinaryListing | src/compilers/dissassembler.rs:102-112 | the same for an operator |
| Disassembler.OperandsListing | src/compilers/dissassembler.rs:21-30 | the left operand's code, starting after the operator word, lists its rendering; the right operand's code then lists its rendering after the symbol |
| Disassembler.OperatorListing | src/compilers/dissassembler.rs:21-30 | an operator word followed by its operands' code lists the operator's rendering and stops right after the right operand |
| Disassembler.BlockListing | src/compilers/dissassembler.rs:121-133 | a block prints `{` on a fresh line, its statements one per line at four more spaces, then `}` |
| Disassembler.StatementsListing | src/compilers/dissassembler.rs:127-130 | the `block` loop over laid-out statements prints each statement's rendering followed by a newline, stopping at the end word |
| Disassembler.Dissassembler.From | src/compilers/dissassembler.rs:10-19 | takes the compiler's tape and names, starting at offset 0 and level 0 |
| Disassembler.Dissassembler.Eprint | src/compilers/dissassembler.rs:73 | appends one piece of text to the output |
| Disassembler.Dissassembler.Read | src/compilers/dissassembler.rs:33-38 | does what `ReadWord` says |
| Disassembler.Dissassembler.Peek | src/compilers/dissassembler.rs:40-42 | returns `PeekWord` and changes nothing |
| Disassembler.Dissassembler.ScopeIn | src/compilers/dissassembler.rs:44-46 | raises the indentation by four |
| Disassembler.Dissassembler.ScopeOut | src/compilers/dissassembler.rs:48-50 | lowers the indentation by four |
| Disassembler.Dissassembler.DissassembleProgram | src/compilers/dissassembler.rs:52-55 | does what `DissProgram` says |
| Disassembler.Dissassembler.Dissassemble | src/compilers/dissassembler.rs:57-64 | does what `Diss` says |
| Disassembler.Dissassembler.HandleLiteral | src/compilers/dissassembler.rs:66-83 | declines a non-literal word untouched, otherwise does what `LiteralListing` says |
| Disassembler.Dissassembler.HandleOperation | src/compilers/dissassembler.rs:85-115 | always takes the word and does what `OperationListing` says |
| Disassembler.Dissassembler.HandleFn | src/compilers/dissassembler.rs:117-195 | declines a non-flow word untouched, otherwise does what `FnListing` says |
| Disassembler.Dissassembler.HandleBlock | src/compilers/dissassembler.rs:121-162 | a plain or checked block word: reads the end offset and lists statements until the offset reaches it, a checked block reading a hint before each one, as `FnListing` says |
| Disassembler.Dissassembler.HandleWhile | src/compilers/dissassembler.rs:163-188 | a while word: skips one word, lists the condition, reads the hint and lists the body, as `FnListing` says |
| Closures.CompileClosure | src/compilers/closure.rs:52-119 | compiling only extends the constants table |
| Closures.CompileAll | src/compilers/closure.rs:101-105 | a block has one closure per statement, and the table is only extended |
| Closures.ProgramOf | src/compilers/closure.rs:20-25 | `compile` wraps the closure of the whole program |
| Closures.Popped | src/compilers/closure.rs:75 | `pop().unwrap()` succeeds iff the stack is non-empty, removes its top and leaves the constants alone |
| Closures.Effect | src/compilers/closure.rs:52-119 | a closure never changes the length of the constants slice |
| Closures.EffectAll | src/compilers/closure.rs:107-112 | the statement loop never changes the length of the constants slice |
| Closures.Invocation | src/compilers/closure.rs:27-36 | the compiled program runs on as many constants as names were interned |
| Closures.ValueOf | src/compilers/closure.rs:58-98 | a float evaluates to itself, a sum to a float, and the only failure is the "Add operation invalid!" panic |
| Closures.Perform | src/compilers/closure.rs:52-119 | a value expression pushes exactly one value and every other non-block statement pushes none |
| Closures.ValueAgrees | src/compilers/closure.rs:58-98 | a value expression's closure pushes its value and nothing else, or fails as the evaluator does |
| Closures.AddAgrees | src/compilers/closure.rs:81-98 | the same for a sum: left, then right, popped in reverse, their sum pushed |
| Closures.StoreKeeps | src/compilers/closure.rs:76 | writing a value to a name's slot matches updating that name in the environment |
| Closures.PerformAgrees | src/compilers/closure.rs:52-119 | calling the closure of a tidy expression does to stack and constants what the reference evaluator says, failures included |
| Closures.StatementsAgree | src/compilers/closure.rs:107-112 | running a block's closures in order agrees with evaluating its statements in order |
| Closures.ClosureKeepsNames | src/compilers/closure.rs:39-50 | compiling keeps the constants table free of duplicates |
| Closures.AllKeepNames | src/compilers/closure.rs:101-105 | compiling a block's statements keeps the table free of duplicates |
| Closures.ProgramAgrees | src/compilers/closure.rs:20-37 | a tidy program, compiled and run on `Nil` constants and an empty stack, ends as the evaluator says from an empty environment |
| Closures.NestedAssignUnderflows | src/compilers/closure.rs:73-77 | `x = (y = n)` pops an empty stack: the inner store consumes the only value |
| Closures.OthersAreNoOps | src/compilers/closure.rs:115 | booleans, `Return`, `While` and operators compile to a closure that changes nothing, and intern no names |
| Closures.ClosureCompiler.constructor | src/compilers/closure.rs:21-23 | starts with an empty constants table |
| Closures.ClosureCompiler.ConstantGetOrDef | src/compilers/closure.rs:39-50 | returns the slot and table of `Intern` |
| Closures.ClosureCompiler.CompileExpr | src/compilers/closure.rs:52-119 | returns the closure and leaves the table as `CompileClosure` says |
| Closures.ClosureCompiler.CompileStatements | src/compilers/closure.rs:102-105 | the `map` loop returns the closures and the table `CompileAll` says |
| Closures.Compile | src/compilers/closure.rs:20-25 | returns `ProgramOf` the tree |
| Closures.ClosureContext.constructor | src/compilers/closure.rs:30-33 | a context over the given constants with an empty stack |
| Closures.ClosureContext.Pop | src/compilers/closure.rs:75 | does what `Popped` says |
| Closures.ClosureContext.Call | src/compilers/closure.rs:58-112 | calling a closure changes stack and constants exactly as `Effect` says, or fails as it does |
| Closures.Invoke | src/compilers/closure.rs:27-36 | running the boxed program succeeds iff `Invocation` does, with the same failure |

## Left out

- `Tape::debug` and `Tape::get_next_u128` (`imsta.rs:132-141`, `90-102`): debugging output, and a
  read the compiler never emits.
- `CallContext.stack` of imsta: it is never read or written.
- The benchmarks, `lib.rs` and `mod.rs`: they only drive the code above. The `nested` and
  `tape_test` programs are in `Programs`; their `println!` output is not.
- IEEE-754 arithmetic. Float operations and `<` are parameters, and float equality is bit
  equality, so `-0.0 == 0.0` and `NaN != NaN` are not modelled.
- Float formatting. `{}` on an `f64` is an abstract function `show` of the float's bits.
- Output that `eprint!` wrote before a panic: a failed listing carries no partial output.
- Non-termination. Where the interpreter would loop forever, the model stops with `OutOfFuel`.
- Undefined behaviour. Calling a function through the wrong transmuted type, or reading a
  function's address as a number, is the failure `IllTyped` instead of whatever the machine
  would do. For the disassembler this means a function-address word read as an index yields
  `IndexOutOfBounds`, and one read as an end offset never matches.
- Integer width. Offsets and indices are unbounded; `usize` and `u64` overflow cannot occur
  on any tape that fits in memory.
- Correctness.ProgramAgrees: covers only straight-line programs. `Add` compiles to nothing.
  `Return` and `While` are not run as the evaluator would run them: the compiler drops a
  block's `Return`, and `while_loop` skips by an absolute offset. What the machine does on such
  programs is stated for specific programs in `Programs` and in general by the `Steps` hint
  lemmas.
- Closures.ProgramAgrees: covers only tidy programs, as `Closures.PerformAgrees` does.
- Programs.TapeRun: states that `x` ends not above zero, not the test's `assert_eq!` that it
  is exactly `0.0`, because float arithmetic is a parameter.
- Semantics.HintCheck: its own contract states the shape of the result; what each hint does is
  stated by `Steps.NoHint`, `Steps.ReturnHintExits` and `Steps.WhileHintRuns`.
- Semantics.CheckedLoop: its own contract states the shape of the result; its runs are stated
  by `Steps.FalsyWhileEndsBlock` and the `Programs` lemmas.
- Semantics.WhileIter: its own contract states the shape of the result; its rounds are stated
  by `Steps.WhileFalsy` (a falsy condition), `Steps.WhileTruthyRound` (a truthy round: body,
  then `restore(saved)`), `Steps.WhileHintRuns` and `Programs.TapeLoopEnds`.
- Semantics.ExecWhile: its own contract states the shape of the result; what `while_loop`
  returns is stated through `Steps.WhileHintRuns`.
- Semantics.CondLoop: its own contract states the shape of the result; which branch wins, and
  where the cursor ends, is stated by `Conditionals.BranchesFrom` for tapes of literal
  branches.
- Disassembler.ListingOfLayout: covers only listable trees. It leaves out variables and
  assignments (compiled to the local `var`/`assign` the disassembler does not know), `!=`,
  `Return` and `While`.
- Closures.PerformAgrees: covers only tidy trees, whose assignments store value expressions. An
  assignment of an assignment is the underflow stated in `Closures.NestedAssignUnderflows`.
- Semantics.Apply: its contract states the shape of the result; the value of each comparison
  is in `Semantics.OperatorLaws`.
- The `Tape` pointer is an index into the word buffer. Pointer arithmetic past the buffer is a
  wild read (`WildRead`), not arbitrary memory.
