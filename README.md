# es: a bytecode compiler and register machine, modelled in Dafny

`es` compiles a small expression language to bytecode for a register machine and
runs the result. This project models four parts of it:

- **Bytecode generator** (`generator.dfy`, module `Generator`). `BytecodeGenerator.generate`
  walks the syntax tree once. It appends instructions to a vector and allocates
  registers from a counter that only increases. It lowers `If` and `While` by
  emitting jumps with the placeholder target 0 and overwriting them in place once
  the real target is known.
  - `Gen`/`GenSeq` is a state-threading specification of the walk.
  - The class `BytecodeGenerator` has the source's fields and a recursive `Generate`
    method, proved to compute exactly `Gen`.
  - Lemmas prove what the code promises: only appending, registers below the
    counter, every placeholder patched, and the exact jump targets.
- **Execution engine** (`process.dfy`, module `Processes`). A process owns a register
  file, a name-to-value store, a program, an instruction pointer and a halt flag.
  - `Step` is `execute` and `Loop`/`Run` is the fetch/execute loop of `run_program`.
    Both work on a `Machine` snapshot.
  - The class `Process` has methods `LoadProgram`, `Execute` and `RunProgram`,
    proved equal to those functions.
  - Jumps are modelled as written: the loop adds 1 after every instruction, so
    `Jmp(t)` resumes at `t + 1` and `JmpFalse(r, t)` resumes at `t`.
- **Process host** (`vm.dfy`, modules `Errors` and `Vm`): the `VMError` variants and
  `ByteCodeVM`, whose `spawn` hands out dense, sequential pids.
- **Lexer** (`lexer.dfy`, module `Lexing`). A character-level scanner over a
  `string` with a position index. It skips whitespace and scans numbers, strings,
  identifiers, keywords and one-character symbols.
  - `Scan` specifies one call of `next_token`.
  - The class `Lexer` has methods for `next_token`, `skip_whitespace`, `number`,
    `string` and `identifier`, each with the source's loop and proved against `Scan`.

How the generator's jumps behave when run (`lowering.dfy`, module `Lowering`):

- A taken then-branch skips the first instruction after the `If`.
- The back-jump of a loop skips the first instruction of the condition.

The demonstration program of `src/main.rs` is modelled end to end:

- `driver_compile.dfy` (module `DriverProgram`) compiles its syntax tree piece by piece.
- `driver_run.dfy` (module `Scenario`) runs the resulting 35-instruction executable.
- `driver_main.dfy` (module `EndToEnd`) joins the two. Its `Drive` method does what
  `main` does with the model's own objects.
- The run completes after 83 instructions and leaves `x = 5`, `temp = 0`,
  `result = 0`, `hello = "hello "` and `world = 38`. It also leaves `str` equal to
  "hello " followed by the formatting of 38, which is "hello 38" when 38 formats as "38".

Numbers are `real`. Floating-point division and number formatting are not
definable here. They are passed in as the two fields of `NumberOps`, so every
result holds for any division and any formatting.

## Model

| member | source | states |
|---|---|---|
| Generator.Allocate | src/generator.rs:24-30 | the register handed out is the old counter, the counter grows by one, and nothing else changes |
| Generator.Push | src/generator.rs:36-37 | pushing appends exactly that instruction and leaves the counter and the variable table alone |
| Generator.Patch | src/generator.rs:99-104 | overwriting in place replaces exactly the one index and changes nothing else |
| Generator.Gen | src/generator.rs:32-121 | generating any node only appends to the vector, strictly increases the counter, and returns a register below the new counter |
| Generator.Arith | src/generator.rs:52-65 | each operator lowers to its own three-register arithmetic instruction writing the fresh destination from the two operand registers, never to a jump |
| Generator.GenBinaryOp | src/generator.rs:48-68 | a binary operation only appends, increases the counter and returns an allocated register |
| Generator.GenIf | src/generator.rs:89-107 | an `If` only appends (the patches hit indices it emitted itself), increases the counter and returns an allocated register |
| Generator.GenElse | src/generator.rs:96-102 | the else-branch leaves everything before the patched `JmpFalse` intact, grows the code and allocates registers |
| Generator.GenWhile | src/generator.rs:108-119 | a `While` only appends, increases the counter and returns an allocated register |
| Generator.GenSeq | src/generator.rs:82-88 | a block's statements only append; an empty statement list returns the register allocated up front and changes nothing |
| Generator.BytecodeGenerator.constructor | src/generator.rs:16-22 | a new generator has no instructions, counter 0 and no variables |
| Generator.BytecodeGenerator.AllocateRegister | src/generator.rs:24-30 | the method's register and new state are exactly `Allocate` of the old state |
| Generator.BytecodeGenerator.Generate | src/generator.rs:32-121 | the recursive method leaves exactly the state and register of `Gen` on the old state |
| Generator.BytecodeGenerator.GenerateBinaryOp | src/generator.rs:48-68 | the method's effect is exactly `GenBinaryOp` |
| Generator.BytecodeGenerator.GenerateIf | src/generator.rs:89-107 | the method's effect, including both in-place patches, is exactly `GenIf` |
| Generator.BytecodeGenerator.GenerateElse | src/generator.rs:96-102 | the else-branch's push, patches and generation are exactly `GenElse` |
| Generator.BytecodeGenerator.GenerateWhile | src/generator.rs:108-119 | the method's effect, including the back-jump and the patch, is exactly `GenWhile` |
| Generator.RegistersBelowMono | src/generator.rs:24-30 | an instruction whose registers are below a bound stays so when the counter grows |
| Generator.WellFormedGrow | src/generator.rs:24-30 | growing the counter keeps every emitted and recorded register allocated |
| Generator.WellFormedPush | src/generator.rs:36-37 | pushing an instruction over allocated registers keeps the state well formed |
| Generator.WellFormedPatch | src/generator.rs:99-104 | overwriting an index with an instruction over allocated registers keeps the state well formed |
| Generator.GenWellFormed | src/generator.rs:32-121 | after generating any node, every instruction names only registers below the counter and is neither `Halt` nor a debug print, and every recorded variable register is below the counter |
| Generator.ArithWellFormed | src/generator.rs:52-65 | the arithmetic instruction for each operator names only its three registers |
| Generator.GenBinaryOpWellFormed | src/generator.rs:48-68 | a binary operation keeps every register below the counter |
| Generator.WellFormedArith | src/generator.rs:51-66 | pushing the arithmetic instruction into a freshly allocated register keeps the state well formed |
| Generator.GenIfWellFormed | src/generator.rs:89-107 | an `If`'s code names only registers below the one it returns, so that register is never written |
| Generator.GenElseWellFormed | src/generator.rs:96-102 | the else-branch keeps the state well formed |
| Generator.GenWhileWellFormed | src/generator.rs:108-119 | a `While`'s code names only registers below the one it returns |
| Generator.GenSeqWellFormed | src/generator.rs:82-88 | a block keeps the state well formed |
| Generator.ResolvedWiden | src/generator.rs:32-121 | resolved jumps stay resolved when later code is appended |
| Generator.ResolvedAgree | src/generator.rs:32-121 | resolution depends only on the instructions in the range |
| Generator.ResolvedJoin | src/generator.rs:32-121 | two adjacent resolved ranges form one resolved range |
| Generator.ResolvedSeq | src/generator.rs:82-88 | code resolved from its start followed by appended code resolved from its own start is resolved as a whole |
| Generator.ResolvedAt | src/generator.rs:32-121 | one instruction whose jump is in range is resolved |
| Generator.ResolvedPatched | src/generator.rs:99-117 | a patch outside a range leaves that range resolved |
| Generator.GenResolved | src/generator.rs:32-121 | in the code any node emits, every `JmpFalse` jumps strictly forward to at most the end, so never to the placeholder 0, and every `Jmp` stays within the node's code or goes to its end |
| Generator.ResolvedOperands | src/generator.rs:48-66 | two resolved operand codes and a non-jump instruction form resolved code |
| Generator.GenBinaryOpResolved | src/generator.rs:48-68 | a binary operation's code has only resolved jumps |
| Generator.GenSeqResolved | src/generator.rs:82-88 | a block's code has only resolved jumps |
| Generator.GenIfResolved | src/generator.rs:89-107 | an `If`'s code has only resolved jumps, with or without an else-branch |
| Generator.ResolvedElseParts | src/generator.rs:96-102 | the parts of an `If` with an else-branch, once both patches are made, form resolved code |
| Generator.GenElseResolved | src/generator.rs:96-102 | the else-branch's patches resolve both placeholder jumps |
| Generator.ResolvedWhileParts | src/generator.rs:108-117 | a loop's condition, patched `JmpFalse`, body and back-jump form resolved code |
| Generator.GenWhileResolved | src/generator.rs:108-119 | a `While`'s code has only resolved jumps |
| Generator.LiteralEmitsOneLoad | src/generator.rs:34-47 | a number or string literal emits exactly one `Load` of its value into the old counter's register and grows the counter by one |
| Generator.BinaryOpLayout | src/generator.rs:48-67 | all of the left operand's code comes before all of the right's, and the last instruction combines the two operand registers into a register allocated after both |
| Generator.AssignmentLayout | src/generator.rs:75-80 | an assignment emits the value's code and then `Store(name, value register)`, records that register for the name and returns it |
| Generator.EmptyBlock | src/generator.rs:82-88 | an empty block emits nothing and returns the register allocated up front |
| Generator.GenSeqAppend | src/generator.rs:84-86 | statements are generated in order, each on the state the previous one left |
| Generator.BlockAppend | src/generator.rs:82-88 | appending a statement to a block generates it after the block's other statements, and the block returns its register |
| Generator.IfElseLayout | src/generator.rs:89-107 | with an else-branch, the `JmpFalse` at `then_label` targets `else_label + 1`, the `Jmp` at `else_label` targets the end, and the returned register is fresh |
| Generator.IfThenLayout | src/generator.rs:89-107 | without an else-branch, the `JmpFalse` targets the end of the then-branch, and the returned register is fresh |
| Generator.WhileLayout | src/generator.rs:108-119 | the loop ends with `Jmp(loop_start)`, the `JmpFalse` at `body_start` targets `loop_end` (just past that jump), and the returned register is fresh |
| Processes.Loaded | src/process.rs:26-29 | loading replaces the program and makes `max_registers` copies of `Empty`; the pid, variables, pointer and halt flag are untouched |
| Processes.Fresh | src/process.rs:15-24 | a new process has the given pid, no registers, no variables, pointer 0, no halt, and is not running |
| Processes.Truthy | src/process.rs:110-114 | only a number or `true` can let `JmpFalse` fall through; strings, `false` and `Empty` always jump |
| Processes.AddValues | src/process.rs:55-70 | `Add` is defined exactly on numbers and strings; the result is a number exactly when both operands are, and otherwise a string that starts with the string operand (the left one when both are) |
| Processes.Apply | src/process.rs:71-105 | `Sub` gives a result that added to the right operand is the left, `Mul` the product, `Div` the supplied division |
| Processes.Numeric | src/process.rs:71-105 | `Sub`, `Mul` and `Div` fail with `TypeMisMatch(pid)` only when an operand is not a number, and on success write `Apply` of the two numbers to the destination, keeping the register count |
| Processes.Write | src/process.rs:53 | a register write succeeds exactly when the index is in range, sets that register, and leaves every other register and every other field as it was |
| Processes.Step | src/process.rs:47-146 | every error carries the pid; a successful step keeps the pid, the program and the register count |
| Processes.Loop | src/process.rs:33-43 | the loop itself, up to `fuel` instructions; its outcome is stated by `LoopStops`, `LoopOutcome` and `LoopPreservesShape` |
| Processes.Run | src/process.rs:31-45 | a halted process or an empty program completes at once with only the pointer reset to 0; a run reports `Completed` exactly when its final state is no longer running: the pointer is past the program or the process halted |
| Processes.StepFrame | src/process.rs:47-146 | an instruction that succeeds writes at most its one destination register, changes the variables only if it is `Store`, moves the pointer only if it is a jump, and sets the halt flag only if it is `Halt` |
| Processes.JmpResumesAfterTarget | src/process.rs:106-108 | after `Jmp(t)` the next instruction executed is the one at `t + 1` |
| Processes.JmpFalseLanding | src/process.rs:109-118 | `JmpFalse(r, t)` falls through on a truthy register; otherwise the next instruction is the one at `t`, and a target of 0 underflows |
| Processes.AddSemantics | src/process.rs:55-69 | `Add` succeeds exactly on numbers and strings: it adds numbers, concatenates strings, puts the string before the formatted number in either order, and is symmetric except on two strings |
| Processes.NumericSemantics | src/process.rs:71-105 | `Sub`, `Mul` and `Div` succeed exactly when both operands are numbers, writing the result to the destination, and otherwise fail with `TypeMisMatch(pid)`; `Div` has no zero check |
| Processes.StepErrors | src/process.rs:47-146 | every error carries the process's pid; `UndefinedVariable` only comes from `LoadVar` of an unbound name, and `TypeMisMatch` only from arithmetic |
| Processes.StoreThenLoadVar | src/process.rs:119-129 | a `LoadVar` after a `Store` of the same name copies back the stored register |
| Processes.StoreLastWriteWins | src/process.rs:119-122 | a second `Store` to a name overwrites the first |
| Processes.LoopPreservesShape | src/process.rs:31-45 | running never changes the pid, the program or the register count, and never clears the halt flag |
| Processes.LoopStops | src/process.rs:31-45 | a run completes exactly when the pointer leaves the program or the process halts; an error or panic stops it at the failing instruction, with that instruction's error |
| Processes.LoopOutcome | src/process.rs:31-45 | a run completes exactly when it leaves the program or halts; a failed run stopped at the failing instruction with nothing of it applied, and its error carries the pid and is `TypeMisMatch` or `UndefinedVariable` |
| Processes.HaltedProcessRunsNothing | src/process.rs:26-33 | once halted, a process stays halted through any run and any later load, and every later run executes nothing |
| Processes.LoopAdditive | src/process.rs:33-43 | running `a` steps and then `b` more is running `a + b` steps |
| Processes.LoopFuelMono | src/process.rs:33-43 | a run that ended within its fuel ends the same way with more fuel |
| Processes.Process.constructor | src/process.rs:15-24 | a new process has the given pid, no registers, no program, no variables, pointer 0 and no halt |
| Processes.Process.LoadProgram | src/process.rs:26-29 | the new state is `Loaded` of the old one |
| Processes.Process.Execute | src/process.rs:47-146 | a successful instruction returns `Ok` and leaves the state `Step` gives; a failing one returns its error and changes nothing |
| Processes.Process.ExecuteNumeric | src/process.rs:71-105 | the shared arithmetic path returns `Ok` with the result written, or `TypeMisMatch(pid)` with nothing changed |
| Processes.Process.RunProgram | src/process.rs:31-45 | the status and final state are exactly those of `Run`: the pointer reset to 0, then the loop |
| Vm.ByteCodeVM.constructor | src/vm.rs:31-35 | a new VM has no processes |
| Vm.ByteCodeVM.Spawn | src/vm.rs:37-41 | spawn appends exactly one fresh process whose pid is the number of processes before, leaves the earlier ones unchanged, returns that last element, and keeps every pid equal to its index |
| Vm.ValidIdsAreDistinct | src/vm.rs:37-41 | distinct processes of a VM have distinct pids |
| Lowering.FalseConditionEntersElse | src/generator.rs:99-100 | a false `If` condition continues at the first instruction of the else-branch |
| Lowering.ThenBranchSkipsNext | src/generator.rs:102 | the `Jmp` ending a then-branch resumes one past the end of the `If`, skipping the instruction after it |
| Lowering.FalseConditionExitsLoop | src/generator.rs:116-117 | a false loop condition continues just past the back-jump |
| Lowering.BackJumpSkipsLoopStart | src/generator.rs:115 | the back-jump resumes at the second instruction of the condition's code, skipping the first |
| Lexing.SpanEnd | src/lexer.rs:58-100 | each scanning loop stops at the first character outside its class, or at the end of input, having consumed only characters of its class |
| Lexing.SpanEndUnique | src/lexer.rs:58-100 | that stopping point is the only index with this property |
| Lexing.Scan | src/lexer.rs:34-56 | a call consumes input only forwards, and every call that does not return `EOF` consumes at least one character |
| Lexing.ScanToken | src/lexer.rs:37-53 | a call that finds a character consumes it and returns a token other than `EOF` |
| Lexing.ScanNumber | src/lexer.rs:67-78 | a number consumes at least its first digit and is never `EOF` |
| Lexing.ScanString | src/lexer.rs:80-89 | a string consumes at least its opening quote and is never `EOF` |
| Lexing.ScanIdentifier | src/lexer.rs:91-108 | an identifier consumes at least its first character and is never `EOF` |
| Lexing.Lexer.constructor | src/lexer.rs:28-32 | a new lexer is at the start of its input |
| Lexing.Lexer.NextToken | src/lexer.rs:34-56 | the method's token, or panic, and new position are exactly `Scan` from the old position |
| Lexing.Lexer.SkipWhitespace | src/lexer.rs:58-65 | the position moves to the first non-whitespace character or to the end, consuming nothing else |
| Lexing.Lexer.NumberToken | src/lexer.rs:67-78 | the lexeme is the first digit and the maximal run of digits and points after it, all consumed; it becomes the number it parses to, or a panic when it does not parse |
| Lexing.Lexer.StringToken | src/lexer.rs:80-89 | the token holds the characters up to the next quote, which is consumed; an unterminated string takes the rest of the input |
| Lexing.Lexer.IdentifierToken | src/lexer.rs:91-108 | the lexeme is the first character and the maximal run of alphanumerics and underscores after it, all consumed, classified as a keyword or an identifier |
| Lexing.EofIffOnlyWhitespace | src/lexer.rs:34-37 | `EOF` comes exactly when only whitespace remains; it consumes everything, and the next call returns `EOF` again |
| Lexing.PunctuationTable | src/lexer.rs:42-51 | distinct symbol characters give distinct tokens |
| Lexing.SymbolToken | src/lexer.rs:42-51 | after whitespace, a symbol character yields its token and consumes exactly that character |
| Lexing.KeywordTable | src/lexer.rs:101-107 | distinct words give distinct tokens, keywords included |
| Lexing.Keyword | src/lexer.rs:101-107 | a word is an identifier exactly when it is none of `if`, `else`, `while`, `let`, and an identifier names the word itself |
| Lexing.Punctuation | src/lexer.rs:42-51 | a character has a symbol token exactly when it is one of `=+-*/(){};` |
| Lexing.ParseNumber | src/lexer.rs:77 | a lexeme that parses lies between the value of its integer digits and that value plus one |
| Lexing.FractionValue | src/lexer.rs:77 | the digits after the point are worth at least 0 and less than 1 |
| Lexing.WordToken | src/lexer.rs:91-108 | after whitespace, a word starting with a letter or `_` followed by a non-identifier character yields its keyword or identifier token and consumes exactly the word |
| Lexing.StringTokens | src/lexer.rs:80-89 | a quoted text yields a string token of that text and consumes both quotes; without the closing quote it consumes the rest of the input |
| Lexing.InvalidNumberIffTwoPoints | src/lexer.rs:77 | a number lexeme fails to parse exactly when it holds two points |
| Lexing.DigitChar | src/lexer.rs:39 | each digit value has a digit character of that value: the inverse of the digit reading that starts a number, used by the `NumeralValue`/`NumeralToken` round trip |
| Lexing.Numeral | src/lexer.rs:67-76 | a decimal numeral is a non-empty run of digits: the inverse of the number scanner's digit reading, used by the `NumeralValue`/`NumeralToken` round trip |
| Lexing.NumeralValue | src/lexer.rs:77 | a numeral parses back to the number it was written from |
| Lexing.NumeralToken | src/lexer.rs:67-78 | after whitespace, a decimal numeral yields the number token of its value and consumes exactly the numeral |
| Lexing.ScanPanics | src/lexer.rs:37-77 | a call panics exactly on a character that starts no token or on a number lexeme that does not parse; an unexpected character panics with that character, which is consumed |
| DriverProgram.CompileInitX | src/main.rs:18 | `x = 0` compiles to a `Load` into register 1 and a `Store` of it |
| DriverProgram.CompileLoopCondition | src/main.rs:20-24 | `5 - x` compiles to three instructions over registers 2 to 4 |
| DriverProgram.CompileIncrementX | src/main.rs:26-33 | `x = x + 1` compiles to four instructions over registers 6 to 8 |
| DriverProgram.CompileSetTemp | src/main.rs:34-41 | `temp = 5 - x` compiles to four instructions over registers 9 to 11 |
| DriverProgram.CompileLoopBody | src/main.rs:25-42 | the loop body compiles to its eight instructions |
| DriverProgram.CompileCountUp | src/main.rs:19-43 | the loop compiles to thirteen instructions, the `JmpFalse` at 5 targets 15 and the back-jump targets 2 |
| DriverProgram.CompileResultCondition | src/main.rs:45-49 | `x - 5` compiles to three instructions over registers 13 to 15 |
| DriverProgram.CompileSetResult | src/main.rs:50-57 | `result = v` compiles to a `Load` and a `Store` |
| DriverProgram.ChooseUnfolds | src/main.rs:44-58 | the `If` is its condition, a placeholder jump, its then-branch and its else-branch, patched |
| DriverProgram.CompileChooseThen | src/main.rs:44-53 | the condition and then-branch compile to their five instructions |
| DriverProgram.CompileChooseElse | src/main.rs:54-57 | the else-branch adds the `Jmp` patched to 24 and its two instructions, and patches the `JmpFalse` to 22, the first instruction of the else-branch |
| DriverProgram.CompileChoose | src/main.rs:44-58 | the `If` compiles to nine instructions and returns register 18 |
| DriverProgram.CompileSetHello | src/main.rs:59-62 | `hello = "hello "` compiles to a `Load` and a `Store` |
| DriverProgram.CompileSetWorld | src/main.rs:63 | `world = 38` compiles to a `Load` and a `Store` |
| DriverProgram.CompileSetStr | src/main.rs:64-71 | `str = hello + world` compiles to four instructions |
| EndToEnd.ListedJoin | src/main.rs:17-72 | two adjacent agreeing stretches of the executable join |
| EndToEnd.ListedExtend | src/main.rs:17-72 | appending code keeps an agreeing stretch |
| EndToEnd.ListedInitX | src/main.rs:18 | the first assignment's code is the executable's instructions 0 and 1 |
| EndToEnd.ListedCountUp | src/main.rs:19-43 | the loop's code is the executable's instructions 2 to 14 |
| EndToEnd.ChooseInstructions | src/main.rs:44-58 | the `If`'s code is the executable's instructions 15 to 23 |
| EndToEnd.ListedChoose | src/main.rs:44-58 | generating the `If` places its code at instructions 15 to 23 |
| EndToEnd.ListedSetHello | src/main.rs:59-62 | `hello`'s assignment is instructions 24 and 25 |
| EndToEnd.ListedSetWorld | src/main.rs:63 | `world`'s assignment is instructions 26 and 27 |
| EndToEnd.ListedSetStr | src/main.rs:64-71 | `str`'s assignment is instructions 28 to 31 |
| EndToEnd.ListedDebugPrints | src/main.rs:77-85 | the three debug prints are instructions 32 to 34 |
| EndToEnd.CompileFront | src/main.rs:17-58 | the first three statements compile to instructions 0 to 23 using 19 registers |
| EndToEnd.CompileMain | src/main.rs:74-85 | the program compiles to the executable's first 32 instructions using 24 registers; with the debug prints appended it is the executable |
| EndToEnd.DriverOutcome | src/main.rs:74-88 | compiling, appending the prints, loading with `next_register` registers and running completes after exactly 83 instructions, with `x = 5`, `temp = 0`, `result = 0`, `hello = "hello "`, `world = 38` and `str = "hello 38"` when 38 formats as "38" |
| EndToEnd.Drive | src/main.rs:14-88 | `main` with the model's objects: one spawned process with pid 0, which completes with those variables |
| Scenario.Fetch | src/main.rs:17-85 | instruction `k` of the executable is the listed one |
| Scenario.ReachesRefl | src/process.rs:31-45 | zero steps reach the start |
| Scenario.ReachesTrans | src/process.rs:31-45 | step counts of consecutive stretches of a run add up |
| Scenario.ThenStep | src/process.rs:33-43 | a successful instruction extends a run by one step |
| Scenario.ThenLoad | src/process.rs:52-54 | `Load` writes its value and moves on |
| Scenario.ThenStore | src/process.rs:119-122 | `Store` binds the name and moves on |
| Scenario.ThenLoadVar | src/process.rs:123-129 | `LoadVar` of a bound name copies it and moves on |
| Scenario.ThenSub | src/process.rs:71-83 | `Sub` on numbers writes the difference and moves on |
| Scenario.ThenAdd | src/process.rs:55-70 | `Add` writes its sum or concatenation and moves on |
| Scenario.ThenJmp | src/process.rs:106-108 | `Jmp(t)` continues at `t + 1` |
| Scenario.ThenJmpFalse | src/process.rs:109-118 | `JmpFalse` falls through on truth and otherwise continues at its target |
| Scenario.ThenDbgPrintVar | src/process.rs:136-143 | printing a bound variable changes nothing |
| Scenario.VarsAfterX | src/main.rs:19-43 | after `n` passes of the loop, `x` is `n` |
| Scenario.VarsAfterPass | src/main.rs:25-42 | one pass sets `x` to `n + 1` and `temp` to `5 - (n + 1)` |
| Scenario.Prologue | src/main.rs:18-24 | the first three instructions store `x = 0` and load 5 for the loop test |
| Scenario.StayInLoop | src/main.rs:19-24 | while `x < 5` the loop test is positive and the body is entered |
| Scenario.Increment | src/main.rs:26-33 | the body's first assignment increments `x` |
| Scenario.SetTemp | src/main.rs:34-41 | the body's second assignment sets `temp = 5 - x` |
| Scenario.TempOperands | src/main.rs:34-41 | the two instructions before the subtraction put 5 and the current `x` into its operand registers and change no variable |
| Scenario.JumpBack | src/process.rs:106-108 | the back-jump resumes at the loop test's second instruction, with the loaded 5 still in its register |
| Scenario.Pass | src/main.rs:19-43 | one pass takes 12 instructions and counts `x` up by one |
| Scenario.Passes | src/main.rs:19-43 | from pass `n`, 12 instructions per pass lead to `x = 5` at the loop head |
| Scenario.LeaveLoop | src/main.rs:19-24 | at `x = 5` the loop test is 0 and the loop is left |
| Scenario.TestResult | src/main.rs:45-49 | the `If` test `x - 5` is 0 |
| Scenario.TakeElse | src/main.rs:44-58 | so the else-branch is taken |
| Scenario.ElseBranch | src/main.rs:54-57 | the else-branch sets `result = 0` |
| Scenario.Constants | src/main.rs:59-63 | `hello` and `world` are stored |
| Scenario.Concatenate | src/main.rs:64-71 | `str` is "hello " followed by the formatting of 38 |
| Scenario.FinalVariablesDisplay | src/main.rs:17-72 | the bindings made along the run are the final variables |
| Scenario.Prints | src/main.rs:77-82 | the first two debug prints change nothing |
| Scenario.Epilogue | src/main.rs:44-82 | from the loop head at `x = 5`, 19 instructions reach the last debug print with the final variables |
| Scenario.MainProgramRun | src/main.rs:87-88 | the executable run from a fresh process with 24 registers completes after exactly 83 instructions with the final variables |

## Left out

- Floating-point detail: numbers are `real`, so NaN, infinities and rounding are not modelled. Division by zero yields whatever the supplied division gives.
- `n.to_string()` and the `/` of `Div` are the parameters `format` and `divide` of `NumberOps`, not definitions.
- The lexer's `parse::<f64>` is modelled as the exact decimal value of the lexeme, with no rounding. It fails exactly when the lexeme holds two or more points.
- `Lexing.IsAlphanumeric` approximates Unicode `is_alphanumeric` by ASCII letters and digits. `is_whitespace` is the full Unicode White_Space set.
- Console output: `DbgPrintReg` and `DbgPrintVar` are no-ops, except that `DbgPrintVar` of an unbound name panics like its `unwrap`. `dump` and the `Display` implementations are not modelled.
- Rust panics are a run outcome (`Panicked`, `Lexing.Panicked`), not aborts. This covers an out-of-range register, the `dest - 1` underflow of a `JmpFalse` with target 0, and the failed unwraps.
- Processes.Process.Execute: requires that the instruction does not panic. The Rust method aborts the program there, so there is no state to state.
- Processes.Process.RunProgram: runs at most `fuel` instructions and then reports `OutOfFuel`. The Rust loop has no bound, and a compiled loop need not terminate.
- `usize` is an unbounded `nat`. Register indices, pids and the pointer never wrap.
- The lexer is not part of the build (`src/main.rs` declares no `lexer` module), and the generator never uses it. It is modelled on its own.
- The `main` of `src/main.rs` prints the variables of a `HashMap` in unspecified order. The model states the final map instead of the printing.
- `DivisionByZero` and `BadAddress` are declared but never constructed. Nothing in the model produces them.
