# Verified models of the Magi compilers and libraries

This project models, in Dafny, the parts of the repository where a mistake is hardest to
see, and proves what they are for.  `dafny verify dfyconfig.toml` checks everything.

**Source language.** `Syntax` is the tree.  `Interpreter` is the tree-walking interpreter as
a big-step evaluator with fuel: nested scopes above a top level that every function sees,
fixed parameters, values of statements and blocks, the outcomes normal, break, continue,
return and throw, and the entry through `main` and `init`.  `Semantics` is the same for what
the two compilers implement (`Ir`, `Vm`).  `Readings` defines tame runs, those that meet no
construct on which interpreter and compiler part ways; `ReadingsSame` proves that every tame
run ends alike in both, `ReadingsClean` gives a condition on the program text, and
`ReadingsLimits` and `ReadingsGlobals` say for each such construct exactly when the two still
agree.  Value operators are one shared parameter of the evaluators and the machines.

**AST to structured IR** (`Ir*`).  `IrCodegen` gives the code of a tree with labels
relative to the innermost loop.  `IrCompiler.Compiler` is the compiler with its mutable
tables, depth counter and loop stack, proved to emit that code.  `IrMachine` runs the
flat list under the stack-and-label rules of section 4.4.5 of WebAssembly Core 1.0.
`IrSim` and `IrTheorem` prove that running the compiled module does what its reading of the
program says, and on tame runs what the interpreter does, through the shared scratch local,
scopes, loops, calls and recursion.  `IrShape`, `IrLabels`, `IrNames` and `IrBodies` cover the
control structure of every construct, including those whose values are not modelled (for, C-style
for, match, comprehensions, try, lambdas).  `IrFlow` is the order in which a program performs its
acts, given what its conditions turn out to be, once as the interpreter has it and once as compiled
code does; `IrFlowMachine` runs the emitted control code, and `IrFlowTheorem` proves that it
performs the source's acts in the order of compiled code (over the nested constructs of `IrTree`,
`IrTreeRun`, `IrFlowTree` and `IrFlowRun`).  `IrFlowOrder` and `IrFlowLimits` say where the two
orders are the same.  `IrLimits`, `IrScratch` and `IrHarmless` hold
the programs on which compiled modules differ from the interpreter; `IrReuse` says what becomes
of the globals when one compiler object compiles several programs.

**Bytecode compiler and VM** (`Bytecode*`).  A compiler that appends and patches bytes,
a fetch-execute loop, and the proof that both together preserve meaning under the
invariant that slot i holds local i and everything above is junk.  `BytecodePlain` says what
the machine does with programs that use constructs the compiler has no code for, and
`BytecodeUnreached` that they do no harm where they are not reached.

**Regex engine** (`Regex*`).  The automaton compiler is proved exact for its fragment,
the simulation leftmost-longest for every automaton, and find, replace and split agree.
`RegexGroups` and `RegexRepeat` say what a quantified group becomes and when that is a
repetition.  `RegexMeaning` says what characters, escapes and anchors stand for.

**Optimizer** (`Optimizer*`).  Folding, identities, constant branches and dead-code
removal keep every run of the interpreter without error that meets none of the three wrong
rewritings: of a comparison between a constant boolean and a non-boolean, of a logical operator
with a constant right of a non-boolean, and of `!!` on a non-boolean.  `OptimizerLimits` says of
each rewriting exactly when it is right, and `OptimizerNormal` what is left when the optimizer is done.

**Algorithms of `src/util.rs`, `src/registry.rs` and `build.rs`.**  `Blake3*`, `Lz4*`,
`Calendar` and `Timestamp`, `Json*`, `Csv*`, `Levenshtein`, `OrderedMap`, `Registry`.
`JsonLanguage` and `Lz4Format` give the texts and blocks that are accepted exactly, with what they
stand for; `CsvQuotes` says what a quote, a comma and a line end mean in any text.

What the source changes step by step is modelled by classes, arrays and loops, each
proved against a specification function; what it computes is a function.

Findings that the proofs brought out, each with a lemma:

- The interpreter gives a block or function without tail expression the value of its last
  statement, both compilers give null (`IrLimits.TaillessDiffers`, exact condition in
  `ReadingsLimits.BlockValue` and `CallValue`).
- A break or continue in a loop condition belongs to the outer loop in the interpreter and
  to the loop itself in compiled code (`IrLimits.ConditionBreakDiffers`,
  `ReadingsLimits.WhileCondition`).
- Compiled code never calls `main` or `init` (`IrLimits.MainDiffers`,
  `ReadingsProgram.MainNotCalled`).
- A compiled function sees a top-level variable as its last `let` left it, not as later
  assignments did (`IrLimits.StaleDiffers`, `ReadingsGlobals.StaleRead`).
- A `continue` in a do-while loop skips the condition in compiled code
  (`IrLimits.RestartNeverEnds`, `ReadingsLimits.ContinueRound`).
- A `continue` in a for loop skips the step to the next element in compiled code, so
  `for x in xs { continue }` never ends once there is an element; in a C-style loop it skips the
  update (`IrFlowLimits.ContinueStays` and `ContinueSteps`, exact conditions in `ForRoundAlike`
  and `CForRoundAlike`).
- In compiled code a match ends where the guard of a tested arm fails, and a jump out of a try
  block skips the finally block (exact conditions in `IrFlowLimits.GuardAlike` and `TryAlike`).
- A user variable called `__temp` shares its slot with the compiler's scratch local
  (`IrScratch.ScratchNameClashes`); it is harmless where no logical operator and no `??`
  asks for the scratch local (`IrHarmless.ScratchHarmless`).
- The optimizer turns `x == true` into `x` whatever x is, so `5 == true` becomes 5; likewise
  `x && true` and `!!x` (`OptimizerLimits.ComparisonChanges`, `LogicalChanges`; exact conditions
  in `ComparedRight`, `LogicalRight`, `NegationRight`).  What it leaves is a normal form but for
  `5 == false`, which becomes `!5` and is not computed (`OptimizerNormal.NegationStays`,
  `LeftoverExactly`).
- Bytecode goes on with null where an operator has no value: `output 1 / 0` prints null
  (`BytecodeLimits.FailingOperator`).
- In bytecode a logical operator evaluates both operands (`ReadingsLimits.StrictOperator`); an
  operator with a conditional on its right is applied to the condition in place of the left
  operand (`BytecodeLimits.RightBranch`); `break` compiles to nothing and `throw` to a return
  (`BytecodeLimits`, `BytecodePlain`).
- The IR compiler resets its state for every program so that it can be used again, as its
  comment says, but not its table of globals: used again, it may give two names one slot, or a name a slot that does not exist (`IrReuse.StaleSlot`).
- A quantifier after a regex group binds to the group's last state only, so `(ab)*` rejects
  the empty text (`RegexRepeat.StarredPair`; exact conditions in `GroupRepeats`,
  `PlusRepeats` and `PlusGroupRepeats`).
- CSV rows that are empty or one empty field are lost, LZ4 input over 256 MiB cannot be
  read back (from 2^32 bytes on, unless its size modulo 2^32 admits it), timestamps before year 0 cannot be parsed back, JSON nested deeper than 128
  is refused: the round trips hold exactly outside these cases.

Where code and documentation disagree the code is followed.  Names that are bound nowhere are
an error in the interpreter, a new global in compiled code and null in bytecode; a run of the
interpreter that meets one is a run with an error, of which the theorems that compare with it say nothing.

## Model

| member | source | states |
|---|---|---|
| Pools.InternFinal | src/compiler/ir.rs:50-60 | a string keeps the index it was first given, however the pool grows |
| Pools.AppendIndex | src/compiler/ir.rs:50-60 | appending a new name keeps the hash index equal to the position map of the pool |
| IrCompiler.Compiler.InternString | src/compiler/ir.rs:50-60 | interning adds a string at most once, returns its position, and keeps the hash index exact |
| IrCompiler.Compiler.DefineGlobal | src/compiler/compile.rs:517-535 | a global is added at most once and its slot is its position; with a table left over from another program, the slot is whatever the table says |
| IrCompiler.Compiler.DefineLocal | src/compiler/compile.rs:136-147 | a new local takes the next slot and shadows older ones in the innermost scope |
| IrCompiler.Compiler.ResolveLocal | src/compiler/compile.rs:149-156 | the innermost scope that knows a name decides its slot |
| IrCompiler.Compiler.EnsureTempLocal | src/compiler/compile.rs:2460-2468 | the scratch local is found if visible and defined otherwise |
| IrCompiler.Compiler.Emit | src/compiler/compile.rs:487-501 | one instruction is appended and the depth counter follows the constructs it opens and closes |
| IrCompiler.Compiler.CompileExpr | src/compiler/compile.rs:1073-1480 | emits exactly the generated code of an expression with labels relative to the innermost loop, restores depth and loop stack, and fails exactly when generation does |
| IrCompiler.Compiler.CompileVariable | src/compiler/compile.rs:1077-1094 | reads a local, else a global, else a function index, else a new global |
| IrCompiler.Compiler.CompileBinary | src/compiler/compile.rs:1096-1138 | both operands in order, then the operator |
| IrCompiler.Compiler.CompileLogical | src/compiler/compile.rs:1098-1131 | && and or through the scratch local and two blocks; the right operand is compiled two constructs deeper |
| IrCompiler.Compiler.CompileCall | src/compiler/compile.rs:1148-1206 | arguments left to right, then the callee |
| IrCompiler.Compiler.CompileCallee | src/compiler/compile.rs:1187-1204 | a known function is called directly, a local or global through its value, any other name at run time |
| IrCompiler.Compiler.CompileIf | src/compiler/compile.rs:1229-1241 | both branches one construct deeper; a missing else pushes null |
| IrCompiler.Compiler.CompileArms | src/compiler/compile.rs:1231-1240 | the code of both branches between the opening and the end of the conditional |
| IrCompiler.Compiler.CompileCoalesce | src/compiler/compile.rs:1407-1421 | the default is evaluated only when the saved left value is null |
| IrCompiler.Compiler.CompileInfiniteLoop | src/compiler/compile.rs:1918-1944 | labels computed from recorded depths equal the relative labels of the generated loop |
| IrCompiler.Compiler.CompileWhileLoop | src/compiler/compile.rs:1877-1916 | condition and body inside block and loop, exits and repeats with the right labels |
| IrCompiler.Compiler.CompileDoWhile | src/compiler/compile.rs:955-978 | the body first, then the condition, with continue aimed at the loop head |
| IrCompiler.Compiler.CompileBlock | src/compiler/compile.rs:1713-1723 | a scope of its own; a block without tail yields null |
| IrCompiler.Compiler.CompileStatements | src/compiler/compile.rs:564-569 | statements in order; the first failing one fails the list |
| IrCompiler.Compiler.CompileStatement | src/compiler/compile.rs:571-760 | each statement form emits its generated code |
| IrCompiler.Compiler.CompileJump | src/compiler/compile.rs:808-833 | break and continue emit the label of the innermost loop, and fail exactly outside every loop |
| IrCompiler.Compiler.CompileBind | src/compiler/compile.rs:574-585 | a let at the top level also sets a global |
| IrCompiler.Compiler.CompileStore | src/compiler/compile.rs:599-614 | an assignment reaches the innermost binding, else a global |
| IrCompiler.Compiler.CompileFunctionDef | src/compiler/compile.rs:1725-1752 | a function becomes its block followed by a return, in its registered slot |
| IrCompiler.Compiler.CompileMain | src/compiler/compile.rs:226-244 | the top-level code becomes function 0, ending in null and a return |
| IrCompiler.Compiler.RegisterFunctions | src/compiler/compile.rs:257-456 | every function gets the index of its last definition before any body is compiled |
| IrCompiler.Compiler.RegisterLibrary | src/compiler/compile.rs:297-455 | the built-ins come after the main code; of several with one name the first stays, unchanged, under its registered index |
| IrCompiler.Compiler.RegisterProgram | src/compiler/compile.rs:265-293 | the program's functions get the next indices; a built-in of the same name is displaced, every other one stays where it is |
| IrCompiler.Compiler.Compile | src/compiler/compile.rs:214-252 | the module is the linked code of the program, each built-in function not displaced stands in it unchanged under its registered index, the interned names are among its strings, and there is none exactly when a break or continue stands outside every loop |
| IrReuse.NewSlots | src/compiler/compile.rs:214-252 | a compiler used again: the globals of the new program get the slots from 0 on, and the names of earlier programs keep theirs |
| IrReuse.StaleSlot | src/compiler/compile.rs:517-535 | a name of an earlier program that the new one does not define shares its slot with a global of the new program if and only if its slot is one of theirs; otherwise the module has no such slot |
| IrReuse.ReuseSafe | src/compiler/compile.rs:214-252 | names and slots fit together, whatever the new program defines, if and only if the table was empty |
| IrLink.LinkDone | src/compiler/compile.rs:246-295 | once every body is compiled, the module holds the code of every function under its registered index |
| IrLink.LinkMore | src/compiler/compile.rs:465-485 | compiling one more function keeps the code of all others |
| IrStray.StrayMain | src/compiler/compile.rs:808-833 | top-level code generates exactly when it holds no stray jump |
| IrStray.StrayFunction | src/compiler/compile.rs:1725-1752 | a function generates exactly when its body holds no stray jump |
| IrBrackets.ExprBalanced | src/compiler/compile.rs:487-501 | the code of every expression is well bracketed |
| IrBrackets.StmtBalanced | src/compiler/compile.rs:487-501 | the code of every statement is well bracketed |
| IrBrackets.FindSkips | src/compiler/ir.rs:70-220 | looking for a matching end or else skips every balanced stretch |
| IrMachine.NamedOpInverse | src/compiler/compile.rs:1679-1711 | each operator names one instruction and is named by it |
| IrMachine.FinalUnique | src/compiler/ir.rs:70-220 | a run of the structured machine has at most one end |
| IrRelation.TempKeeps | src/compiler/compile.rs:2460-2468 | writing the scratch local disturbs no variable |
| IrRelation.BindKeeps | src/compiler/compile.rs:136-147 | binding a name in the innermost scope keeps every other variable in its slot |
| IrRelation.WriteKeeps | src/compiler/compile.rs:599-605 | writing a variable changes that variable only |
| IrRelation.CalleeRel | src/compiler/ir.rs:70-220 | the callee's first locals are its arguments |
| IrSim.SimExpr | src/compiler/compile.rs:1073-1480 | running the code of an expression pushes the value its source run gives, or leaves by the same break, continue, return or throw |
| IrSim.SimLogic | src/compiler/compile.rs:1098-1131 | short circuit through the scratch local gives the operand the source gives, and the local is not live across the right operand |
| IrSim.SimCoalesce | src/compiler/compile.rs:1407-1421 | the machine keeps the left value exactly when it is not null |
| IrSim.SimIf | src/compiler/compile.rs:1229-1241 | the machine enters the branch the source enters and joins after it |
| IrSim.SimCall | src/compiler/compile.rs:1148-1206 | a call runs the linked code of the callee and comes back with its value |
| IrSim.SimBlock | src/compiler/compile.rs:1713-1723 | a block runs in its own scope; outer variables come back after it |
| IrSim.SimStmts | src/compiler/compile.rs:564-569 | a statement list runs as in the source and stops where the source stops |
| IrSim.WhileFrom | src/compiler/compile.rs:1877-1916 | every iteration of a while loop matches, and the loop leaves when the source leaves |
| IrSim.DoWhileFrom | src/compiler/compile.rs:955-978 | every iteration of a do-while loop matches |
| IrSim.LoopFrom | src/compiler/compile.rs:1918-1944 | every iteration of an endless loop matches |
| IrSim.SimJump | src/compiler/compile.rs:808-833 | break and continue land behind and at the head of the innermost loop |
| IrControl.IterJump | src/compiler/compile.rs:1877-1944 | inside an iteration a break ends behind the loop and a continue at its head, with the stack cut back |
| IrSteps.AbruptInside | src/compiler/ir.rs:70-220 | a jump out of a construct is a jump out of everything around it that it passes |
| IrTheorem.CompiledRuns | src/compiler/compile.rs:214-252 | for every program and every run of its compiled reading that ends without error, the compiled module ends with the same output, result and globals |
| IrTheorem.CompiledRunsOnly | src/compiler/compile.rs:214-252 | that end is the only one the machine has |
| ReadingsSame.SameExpr | src/syntax/interpreter.rs:5062-5281 | on a tame run an expression ends in the compiler's reading as in the interpreter: same outcome, same value where it is used, corresponding variables, same output |
| ReadingsSame.SameInvoke | src/syntax/interpreter.rs:4730-4881 | a call matches although the interpreter shows a function the top level and compiled code does not |
| ReadingsSame.SameBlock | src/syntax/interpreter.rs:4883-4926 | a block matches; only the value of a block without tail may differ, and only where nobody uses it |
| ReadingsSame.SameStmts | src/syntax/interpreter.rs:1305-1720 | a statement list matches on every tame run, for both compilers |
| ReadingsSame.SameWhile | src/syntax/interpreter.rs:1492-1551 | a while loop matches unless a jump leaves its condition; the compiled loop never ends by a jump |
| ReadingsSame.SameDoWhile | src/syntax/interpreter.rs:1596-1654 | the same for do-while, where a continue may skip a condition that is true and without effect |
| ReadingsSame.WriteSame | src/syntax/interpreter.rs:1340-1361 | assigning a variable changes corresponding variables; assigning a parameter is an error in the interpreter |
| ReadingsProgram.ProgramSame | src/syntax/interpreter.rs:1142-1296 | a tame run of a program without main has the same outcome, output and top-level variables in the compiler's reading |
| ReadingsProgram.CleanRuns | src/syntax/interpreter.rs:1142-1296 | every run of a clean program is tame: no scratch name, no jump free in a loop condition, no continue free in a do-while body, no used block or body without tail, no function that reads a changing top-level variable |
| ReadingsProgram.MainNotCalled | src/syntax/interpreter.rs:1168-1250 | a program of declarations with main: interpreter and compiled code agree if and only if init and main end normally, print nothing and leave the top-level variables alone |
| ReadingsLimits.BlockValue | src/syntax/interpreter.rs:4883-4926 | a block without tail has the same value in both if and only if its last statement, in the state the others leave, is given null (its operand is null), or there is none |
| ReadingsLimits.CallValue | src/syntax/interpreter.rs:4730-4881 | a call of a function without tail has the same value in both if and only if the body returned or its last statement is given null |
| ReadingsLimits.WhileCondition | src/syntax/interpreter.rs:1492-1551 | a while loop agrees if and only if no evaluation of its condition ends in a jump |
| ReadingsLimits.DoWhileCondition | src/syntax/interpreter.rs:1596-1654 | the same for do-while |
| ReadingsLimits.ContinueRound | src/compiler/compile.rs:955-978 | after a continue in a do-while both go on from corresponding states if and only if the condition, which compiled code skips, is true and changes nothing |
| ReadingsGlobals.StmtsKept | src/compiler/compile.rs:574-614 | code that holds no top-level let of x, under functions that assign no x, leaves the global x as it is, whatever it assigns at the top level |
| ReadingsGlobals.CalleeReads | src/syntax/interpreter.rs:4805-4812 | a called function reads the top-level variable in the interpreter and the global of that name in compiled code |
| ReadingsGlobals.StaleRead | src/compiler/compile.rs:574-614 | after let x = e and code that binds no further x and calls no function that assigns one, a function that reads x agrees if and only if x still has the value of that let; in bytecode, if and only if x has the value its global had before |
| ReadingsLimits.StrictOperator | src/compiler/bytecode.rs:559-560 | a logical operator that evaluates both operands agrees if and only if the deciding operand is a boolean and a right operand that is not needed ends normally without effect |
| IrTheorem.CompiledMatchesSource | src/compiler/compile.rs:214-252 | from the interpreter to the machine: for every tame run of a program without main the compiled module has exactly one end, with the interpreter's output, a trap exactly for an uncaught throw, and null as result |
| IrTheorem.CleanMatchesSource | src/compiler/compile.rs:214-252 | the same for clean programs, with no condition on the run |
| IrLimits.TaillessDiffers | src/compiler/compile.rs:1713-1723 | output { let x = 5 } prints 5 in the interpreter and null in every compiled module |
| IrLimits.ConditionBreakDiffers | src/compiler/compile.rs:1877-1916 | a break in an inner loop condition leaves the outer loop in the interpreter and the inner one in every compiled module |
| IrLimits.MainDiffers | src/compiler/compile.rs:214-252 | a program that only defines main prints in the interpreter and prints nothing in every compiled module |
| IrLimits.StaleDiffers | src/compiler/compile.rs:574-585 | a function that reads an assigned top-level variable sees the new value in the interpreter and the old one in every compiled module |
| IrLimits.RestartNeverEnds | src/compiler/compile.rs:955-978 | a continue in a do-while: the interpreter stops after one round; the compiled module has not ended after any number of steps |
| IrScratch.ScratchWrite | src/compiler/compile.rs:2460-2468 | a write of the scratch local keeps every variable except one of its own name, and that one if and only if the value written is the one it has |
| IrScratch.ClashGenerated | src/compiler/compile.rs:2460-2468 | the top-level code of a program that declares a variable called __temp |
| IrScratch.ScratchNameClashes | src/compiler/compile.rs:2460-2468 | that program prints 1 in the interpreter and 2 in every compiled module |
| IrRename.StmtSwapped | src/compiler/compile.rs:571-1068 | in code without logical operators and ?? the scratch name is a name like any other: exchanging it with another name changes no instruction |
| IrHarmless.EvalSwapped | src/syntax/interpreter.rs:5062-5281 | exchanging two variable names changes neither outcome nor output of the interpreter |
| IrHarmless.ScratchHarmless | src/compiler/compile.rs:214-252 | so a program without logical operators and ?? may use the scratch name: its compiled module does what the interpreter does |
| IrLabels.CompileProgram | src/compiler/compile.rs:487-501 | for every control form (if, &&, or, ??, all five loops, comprehensions, match, try, lambdas, tests): compiling fails exactly on a stray jump; otherwise every function closes all it opens and every branch resolves to the block or loop its shape names; `IrFlowTheorem` runs this code |
| IrLabels.Compiler.Emit | src/compiler/compile.rs:487-501 | an instruction that does what its mark says keeps the depth counter equal to the number of open constructs, so no subtraction saturates |
| IrLabels.Compiler.CompileWhile | src/compiler/compile.rs:1877-1916 | the labels of a while loop name its own block and loop |
| IrLabels.Compiler.CompileInfinite | src/compiler/compile.rs:1918-1944 | the labels of an endless loop name its own block and loop |
| IrLabels.Compiler.CompileDoWhile | src/compiler/compile.rs:955-978 | the labels of a do-while loop name its own block and loop |
| IrLabels.Compiler.CompileCFor | src/compiler/compile.rs:979-1008 | init outside, condition, body and update inside the loop context |
| IrLabels.Compiler.CompileFor | src/compiler/compile.rs:1754-1875 | the labels of a for loop name its own block and loop, whatever pattern it binds |
| IrLabels.Compiler.CompileComprehension | src/compiler/compile.rs:2186-2444 | the fixed labels 0 and 1 name the comprehension's own loop and block, and a jump inside the element names the loop around it |
| IrLabels.Compiler.CompileArms | src/compiler/compile.rs:1966-2071 | the counted ends of a match close exactly the conditionals its arms left open |
| IrLabels.Compiler.CompileArm | src/compiler/compile.rs:1969-2063 | each arm leaves its conditional open in the else part, guards included |
| IrLabels.Compiler.CompileTry | src/compiler/compile.rs:2074-2106 | try, dead handler and finally are well bracketed |
| IrLabels.Compiler.CompileLogic | src/compiler/compile.rs:1098-1131 | the branch of && and or leaves the inner of its two blocks |
| IrLabels.Compiler.CompileBreak | src/compiler/compile.rs:808-822 | break branches to the block of the innermost loop of the same function |
| IrLabels.Compiler.CompileContinue | src/compiler/compile.rs:824-833 | continue branches to the loop of the innermost loop of the same function |
| IrLabels.Compiler.CompileNested | src/compiler/compile.rs:542-560 | a lambda or test is compiled with no loop around it and the outer context comes back |
| IrNames.NamesUnique | src/compiler/compile.rs:804-2444 | no two constructs of a function share a name, so a branch target is one construct |
| IrBodies.BodiesOf | src/compiler/compile.rs:1283-1317 | the functions compiled with a part are exactly those defined anywhere in it, except behind a match arm that always matches |
| IrBodies.FunctionCompiled | src/compiler/compile.rs:1283-1317 | each function defined anywhere in a program has code of its own |
| IrTree.FlatGrow | src/compiler/compile.rs:804-2444 | the marks of every program are those of nested constructs, each loop with a branch to its head in front of its end |
| IrFlowTree.SourceWalk | src/compiler/compile.rs:804-2444 | running the nested constructs performs the acts of the source in the order of compiled code, for every construct, whatever the conditions turn out to be |
| IrFlowTree.RoundsWalk | src/compiler/compile.rs:955-1004 | a loop goes round after round: after its body, or a continue, control is at its head, until a condition or a break leaves it |
| IrFlowTree.ArmWalk | src/compiler/compile.rs:1966-2071 | an arm is taken where its test and guard hold, and else the arms nested behind it |
| IrFlowTree.TryWalk | src/compiler/compile.rs:2074-2106 | the handler is never entered, and the finally block follows a body that falls out of its end |
| IrFlowRun.LabelTarget | src/compiler/compile.rs:804-2444 | the construct that the label of a branch counts to is the one its mark names |
| IrFlowRun.RunAll | src/compiler/compile.rs:804-2444 | flat code read against the marks of nested constructs runs as these do, searching matching ends and elses and counting labels |
| IrFlowTheorem.CompiledFollows | src/compiler/compile.rs:564-2444 | every function that CompileProgram emits, run instruction by instruction, performs the acts of its source in the order of compiled code and ends behind its last instruction; where the rounds of the source go on, so does the machine |
| IrFlowTheorem.CompiledEnds | src/compiler/compile.rs:564-2444 | whatever run of such code ends is a run of the source, with the same acts and the same conditions used |
| IrFlowOrder.JumpsPass | src/syntax/interpreter.rs:1363-1594 | a run ends in a jump only where the text holds one for a loop around it, in compiled code and in the interpreter |
| IrFlowOrder.SameOrder | src/syntax/interpreter.rs:1363-2030 | without jumps in conditions and updates, without a continue that skips something, without arms behind a guarded test and without jumps over a finally block, compiled code keeps the interpreter's order, whatever the conditions turn out to be |
| IrFlowLimits.ForRoundAlike | src/syntax/interpreter.rs:1363-1490 | a round of a for loop is alike if and only if the body does not end in a continue |
| IrFlowLimits.CForRoundAlike | src/syntax/interpreter.rs:1553-1594 | a round of a C-style loop is alike if and only if the body does not end in a continue or the skipped update does nothing |
| IrFlowLimits.GuardAlike | src/syntax/interpreter.rs:5008-5052 | where a test holds and its guard fails, a match is alike if and only if the arms behind it do nothing |
| IrFlowLimits.TryAlike | src/syntax/interpreter.rs:1978-2030 | a try block is alike if and only if its body does not jump, or the skipped finally block does nothing but jump the same way |
| IrFlowLimits.ContinueStays | src/compiler/compile.rs:1857-1868 | for x in xs { continue }: the compiled code never goes on to the next element |
| IrFlowLimits.ContinueSteps | src/syntax/interpreter.rs:1363-1490 | in the interpreter that loop passes each of the elements and ends |
| BytecodeMachine.FetchEncoded | src/compiler/bytecode.rs:105-115 | fetching an encoded instruction gives it back if and only if its operand fits its bytes |
| BytecodeMachine.BytesFit | src/compiler/bytecode.rs:100-115 | every emitted number is a byte |
| BytecodeMachine.FinalUnique | src/compiler/bytecode.rs:486-637 | a run of the machine has at most one end |
| BytecodeCompiler.Compiler.AddName | src/compiler/bytecode.rs:438-444 | a name is stored once and keeps its index |
| BytecodeCompiler.Compiler.ResolveLocal | src/compiler/bytecode.rs:429-436 | the last declaration of a name wins |
| BytecodeCompiler.Compiler.PatchHere | src/compiler/bytecode.rs:400-418 | the current end of the code is written into the jump's operand, high byte first |
| BytecodeCompiler.Compiler.CompileExpr | src/compiler/bytecode.rs:315-426 | appends exactly the generated bytes and tables of an expression |
| BytecodeCompiler.Compiler.CompileIf | src/compiler/bytecode.rs:385-418 | forward jumps are patched to the else part and to the end |
| BytecodeCompiler.Compiler.CompileCall | src/compiler/bytecode.rs:364-373 | arguments left to right, then the name and their number |
| BytecodeCompiler.Compiler.CompileStmt | src/compiler/bytecode.rs:162-313 | appends exactly the generated bytes and tables of a statement |
| BytecodeCompiler.Compiler.CompileWhile | src/compiler/bytecode.rs:206-218 | the exit jump is patched behind the jump back |
| BytecodeCompiler.Compiler.CompileFunction | src/compiler/bytecode.rs:234-264 | a function goes to a chunk of its own; code, constants and locals come back, names stay shared |
| BytecodeCompiler.Compiler.Compile | src/compiler/bytecode.rs:154-160 | the chunk of a program is its statements followed by a stop |
| BytecodeSim.SimOperand | src/compiler/bytecode.rs:315-384 | an operand pushes its value and leaves the rest of the stack as it was |
| BytecodeSim.SimExpr | src/compiler/bytecode.rs:315-426 | any expression leaves its value on top and the first n slots holding the n locals |
| BytecodeSim.SimIf | src/compiler/bytecode.rs:385-418 | the condition stays under the value and the locals keep their slots |
| BytecodeSim.SimCall | src/compiler/bytecode.rs:612-637 | a call runs the callee on a stack of its arguments and comes back to the saved one |
| BytecodeSteps.GoMissing | src/compiler/bytecode.rs:612-637 | a call of a function that does not exist takes its arguments off the stack and leaves null |
| BytecodeSim.SimStmts | src/compiler/bytecode.rs:162-313 | at every statement boundary slot i holds local i, whatever junk lies above |
| BytecodeSim.SimWhile | src/compiler/bytecode.rs:206-218 | every iteration of a while loop matches although the condition is never popped |
| BytecodeSim.SimDoWhile | src/compiler/bytecode.rs:297-303 | every iteration of a do-while loop matches |
| BytecodeSim.SimFunction | src/compiler/bytecode.rs:234-264 | a function body returns the value the source returns |
| BytecodeRelation.RelBind | src/compiler/bytecode.rs:169-175 | a let puts its value in the next slot even over junk |
| BytecodeRelation.RelWrite | src/compiler/bytecode.rs:568-577 | storing a local changes one slot only |
| BytecodeTheorem.LinkedProgram | src/compiler/bytecode.rs:234-264 | every function of a compilable program has its code in the image |
| BytecodeTheorem.ByteCodeRuns | src/compiler/bytecode.rs:486-669 | for every program of the fragment and every run of its bytecode reading that ends, the machine ends with the same output, globals and returned value, calls and recursion included; an operator without a value, a missing function and a missing argument give null and the run goes on |
| BytecodeTheorem.ByteCodeRunsOnly | src/compiler/bytecode.rs:486-669 | that end is the only one the machine has |
| BytecodeTheorem.ByteCodeMatchesSource | src/compiler/bytecode.rs:486-669 | from the interpreter to the machine: for every tame run of a compilable program without main the machine has exactly one end, with the interpreter's output; tame means here that each deciding operand of a logical operator is a boolean and each right side that is not needed ends normally without effect |
| BytecodeVm.VM.ExecuteInner | src/compiler/bytecode.rs:486-637 | the fetch-execute loop reaches the state the step machine reaches; it gives up only when stuck or out of fuel |
| BytecodeVm.VM.CallFunction | src/compiler/bytecode.rs:612-637 | a call saves the stack, runs the body on its arguments and puts the result on the saved stack |
| BytecodeVm.VM.Simple | src/compiler/bytecode.rs:495-611 | each instruction without a call makes the step of the machine |
| BytecodeVm.VM.PopArguments | src/compiler/bytecode.rs:612-622 | the arguments are the top of the stack in order; an empty stack supplies null |
| BytecodeVm.EnoughFuel | src/compiler/bytecode.rs:486-637 | with enough fuel a run that ends is found |
| BytecodeSim.SimLeft | src/compiler/bytecode.rs:315-384 | a conditional as left operand is harmless: its value is on top, and the condition under it is never popped |
| BytecodeSim.SimFirst | src/compiler/bytecode.rs:364-373 | the same for a conditional as first argument |
| BytecodeLimits.RightBranch | src/compiler/bytecode.rs:385-418 | a conditional with operand parts as right operand, for every operand on the left: the machine applies the operator to condition and value, the interpreter to left operand and value, so they agree if and only if that gives the same |
| BytecodeLimits.BranchOperandWrong | src/compiler/bytecode.rs:385-418 | one such program, compiled whole: the machine prints what the operator gives for the condition |
| BytecodeLimits.BreakIgnored | src/compiler/bytecode.rs:277-279 | while true { break } ends at once in the interpreter and has not ended after any number of machine steps |
| BytecodeLimits.FailingOperator | src/compiler/bytecode.rs:509-541 | output 1 / 0 is an error in the interpreter, and the machine goes on and prints null |
| BytecodePlain.StmtSame | src/compiler/bytecode.rs:162-313 | a statement has the bytecode of its plain form, in which jumps are left out, throw is return, and blocks, ?? and loop are null |
| BytecodePlain.MachineRunsPlain | src/compiler/bytecode.rs:486-669 | whatever constructs a program uses, the machine ends as the plain form of the program does |
| BytecodePlain.ThrowReturns | src/compiler/bytecode.rs:273-276 | a throw in a called function: the interpreter ends by it and prints nothing, the machine goes on with the thrown value and prints it |
| BytecodeUnreached.StmtsRun | src/compiler/bytecode.rs:162-313 | where a run meets no jump, throw, block expression, ??, loop or tail of a loop body, the plain form of the statements runs as they do |
| BytecodeUnreached.UnreachedMatchesSource | src/compiler/bytecode.rs:486-669 | so for every tame run without main that meets none of these, whatever else stands in the program, the machine has exactly one end, with the interpreter's output |
| BytecodeLimits.EndOfBody | src/compiler/bytecode.rs:249-258 | what a body without tail returns depends on its last byte |
| RegexSim.AddState | src/util.rs:4001-4048 | marks exactly the states reachable over epsilon moves and assertions |
| RegexSim.Advance | src/util.rs:3921-3950 | one character takes the exact state set to the exact state set |
| RegexSim.FixUp | src/util.rs:3975-3990 | the loop at the end of the text adds no state |
| RegexSim.MatchAt | src/util.rs:3898-3993 | the end returned is the greatest at which an accepting path ends; None exactly when there is none |
| RegexCompiler.Compiler.ApplyQuantifier | src/util.rs:4329-4383 | a quantifier rewrites the last state only |
| RegexCompiler.Compiler.ParseClass | src/util.rs:4399-4440 | reading a bracket class of single characters and spans, a hyphen at either end included, gives its ranges and negation back |
| RegexCompiler.Compiler.CompileChar | src/util.rs:4155-4212 | one character item becomes its code |
| RegexCompiler.Compiler.CompileAlt | src/util.rs:4107-4214 | one alternative becomes its code, in place |
| RegexCompiler.Compiler.CompileGroup | src/util.rs:4110-4153 | a group with or without a quantifier becomes its code, read up to its closing parenthesis and quantifier |
| RegexCompiler.Compiler.CloseGroup | src/util.rs:4149-4153 | a quantifier after a group rewrites the last state of the group's code |
| RegexCompiler.Compiler.ScanAlternatives | src/util.rs:4217-4228 | the look-ahead finds a bar at its own level exactly when there is one |
| RegexCompiler.Compiler.CompileEach | src/util.rs:4238-4255 | alternatives are compiled one after the other and their ranges recorded |
| RegexCompiler.Compiler.MoveAll | src/util.rs:4260-4326 | the chain of splits and the relocated alternatives are the code of the alternation |
| RegexCompiler.Compiler.CompileSeq | src/util.rs:4105-4327 | a sequence of alternatives becomes the code of the alternation, whatever states came before |
| RegexCompiler.CompilePattern | src/util.rs:4089-4103 | for every expression of the fragment, quantified groups included, compiling its text gives its automaton; for every pattern at all, no state has a target out of range |
| RegexMove.MoveSeq | src/util.rs:4285-4326 | relocating code rewrites every target to the place its own code has there |
| RegexText.ScanFinds | src/util.rs:4217-4228 | the printed text of an alternation has a bar at its level exactly when it has two alternatives |
| RegexExact.StarExact | src/util.rs:4345-4360 | the states of x* accept exactly the repetitions of x |
| RegexExact.AltsExact | src/util.rs:4260-4326 | split chain and bodies accept exactly what one alternative accepts |
| RegexExact.CompiledExact | src/util.rs:4089-4397 | for every expression of the fragment whose quantifiers stand on single characters, in a group or not, every text and place: the automaton accepts a stretch if and only if the expression denotes it |
| RegexScan.Find | src/util.rs:3762-3770 | the match found starts at the least place that has one |
| RegexScan.FindAll | src/util.rs:3772-3784 | all matches from the front, with a step forward after an empty one |
| RegexScan.AllOrdered | src/util.rs:3772-3784 | the matches are ordered and do not overlap |
| RegexScan.AllComplete | src/util.rs:3772-3784 | every place that has a match is in the list or inside a match of the list |
| RegexScan.Replace | src/util.rs:3787-3811 | replacement from the front is the recursive replacement |
| RegexScan.Split | src/util.rs:3882-3896 | the parts are the stretches between the matches |
| RegexScan.SplitRebuilds | src/util.rs:3882-3896 | parts and matches interleaved rebuild the text |
| RegexScan.SplitJoinIsReplace | src/util.rs:3787-3896 | for every automaton, text and separator: joining the parts with it is replacing the matches by it |
| RegexTheorem.MatchPattern | src/util.rs:3898-4397 | from text to match: for every expression of the fragment whose quantifiers stand on single characters, compiling its text and simulating finds the longest stretch it denotes, and nothing exactly when it denotes none |
| RegexMeaning.EscapeMeans | src/util.rs:4443-4470 | \d, \w and \s match the digits, the word characters and the blanks, \D, \W and \S all others, \n, \t, \r and \0 their control characters, and any other escape its own character |
| RegexMeaning.ShapeMeans | src/util.rs:4060-4078 | a character, a dot, an escape and a bracket class match exactly the characters they are written for |
| RegexMeaning.AnchorMeans | src/util.rs:3990-4085 | ^ holds with nothing before it, $ with nothing behind it, \b where a word is on exactly one side, \B elsewhere |
| RegexMeaning.PlusFinds | src/util.rs:3898-4397 | x+ finds from a character of x the whole run up to the first that is none, and nothing anywhere else |
| RegexMeaning.Digits | src/util.rs:3898-4470 | the text \d+, compiled and simulated, finds the maximal run of the characters 0 to 9 |
| RegexGroups.RunsInto | src/util.rs:4329-4383 | an alternative other than the last runs into the two states of the group's last character |
| RegexGroups.QuantifiedGroup | src/util.rs:4149-4383 | the automaton of a quantified group accepts exactly what its rebound alternatives denote: the last character takes the quantifier, the other alternatives run into it |
| RegexRepeat.GroupRepeats | src/util.rs:4149-4383 | a group of plain alternatives under * or ? is repeated if and only if its last alternative is one character and every other one never matches or, under *, has only characters of the last |
| RegexRepeat.PlusRepeats | src/util.rs:4149-4383 | a one-alternative group of plain characters under + is repeated if and only if it is one character or never matches |
| RegexRepeat.PlusGroupRepeats | src/util.rs:4149-4383 | a group of any number of plain alternatives under +: if it is repeated, every alternative never matches or has only characters of the last character; if its last alternative is one character, that is also enough |
| RegexRepeat.StarredPair | src/util.rs:4149-4383 | the pattern (ab)* as written: its automaton rejects the empty text, which the repetition allows |
| OptimizerPasses.FoldExpr | src/optimizer.rs:303-730 | the in-place pass computes the folded expression |
| OptimizerPasses.FoldBlockIn | src/optimizer.rs:284-301 | statements after the first break, continue, return or throw are cut off |
| OptimizerPasses.FoldStatement | src/optimizer.rs:180-281 | the pass over statements computes the folded statement |
| OptimizerPasses.TrimBlockIn | src/optimizer.rs:57-66 | dead code after a terminator is cut off in nested blocks too |
| OptimizerPasses.OptimizeProgram | src/optimizer.rs:15-66 | the three passes in order; the result is in normal form: every operator on literals that has a value is computed, no identity and no double negation is left, no condition is constant, and no statement stands behind a jump in a folded block |
| OptimizerNormal.FoldsTo | src/optimizer.rs:755-910 | two literals fold wherever the operator has a value within 64 bits, and to that value; division cuts toward zero |
| OptimizerNormal.FoldNormal | src/optimizer.rs:303-730 | folding any expression gives the normal form |
| OptimizerNormal.OptimizeNormal | src/optimizer.rs:15-66 | the normal form is kept by the other passes |
| OptimizerNormal.BodyTrimmed | src/optimizer.rs:31-66 | dead-code removal leaves nothing behind a jump in any block |
| OptimizerNormal.LeftoverExactly | src/optimizer.rs:303-730 | a comparison with a boolean literal leaves something to do exactly where it is rewritten to the negation of a literal or of a negation |
| OptimizerNormal.NegationStays | src/optimizer.rs:303-730 | 5 == false keeps the negation of a literal, which another run would compute |
| OptimizerNormal.FunctionsTwice | src/optimizer.rs:15-66 | what a function body leaves, the fold after dead-code removal computes |
| OptimizerPasses.OptimizeShrinks | src/optimizer.rs:15-66 | the number of nodes never grows |
| OptimizerTyping.EvaluatorSuits | src/bin/magi.rs:595-640 | the operators of the repository's evaluator, with ordering of strings, equality of any two values and string multiplication, are among those the theorems allow |
| OptimizerSound.BinaryRefines | src/optimizer.rs:759-875 | folding two literals, the identities and the comparisons keep value and effects, unless a constant boolean is compared with a non-boolean, or a non-boolean that does not decide stands left of a constant true in && or a constant false in or |
| OptimizerSound.UnaryRefines | src/optimizer.rs:881-908 | folding an operator on a literal keeps its value |
| OptimizerSound.DoubleNegation | src/optimizer.rs:560-574 | removing a double negation keeps the value |
| OptimizerSound.BranchRefines | src/optimizer.rs:344-375 | choosing the branch of a constant condition keeps outcome and state |
| OptimizerSound.CutRefines | src/optimizer.rs:284-301 | cutting after a jump keeps outcome and state |
| OptimizerSound.FoldRefines | src/optimizer.rs:303-730 | folding keeps every run without error that meets neither of these nor a !! on a non-boolean |
| OptimizerSound.TrimBodySame | src/optimizer.rs:31-66 | dead-code removal changes no run at all: same outcome, value and state for all operators, errors included |
| OptimizerSound.TrimBlockRefines | src/optimizer.rs:31-66 | dead-code removal also keeps the runs the other passes speak of |
| OptimizerSound.OptimizeKeepsMeaning | src/optimizer.rs:15-66 | for every run without error, with or without main, in which no constant boolean is compared with a non-boolean, no non-boolean that does not decide stands left of a constant true in && or a constant false in or, and no ! that may come directly below another is applied to a non-boolean: the interpreter ends the optimized program with the same outcome, value, variables and output |
| OptimizerSound.OptimizeRefines | src/optimizer.rs:15-66 | the optimizer keeps every such run of a statement list under every set of functions |
| OptimizerLimits.ComparedRight | src/optimizer.rs:657-710 | x == b and x != b for a boolean literal: the rewriting to x or !x is right if and only if x is a boolean, or the result is !x and x is truthy exactly where the operator is == |
| OptimizerLimits.LogicalRight | src/optimizer.rs:612-640 | x && true and x or false: the rewriting to x is right if and only if x is a boolean or decides the operator |
| OptimizerLimits.LogicalLeft | src/optimizer.rs:612-640 | true && x and false or x: the rewriting to x is right for every x |
| OptimizerLimits.NegationRight | src/optimizer.rs:560-574 | !!x: the rewriting to x is right if and only if x is a boolean |
| OptimizerLimits.IdentityRight | src/optimizer.rs:576-611 | x + 0, x * 1 and the like: the rewriting to x is right if and only if the operation does not fail |
| OptimizerLimits.ComparisonChanges | src/optimizer.rs:657-710 | output 5 == true prints false, and 5 when optimized |
| OptimizerLimits.LogicalChanges | src/optimizer.rs:612-640 | output 5 && true prints true, and 5 when optimized |
| Blake3.ParentBlock | src/util.rs:2811-2818 | writing two chaining values as bytes and reading the words back gives them |
| Blake3.LeftLen | src/util.rs:2752-2885 | the left subtree of section 2.1 of the BLAKE3 paper: the largest power of two below the count |
| Blake3.Merged | src/util.rs:2806-2837 | a complete left part and a right part no larger make the tree over both |
| Blake3.TopIsEqual | src/util.rs:2806-2837 | while the chunk count is even the top of the stack has the size of the subtree in hand |
| Blake3.HashChunk | src/util.rs:2770-2804 | the chaining value of a chunk, with start, end and root flags on the right blocks |
| Blake3.MergeUp | src/util.rs:2806-2841 | the merge loop keeps the stack a list of complete subtrees of decreasing size |
| Blake3.Finish | src/util.rs:2845-2875 | the final loop folds the stack into the root |
| Blake3.Hash | src/util.rs:2753-2885 | for every input and compression function the result is the root of the left-balanced tree, with the root flag on the top node only; the fallback is unreachable |
| Blake3Parts.ChunksJoin | src/util.rs:2756-2763 | the chunks joined are the input in order, every chunk but the last has 1024 bytes, and the last is empty only for empty input |
| Blake3Parts.BlocksJoin | src/util.rs:2770-2804 | the blocks of a chunk joined are the chunk, every block but the last has 64 bytes, and there are at most 16 |
| Blake3Parts.WordsOfBlock | src/util.rs:2729-2740 | words are little-endian, and zero behind the end of a short block |
| Blake3Parts.BytesOfWord | src/util.rs:2866-2885 | the result is written word by word, least significant byte first |
| Blake3Parts.FlagValues | src/util.rs:2770-2804 | the flags of a block are 1 on the first, 2 on the last and 8 on the last of the root |
| Blake3Parts.ChunkSteps | src/util.rs:2770-2804 | the first block starts from the constants, every other from the value before it |
| Blake3Parts.ShortInput | src/util.rs:2753-2804 | up to 64 bytes: one call with the constants, counter 0 and flags 11 |
| Blake3Parts.TwoChunks | src/util.rs:2806-2885 | two chunks: their chaining values with counters 0 and 1 under a parent with flags 12 |
| Lz4.PieceDecoded | src/util.rs:5164-5232 | a written sequence decodes to its literals and its copy, whatever follows, or is refused if the size does not admit its end |
| Lz4.LastDecoded | src/util.rs:5151-5161 | the last literals decode to themselves |
| Lz4.PiecesDecoded | src/util.rs:5103-5232 | a list of sequences decodes to its text if the size admits its end, and is refused otherwise |
| Lz4.CopyRepeats | src/util.rs:5118-5126 | a stretch that agrees with itself some places back is what the copy produces |
| Lz4.CopyPeriod | src/util.rs:5220-5225 | copied bytes repeat with the offset as period |
| Lz4Codec.CopyMatch | src/util.rs:5216-5225 | the overlapping copy through a remainder is the byte-by-byte copy |
| Lz4Codec.DecompressBlock | src/util.rs:5164-5232 | the decoder loop terminates on every input, stays in range and gives the result or the error of the format |
| Lz4Codec.DecompressSizePrepended | src/util.rs:5092-5101 | short input and claimed sizes over 256 MiB are errors |
| Lz4Codec.DecodeBounded | src/util.rs:5164-5232 | on arbitrary bytes the output is at most 255 times the bytes read |
| Lz4Codec.MatchLength | src/util.rs:5118-5126 | the match is extended as far as the texts agree |
| Lz4Codec.CompressBlock | src/util.rs:5103-5162 | the block decodes to the input under exactly the sizes that admit the end of its last copy, and is at most n + n/255 + 2 bytes |
| Lz4Codec.CompressPrependSize | src/util.rs:5084-5089 | for every input: the size in front is taken modulo 2^32; decoding refuses it over 256 MiB, refuses the text if its last copy ends more than 1024 bytes behind that size, and gives the input otherwise |
| Lz4Codec.RoundTrip | src/util.rs:5084-5101 | for every input: decompressing gives it back if and only if the size modulo 2^32 is at most 256 MiB and admits the end of the last copy; below 2^32 bytes, if and only if it is at most 256 MiB |
| Lz4Format.BlockDecoded | src/util.rs:5164-5232 | any block of sequences and final literals, whoever wrote it, decodes to its text if the size admits its copies, and is refused otherwise |
| Lz4Format.DecodedExactly | src/util.rs:5164-5232 | the bytes that are decoded are exactly such blocks, each to its text |
| Calendar.YearFound | src/util.rs:1348-1354 | the year formula gives a year of the era and a day of that year, the 366th only in leap years |
| Calendar.DaysRoundTrip | src/util.rs:1348-1380 | every day number gives a valid date that converts back to it |
| Calendar.DateRoundTrip | src/util.rs:1348-1380 | every valid date comes back from its day number |
| Calendar.NextDay | src/util.rs:1369-1380 | the day number of the next date is one more |
| Calendar.Successor | src/util.rs:1348-1362 | the next day number is the Gregorian successor of the date |
| Calendar.CopiesAgree | build.rs:53-65 | the copies for certificates and in the build script agree with it |
| Timestamp.DateRead | src/util.rs:1412-1451 | a formatted date reads back; one before year 0 splits into four parts |
| Timestamp.TimeRead | src/util.rs:1440-1507 | a formatted time with its zone reads back |
| Timestamp.TimestampRoundTrip | src/util.rs:1400-1507 | for every 64-bit count of milliseconds: parsing its formatted text gives it back if and only if its year is not negative |
| Timestamp.ZoneRead | src/util.rs:1436-1489 | a time with an offset of hh:mm is the time without it less hh:mm, and Z changes nothing |
| Timestamp.OffsetShifts | src/util.rs:1400-1507 | a date and time with an offset are the instant of the same text without it less the offset |
| Timestamp.DateAlone | src/util.rs:1416-1427 | a date alone is midnight in UTC |
| Timestamp.SpaceRead | src/util.rs:1428-1433 | a space may stand for the T |
| Timestamp.MinutesRead | src/util.rs:1450-1463 | a time may leave out its seconds |
| Timestamp.FractionRead | src/util.rs:1491-1509 | the first three digits of a fraction count, as thousandths |
| JsonText.Writer.WriteString | src/util.rs:6621-6635 | a string is written with its escapes |
| JsonText.Writer.Write | src/util.rs:6587-6619 | the writer appends the text of the value, compact or pretty |
| JsonParser.Parser.ReadString | src/util.rs:6421-6498 | string reading with escapes, surrogate pairs and their errors |
| JsonParser.Parser.ReadNumber | src/util.rs:6500-6534 | sign, digits, fraction and exponent; signed, unsigned or float |
| JsonParser.Parser.ReadArray | src/util.rs:6536-6549 | items up to the closing bracket |
| JsonParser.Parser.ReadObject | src/util.rs:6551-6571 | members up to the closing brace, collected in the insertion-ordered map |
| JsonParser.Parser.ReadOne | src/util.rs:6391-6407 | one value at a depth of at most 128; the recursion ends because the position moves |
| JsonParser.Parse | src/util.rs:6376-6387 | the whole input is one value |
| JsonRoundTrip.StringRead | src/util.rs:6421-6635 | every string reads back from its escaped text |
| JsonRoundTrip.NumberRead | src/util.rs:6338-6534 | every integer reads back, an unsigned one that fits as a signed one |
| JsonRoundTrip.OneRead | src/util.rs:6391-6619 | every written value reads back at any depth that admits it, whatever follows |
| JsonRoundTrip.ReadSame | src/util.rs:6301-6320 | what is read back is equal under the source's number equality |
| JsonRoundTrip.RoundTrip | src/util.rs:6376-6635 | for every float-free value with distinct keys, compact or pretty text parses to an equal value if and only if the nesting is at most 128 |
| JsonGrammar.StringMeans | src/util.rs:6421-6498 | every string text stands for its characters: short escapes, hexadecimal numbers in either case, surrogate pairs, and an unknown escape as its two characters |
| JsonGrammar.FigureRead | src/util.rs:6500-6534 | a number with or without fraction and exponent has its value, signed where it fits, else unsigned, else a float; one without a digit or too far below zero is refused |
| JsonLanguage.TextMeans | src/util.rs:6376-6571 | any text of the grammar, with blanks anywhere, has its value at a depth of at most 128 and is refused beyond |
| JsonLanguage.Language | src/util.rs:6376-6571 | the parser gives a value exactly to the texts of the grammar that have that value, up to the depth limit |
| Csv.Write | src/util.rs:2997-3011 | header and rows are joined with commas and newlines |
| Csv.ParseLine | src/util.rs:2895-2924 | the look-ahead for doubled quotes computes the fields |
| Csv.SplitLines | src/util.rs:2927-2962 | quote toggling computes the lines; empty ones are dropped |
| Csv.Parse | src/util.rs:2971-2982 | the first line is the header |
| Csv.ParseNoHeaders | src/util.rs:2985-2988 | every line is a row |
| Csv.DoubledStays | src/util.rs:2927-2962 | inside quotes a doubled text never ends a line |
| Csv.RowRead | src/util.rs:2895-2995 | the fields of a written row read back |
| Csv.RowsRead | src/util.rs:2895-3011 | reading written rows gives exactly those that are neither empty nor one empty field |
| Csv.RoundTrip | src/util.rs:2895-3011 | header and rows come back if and only if none is lost, or there is nothing at all |
| Csv.ReturnsIgnored | src/util.rs:2927-2962 | lines that end in a carriage return and a line feed read as those that end in a line feed |
| CsvQuotes.LineFields | src/util.rs:2895-2924 | in any line, a comma separates exactly where an even number of quotes stand before it, and of quotes only the first of two inside quotes belongs to a field |
| CsvQuotes.TextLines | src/util.rs:2927-2962 | in any text, a line feed ends a line exactly where an even number of quotes stand before it |
| CsvQuotes.FieldCount | src/util.rs:2895-2924 | a line has one field more than commas outside quotes |
| Levenshtein.EditDistance | src/util.rs:365-388 | two swapped rows compute the recursive distance |
| Levenshtein.NoShorterScript | src/util.rs:365-388 | no edit script is shorter than the distance |
| Levenshtein.ShortestScript | src/util.rs:365-388 | some edit script is as short |
| Levenshtein.Symmetric | src/util.rs:365-388 | the distance is symmetric |
| Levenshtein.Triangle | src/util.rs:365-388 | the distance satisfies the triangle inequality |
| Levenshtein.ZeroMeansEqual | src/util.rs:365-388 | distance 0 means equal texts |
| OrderedMap.OrderedMap.Insert | src/util.rs:3427-3436 | a known key keeps its place and its old value is returned; a new one goes to the end |
| OrderedMap.OrderedMap.Get | src/util.rs:3438-3441 | the value of the association list |
| OrderedMap.OrderedMap.ContainsKey | src/util.rs:3452-3455 | the index tells whether the association list has the key |
| OrderedMap.OrderedMap.Remove | src/util.rs:3457-3467 | the entry goes, later ones move up, and the index follows |
| OrderedMap.OrderedMap.Retain | src/util.rs:3507-3528 | filtering from the back with changed values; nothing stale stays in the index |
| OrderedMap.OrderedMap.SortBy | src/util.rs:3530-3535 | a stable rearrangement with the index entered again |
| OrderedMap.OrderedMap.Extend | src/util.rs:3501-3505 | insertion one by one |
| OrderedMap.OrderedMap.OrInsert | src/util.rs:3621-3634 | the entry is added only when missing |
| OrderedMap.OrderedMap.Run | src/util.rs:3402-3540 | after any sequence of operations the keys are distinct, the index is the position map, and answers and entries are those of an association list |
| OrderedMap.PutThenLookup | src/util.rs:3427-3441 | after an insertion the key has the new value and every other key its old one |
| OrderedMap.WithoutThenLookup | src/util.rs:3457-3467 | after a removal the key is gone and every other key is as before |
| OrderedMap.SortedOrdered | src/util.rs:3530-3535 | sorting by a total order gives an ordered list |
| OrderedMap.SortedStable | src/util.rs:3530-3535 | entries that compare equal keep their order |
| Registry.Registry.PushDependencies | src/registry.rs:149-169 | a checked constraint that fails is reported; otherwise every dependency is pushed |
| Registry.Registry.ResolveDependencies | src/registry.rs:141-176 | terminates on cyclic graphs; lists every reachable registered package exactly once; an error exactly when a reachable package has a failing constraint |
| Registry.AllVisited | src/registry.rs:146-175 | with an empty stack everything reachable has been visited |

## Left out

- Values of for loops, C-style for, match, comprehensions, try, lambdas, destructuring, field and index access and string interpolation: `IrShape` and `IrFlow` model their control only, that is, which acts are performed in which order; the meaning theorems do not cover them.
- Deferred expressions, labelled jumps, source maps, `embed` and spread arguments are not modelled in the IR compiler.
- IrCompiler.Compiler.Compile: stated for a compiler whose table of globals is empty, as a new one is, because `compile` does not reset that table; what becomes of the slots otherwise is in `IrReuse`, the code of a whole second program is not.
- Code of the built-in functions: a parameter of registration and of the theorem; a call to a name that is no program function is outside the runs considered.
- Local value types, exported flags and rest parameters of IR functions, which have no effect in the modelled fragment.
- NaN-boxing of tagged values, 32-bit indices and the 64-bit operators themselves: operators are shared parameters of source and machine; the optimizer's runs use checked 64-bit arithmetic.
- Runs of the interpreter that end in an error, in the theorems that compare with it, and runs of the optimizer's and the IR compiler's reading that do; what bytecode does with a failing operator, a missing function or a missing argument is modelled.  The interpreter's limits on iterations, call depth, nesting, names and variables are errors of this kind.
- Constants: `const` is modelled as `let`, so the interpreter's error for assigning a constant is not modelled; that for assigning a parameter is. Function definitions inside blocks change the interpreter's table of functions while it runs and count as errors.
- Calls of functions through variables, default and rest parameters, async functions, and the collecting of several errors in one run.
- Fuel: the evaluator stops after a given number of loop iterations and calls; every theorem is stated for all fuels, so only endless runs are not spoken of.
- In bytecode, for the theorems about whole programs: programs with let inside nested blocks, conditionals as right operands or later arguments, loop bodies with a tail expression, array and map literals, 256 locals or more, or 65536 bytes of code or more.
- In bytecode: for loops, compound assignment and method calls.
- In regexes: lookaround, captures and named groups, case folding, Unicode properties, POSIX class names, and escaped or bracketed parentheses and bars.
- RegexCompiler.CompilePattern: states the code only for patterns that print an expression of the fragment; a quantifier on a group without content, which the source applies to whatever state came before, is outside it.
- RegexRepeat.PlusGroupRepeats: for several alternatives under `+` whose last one has two characters or more, the condition is necessary only; the accepted language is in `RegexGroups.QuantifiedGroup`, and whether it is the repetition depends on the sums of the alternatives' lengths, as `(aa|aaa)+` shows.
- Quantified regex groups with empty parts, with groups or with quantifiers inside: no condition for repetition, and for some of them no theorem on the accepted language.
- OptimizerSound.OptimizeKeepsMeaning: a comparison of a constant boolean with a non-boolean is outside the theorem even where it is rewritten to a negation that happens to be right; `OptimizerLimits.ComparedRight` has the exact condition.
- In the optimizer: floats, unrolling, and the marking of tail calls and inlinable functions, which does not change the tree.
- The compression rounds of BLAKE3: any compression function is allowed.
- Overflow of 64-bit day and millisecond arithmetic on parsed dates far outside the calendar range; time of day in the certificate copy of the calendar.
- Timestamps and JSON are modelled on characters, not on UTF-8 bytes; trimming removes ASCII blanks.
- JSON floats are kept as their text; their printing and parsing are not part of the round trip.
- OrderedMap.OrderedMap.SortBy: the library's sort is modelled by a stable insertion; the filter of `retain` is a function of key and value without state of its own.
- Writing through the references that `get_mut`, `iter_mut` and `entry` return, and the remaining read-only views of the map.
- Parsing of versions and constraints in the registry: whether a version is rejected by a constraint is a parameter.
- TOML, YAML, X.509, zstd, base64, hashes other than BLAKE3, networking, file-system code, the LLVM, WASM and WebGPU back ends: either input and output, or easier than what is modelled.
