# BLang compiler: a verified model

BLang is a compiler written in C++. This project models the parts of it whose correctness is
hardest to see from one function at a time, and proves what they are for:

* **Reference counting and control flow of emitted code** (`Source`, `Machine`, `Lowering`,
  `Legality`, `CodeGen`, `Theorems` and the files between them; `Hazards`, `Leaks` and
  `StuckPrograms` have the cases in which the counts go wrong). A source fragment with string
  and integer locals, `own` moves, calls, nested blocks, `if`, `while`, range `for`, infinite
  `for`, `break`, `continue` and `return` is lowered to basic blocks by a function of the code
  generator's compile-time state; the class `CodeGen` performs the same emission by updating
  its fields. A machine with counted strings runs the blocks and gets stuck on every use or
  release of a string whose count is zero, every read of a register or slot not written on the
  path taken, and every run off a block. Proved for all runs of all legal programs: never stuck,
  nothing leaks, same results and same divergence as the source program. The compiler accepts
  programs that are not legal, and some of them do get stuck or leak. `Hazards` follows the
  emitted code of each excluded form up to the point at issue and says, as an equivalence on the
  state reached there, when it goes on safely; `StuckPrograms` has seven compiled programs that
  get stuck. `PlainPrograms` checks by the text alone that a program without own variables is
  legal; `Rejection` shows that the generator's error for moves in loops is a property of the
  text, and what code that passes it means; `Words` has the laws of the wrapping integers.
* **Temporaries** (`TempConfinement` about the emitted text of a whole function,
  `ConditionRuns` about runs of `&&` and `||`, `MatchArms` about the arms of a match that yields
  a string), **the seven scope stacks** (`ScopeStacks`), **enum
  payload layout** (`EnumLayout`) and **enum payload ownership** (`EnumOwnership` about the
  generated walks, `EnumReferences` about the references that the values hold).
* **The lexer's replay buffer** (`Lexer`) and what rests on it: types printed, scanned and
  parsed back through in-place `>>` splits (`TypeText`), deferred function bodies and
  panic-mode recovery (`Recovery`).
* **Precedence climbing** (`Precedence`), **generic types** (`GenericTypes`), **format
  strings** (`FormatStrings`), **SQL placeholders** (`SqlPlaceholders`) and **string
  interpolation** (`Interpolation`).

Where the code works by updating state, the model is a class or a method with loops, and each
such method is proved equal to a specification function whose properties are then proved as
lemmas. `dafny verify dfyconfig.toml` checks everything.

Properties that turn out not to hold of the code have the exact condition beside them:
`EnumLayout.LayoutAgrees` (with `ErasedPairDisagrees`), `SqlPlaceholders.SelectAligned` (with
`FirstAfterLimit`), `EnumReferences.WalkIsExact` (with `PlainEnumIsReleased`) and
`EnumReferences.ErasedWalkIsExact` (with `BoxedOptionLeaks`), `Interpolation.ReadsBack` (with
`HiddenReference`), the equivalences of `Hazards` (with `StuckPrograms` and `Leaks.BreakLeaks`),
and four in `Precedence`:

* `ParseIsCorrect` has the condition `Ended`: a field access directly before `(` is read as a
  method call (`FieldBeforeParenthesis`).
* The scanner's code for `..` is 33, which is also that of the character `!`
  (FileLexer.h:56-90), so `Precedence.Token` has one code for both. `ReadsAsMeant` says exactly
  when that does no harm: up to the token after the expression, `!` stands only where an operand
  is expected and `..` only where an operator is (`BangReadsAsRange`, `RangeReadsAsBang`).
* `|>` is documented as the loosest binary operator (plan.md:59 and the comment at
  QExpression.cpp:849-850), but its right operand is a primary and any operator may follow it, so
  `a |> b + c` is `(a |> b) + c` (`PipeThenPlus`). `PipesAsDocumented` has the exact condition.

Run-time input is a parameter everywhere: `Machine` starts from any heap and any argument
strings the caller may hold; parsers take any symbol stream; `Recovery` takes any statement or
declaration parser that makes progress.

## Model

| member | source | states |
|---|---|---|
| Theorems.NeverStuck | CodeGen.cpp:1003-1114 | for every program and every set of its functions that are legal and call only each other, every call of one of them and every number of steps, the emitted code never uses or releases a dead string, never reads an unwritten register or slot, never leaves a block |
| Theorems.NothingLeaks | CGStatements.cpp:523-736 | when a call of a legal program returns in which no jump leaves a scope with strings, branches move alike, and no body ends owning a parameter, every string's count is the number of outside references, plus one for the result |
| Theorems.SameResults | CGStatements.cpp:738-841 | a source call yields a value if and only if the emitted code halts with that value |
| Theorems.SameDivergence | CGStatements.cpp:996-1110 | a source call diverges if and only if the emitted code runs forever |
| Theorems.Follow | CodeGen.cpp:504-1001 | with fuel n the emitted call has returned the source's value with an exact account, or is still running after n - 1 steps |
| Simulation.SimS | CGExpressions.cpp:47-100 | code of a string expression reaches its end holding the source value, keeping the ownership invariant |
| Simulation.SimCall | CGExpressions.cpp:407-475 | a call runs its arguments, transfers the moved ones, runs the callee and owns one reference to the result |
| Simulation.SimInvoke | CodeGen.cpp:766-1001 | one function call from entry to return, parameters borrowed or owned by qualifier |
| Simulation.SimLogic | CGExpressions.cpp:485-553 | short-circuit code computes the condition and evaluates the right side only when the source does |
| Simulation.SimDecl | CGStatements.cpp:272-426 | an initialised string local ends up owning exactly one reference: by copy with retain, by move, or by adopting a temporary |
| Simulation.SimAssign | CGExpressions.cpp:745-846 | assignment from a temporary or by move keeps the account and stores the source value |
| Simulation.SimReturn | CGStatements.cpp:523-736 | a return hands one reference to the caller and releases all that the function holds |
| Simulation.SimIf | CGStatements.cpp:738-795 | both branches and the merge run like the source `if`, with moves of either branch counted |
| Simulation.SimBlock | CodeGen.cpp:1003-1114 | a braced block runs its statements and releases its unmoved locals on fall-through |
| Simulation.SimWhile | CGStatements.cpp:797-841 | a while loop runs like the source, with break and continue, for any number of turns |
| Simulation.SimRange | CGStatements.cpp:1027-1109 | a range loop runs like the source: bounds evaluated once, counter increased after the body and after continue |
| Simulation.SimForever | CGStatements.cpp:999-1024 | an infinite loop runs like the source |
| SimExpr.SimReleases | CodeGen.cpp:1124-1136 | flushing temporaries releases each pending reference once and keeps the invariant for the rest |
| SimStores.AssignRefs | CGExpressions.cpp:747-757 | references held after an assignment are those before, less the old value's one, plus the new value's one |
| Calls.HandOver | CGExpressions.cpp:410-433 | references of moved arguments are exactly those the callee's own parameters hold |
| Legality.GenSMoves | CGExpressions.cpp:410-433 | emitting an expression marks exactly the variables moved by its calls |
| Legality.LoopStmtMoves | CGStatements.cpp:797-841 | a legal statement inside a loop moves nothing, so every turn starts from the same moved set |
| Ownership.ReleaseDrops | CodeGen.cpp:1042-1050 | a release of a held reference finds it alive and leaves an account of the rest |
| CodeGenerator.CodeGen.GenProgram | CodeGen.cpp:31-390 | an error is reported if and only if the text of some function, before anything that ends its block, passes an own variable to an own parameter or copies it to an own variable inside a loop; otherwise the generated code is the compiled program, in which every turn of every loop starts from the same moved set; legal programs are accepted |
| Rejection.LegalIsAccepted | CGStatements.cpp:415-421 | no function of a legal program is rejected |
| Rejection.FunctionIsText | CGExpressions.cpp:410-433 | the generator's state decides to reject a function if and only if its text moves an own variable inside a loop |
| Rejection.AcceptedMovesNothing | CGStatements.cpp:814-835 | inside a loop, the code of any accepted statement, however nested, leaves the moved set as it is |
| Rejection.AcceptedWhile | CGStatements.cpp:797-841 | an accepted while loop moves what its condition moves, and nothing if it is inside a loop itself |
| Rejection.AcceptedFunction | CGStatements.cpp:797-841 | in accepted code every loop, at any depth, ends a turn with the moved set it began it with |
| Rejection.EndsStmt | CodeGen.cpp:1248-1256 | where the generator stops emitting a block can be read off the text |
| PlainPrograms.PlainIsLegal | CGStatements.cpp:272-426 | a program without own variables that declares what it uses, initialises its strings, assigns only computed strings to locals and, for exactness, leaves no string scope by a jump, is legal |
| Words.WrapsAround | CGExpressions.cpp:650-653 | the result of an operation is the one 32-bit value that differs from the exact one by a multiple of 2^32 |
| Words.ArithmeticLaws | CGExpressions.cpp:650-653 | subtraction undoes addition, and multiplication is repeated addition, with wrap-around |
| CodeGenerator.CodeGen.GenFunctionCode | CodeGen.cpp:766-1001 | one function emitted as specified, and nothing pending between functions |
| CodeGenerator.CodeGen.TrackOwnParameters | CodeGen.cpp:809-840 | own parameters get a scope of their own, in parameter order |
| CodeGenerator.CodeGen.GenBlockStatement | CodeGen.cpp:1003-1114 | pushes a scope, emits the statements, releases it unless already left, and pops it |
| CodeGenerator.CodeGen.GenStatements | CodeGen.cpp:1014-1029 | emits statements up to the first that ends the block, flushing temporaries after each |
| CodeGenerator.CodeGen.GenStatement | CodeGen.cpp:1248-1324 | emits nothing after a terminator, and each kind of statement as specified otherwise |
| CodeGenerator.CodeGen.GenVariableDeclaration | CGStatements.cpp:272-426 | declaration code, with the own move recorded or rejected inside loops |
| CodeGenerator.CodeGen.GenAssignment | CGExpressions.cpp:720-846 | assignment code: new value first, old one released, temporary adopted, move recorded or rejected |
| CodeGenerator.CodeGen.GenReturnStatement | CGStatements.cpp:523-736 | return code: retain the result, flush temporaries, release every open scope, return |
| CodeGenerator.CodeGen.EmitScopeStackReleases | CGStatements.cpp:443-455 | releases of all open string scopes, innermost first, moved variables skipped |
| CodeGenerator.InnermostFirst | CGStatements.cpp:443-455 | a return releases inner scopes before outer ones, each in the order of its declarations |
| CodeGenerator.CodeGen.GenIfStatement | CGStatements.cpp:738-795 | then, else and merge blocks, the moved set restored for else and united afterwards |
| CodeGenerator.CodeGen.GenWhileStatement | CGStatements.cpp:797-841 | condition, body and exit blocks, with the loop targets pushed for the body only |
| CodeGenerator.CodeGen.GenForRangeStatement | CGStatements.cpp:1027-1109 | condition, body, increment and exit blocks; continue goes to the increment |
| CodeGenerator.CodeGen.GenForeverStatement | CGStatements.cpp:999-1024 | body and exit blocks; continue goes back to the body |
| CodeGenerator.CodeGen.GenBreakStatement | CodeGen.cpp:1405-1415 | a branch to the innermost exit block, without releases |
| CodeGenerator.CodeGen.GenContinueStatement | CodeGen.cpp:1417-1427 | a branch to the innermost continue target, without releases |
| CodeGenerator.CodeGen.GenLogicExpression | CGExpressions.cpp:485-553 | branch, right-hand block, merge and phi, with the right side's temporaries flushed in its own block |
| CodeGenerator.CodeGen.GenStringComparison | CGExpressions.cpp:626-633 | equality call on both strings, negated for `!=` |
| CodeGenerator.CodeGen.GenCallExpression | CGExpressions.cpp:407-475 | arguments left to right, own moves recorded, result tracked as a temporary; no value if and only if inside a loop this call or one in its arguments moves an own variable |
| CodeGenerator.CodeGen.MarkOwnArguments | CGExpressions.cpp:410-433 | exactly the own variables passed to own parameters are marked moved; it fails if and only if there is one and code is generated inside a loop |
| CodeGenerator.CodeGen.ReleaseTempStrings | CodeGen.cpp:1124-1136 | pending temporaries are released in order, or only forgotten in a terminated block |
| CodeGenerator.CodeGen.UntrackTempString | CodeGen.cpp:1138-1148 | the first occurrence of a temporary is forgotten |
| CodeGenerator.CodeGen.FlushTempsSince | CGExpressions.cpp:530-536 | temporaries from a mark on are released and forgotten |
| TempConfinement.SettledB | CGExpressions.cpp:477-648 | conservation in the emitted text: each string a condition creates is pending once or released once, never both |
| TempConfinement.FunctionConfined | CGExpressions.cpp:511-552 | in the code of any function, every string born in a right operand of `&&` or `\|\|`, in any condition of any statement however nested, is created once and released once, in the block that ends that operand |
| TempConfinement.StmtKeeps | CodeGen.cpp:1248-1324 | no statement's code mentions a register from the next free one on, so nothing emitted earlier can release a later string |
| ConditionRuns.ConditionNeverStuck | CGExpressions.cpp:477-648 | from any frame whose invariant holds, the code of a condition never gets stuck; where the source evaluates, it arrives with the value, and with every pending temporary set and alive |
| ConditionRuns.RightTempsConfined | CGExpressions.cpp:511-552 | running `l && r` or `l \|\| r` never gets stuck and arrives at the merge block with the value, where only the temporaries of l are pending, all set and alive, and those of r hold no reference any more as far as the account is exact |
| ConditionRuns.EdgeTaken | CGExpressions.cpp:511-528 | the run enters the right operand's block if and only if the left value does not decide; otherwise the condition is done at the merge with the left value, no block of the right operand entered |
| TempConfinement.BornIsReleasedOnce | CGExpressions.cpp:528-539 | a string born on the right is created once and released once in the emitted text, in the block that ends the right side and nowhere else |
| Hazards.ReadThenConcatenated | CGExpressions.cpp:47-100 | `x + r` where r moves x: the emitted concatenation is stuck if and only if nobody holds the string of x any more when it comes |
| Hazards.ReadThenCompared | CGExpressions.cpp:626-633 | the same for `x == r` and `x != r` |
| Hazards.CallEntry | CGExpressions.cpp:407-475 | a call with any arguments enters its callee as the callee expects if and only if plain parameters' strings are still held and each string is given up by the caller as often as own parameters receive it |
| Hazards.LoopAccount | CGStatements.cpp:797-841 | back at the condition of a while loop that moves variables, the account its code relies on is covered if and only if the moved variables are null |
| Hazards.SkipAccount | CGExpressions.cpp:485-553 | on the edge that skips the right operand, the invariant at the merge holds if and only if what that operand would have moved is null |
| Hazards.JumpAccount | CodeGen.cpp:1405-1427 | after the branch emitted for break or continue, the invariant of its target holds if and only if every unmoved string declared in the loop is null |
| Hazards.MergeAccount | CGStatements.cpp:738-795 | after the branch at the end of one side of an `if`, the invariant at the merge holds if and only if what only the other side moved is null |
| Hazards.EndAccount | CodeGen.cpp:976-988 | the return emitted at the end of a body hands back an exact account if and only if every own parameter is moved or null |
| Hazards.CopyAccount | CGExpressions.cpp:745-846 | after the code of a plain copy `x = y` the account is covered if and only if the value of y is null |
| Hazards.UncountedRelease | CGExpressions.cpp:745-757 | an assignment to a borrowed parameter or a moved variable is stuck at its release if and only if nobody holds the old string |
| Hazards.UncountedStore | CGExpressions.cpp:745-846 | and otherwise leaves an exact account if and only if the new value is the old string |
| Hazards.ScopeRelease | CGStatements.cpp:198-206 | a release at the end of a scope is stuck if and only if the slot was never written or nobody holds its string |
| StuckPrograms.ReadThenMoved | CGExpressions.cpp:407-475 | `own string a = "a"; a + take(a);` reaches Stuck after 13 steps |
| StuckPrograms.PassedTwice | CGExpressions.cpp:410-433 | `pair(a, a)` with two own parameters reaches Stuck |
| StuckPrograms.MovedOnEveryTurn | CGStatements.cpp:797-841 | `while (take(a) == "r") {}` reaches Stuck on its second turn |
| StuckPrograms.AssignedAfterMove | CGExpressions.cpp:745-757 | `take(a); a = "b";` reaches Stuck |
| StuckPrograms.BorrowedIsReleasedTwice | CGExpressions.cpp:745-757 | a function that assigns to its plain parameter makes its caller reach Stuck |
| StuckPrograms.EmptyIsReleased | CGStatements.cpp:198-238 | `string a;` alone reaches Stuck at the end of its scope |
| StuckPrograms.PlainCopyIsReleasedTwice | CGExpressions.cpp:745-757 | `b = a;` between two variables reaches Stuck at the end of their scope |
| Leaks.BreakLeaks | CodeGen.cpp:1405-1415 | a loop that declares a string and breaks returns with that string's count still one |
| MatchArms.ArmConfined | CGEnum.cpp:819-896 | an arm of a match that yields a string runs to the merge block, never stuck, with exactly the temporaries of before pending and alive, and one reference to its value owned by the result slot |
| MatchArms.MatchEnds | CGEnum.cpp:918-936 | at the merge the value becomes a pending temporary that owns that reference |
| ScopeStacks.ReturnIsFallingOut | CGStatements.cpp:431-521 | the releases of a return are, as a multiset over all seven kinds, those of leaving every open block in turn and then the parameters |
| ScopeStacks.ReturnReleases | CGStatements.cpp:431-521 | a return releases a string, array, buffer or lambda slot once for each place in the scopes of its kind where it does not hold a moved variable, a shared, struct or enum slot once for each place whatever was moved, and nothing else |
| ScopeStacks.ExitReleases | CodeGen.cpp:1032-1104 | the end of a block releases the same for its innermost scopes |
| ScopeStacks.MovedIsNotReleased | CGStatements.cpp:443-503 | a string, array, buffer or lambda slot that holds only moved variables is released neither by a return nor at the end of a block |
| ScopeStacks.ParametersAreReleased | CodeGen.cpp:804-840 | by its parameters a function owes one release for each own string, array or buffer not moved, and none for any other |
| ScopeStacks.InnermostFirst | CGStatements.cpp:431-521 | inner scopes are released before outer ones, entries of a scope in the order of their declarations |
| ScopeStacks.ReturnIsKindByKind | CGStatements.cpp:431-521 | a return releases all of one kind before the next: shared, string, array, buffer, lambda, struct, enum |
| ScopeStacks.OpenedThenLeft | CodeGen.cpp:1005-1012 | opening a block and leaving it restores all seven stacks and releases nothing |
| ScopeStacks.Tracker.EnterBlock | CodeGen.cpp:1005-1012 | one new empty scope on each of the seven stacks |
| ScopeStacks.Tracker.ExitBlock | CodeGen.cpp:1032-1113 | releases the innermost scopes unless the block was left before, and pops all seven |
| ScopeStacks.Tracker.EmitScopeStackReleases | CGStatements.cpp:431-521 | emits every open scope kind by kind, innermost first, leaving the stacks as they are |
| ScopeStacks.Tracker.EnterFunction | CodeGen.cpp:804-840 | a scope with exactly the own strings, arrays and buffers among the parameters, in order, on their three stacks; the other four stay |
| EnumLayout.LayoutAgrees | CGEnum.cpp:42-205 | construction, match binding and release compute the same offsets if and only if every payload but the last fits its slot |
| EnumLayout.ReleaseIsReserved | CGStruct.cpp:113-140 | retain and release always walk the reserved layout |
| EnumLayout.SameOffsets | CGEnum.cpp:703-798 | two walks agree on all offsets if and only if they agree on every slot but the last |
| EnumLayout.SlotsDisjoint | CGTypes.cpp:208-274 | slots of a variant do not overlap |
| EnumLayout.WithinPayload | CGTypes.cpp:208-274 | every slot of every variant lies within the reserved payload size |
| EnumLayout.PayloadSizeIsLeast | CGTypes.cpp:208-274 | a size of at least one byte holds every variant if and only if it is no smaller than the reserved one |
| EnumLayout.PlainTypesFit | CGEnum.cpp:63-128 | a non-generic payload fits unless it is a payload-free enum of other than pointer size |
| EnumLayout.GenericTypesFit | CGEnum.cpp:63-128 | an erased payload fits if and only if its type is an enum with payloads or pointer-sized |
| EnumLayout.ErasedPairDisagrees | CGStruct.cpp:113-140 | two erased 32-bit integers are stored at bytes 0 and 4 and released at bytes 0 and 8 |
| EnumLayout.GetEnumMaxPayloadSize | CGTypes.cpp:208-274 | the reserved size is the largest sum of slots of a variant, at least one |
| EnumLayout.ConstructOffsets | CGEnum.cpp:42-205 | the loop stores argument i at the sum of the slots before it |
| EnumLayout.MatchOffsets | CGEnum.cpp:703-798 | the loop loads binding i at the sum of the slots before it |
| EnumOwnership.RetainThenRelease | CGEnum.cpp:287-414 | payload retain followed by payload release restores every count |
| EnumOwnership.ReleaseBalances | CGEnum.cpp:250-285 | a release never meets a freed cell and keeps every count equal to the references to it |
| EnumOwnership.TreeIsFreed | CGEnum.cpp:250-285 | releasing the last owner of a tree of boxes frees every cell, each once |
| EnumOwnership.StoredIsFound | CGEnum.cpp:42-205 | the release walk finds, in order, the strings, arrays, buffers, structs and enums among the arguments that construction stored |
| EnumOwnership.BoxBalances | CGEnum.cpp:84-97 | boxing a temporary hands its references to the box |
| EnumOwnership.CopyBalances | CGEnum.cpp:99-115 | boxing a copy of an owned value retains its payloads first |
| EnumOwnership.EmitEnumPayloadRelease | CGStruct.cpp:61-185 | per variant, one release per counted payload at its offset |
| EnumOwnership.GenEnumPayloadRetain | CGEnum.cpp:287-414 | per variant, one retain per counted payload, at the same offsets as the release |
| EnumOwnership.HasCountedPayload | CGStruct.cpp:43-59 | true if and only if some payload is a string, array, buffer, struct or enum, which is when the walk visits something |
| EnumReferences.WalkFindsReferences | CGStruct.cpp:113-175 | of any well-typed value the walk for its instance finds every reference that its payloads hold, each with the kind of its count, and besides only numbers of enums without payloads |
| EnumReferences.WalkIsExact | CGStruct.cpp:153-175 | it finds exactly the references if and only if every payload that is an enum without payloads is its variant 0 |
| EnumReferences.PlainEnumIsReleased | CGStruct.cpp:168-175 | variant 1 of an enum without payloads, as a payload, is released as if it were the address 1, which frees a string that others own |
| EnumReferences.ErasedWalkFinds | CGEnum.cpp:250-285 | the walk of a box, generated without an instance, finds what is not behind a type parameter |
| EnumReferences.ErasedWalkIsExact | CGEnum.cpp:250-414 | it misses nothing if and only if no reference is behind a type parameter |
| EnumReferences.BoxedOptionLeaks | CGEnum.cpp:250-285 | a string inside a boxed generic enum keeps its count when the box is freed |
| EnumReferences.ReleaseConserves | CGEnum.cpp:250-285 | with counts equal to the references stored in boxes plus those outside, whatever the walks look for, a release meets no freed cell and leaves them equal again |
| EnumReferences.OwnedTreeIsFreed | CGEnum.cpp:250-285 | releasing the last owner of a tree of boxes, as it is stored, frees all of it |
| EnumReferences.BoxConserves | CGEnum.cpp:84-97 | boxing fresh values hands exactly the references they hold to the box |
| EnumReferences.CopyConserves | CGEnum.cpp:99-115 | boxing a copy gives the box references of its own to everything that the value holds |
| Lexing.Lexer.Execute | FileLexer.cpp:272-345 | any interleaving of peeks, gets, rewinds and splits answers as a plain token stream does, and text before the lowest position never changes |
| Lexing.Lexer.PeekSymbol | FileLexer.cpp:272-277 | the symbol at the cursor, cached; the stream is only looked at |
| Lexing.Lexer.GetSymbol | FileLexer.cpp:279-294 | the symbol at the cursor, which advances by one |
| Lexing.Lexer.SplitShiftIntoCloseAngles | FileLexer.cpp:296-316 | a `>>` at the cursor becomes two closing angles; anything else is left alone |
| Lexing.Lexer.SetCurrentPos | FileLexer.cpp:323-330 | the cursor moves and the peek cache is dropped |
| Lexing.Lexer.GetSymbolInternal | FileLexer.cpp:332-358 | the list is extended from the file only at its end |
| Lexing.Lexer.IsEOF | FileLexer.h:130-137 | true implies that the next peek is end of file; after a peek, if and only if |
| Lexing.PrefixKept | FileLexer.cpp:296-330 | no allowed run changes anything before the lowest position it may rewind to |
| TypeText.RoundTrip | QType.cpp:161-189 | printing a type, scanning it with what follows, and parsing with splits gives the type back and stops right after it, at any depth |
| TypeText.PrintInjective | BmodEmitter.cpp:122-136 | different types print differently |
| TypeText.FlattenClose | FileLexer.cpp:614-620 | a run of closing angles scans to the same number of them, however paired |
| TypeText.ScanPrint | FileLexer.cpp:604-621 | a printed type scans to its symbols, up to pairing of closing angles |
| TypeText.ReadsBack | QType.cpp:31-189 | parsing any symbols that start with those of a type returns it and leaves the rest |
| TypeText.ReadIsSpelt | QType.cpp:31-189 | whatever the parser returns, for any symbols, is spelt by those it consumed, modifiers apart, with all its names in scope and able to name a type, `void` only where it is allowed |
| TypeText.ParseTypeFrom | QType.cpp:31-189 | the parser on the lexer object returns what the parsing function says, for any input |
| TypeText.ParseArgsFrom | QType.cpp:161-189 | type arguments in a loop, splitting `>>` before each separator |
| Recovery.ParseModule | QModule.cpp:118-492 | both passes terminate for any input and end with the streams specified; after every error the first pass resumes at the next declaration outside of braces, and every deferred body is parsed on a stream that stands at its own opening brace, with everything up to there as it was after the first pass |
| Recovery.ParseBodies | QModule.cpp:470-492 | bodies taken last to first: the i-th one is parsed on a stream at its recorded position, which holds its brace and has the prefix it had when the pass began, and the result is that of parsing them all |
| Recovery.OwnBrace | QModule.cpp:470-492 | the stream on which a body is parsed, for any statement parser: own position, own brace, unchanged prefix |
| Recovery.SkipBody | QFunctionDefinition.cpp:227-248 | the recorded position is that of the body's opening brace, and the cursor is behind the matching one |
| Recovery.ForwardOrderFails | QModule.cpp:470-492 | why last to first: taken first to last, a split in one body would move the next one's brace |
| Recovery.ParseBlock | QBlock.cpp:43-91 | the statement loop with recovery terminates and does what is specified, for any parser that advances or throws |
| Recovery.BlockEnd | QBlock.cpp:43-91 | a block ends behind its closing brace, or at the end of the file having consumed its opening one; statements kept and errors reported are paid for by symbols |
| Recovery.ResyncStatement | QBlock.cpp:23-41 | skips to the end of the statement or before the closing brace of the block, respecting nested braces |
| Recovery.ResyncTopLevel | QModule.cpp:90-108 | skips at least one symbol and then to the first one that starts a declaration, by a keyword or a modifier, where every brace opened before is closed |
| Recovery.ErrorsEndAtDeclarations | QModule.cpp:63-108 | where a declaration fails, what is left afterwards starts with a declaration outside of braces or is empty, and no such declaration was passed over |
| Recovery.SkipsStatement | QBlock.cpp:23-41 | a failed statement is skipped up to and including the first `;` outside of nested braces, or to the `}` of the block if that comes first |
| Recovery.BodyMatches | QFunctionDefinition.cpp:227-248 | a deferred body ends behind the first `}` that has no partner in it, and is an error if and only if there is none |
| Recovery.ParseStatement | QBlock.cpp:56-90 | one turn of the statement loop: the statement is kept; an error is reported if the parser threw or found nothing where it started, and skipped to the end of the statement; less is left to do |
| Recovery.ParseDeclarationOrExpression | QStatement.cpp:83-120 | a failed declaration is undone and an expression tried from the same position; if both fail the cursor is back there and the deeper error is reported |
| Recovery.StatementIsHonest | QStatement.cpp:83-120 | the result is the declaration's unless that is an error, and then the expression's from the same position; the parser never goes before its start, advances if it finds something, and fails only where it started |
| Recovery.DeeperIsLast | QStatement.cpp:23-31 | the reported error is one of the two, neither is further on, and it has a place if either has |
| Recovery.RunProgress | FileLexer.cpp:296-316 | the remaining input, `>>` weighing two, shrinks whenever the cursor advances, splits included |
| Recovery.DeclareOrRecover | QModule.cpp:132-468 | one turn of the declaration loop makes progress, keeps recorded bodies addressable, and after an error stands at the next declaration outside of braces |
| Precedence.ParseIsCorrect | QExpression.cpp:828-949 | the parser returns a tree if and only if it is the correctly bracketed one over the consumed tokens and nothing that follows belongs to it |
| Precedence.LayersDecide | QExpression.cpp:21-42 | for any two binary operators other than `\|>` and any three operands, `a op b op2 c` nests to the right if and only if `op2` stands in a tighter of the eleven layers, to the left otherwise |
| Precedence.Unambiguous | QExpression.cpp:21-42 | no two correctly bracketed trees have the same tokens |
| Precedence.PrintParse | QExpression.cpp:828-949 | parsing the minimally parenthesised print of any tree gives the tree back |
| Precedence.FewestParentheses | QExpression.cpp:828-949 | no print that parses to the same tree is shorter |
| Precedence.FieldBeforeParenthesis | QExpression.cpp:752-800 | `a.f (b)`: the field access is correctly bracketed, and a method call is read |
| Precedence.ReadsAsMeant | FileLexer.h:56-90 | over tokens as they are written, what is read is what is meant, in both directions, if `!` and `..` are placed where they belong; where they are not, never |
| Precedence.BangReadsAsRange | QExpression.cpp:21-24 | `a ! b` means `a` and is read as the range from a to b |
| Precedence.RangeReadsAsBang | QExpression.cpp:151-160 | `.. b` is no expression and is read as `!b` |
| Precedence.PipesAsDocumented | QExpression.cpp:849-921 | an expression bracketed as documented, `\|>` loosest, is read as such if and only if every right operand of `\|>` has no binary operator outside parentheses |
| Precedence.PipeThenPlus | QExpression.cpp:849-921 | `a \|> b + c` is read as the pipeline, plus `c` |
| Precedence.ExprSound | QExpression.cpp:828-949 | what is consumed is the in-order yield; left operands bind at least as tightly or are pipelines, right ones tighter, those of `\|>` primaries |
| Precedence.ExprFinds | QExpression.cpp:828-949 | every correctly bracketed tree is found when nothing that follows could continue it |
| Precedence.Parser.ParseExpr | QExpression.cpp:828-949 | the climbing loop returns what the specification finds, parentheses dropped |
| Precedence.Parser.ParsePrimary | QExpression.cpp:76-199 | returns the node, the null pointer or the error that the grammar says for prefix operators, `await`, `.name`, parentheses, arrays, numbers and names |
| Precedence.Parser.ParsePostfix | QExpression.cpp:752-824 | fields, method calls, indexing and `?`, left to right |
| Precedence.Parser.ParseArguments | QExpression.cpp:165-199 | the loop returns the list the grammar finds up to the closing token, an error where an element is missing |
| GenericTypes.MapTypeForInstance | CGTypes.cpp:846-886 | simultaneous substitution, null if and only if no parameter occurs |
| GenericTypes.MatchInverts | CGTypes.cpp:1081-1099 | matching a declared type against its instance binds a parameter to exactly its argument, if it occurs |
| GenericTypes.UnifyTypeParam | CGTypes.cpp:1081-1099 | the first binding found from the left, at any depth |
| GenericTypes.UnifyIsLeftmost | CGTypes.cpp:1081-1099 | what is bound stands at the leftmost place where the parameter occurs below equal names; if there is none, nothing is bound |
| GenericTypes.InferCallTypeArgs | CGTypes.cpp:1101-1188 | each parameter is given by the first argument that binds it to something other than a generic parameter, and inference fails only if for some parameter there is none; when argument types are instances of the declared ones under one assignment, exactly that assignment is inferred |
| FormatStrings.ParseIsInverse | FormatString.cpp:6-117 | a string parses to literals and placeholders if and only if it is their rendering and they are well formed |
| FormatStrings.ParseFormat | FormatString.cpp:6-117 | the index loop succeeds exactly when the specification does, with its result |
| FormatStrings.ParsePlaceholder | FormatString.cpp:31-102 | one placeholder, with each error case |
| FormatStrings.ParseSpecifier | FormatString.cpp:59-91 | kind and precision of a specifier, or an error |
| FormatStrings.SpecifierIs | FormatString.cpp:59-91 | which specifiers there are, with kind and precision, in both directions |
| FormatStrings.PrecisionReads | FormatString.cpp:70-85 | a point, the decimal digits of n and f are precision n, for every n |
| SqlPlaceholders.SelectAligned | SQLGen.cpp:87-165 | recorded expressions match the text's placeholders if and only if no overwritten order_by or limit recorded a run-time value |
| SqlPlaceholders.PlaceholdersLineUp | SQLGen.cpp:87-165 | the i-th question mark of the text stands where the i-th recorded expression goes, and their numbers agree exactly under that condition |
| SqlPlaceholders.OnceIsAligned | SQLGen.cpp:87-165 | with at most one order_by and one limit or first, any order of steps is aligned |
| SqlPlaceholders.FirstAfterLimit | SQLGen.cpp:121-146 | a run-time limit followed by first leaves a parameter without a placeholder |
| SqlPlaceholders.ExprToSQL | SQLGen.cpp:45-85 | the text and the appended expressions of one expression |
| SqlPlaceholders.OperatorsShown | SQLGen.cpp:53-68 | the SQL names of the operators, for all operands |
| SqlPlaceholders.GenerateSelect | SQLGen.cpp:87-165 | text and parameters of a select as collected clause by clause |
| SqlPlaceholders.SelectShown | SQLGen.cpp:87-165 | the text of a select with every clause and two conditions, for all expressions: clauses in the order of SQL, whatever that of the steps |
| SqlPlaceholders.GenerateUpdate | SQLGen.cpp:196-243 | updates are always aligned, whatever the order of their steps |
| SqlPlaceholders.UpdateShown | SQLGen.cpp:196-243 | the text of an update with two assignments and a condition, for all expressions |
| SqlPlaceholders.MarksAreHoles | SQLGen.cpp:45-85 | question marks of the text are exactly the placeholders |
| Interpolation.NothingIsLost | QExpression.cpp:1170-1305 | the parts of any raw string that parses, re-rendered, give back the raw string |
| Interpolation.ReadsBack | QExpression.cpp:1170-1305 | rendering parts and parsing gives them back if and only if references resolve, no two plain texts follow each other, other texts are one braced group that is no path, and an unclosed brace comes last |
| Interpolation.CutIsNormal | QExpression.cpp:1170-1305 | every raw string that parses gives such parts |
| Interpolation.HiddenReference | QExpression.cpp:1195-1205 | an earlier unmatched brace turns a reference into literal text |
| Interpolation.ParseInterpolation | QExpression.cpp:1170-1305 | the loop over the raw string returns the specified parts, or the unresolved-reference error |

## Left out

- Theorems.NothingLeaks: a jump out of scopes with strings, branches that move unlike variables, a right operand of `&&` or `||` that moves, and a body that ends owning a parameter are covered by NeverStuck only; the code forgets strings there (Hazards.JumpAccount, MergeAccount, SkipAccount, EndAccount).
- Theorems.NeverStuck: the compiler accepts programs that are not legal and whose code is not safe, so legal programs have no plain copy between variables in an assignment (Hazards.CopyAccount), no assignment to a moved variable or to a borrowed parameter (UncountedRelease, UncountedStore), nothing but own variables, each once, for own parameters (CallEntry), no declaration without initialiser (ScopeRelease), no while condition that moves (LoopAccount), and no variable that is read on the left of an operator or argument list and moved later in the same expression (ReadThenConcatenated, ReadThenCompared, CallEntry).
- Theorems.SameResults: range bounds create no strings; other bounds would leave temporaries pending in the loop. Programs that are not legal are left out as for NeverStuck, since their code may not reach a result.
- Theorems.SameDivergence: the same as SameResults.
- Legality.LoopStmtMoves: use of moved variables and undeclared names is excluded as semantic analysis does; semantic analysis is not part of this model.
- ScopeStacks.Tracker.ExitBlock: what a release of each kind does at run time is not modelled here, only which slots are released.
- EnumOwnership.TreeIsFreed: strings, arrays, buffers and structs are leaves; destructors of structs are not walked.
- EnumReferences.PlainEnumIsReleased: such a number is four bytes of an eight byte slot; the other four, which the code leaves as they are, are zero here.
- EnumReferences.ErasedWalkFinds: no type parameter is named like a string, array, buffer, struct or enum.
- PlainPrograms.PlainIsLegal: programs with own variables can be legal too, but that is not read off the text here.
- EnumLayout.LayoutAgrees: sizes of machine types are given by a table; alignment inside the payload area is not part of it.
- Lexing.Lexer.SetCurrentPos: positions are within the scanned list; the code's guard lets any position through (FileLexer.cpp:325).
- TypeText.RoundTrip: `chan`, `carray`, function and qualified types, whose closing angle is read without a split (QType.cpp:61-80); scanning is modelled for the characters types are made of, and names are words of the builtin, boolean or identifier kind.
- Precedence.Parser.ParseExpr: in `e |> f`, a name that the scope knows as a function becomes a call with `e` as its first argument (QExpression.cpp:863-900); names are variables here.
- Precedence.Parser.ParsePrimary: match, lambda, spawn, query, insert, update and delete expressions, strings, `self`, struct literals, calls by name and names qualified by a module; no expression starts at their tokens here.
- Precedence.ParseIsCorrect: assignment forms, which are read around an expression (QExpression.cpp:951-1020).
- FormatStrings.ParseSpecifier: precision is unbounded, the code's is an int.
- Recovery.ParseModule: imports, scopes, annotations and the text of diagnostics; statement and declaration parsers are arbitrary advancing runs over the lexer.
- GenericTypes.InferCallTypeArgs: arguments that are themselves generic calls; argument types are given.
- SqlPlaceholders.SelectAligned: table-name mangling, insert, delete and create table; the meaning of WHERE text, which is printed without parentheses (SQLGen.cpp:66).
- MatchArms.ArmConfined: the switch that selects an arm, bindings, and results that are not strings; moves in one arm count for the later ones, which legality does not look at.
- TypeText.ParseTypeFrom: `chan`, `carray`, function and qualified types, as for RoundTrip.
- Other refcounted kinds as expressions (structs, arrays, lambdas, buffers), fields, methods, print, contracts, `shared` and `sync` variables, async and channels.
- The `?` operator's early return, which shares the temporary list.
- Compound assignments, float and byte arithmetic, division, relational comparison of strings, and branches whose bodies are not braced.
- LLVM's own verifier and optimiser, debug information, and the run-time library beyond the counting contract.
- Character and string literals, comments and numbers in the scanner: scanned symbols are given.
