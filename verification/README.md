# XenonJS, verified

XenonJS compiles JavaScript in stages. C0 turns the syntax tree of a function into
a control-flow graph, C2 lays the graph out as a list of items and renumbers
temporaries and labels, C4 gives temporaries registers and assembles the list into
bytes of a file. A loader reads the file back, and a virtual machine runs it.

This project models these stages, each in the form the program has (builders,
worklists and buffers as classes and loops, code generation as recursion), and proves
that together they preserve meaning: **a file made from the source of a function,
loaded and run from its initial program counter, ends with an observation (a trace
of inspected values, and the way the run ended) if and only if the source says so**
(`Compile.FileMeansSource`), for every function of the language modelled and for
every runtime. With debugging, the same file leads from every instruction to the place
in the source it comes from (`DebugFile.SourceOfInstruction`). Beside the chain stand the
debugger's frame receiver and the linker's dependency walk.

## How the model is put together

A `Runtime` record stands for everything the program leaves to its run-time system:
what an operation computes from values and the state of the world, and which values
are true. It is a parameter of every theorem, so nothing depends on how values are
represented. `Ir.Step` is one step of the machine that runs a list of items,
`Cfg.Step` one step on a graph, `Vm.VmStep` one step of the virtual machine on bytes,
`Ast.Exec` the meaning of a statement. A run *shows* an observation when it reaches
it; all theorems about meaning are equivalences between what two runs show.

| stage | files |
|---|---|
| machine, correspondence of runs | `ir`, `correspond` |
| source language, its two dialects | `ast`, `dialects` |
| C0: code generation as functions, and meaning | `c0`, `c0run`, `c0stmt`, `c0func` |
| C0: the program's builder and contexts | `c0build` |
| C0: shape of its graphs | `c0shape`, `c0nodes` |
| C0: where temporaries live | `scope`, `assembly`, `c0path`, `c0scope`, `c0scopestmt`, `c0scopefunc`, `c0whole` |
| C2: graph search, layout, linearisation | `cfg`, `walk`, `layout`, `linear` |
| C2: data table, code, renaming | `texts`, `recode`, `generate`, `rename`, `c2` |
| C4: life intervals, registers | `lifeinterval`, `regalloc`, `regallocsim`, `intime` |
| C4: instructions, offsets, text section, machine | `bytes`, `inst`, `lower`, `assemble`, `ant`, `vm`, `c4fit` |
| C4: sections, file; loader | `datasec`, `xwriter`, `loader`, `loads`, `c4`, `sample` |
| C4: debug sections, in the file | `dbgsec`, `debugfile` |
| debugger's receiver, linker | `frames`, `deps` |
| the whole chain | `compile` |

## Where the code and what is expected of it differ

Each difference has an input that shows it and a condition that says exactly where
the code does what is expected.

- `continue` leaves a `do` loop and skips the update of a `for` loop
  (`compiler/src/xjs_c0.c:2542`, `compiler/src/xjs_c0.c:2606`). The source language
  has two dialects, `Standard` and `Compiled`; C0 preserves the meaning of the
  compiled one for every function. A statement means the same in both for every
  runtime if and only if no reachable `continue` belongs to a `do` loop or to a `for`
  loop with an update (`Dialects.PortableExactly`, and `C0Func.StandardExactly` for
  functions); two loops that differ are in `Dialects.ContinueDiffers`.
- `++` and `--` do not convert the old value to a number. What a postfix update yields
  is what the standard wants if and only if the conversion leaves the value alone
  (`Ast.OldValueIsStandard`); with a text in the name it is not
  (`Ast.OldTextIsYielded`).
- A numeric literal that lies, seen from zero, less than 1e-15 behind a 32-bit integer is
  written as that integer (`compiler/src/xjs_c4_textsec_inst.c:488-569`). A literal is
  loaded as it was meant if and only if it lies so behind no integer (`Lower.Kept`,
  `Lower.NumberBack`); integers are kept, and whatever is at least 1e-15 from all of them
  (`Lower.IntegersAreKept`, `Lower.FarIsKept`). Every number but 0 between -1e-15 and
  1e-15 is loaded as 0 (`Lower.TinyLiteralIsLost`).
- The number of registers of a function is written in one byte. The frame has as many
  as were asked for if and only if they are fewer than 256 (`Vm.FrameSize`); a frame of
  256 has none (`Vm.WideFrameIsEmpty`). Peak pressure, the greedy timeline and its
  optimality are proved for any number of registers; the theorem on the run on registers
  for up to 256, because a register is one byte too.
- The linker tells the imports of a module apart by name alone. The table keeps all of
  them if and only if no two of different kinds share a name (`Deps.AllImportsKept`);
  of a library `fs` and a user module `fs` it keeps the first (`Deps.SecondKindIsLost`).
- Whether a user module is found depends on the order in which modules are given
  (`Deps.OrderMatters`). There is one order in which they come up, and the walk succeeds
  if and only if everything can be had in that order (`Deps.Walk`).
- After a frame has been accepted the receiver drops one byte and not the frame. A frame
  yields its body alone if and only if no part of the body after a `$` has the sum of
  the whole body (`Frames.FrameYields`, `Frames.NothingNested`); one that yields two is
  in `Frames.FrameFoundTwice`.

The register allocator keeps meaning under one hypothesis, `MentionedInTime`: nothing is
written at a point before the first mention of a temporary that waits to be read. It is
proved of all code that C0 and C2 make (`InTime.CodeInTime` with
`C0Whole.FunctionScoped`); code that reads a temporary it never wrote shows why it is
needed (`RegAllocSim.UnwrittenIsLost`).

## Model

| member | source | states |
|---|---|---|
| Compile.FileMeansSource | compiler/src/xjs_c4.c:38-189 | The file of a function can be loaded, and running it from the initial program counter ends with an observation if and only if the source of the function does. |
| Compile.CompilationPreservesMeaning | compiler/src/xjs_c4_ant.c:208-329 | C0, C2 and the allocator composed: the code on registers ends with an observation if and only if the source does. The allocator's demand on code is discharged, not assumed. |
| Compile.CompileFile | compiler/src/xjs_c4.c:38-189 | All stages run one after the other on a syntax tree: they succeed exactly when `break` and `continue` stand in loops, and leave the file that the theorems speak of, with or without debug sections. |
| Compile.AssemblerTakes | compiler/src/xjs_c4_textsec_inst.c:765-829 | Whatever C0 and C2 make has a handler in C4: the assembler's lookup error cannot happen on it. |
| Dialects.DialectsAgree | compiler/src/xjs_c0.c:2514-2743 | Compiled code means what ECMA-262 says for every portable statement, at every fuel. |
| Dialects.PortableExactly | compiler/src/xjs_c0.c:2514-2743 | A statement means the same compiled as by the standard, for every runtime, world and fuel, exactly when no reachable `continue` belongs to a `do` loop or to a `for` loop with an update. The worlds only have to be able to hold a tape and a count, and two values to differ. |
| Dialects.EndsAsItCan | compiler/src/xjs_c0.c:2745-2860 | A statement ends only in ways that the syntax leaves open: reachability of `continue` is not underestimated. |
| Dialects.WayEnds | compiler/src/xjs_c0.c:2745-2860 | Every way that the syntax leaves open is taken on some tape of test results: it is not overestimated. |
| Dialects.ContinueDiffers | compiler/src/xjs_c0.c:2514-2743 | `do continue; while (x)` and `for (; x; x++) continue;` do not mean what the standard says. |
| Ast.UpdateIsStandard | compiler/src/xjs_c0.c:1197-1328 | An update in any form yields and stores what the standard says when conversion to a number leaves value and world alone. |
| Ast.OldValueIsStandard | compiler/src/xjs_c0.c:1197-1328 | What a postfix update yields is what the standard wants exactly when the conversion leaves the value alone. |
| Ast.OldTextIsYielded | compiler/src/xjs_c0.c:1197-1328 | With a text in the name, a postfix update yields the text where the standard wants its number. |
| Ast.PrefixIsAssignment | compiler/src/xjs_c0.c:1197-1240 | `++x` means `x = x + 1` and `--x` means `x = x - 1`, in every runtime and world. |
| Ast.PostfixIsAssignment | compiler/src/xjs_c0.c:1197-1240 | `x++` leaves the world of `x = x + 1` and yields what `x` was; `x--` likewise. |
| Ast.OneIsOne | compiler/src/xjs_c0.c:1197-1240 | The number that an update loads is one, in value and as the double its bytes denote. |
| Ast.LiteralMeans | compiler/src/xjs_c0.c:597-885 | A literal of each kind is loaded by the operation of that kind, with its own value. |
| C0Run.ExprRuns | compiler/src/xjs_c0.c:2052-2176 | In every graph that holds the code of an expression, control that enters it comes to its exit with the value of the expression in its temporary, the world changed as the expression says, and every earlier temporary untouched. |
| C0Stmt.StmtRuns | compiler/src/xjs_c0.c:2745-2860 | Control that enters the code of a statement arrives where its outcome leads: the exit, the innermost break or continue point, or a return; when the outcome needs more fuel, the run is at least as long as the fuel. |
| C0Func.FunctionRuns | compiler/src/xjs_c0.c:3273-3390 | For any amount of fuel the graph of a function reaches what the source reaches, and a source that is still running has a graph that is still running after as many steps. |
| C0Func.C0PreservesMeaning | compiler/src/xjs_c0.c:3273-3390 | A function ends as its source says and in no other way, so neither terminates when the other does not. |
| C0Func.MeaningIsStandard | compiler/src/xjs_c0.c:3273-3390 | For portable functions the meaning that C0 preserves is the one of the standard. |
| C0Func.StandardExactly | compiler/src/xjs_c0.c:3273-3390 | A function means the same in both dialects for every runtime exactly when its statements are portable. |
| C0Builder.CfgBuilder.AllocateVar | compiler/src/xjs_cfgbuilder.c:21-25 | The number handed out is one no earlier temporary has. |
| C0Builder.CfgBuilder.LinkTo | compiler/src/xjs_cfgbuilder.c:522-549 | A jump is added at the end of the first block, nothing else changes. |
| C0Builder.Context.PushPoints | compiler/src/xjs_c0_ctx.c:183-193 | The innermost break and continue points are the new ones, those around stay. |
| C0Builder.Context.PopPoints | compiler/src/xjs_c0_ctx.c:195-200 | The innermost points go, those around stay. |
| C0Builder.Context.Expression | compiler/src/xjs_c0.c:2052-2176 | The walk over an expression leaves the builder with exactly the code whose runs are proved, for every kind of expression. |
| C0Builder.Context.AssignExpr | compiler/src/xjs_c0.c:1062-1107 | An assignment to a name: the right operand's code, a block that stores, an empty block, and the operand's temporary as value. |
| C0Builder.Context.UpdateExpr | compiler/src/xjs_c0.c:1197-1240 | Prefix and postfix `++` and `--` of a name: one block with three fresh temporaries. |
| C0Builder.Context.ConditionalExpr | compiler/src/xjs_c0.c:1942-2017 | A conditional: three parts, a fork and a merge, as proved to run. |
| C0Builder.Context.IfStatement | compiler/src/xjs_c0.c:2361-2438 | An `if` with or without an alternate; fails exactly when an arm has a leap outside of a loop. |
| C0Builder.Context.WhileStatement | compiler/src/xjs_c0.c:2440-2512 | A `while` loop; the stack of points is as before. |
| C0Builder.Context.DoStatement | compiler/src/xjs_c0.c:2514-2582 | A `do` loop, whose continue point is its end, as in the program. |
| C0Builder.Context.ForStatement | compiler/src/xjs_c0.c:2584-2743 | A `for` loop with each of its three expressions optional. |
| C0Builder.Context.LeapStatement | compiler/src/xjs_c0.c:2287-2359 | `break` and `continue` go to the innermost points, and are errors when there are none. |
| C0Builder.Context.VarStatement | compiler/src/xjs_c0.c:417-494 | The initialisers of a declaration, linked in order; one empty block when there are none. |
| C0Builder.Context.StatementList | compiler/src/xjs_c0.c:2890-2926 | A list of statements, linked in order; fails exactly when one of them does, and restores the stack of points. |
| C0Builder.Context.StatementListItem | compiler/src/xjs_c0.c:2745-2888 | The walk over a statement leaves the builder with exactly the code whose runs are proved. |
| C0Builder.HoistStatement | compiler/src/xjs_c0.c:86-268 | Exactly the names that some `var` declares which stands in the statement: in a block, in an arm of an `if`, in the body of a loop, at any depth. |
| C0Func.VarNamesAre | compiler/src/xjs_c0.c:86-268 | What is collected from a statement is what the `var` statements declare that a chain of parts leads to. |
| C0Func.InitialisedIsDeclared | compiler/src/xjs_c0.c:382-412 | Every name that an initialiser of the function stores to is among the names declared at its start. |
| C0Builder.DeclareLocals | compiler/src/xjs_c0.c:382-412 | Every collected name is declared once, before anything else. |
| C0Builder.TerminateScope | compiler/src/xjs_c0.c:3148-3200 | The last block is ended by a halt or by returning undefined, unless it returns already. |
| C0Builder.FunctionScope | compiler/src/xjs_c0.c:3273-3390 | Hoisting, declarations, statements and end of a function: succeeds exactly when the function compiles and leaves the graph whose meaning is proved. |
| C0Shape.ExprRegion | compiler/src/xjs_c0.c:2052-2176 | Code of an expression: earlier blocks untouched, every new block finished but the exit, jumps and branches only at ends of blocks and only to new blocks, temporaries fresh. |
| C0Shape.StmtRegion | compiler/src/xjs_c0.c:2745-2860 | The same of statements, which lead out of their own blocks only to break and continue points. |
| C0Shape.FunctionWellFormed | compiler/src/xjs_c0.c:3273-3390 | Every block of a function is finished and leads to blocks that exist. |
| C0Nodes.FunctionPlain | compiler/src/xjs_c0.c:3273-3390 | Only kinds of nodes that later stages handle are generated, and only numbers of the source and 1. |
| C0Nodes.OverExactly | compiler/src/xjs_c0.c:3273-3390 | A function is over a set of numbers exactly when every number literal that stands in one of its expressions, at any depth of statements and operands, is in the set. |
| C0Scope.ExprScoped | compiler/src/xjs_c0.c:2052-2176 | Every temporary of an expression has a home that control passes before it is held, one definition, and a zone no one outside reads; arms of merges are told apart by the fork's test. |
| C0ScopeFunc.StmtScoped | compiler/src/xjs_c0.c:2745-2860 | The same of all statements, in any graph that hosts their code. |
| C0Whole.FunctionScoped | compiler/src/xjs_c0.c:3273-3390 | The whole graph of a function is scoped. |
| C0Whole.ScopedDeclares | compiler/src/xjs_cfgbuilder.c:50-59 | In a scoped graph every temporary that reachable code names is allocated by reachable code, as renaming demands. |
| C0Whole.FunctionCompilable | compiler/src/xjs_c2.c:1402-1441 | C0's graphs meet everything C2 asks of its input. |
| Cfg.SearchOrderReaches | compiler/src/xjs_c2.c:257-376 | The blocks of a search order are exactly the reachable ones. |
| Cfg.DominatorsFirst | compiler/src/xjs_c2.c:290-420 | A block on every path from the entry to another is placed before it. |
| Layout.CollectAnchors | compiler/src/xjs_c2.c:104-170 | The anchors are exactly the blocks that a reachable jump or branch leads to. |
| Layout.PlaceBlocks | compiler/src/xjs_c2.c:257-422 | The walk ends on every graph, cyclic ones too, and places every reachable block once, entry first; anchors and no others get labels, distinct ones; exactly the temporaries of visited nodes are mapped. |
| Layout.CountReferences | compiler/src/xjs_c2.c:424-495 | Every counter ends at the number of reachable jumps and branch arms that lead to its block. |
| Layout.InPlaceIsCounted | compiler/src/xjs_c2.c:203-247 | A block that the block before it jumps to has a counter above zero. |
| Layout.MergeInPlaceJumps | compiler/src/xjs_c2.c:172-255 | The error on a zero counter never occurs; exactly the jumps to the next block are cancelled and exactly the labels with no other reference are dropped. |
| Layout.Extract | compiler/src/xjs_c2.c:524-550 | The whole layout: a row of the reachable blocks with labels and cancelled jumps as a definition that mentions no counter says. |
| Layout.EmittedIsLabelled | compiler/src/xjs_c2.c:203-247 | After labels have been dropped, every arm that is not cancelled still leads to a block that keeps its label. |
| Layout.LabelIsNeeded | compiler/src/xjs_c2.c:203-247 | And no label is left over: to every block that keeps its label an arm leads that is not cancelled. |
| Linear.ListStep | compiler/src/xjs_c2.c:552-625 | A step of the list is matched by steps of the graph; each write by the same write. |
| Linear.GraphStep | compiler/src/xjs_c2.c:1002-1036 | A step of the graph is matched by steps of the list. |
| Linear.LinearisationPreservesMeaning | compiler/src/xjs_c2.c:1402-1441 | The list shows exactly what the graph shows, for every planned graph and every run. |
| Generate.GenSingle | compiler/src/xjs_c2.c:552-1000 | One node becomes its items: both branches of a pair, one, or none when cancelled; no lookup of a planned node fails. |
| Generate.GenItems | compiler/src/xjs_c2.c:1402-1441 | The items of all blocks in the order of the row, labels where they were kept. |
| Generate.LayoutIsPlan | compiler/src/xjs_c2.c:1402-1441 | What the layout leaves is a plan, so the theorems on lists apply to it. |
| Generate.RowPreservesMeaning | compiler/src/xjs_c2.c:1402-1441 | For every runtime, every finished graph and every row of it, under any injective numbering of labels and temporaries, the list (label if kept, conditional branch then branch, cancelled arm falling through) shows an observation if and only if the graph does. |
| Generate.WriteFunction | compiler/src/xjs_c2.c:1443-1500 | From a graph to renamed items: C2 never fails on a compilable graph whose texts were collected. |
| Texts.Interner.InternSymbol | compiler/src/xjs_c2.c:1527-1544 | A name gets an id, different from all others; a name that has one keeps it. |
| Texts.Interner.CollectBody | compiler/src/xjs_c2.c:1546-1705 | Exactly the names and strings of reachable nodes are collected. |
| Texts.Interner.CollectProgram | compiler/src/xjs_c2.c:1707-1781 | Exactly the texts of parameters, bodies, exports and imports have ids, one id for each kind and text. |
| Texts.Interner.WriteTable | compiler/src/xjs_c2.c:1806-1833 | The table has one item for every id, with its kind and text. |
| Texts.NodeIsCollected | compiler/src/xjs_c2.c:1546-1705 | Every text that code generation looks up has an id. |
| Texts.ProgramTextsHaveIds | compiler/src/xjs_c2.c:1707-1781 | Every parameter, both names of every export and import, and every source of imports has an id. |
| Texts.InterningPreservesMeaning | compiler/src/xjs_c2.c:1806-1833 | Items that refer to text by id run exactly as items that hold it, given the table. |
| Ir.MapTextKeeps | compiler/src/xjs_c2.c:1806-1833 | Referring to text in another way changes the name and the string of an instruction and nothing else about it. |
| Ir.TextsStand | compiler/src/xjs_c2.c:1546-1705 | Names stand where a name is declared, loaded or stored, and strings where one is loaded. |
| Ir.MentionedIsUsed | compiler/src/xjs_c4_regalloc.c:319-493 | What an instruction mentions, as the scan visits it, is what it reads and what it writes, and nothing else. |
| Recode.RecodingPreservesMeaning | compiler/src/xjs_c4_datasec.c:74-152 | Any other way of referring to text that reads back keeps every step of every run. |
| Rename.VarNumbersBijective | compiler/src/xjs_c2.c:1038-1208 | Exactly the temporaries that are named get numbers, different ones. |
| Rename.NumbersFill | compiler/src/xjs_c2.c:1038-1208 | The numbers are 0 to n-1 without a gap. |
| Rename.EarlierIsSmaller | compiler/src/xjs_c2.c:1038-1208 | Numbers are given in the order of first mention: what a first part of the code names has smaller numbers than what only the rest names. |
| Rename.NumberedLabelStands | compiler/src/xjs_c2.c:1038-1208 | Only labels that occur in the code have numbers. |
| Rename.IrFunction.Remap | compiler/src/xjs_c2.c:1038-1208 | The two maps the pass builds are those numberings. |
| Rename.IrFunction.Rename | compiler/src/xjs_c2.c:1376-1400 | The items are overwritten by their renamed images, in place. |
| Rename.RenamingPreservesMeaning | compiler/src/xjs_c2.c:1376-1400 | After any number of steps the renamed function is where the function is, each temporary under its new number. |
| Rename.RenamedIsDense | compiler/src/xjs_c4_regalloc.c:588-632 | Renamed functions have temporaries 0 to n-1, so every index of the allocator's tables is in bounds. |
| C2.LabelsAreUnique | compiler/src/xjs_c2.c:1002-1036 | No label is emitted twice. |
| C2.LabelsAreDefined | compiler/src/xjs_c2.c:1002-1036 | Every emitted branch names an emitted label. |
| C2.BranchFindsOneLabel | compiler/src/xjs_c2.c:1002-1036 | The label item that an emitted branch names stands in the list exactly once. |
| C2.LabelsAreNeeded | compiler/src/xjs_c2.c:203-247 | Every label in the list is the target of a branch in the list. |
| C2.NoJumpToNext | compiler/src/xjs_c2.c:172-255 | No jump in the list leads to the label right behind it. |
| C2.C2PreservesMeaning | compiler/src/xjs_c2.c:1869-1926 | Layout, linearisation, interning and renaming composed: the code shows exactly what the graph shows. |
| C2.C2FitsScheduler | compiler/src/xjs_c4_regalloc.c:588-632 | C2's code meets what the allocator asks: defined labels, dense temporaries. |
| LifeInterval.LifePointMap.UpdatePoint | compiler/src/xjs_c4_regalloc.c:198-223 | A mention opens an interval or moves its end. |
| LifeInterval.LifePointMap.ExtendPoint | compiler/src/xjs_c4_regalloc.c:225-251 | A backward branch moves the end of exactly those intervals that reach its destination, and no beginning; an unknown label is an error. |
| LifeInterval.ExtractLabelPoints | compiler/src/xjs_c4_regalloc.c:521-543 | Every label is mapped to its point. |
| LifeInterval.LifePointMap.Extract | compiler/src/xjs_c4_regalloc.c:292-497 | One pass over the items computes the intervals and the error of the specification. |
| LifeInterval.IntervalsClosed | compiler/src/xjs_c4_regalloc.c:319-493 | Intervals begin at the first mention, cover every mention, and no backward branch enters an interval from above its end. |
| LifeInterval.IntervalsLeast | compiler/src/xjs_c4_regalloc.c:198-251 | And they are no longer than they must be: any intervals that cover every mention and are closed under backward branches contain them, one by one. |
| RegAlloc.AllocateVreg | compiler/src/xjs_c4_regalloc.c:499-514 | The lowest free register is taken, or none when none is free. |
| RegAlloc.PeakPressure | compiler/src/xjs_c4_regalloc.c:617-633 | The most intervals alive at one point. |
| RegAlloc.OpenIntervals | compiler/src/xjs_c4_regalloc.c:673-687 | With as many registers as the peak, every interval that opens gets one no other holds, and those that hold one keep it. |
| RegAlloc.CloseIntervals | compiler/src/xjs_c4_regalloc.c:703-717 | Every interval that ends gives its register back. |
| RegAlloc.Schedule | compiler/src/xjs_c4_regalloc.c:655-719 | The greedy timeline never fails, and fills the table point by point. |
| RegAlloc.RegSched.SetR1 | compiler/src/xjs_c4_regalloc.c:545-748 | Registers as many as the peak; each temporary keeps one below the count over its interval and has none elsewhere; temporaries alive together have different ones. Setting twice is an error that changes nothing. |
| RegAlloc.NoFewerRegisters | compiler/src/xjs_c4_regalloc.c:545-748 | No table that keeps temporaries apart uses fewer registers. |
| RegAlloc.NoLowerPeak | compiler/src/xjs_c4_regalloc.c:545-748 | No intervals that cover every mention and are closed under backward branches have a lower peak than those the scan finds. |
| RegAllocSim.NoReturn | compiler/src/xjs_c4_regalloc.c:225-251 | Control above the end of an interval never comes back to it. |
| RegAllocSim.AllocationIsSchedule | compiler/src/xjs_c4_regalloc.c:750-781 | What the allocator leaves answers every lookup of a temporary at a point that mentions it. |
| RegAllocSim.AllocationPreservesMeaning | compiler/src/xjs_c4_regalloc.c:545-781 | After any number of steps, the run on registers is at the same point with the same trace and status as the run on temporaries. |
| RegAllocSim.UnwrittenIsLost | compiler/src/xjs_c4_regalloc.c:545-781 | A four-item list that reads what it never wrote: the allocation at peak pressure makes it show another value. |
| InTime.CodeInTime | compiler/src/xjs_c4_regalloc.c:319-493 | C2's code from a scoped graph never awaits a temporary before its first mention, whatever is written meanwhile. |
| Bytes.BitWriter.Append | compiler/src/xjs_bitwriter.c:53-84 | Bytes are added at the end; growing the buffer loses nothing. |
| Bytes.BitWriter.WriteU32 | compiler/src/xjs_bitwriter.c:91-99 | Four bytes, least significant first, of the number modulo 2^32. |
| Bytes.LeastComesFirst | compiler/src/xjs_bitwriter.c:91-99 | 0x04030201 is written 1, 2, 3, 4. |
| Inst.FetchesWritten | rts/src/xjr_vm.c:1374-1929 | Every instruction, with any number of arguments, is fetched from its bytes as it was, and the fetch ends where its bytes end. |
| Lower.SizeIsWritten | compiler/src/xjs_c4_textsec_inst.c:832-1016 | The size predicted for an item is the number of bytes written for it. |
| Lower.DecodesLowered | compiler/src/xjs_c4_textsec_inst.c:765-829 | The machine understands every instruction as the item it was lowered from. |
| Lower.NumberBack | compiler/src/xjs_c4_textsec_inst.c:488-569 | Over all literals: the encoding chosen loads the same number if and only if the literal does not lie, seen from zero, less than 1e-15 behind a 32-bit integer. |
| Lower.IntegersAreKept | compiler/src/xjs_c4_textsec_inst.c:488-569 | Every integer is loaded as it was meant, of any size. |
| Lower.FarIsKept | compiler/src/xjs_c4_textsec_inst.c:488-569 | So is every number that is at least 1e-15 from all integers. |
| Lower.NumberIsShort | compiler/src/xjs_c4_textsec_inst.c:488-569 | Of all instructions that load the number, of 8, 16, 32 bits or a double, none is shorter than the one chosen. |
| Lower.TinyLiteralIsLost | compiler/src/xjs_c4_textsec_inst.c:488-569 | Every literal other than 0 between -1e-15 and 1e-15 is loaded as 0, so as another number. |
| Assemble.TextSize | compiler/src/xjs_c4_ant.c:45-89 | The bytes written before function k are as many as the first pass says. |
| Assemble.NextStart | compiler/src/xjs_c4_ant.c:141-189 | An item begins where the one before ends. |
| Assemble.ItemStands | compiler/src/xjs_c4_ant.c:208-329 | The bytes of every instruction stand at the offset recorded for its item. |
| Assemble.StartsDiffer | compiler/src/xjs_c4_ant.c:92-138 | Different functions start at different offsets. |
| Ant.FunctionOffsets | compiler/src/xjs_c4_ant.c:45-138 | The offsets of functions are the sums of the sizes before them; fails exactly when an item has no size. |
| Ant.LabelOffsets | compiler/src/xjs_c4_ant.c:141-189 | Each label is mapped to the start of the first instruction after it; a label twice is an error. |
| Ant.Annotate | compiler/src/xjs_c4_ant.c:208-329 | All functions scheduled and lowered, every instruction placed where the one before ends, with the source location of its item (none for the preamble); succeeds exactly when every item has a handler. |
| Ant.SixteenArguments | compiler/src/xjs_c4_textsec_inst.c:273-355 | A call and a creation have a handler exactly when they have at most sixteen arguments. |
| Ant.WriteInstruction | compiler/src/xjs_c4_textsec.c:15-269 | The bytes of one instruction are appended. |
| Ant.WriteText | compiler/src/xjs_c4_textsec.c:271-302 | The text section is its signature and the bytes of all functions. |
| Vm.ExecutesItem | rts/src/xjr_vm.c:1374-1929 | Executing a linked instruction does what its item does and goes to the start of the item that the item goes to: branch operands are starts of targets, function operands starts of functions. |
| Vm.CallEnters | rts/src/xjr_vm.c:1374-1410 | The preamble binds the parameters to the arguments in a fresh frame. |
| Vm.BindIsVar | rts/src/xjr_vm.c:1397-1410 | Binding a parameter is declaring the name and storing the argument to it. |
| Vm.AssemblyPreservesMeaning | compiler/src/xjs_c4_ant.c:208-329 | Running the bytes of a function ends with an observation if and only if running its items does. |
| Vm.FrameSize | rts/src/xjr_vm.c:1385-1402 | The frame has as many registers as were asked for exactly when they are fewer than 256. |
| Vm.WideFrameIsEmpty | rts/src/xjr_vm.c:1385-1402 | A frame of 256 registers has none, so that whatever names a register is stuck. |
| C4Fit.RegistersInFrame | compiler/src/xjs_c4_regalloc.c:784-798 | Every register that code names is below the number its frame allocates. |
| DataSection.AnnotateData | compiler/src/xjs_c4_datasec.c:74-152 | The offset of an item is the sum of the sizes before it. |
| DataSection.WriteData | compiler/src/xjs_c4_datasec.c:154-201 | The data section: kind, size, text and a zero byte of each item. |
| DataSection.ItemLooks | compiler/src/xjs_c4_datasec.c:154-201 | The bytes of an item: 1 for a string and 2 for a name in two bytes, the length, the text, a zero byte. |
| DataSection.DataReadsBack | xjdb/xjdb_x.c:216-255 | At the offset of an item its text is read back under its kind, and under no other kind. |
| XWriter.CountSections | compiler/src/xjs_c4_indexsec.c:8-47 | The sections that are not empty are counted. |
| XWriter.WriteIndex | compiler/src/xjs_c4_indexsec.c:8-47 | The index has the offset and size of every section that is not empty. |
| XWriter.Concatenate | compiler/src/xjs_c4.c:119-168 | The file is header, index and sections, copied one after the other into one array. |
| Loads.WriteAttr | compiler/src/xjs_c4_attrsec.c:12-29 | The attribute section holds the offset of the top-level function. |
| Loads.AttrLooks | compiler/src/xjs_c4_attrsec.c:12-29 | The bytes of the section: its signature, one attribute at offset 0, kind 1, the offset. |
| Loader.XFile.LoadIndex | xjdb/xjdb_x.c:54-155 | The loop over the index finds what its specification says, and fails when it does. |
| Loader.TypesAreRecorded | xjdb/xjdb_x.c:86-116 | Each of the six types of sections goes to its own field, and no other type is recorded. |
| Loader.IndexSucceeds | xjdb/xjdb_x.c:70-126 | On any bytes, the index is loaded exactly when offset and size of every entry and the type of every section can be read. |
| Loader.LastOfTypeCounts | xjdb/xjdb_x.c:84-122 | On any bytes, a field holds the place of the last section of its type, and is left alone when there is none. |
| Loader.AttrsSucceed | xjdb/xjdb_x.c:128-155 | On any bytes, the attributes are loaded exactly when all of them can be read. |
| Loader.LastStartCounts | xjdb/xjdb_x.c:128-155 | On any bytes, the last attribute of kind 1 gives the initial program counter. |
| Loader.XFile.Load | xjdb/xjdb_x.c:54-165 | Signature, platform and version checks, index and attributes; on any bytes at all no read leaves the file. A file that does not begin with 78 6A 73 00 01 00 01 00 is refused. |
| Loads.FileRecovers | xjdb/xjdb_x.c:54-165 | Loading a written file succeeds, finds each recognised section where the writer put it, and starts at the top-level function. |
| C4.WriteHeader | compiler/src/xjs_c4.c:24-35 | The header is the one the loader checks. |
| C4.Start | compiler/src/xjs_c4.c:38-189 | C4 as a whole makes the file that the theorems speak of, with the debug sections of all functions when they are wanted, and fails exactly when an item has no handler. |
| C4.ProgramLoads | xjdb/xjdb_x.c:54-165 | In the file of a program the loader finds the data section, the text section and the start of the top-level function. |
| C4.FileIsFaithful | xjdb/xjdb_x.c:241-255 | Names and strings resolved through the file are those of the table. |
| C4.FilePreservesMeaning | compiler/src/xjs_c4.c:38-189 | A file, loaded and run, ends with an observation if and only if the items of its top-level function do. |
| Sample.OperationCodes | xjdb/xjdb_xformat.h:51-70 | The codes of binary and unary operations, by a list of them in the order of their numbers. |
| Sample.InstructionsAre | compiler/src/xjs_c4_textsec_inst.c:765-829 | Which items are refused: scopes, arrow functions, calls with more than sixteen arguments; which need no instruction: labels and allocations; everything else becomes one. |
| Sample.InstructionLooks | compiler/src/xjs_c4_textsec.c:15-269 | The bytes of every instruction but those that load numbers: its code, registers of one byte, offsets of four, arguments behind their count. |
| Sample.NumberLooks | compiler/src/xjs_c4_textsec_inst.c:488-569 | The bytes of those: one, two or four bytes of two's complement for an integer, by its size, else the double. |
| Sample.HaltingFile | compiler/src/xjs_c4.c:38-189 | All bytes of the file of a program that only halts. |
| DebugSection.WriteDebug | compiler/src/xjs_c4_dbgsec.c:43-103 | The loops over the annotated functions and their instructions write the table and the records of all functions; what a record says is in `DebugSection.RecordTells`. |
| DebugSection.EntryIs | compiler/src/xjs_c4_dbgsec.c:56-69 | Every instruction of every function has an entry, at its place behind those of the functions before. |
| DebugSection.EntryOwner | compiler/src/xjs_c4_dbgsec.c:56-69 | Every entry is that of an instruction of a function. |
| DebugSection.OneOwner | compiler/src/xjs_c4_dbgsec.c:56-69 | No entry is that of two instructions. |
| DebugSection.AnnotatedEntry | compiler/src/xjs_c4_dbgsec.c:64-98 | What is written of an annotated instruction is the sum of the bytes before it in the text, and the place its item comes from. |
| DebugSection.InstructionStands | compiler/src/xjs_c4_ant.c:208-329 | At the offset in its entry the bytes of the instruction stand in the text. |
| DebugSection.ItemHasEntry | compiler/src/xjs_c4_textsec_inst.c:51-82 | Every item that became an instruction has an entry, with the offset that its labels were computed from and the item's own location. |
| DebugSection.TableLeadsToRecord | compiler/src/xjs_c4_dbgsec.c:43-103 | Each entry of the table leads to the exact start of its own record. |
| DebugSection.RecordTells | compiler/src/xjs_c4_dbgsec.c:70-98 | A record read from front to back says the name of the file, then line and column of the beginning, line and column of the end, and the two ends of the range, signed. |
| DebugSection.CountersGrow | compiler/src/xjs_c4_dbgsec.c:43-103 | The offsets grow strictly over the whole table, within a function and from function to function. |
| DebugFile.RestIsApart | compiler/src/xjs_c4.c:110-116 | With or without debug sections, a written file meets the conditions of the theorems on loading and on meaning. |
| DebugFile.PortsAreOther | compiler/src/xjs_c4.c:100-108 | Sections that begin with `expt` or `impt`, and absent ones, meet those conditions too. |
| DebugFile.DebugLoads | xjdb/xjdb_x.c:54-165 | Of a file written with debugging, the loader finds text and records, and the index lists the table. |
| DebugFile.SourceOfInstruction | compiler/src/xjs_c4.c:119-168 | In the loaded file, for every instruction of every function: its entry holds the offset at which its bytes stand in the text, and leads to a record that says where it comes from. |
| DebugFile.SourceOfItem | compiler/src/xjs_c4_dbgsec.c:43-103 | The same from the items: every item that became an instruction is found at its offset, and its entry leads to its own location. |
| DebugFile.PreambleHasNoSource | compiler/src/xjs_c4_ant.c:208-329 | The records of instructions that bind arguments or allocate registers have no name and -1 everywhere. |
| Frames.ChunksDoNotMatter | xjdb/xjdb_session.c:220-259 | However a stream is split into chunks, the frames found are those that stand in the stream, in order, and the buffer holds what is pending of the stream. |
| Frames.FramesMore | xjdb/xjdb_session.c:230-259 | What has been decided of a stream is never revised by bytes that follow. |
| Frames.TryDecode | xjdb/xjdb_protocol.c:119-143 | The decoder on the buffer decides as `Decode` does on its contents, of which `AcceptsFrames` says what it accepts. |
| Frames.AcceptsFrames | xjdb/xjdb_protocol.c:119-143 | Accepted is exactly what begins with `$`, a body without `#`, `#`, and two hexadecimal digits of either case that denote the sum of the body modulo 256; and the body is that body. |
| Frames.FrameYields | xjdb/xjdb_session.c:234-258 | A frame followed by any bytes yields its body, then what is nested in it, then what those bytes yield. |
| Frames.NothingNested | xjdb/xjdb_session.c:243-248 | Nothing is nested exactly when no part of the body after a `$` has the sum of the whole body. |
| Frames.FrameFoundTwice | xjdb/xjdb_session.c:243-248 | A frame of six bytes that yields two bodies. |
| Frames.Checksum | xjdb/xjdb_protocol.c:11-19 | The sum of the bytes modulo 256. |
| Frames.SumOfParts | xjdb/xjdb_protocol.c:11-19 | That sum is additive over parts and counts each byte as it is. |
| Frames.ReceiveChunk | xjdb/xjdb_session.c:230-259 | After a chunk, the frames of the old buffer and the chunk have been found, and the buffer holds what is pending of them; the drain loop ends because the buffer shrinks or the frame is deferred. |
| Frames.SessionLoop | xjdb/xjdb_session.c:208-261 | Over any run of chunks and ends of connections: every connection yields exactly the frames of its stream, and the buffer holds what is pending of the current one, however each stream was cut. |
| Frames.HBuf.Clear | xjdb/hbuf.c:32-36 | Nothing is left. |
| Frames.HBuf.Append | xjdb/hbuf.c:40-67 | Bytes are added at the end; growing loses nothing. |
| Frames.HBuf.LeftStrip | xjdb/hbuf.c:84-112 | Everything before the first occurrence of the byte goes; all goes when there is none. |
| Frames.HBuf.Shift | xjdb/hbuf.c:114-125 | The first n bytes go; nothing happens when there are fewer. |
| Frames.HBuf.IndexOf | xjdb/hbuf.c:132-142 | The place of the first occurrence, or the size. |
| Deps.WalkItem | compiler/src/xjs_depwalk.c:74-279 | The turn of one module: its imports are recorded, by name and the first of a name; libraries not yet known are put in front of what is pending; it stops exactly where no walk can go on. |
| Deps.ListingIsUnique | compiler/src/xjs_depwalk.c:331-351 | There is only one order: the modules given, the last first, then libraries in the order in which they are first asked for. |
| Deps.ListingReaches | compiler/src/xjs_depwalk.c:141-218 | The order holds exactly what can be reached from the modules given along imports of libraries that can be loaded. |
| Deps.WalkLacksNothing | compiler/src/xjs_depwalk.c:141-264 | After a walk that succeeds, every import names a module of the table or a library that the callback refused. |
| Deps.OrderMatters | compiler/src/xjs_depwalk.c:219-251 | Two modules and a library that can be walked in one order of the modules and not in the other. |
| Deps.AllImportsKept | compiler/src/xjs_deptbl.c:70-79 | The table keeps every import of a module exactly when no two of different kinds share a name. |
| Deps.SecondKindIsLost | compiler/src/xjs_depwalk.c:253-260 | Of a library `fs` and a user module `fs` only the first is recorded. |
| Deps.Walk | compiler/src/xjs_depwalk.c:331-351 | The walk ends. It succeeds exactly when in the one order every path has a separator, every import is a string, every library found compiles, and every user module is given or has been asked for as a library before; then the modules are loaded in that order, each name once, and the table has an entry for each. |

## Left out

- Lexer, parser and the builder of modules: a function is given as a syntax tree.
- Nested functions, calls, `new`, objects, arrays, members, `&&` and `||`, compound assignment and assignment to members in C0. C2, the allocator, C4 and the machine model are proved with calls, `new`, members and closures in their item sets, as operations of the runtime.
- Module mode: imports and exports in C0, and the hoisting that looks at top-level declarations only (compiler/src/xjs_c0.c:292-316).
- The scope stack of C0 (compiler/src/xjs_c0_ctx.c:153-181), which no generated code depends on.
- The branch node of a conditional statement is pushed once its targets are known, where the program pushes it first and sets the targets later; the block has the same items in the end.
- Ast.UpdateIsStandard: one direction for the whole outcome, because with an unknown runtime a sum may not depend on the conversion; for the value yielded `Ast.OldValueIsStandard` has both.
- Compile.FileMeansSource: fewer than 256 registers and a file of less than 2^32 bytes, because the count of registers is one byte and offsets are four; numbers of the source are `Kept`.
- C4.FilePreservesMeaning: offsets are below 2^32; the loader's 32-bit arithmetic on files no writer made is modelled without wrap-around.
- Rename.RenamingPreservesMeaning: the bound `this` of a call is named elsewhere, as it is in all code of C2, because the pass that numbers (compiler/src/xjs_c2.c:1038-1208) skips it and the pass that applies the numbers (compiler/src/xjs_c2.c:1325-1327) does not. `dynlib` items, which C2 never emits, are not modelled.
- Lower.SizeIsWritten: encodings of numbers that are never chosen (U8, U16, U32, F32) have no rule.
- The table of handlers has no terminating entry (compiler/src/xjs_c4_textsec_inst.c:765-829): the search for an item without a handler is modelled as a failure.
- A naming of a register outside of its frame stops the machine model; `C4Fit.RegistersInFrame` shows that it does not occur.
- Operations that fail. Every operation of the model yields a value and a world; in the virtual machine some go to `fail` and end the run (rts/src/xjr_vm.c:1374-1929), for example a load of a name that was never declared. Runs that fail are not modelled.
- Values, heap, environments and the garbage collector of the virtual machine: parameters of the theorems. A call is modelled from its entry; the caller's frame is not.
- Doubles are eight opaque bytes with a real value; how reals are rounded to them is a parameter. A literal out of the range of `int` makes the conversion in `IS_INTEGER` undefined in C; the least `int` is assumed as its result (`Lower.ToInt`), so that such a literal is written as a double.
- UTF-8: text is a sequence of bytes.
- Export and import sections are given as bytes; where they stand in the file is proved, what is in them is not.
- DebugFile.SourceOfInstruction: file names are bytes already encoded. The loader records where `dbg0` is and skips `dbi0` (xjdb/xjdb_x.c:101-141), so the table is found through the index.
- Allocation failure and error texts. Source locations in C0 and C2: where each item comes from is a parameter of C4.
- The SIMPLE register scheduler.
- xjdb_protocol_send: it writes the digits of the sum over the terminator of the frame (xjdb/xjdb_protocol.c:86), so it is not an inverse of the decoder.
- `hbuf_shift` and `hbuf_left_strip` copy overlapping ranges with `memcpy`, which the C standard leaves undefined (xjdb/hbuf.c:109, xjdb/hbuf.c:122); the model copies byte by byte in ascending order.
- The receiver only reports that a frame was decoded; that its body is kept is an addition of the model. Connecting, and sizes of buffers beyond 32 bits, are not modelled.
- Connections, threads, the interactive debugger and all drivers.
- In the dependency walk: how names and paths are computed from the source of an import (compiler/src/xjs_depwalk.c:15-72), the choice of the entry, insertion of the standard library, and `static_linked`, which is set for the first importer only (compiler/src/xjs_depwalk.c:202-204). The name of a library's own module is the name it is loaded under.
