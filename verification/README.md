# A verified model of the SWI-Prolog kernel's hard algorithms

This project models five algorithms of the SWI-Prolog kernel in Dafny and proves what they are for.
Code that works by changing state is modelled by classes and loops that change state; what it computes
is stated by functions and relations, and the properties are proved about those.

`dafny verify dfyconfig.toml` checks everything.

## What is modelled

**The clause compiler and decompiler (`src/pl-comp.c`, `src/pl-vmi.c`).** A clause body is a tree over
plain goals, type tests, `true`, `fail`, `!`, `,`, `;`, `->`, `*->` and `\+`. `Compiler.CompileInfo`
appends to, patches and truncates a flat sequence of cells exactly as `compileBody` does: back-patched
relative jumps, choice-point slots, the table of initialised variables, the balancing C_VAR code, the
C_FASTCOND rewriting and the last-call block made by three reversals. `CodeGen.Gen` says what that code is;
the class is proved equal to it. `Machine.Step` executes the code: a frame, a chain of choice points with
addresses, B_* argument building, L_* moves, cuts and soft cuts; a read of an uninitialised slot, a second
initialisation or a cut to a choice point that is gone makes it stuck. `Search.Solve` is the independent
meaning of a body (ISO/IEC 13211-1, section 7.8): the list of its answers, where a predicate call
stands for any finite list of answers. The main result, `Correctness.ClauseCorrect`, says that running the
code from the start yields exactly the answers of the source in their order, with or without last-call
optimisation. `Correctness.GoalCalls` and `Correctness.TestDecides` say what the answers of one goal are, in terms
of the predicate called and of the test alone. `Decompiler.DecompileInfo` reads code back into a term, and
`RoundTrip.RoundTrips` says that this returns the body with its conjunctions nested to the right;
`RightNesting.RuleDecompiles` covers rules without a body too.

The proof is in layers. `Answers` says what it means for a configuration to *yield* a list of answers
while a surrounding computation owns other slots and choice points, and in which *scope* a `!` knows what to
cut; `Composition` composes yields along a conjunction and says when code *behaves* as a body: in one scope up
to its first answer, in a possibly looser one after that. `Control`, `Conditions`, `FastConditions` and
`SoftConditions` treat the constructs one by one; `Simulation.Simulates` is the induction over bodies.
`CodeShapes` and `Layout` give the layout of each construct, `Chains` and `DeadChoices` the facts about
choice-point chains. `Initialisation` is a second induction over the code, which does not ask what is cut:
`Initialisation.DefinitelyInitialised` holds for every body. `LateCuts` and `LateClauses` say exactly what
happens to a `!` that comes too late.

**Copying of term graphs (`src/pl-copyterm.c`, `duplicate_term/2`).** Terms are cells; compounds may be
shared and cyclic. `TermCopier.Stack` marks the graph, copies it with an agenda while shared source cells
refer to their copies, undoes the trail, and takes the marks away, all in place. `IsCopy` says that the
result is the same graph in fresh cells, `CopyIsomorphic` spells that out for paths, and the source is
what it was whether the copy succeeds or runs out of space. `TermReach` says which compounds a term consists
of, and from that how much space the copy takes: with room on the agenda it succeeds exactly if that fits.

**The lock-free atom table (`src/pl-atom.c`).** `AtomTable` has one step per shared read or write of
`lookupBlob`, `reserveAtom` and `rehashAtoms`; any number of threads interleave in any way. `AtomSafety` proves
that there is at most one valid atom per unique text, that every valid unique atom is linked outside a
resize, and that two lookups of one text agree across time and threads. `AtomProgress` proves that a lookup and
a resize that are left alone end, within a number of steps it gives, and what they have then done.

**Arithmetic (`src/pl-arith.c`).** `Evaluate.EvalExpression` is the evaluator that walks a term with a
pointer and two stacks; it is proved equal to the recursive evaluator `Eval`, and its result is the one
solution of equations between the cells of the expression (`Evaluate.Valued`), one for each kind of cell.
`IntArith` has the 64-bit fast paths, proved against unbounded integers.

**Call-stack cycles (`src/pl-alloc.c`).** `CallCycle.Detector` looks for recursion that does not end.

## What the proofs found

- A `!` in the condition of a `*->` that stands in the condition of another `*->` goes wrong when it runs late.
  C_LSCUT and C_LCUTIFTHEN find what to cut through the choice point below the condition. The first success of
  the enclosing `*->` makes C_SOFTCUT unlink that choice point. A `!` that runs on backtracking after that
  fails in one of three ways:
  - In the condition of a `*->` with else, one level deep, C_LSCUT keeps the oldest choice point of the condition:
    too many answers. `StaleCut.StaleCutGoesOn` gives a body with two answers whose code yields four.
    For all clauses `((g, (h ; !)) *-> t ; e) *-> t2 ; e2` with a plain goal g and a condition h without `!`,
    `LateClauses.LateCutRuns` says that the code has the answers of the body in which `true` stands for a late
    `!`, and `LateClauses.LateCutExact` says exactly when that is right.
  - Two levels deep C_LSCUT finds neither the choice point to keep nor its parent, and the assertion
    `BFR == och` at `src/pl-vmi.c:2911` fails (`CutAssertions.LostParent`).
  - In the condition of a `*->` without else, C_LCUTIFTHEN does not find the choice point it has marked, and the
    assertion `och == ch` at `src/pl-vmi.c:3030` fails (`CutAssertions.MissingMark`). Here the loop before the
    assertion has dropped the right choice points (`CutAssertions.LoopCutsRight`).

  The assertions are those of `<assert.h>`: a build with `NDEBUG` goes on, rightly in the third case, without
  having cut anything in the second. `Simulation.NoStaleCut` is the static condition under which `ClauseCorrect`
  holds: no `!` of such a condition may run after the condition has succeeded without one (`Search.LateCut`).
  The clause of `NoStaleCut` for `*->` with else keeps out the first two failures, the clause for `*->` without
  else the third. A `!` that every success of the condition passes, as in `(p, !) *-> t`, is allowed everywhere.
- Shifting a negative integer to the right by an amount that does not fit a long gives 0, where every
  smaller large amount gives -1 (`src/pl-arith.c:1697-1706`). `IntArith.ArShift` states exactly when the
  result is the floor of n*2^k, and `IntArith.FarShiftCounterexample` names inputs outside that condition.
- The comment at `src/pl-comp.c:1384-1390` says that runs of C_VAR become one C_VAR_N. `c_var` compares with
  the first variable of the run, so only pairs are merged. The model follows the code.
- A lookup can be kept waiting by another thread in two ways: by an atom with its text that is linked and not
  yet valid, and, when no other atom is free, by the first atom never used while it is reserved and `highest` is
  not raised
  (`src/pl-atom.c:474-492`). `AtomProgress.LookupEnds` shows that outside a resize there is no third.
- `copy_term` ignores the result of `TrailCyclic` (`src/pl-copyterm.c:599`, `src/pl-copyterm.c:684`). If that
  push ran out of memory the source cell would stay changed; the model assumes that the trail can grow.

## Model

| member | source | states |
|---|---|---|
| Correctness.ClauseCorrect | src/pl-comp.c:2265-2479 | For every body in which no `!` of a nested soft condition can run late, every program and start store, running the compiled body to the end yields exactly the answers of the source semantics, in order. |
| Initialisation.DefinitelyInitialised | src/pl-comp.c:1350-1480 | In every configuration that the code of any body reaches, whatever its cuts do, the next instruction is in the code, each slot it reads holds a value and each slot it initialises holds none; nothing but a cut goes wrong. |
| Correctness.NeverStuck | src/pl-comp.c:1350-1480 | For the bodies of ClauseCorrect cuts do not go wrong either: the choice point a cut refers to is there. |
| Correctness.GoalCalls | src/pl-vmi.c:1849-1857 | The code of a body that is one call of a user predicate ends with the answers of that predicate for the instances of the arguments, in the order they were written. |
| Correctness.TestDecides | src/pl-vmi.c:3236-3283 | The code of a body that is one type test ends with one answer, the store unchanged, exactly if the test holds of the instance of its argument, and with none exactly if not. |
| Correctness.RuleCorrect | src/pl-comp.c:1967-2025 | The same for rules `head => body`; a rule without a body, whose code is I_EXIT alone, has one answer and changes nothing. |
| Correctness.CompileClause | src/pl-comp.c:1967-2010 | The imperative compiler, run on such a body, produces code that yields the answers of the source for every program, environment, store and last-call setting. |
| LateClauses.LateCutRuns | src/pl-vmi.c:2886-2914 | For every clause `((g, (h ; !)) *-> t ; e) *-> t2 ; e2`, g a plain goal and h without `!`: the code has exactly the answers of the body with `true` for `!` if g has a second answer and t one on an answer of h on the first, and of the body itself otherwise. |
| LateClauses.LateCutExact | src/pl-vmi.c:3081-3112 | The code of such a clause is right if and only if t2 and t let none of the answers through that the further answers of g lead to; otherwise these come after the right ones. |
| LateClauses.PlainLateCut | src/pl-vmi.c:2886-2914 | With `true` for t and t2 and `fail` for e and e2: right if and only if g has fewer than two answers or h has none on the first. |
| LateClauses.SomeProgramTells | src/pl-vmi.c:2886-2914 | The static condition of ClauseCorrect refuses these clauses rightly: with calls that answer twice the code is wrong. |
| LateCuts.InnerDelivers | src/pl-vmi.c:3047-3112 | The inner conditional delivers these answers in every surrounding, and afterwards needs only that the choice point below it has been unlinked. |
| DeadChoices.StaysGone | src/pl-vmi.c:3081-3112 | What C_SOFTCUT has unlinked never comes back, and the parent remembered for it does not change. |
| Simulation.Simulates | src/pl-comp.c:2265-2479 | The induction behind it: compiled code at any address, in any surrounding computation, delivers the answers of its body one by one on backtracking, keeps the slots and choice points of others, and cuts exactly when the body does; after its first answer a body without late cuts no longer relies on the choice points below it. |
| Composition.EachUntilCut | src/pl-vmi.c:2886-2914 | A goal behind others whose every success cuts may follow them even where what they would do after that success is not known. |
| Compiler.CompileInfo.CompileBody | src/pl-comp.c:2265-2479 | Appending and back-patching give the code of `Gen` and the table of used variables grows by the variables of the body. |
| Compiler.CompileInfo.CompileRuleBody | src/pl-comp.c:1967-2025 | The code of a rule body and its exit; without a body only the exit. |
| Compiler.CompileInfo.CompileOr | src/pl-comp.c:2284-2363 | Disjunction: both branches start from the same variable table, each is balanced by what only the other initialises, jumps skip exactly the other branch. |
| Compiler.CompileInfo.CompileIfThenElse | src/pl-comp.c:2295-2341 | If-then-else, hard and soft, with the rewriting of a fast condition. |
| Compiler.CompileInfo.CompileNot | src/pl-comp.c:2389-2447 | Negation, with the balancing code behind its jump. |
| Compiler.CompileInfo.CompileArgument | src/pl-comp.c:2587-2833 | Argument code for every kind of term, first and later occurrences of variables, right-most compounds. |
| Compiler.CompileInfo.CompileSubClause | src/pl-comp.c:2943-3160 | A goal: its arguments, then I_CALL, I_DEPART with a last-call block, or a type test. |
| Compiler.CompileInfo.BalanceVars | src/pl-comp.c:1386-1440 | The C_VAR and C_VAR_N code for the set difference, and whether there is any. |
| Execution.ExecBalance | src/pl-comp.c:1386-1440 | Executing balancing code initialises exactly the variables of the difference, each once: the frame goes from `have` to `have + want`. |
| Compiler.CompileInfo.TryFastCondition | src/pl-comp.c:2482-2540 | The scan accepts exactly when every instruction after the condition's start is a fast test, and then rewrites one instruction. |
| FastConditions.FastMeansTests | src/pl-comp.c:2482-2540 | try_fast_condition accepts compiled code exactly when the condition is a conjunction of type tests on variables that are already initialised. |
| FastConditions.FastIfElseBehaves | src/pl-vmi.c:121-132 | With a fast condition no choice point is made, and the construct still has the answers of if-then-else. |
| Compiler.CompileInfo.Lco | src/pl-comp.c:3234-3334 | Last-call rewriting: the code from `pc0` becomes L_NOLCO, its distance, the moves, the tail call and the original code; when an argument cannot be moved the code is what it was. |
| Compiler.CompileInfo.LcoBlock | src/pl-comp.c:3234-3320 | The moves read off the argument code one instruction at a time; the buffer is truncated again on refusal. |
| Compiler.CompileInfo.ReverseCode | src/pl-comp.c:3224-3231 | Reversal of a range of the buffer in place, leaving the rest. |
| Compiler.ThreeReversals | src/pl-comp.c:3322-3330 | Reversing two blocks one by one and then together swaps them. |
| LastCall.LcoAccepts | src/pl-comp.c:3234-3334 | A last-call block exists exactly when every argument is a constant, a void or an initialised variable whose slot no earlier move overwrites. |
| LastCall.ExecMoves | src/pl-vmi.c:2427-2590 | Running the in-place moves one after another leaves in the argument slots exactly the values the B_* code would have built, whatever variables share those slots. |
| GoalRuns.FrameReused | src/pl-vmi.c:2427-2436 | With last-call optimisation on and no choice point newer than the frame, the last goal is called from the frame itself: the tail call is reached with the instance of argument k in slot k and nothing built. |
| GoalRuns.FrameKept | src/pl-vmi.c:2427-2436 | Otherwise the block is jumped over, and I_DEPART is reached with the arguments built. |
| Execution.ExecArg | src/pl-vmi.c:951-1115 | Argument code of any term pushes exactly that term under the environment and initialises its first variables. |
| Conditions.HardCondition | src/pl-vmi.c:2674-2760 | The condition of `->` and the argument of `\+`: the first answer commits to the frame and store it left and drops every choice point of the condition; no answer goes to the alternative. |
| Conditions.IfElseBehaves | src/pl-comp.c:2295-2341 | If-then-else has the answers of the then-branch on the first answer of the condition, else those of the else-branch; a cut in a branch is the clause's. |
| Conditions.NotBehaves | src/pl-comp.c:2389-2447 | Negation succeeds once with the store unchanged exactly when its argument has no answer. |
| Conditions.IfThenBehaves | src/pl-comp.c:2364-2388 | If-then without else fails when its condition does. |
| SoftConditions.SoftElseBehaves | src/pl-vmi.c:3060-3125 | `*->` with an else-branch: every answer of the condition is continued, the else-branch runs only if there is none, although its choice point is unlinked from below the others. |
| SoftConditions.SoftThenBehaves | src/pl-comp.c:2364-2388 | `*->` without else is conjunction with a local cut. |
| SoftConditions.RebaseYields | src/pl-vmi.c:3081-3112 | A computation goes on with the same answers when a choice point below its own is unlinked. |
| Chains.Unlinks | src/pl-vmi.c:3081-3112 | C_SOFTCUT takes one choice point out of the middle of the chain and remembers its parent. |
| StaleCut.StaleCutGoesOn | src/pl-vmi.c:2886-2914 | A body with nested soft cuts and a late `!` has two answers, but its code yields four, for every program. |
| CutAssertions.MissingMark | src/pl-vmi.c:2954-3030 | `(((true ; true), (true ; !)) *-> true) *-> true ; fail` runs into the assertion of c_cut, for every program. |
| CutAssertions.LostParent | src/pl-vmi.c:2886-2914 | `(((true ; !) *-> true ; fail) *-> true ; fail) *-> true ; fail` runs into the assertion of c_lcut_cont. |
| CutAssertions.AnswersDoNotDecide | src/pl-vmi.c:2886-2914 | With a compound g the answers of g do not decide: `(true ; true) ; fail` for `true ; true` in StaleCutGoesOn makes the code right. |
| Search.CutWithAnswer | src/pl-comp.c:3043-3048 | A body on whose every success path stands a `!` has cut when it has an answer. |
| Search.NoCut | src/pl-comp.c:3043-3048 | A body cuts only if `!` occurs in it outside conditions and `\+`. |
| Decompiler.Decompile | src/pl-comp.c:5603-5672 | The decompiler loop over a program counter and an argument stack computes `ReadBody`. |
| Decompiler.DecompileInfo.DecompileBody | src/pl-comp.c:5763-6305 | One level of decompilation, up to an end instruction or an address, with the goals built on the stack. |
| RoundTrip.RoundTrips | src/pl-comp.c:5763-6305 | Decompiling the code of any body gives the body with its conjunctions nested to the right, despite balancing code, jumps, fast conditions and last-call blocks. |
| RoundTrip.ReadsDepart | src/pl-comp.c:3234-3334 | A last-call block is skipped and the original code behind it is read. |
| RightNesting.ConjAssociates | src/pl-comp.c:6462-6504 | Conjunction is associative: same answers, same order, same cut. |
| RightNesting.RightNestedAnswers | src/pl-comp.c:6462-6504 | The right-nested body has the answers of the body. |
| RightNesting.RightNestedCode | src/pl-comp.c:2265-2479 | The right-nested body compiles to the same code as the body. |
| RightNesting.DecompiledIsEquivalent | src/pl-comp.c:5603-5672 | Decompiled code reads as a body that has the same answers and compiles to the same code again. |
| RightNesting.RuleDecompiles | src/pl-comp.c:5673-5674 | The same for rules with and without a body: the lone I_EXIT of a rule without a body decompiles to a term that reads as a body with exactly one answer, the store it is given. |
| TermCopier.Stack.DoCopyTerm | src/pl-copyterm.c:728-779 | The result is a copy, the whole heap is in order again, and the source is unchanged whether it fails or not. A variable or constant never fails and takes no space. A compound for whose reachable argument cells the agenda has room is copied if and only if the cells in use and 1 + arity for each compound some path leads to are within the limit, and the copy takes exactly that space. |
| TermCopier.Stack.MarkForDuplicate | src/pl-copyterm.c:174-221 | Every cell met is marked `Once` or `Twice`, `Once` only if a single visit met it, and nothing else is changed; it fails only when the agenda has fewer places than the compounds that can be reached have arguments. |
| TermCopier.Stack.CopyTerm | src/pl-copyterm.c:567-718 | The copy so far matches the source, shared source cells refer to their copies, and the trail holds each changed cell once, also when space runs out midway; that happens only when the copy of all that can be reached would not fit. |
| TermCopier.Stack.ExitCyclicCopy | src/pl-copyterm.c:533-564 | Undoing the trail gives shared variables back in source and copy and shared compounds their functor, with a mark left for unmarking. |
| TermCopier.Stack.CpUnmark | src/pl-copyterm.c:476-520 | Unmarking reaches every mark that is left, and touches nothing behind the source. |
| TermIsomorphism.CopyIsomorphic | src/pl-copyterm.c:567-718 | Every path leads to the same functor, constant or a variable, or nowhere, in source and copy; two paths lead to one compound or variable in the copy exactly if they do in the source; nothing found in the copy lies in the source. |
| TermIsomorphism.CopyHeapOk | src/pl-copyterm.c:567-718 | With the copy added the heap is well formed: pointers inside, blocks apart, reference chains end. |
| TermUnmark.NoneMarked | src/pl-copyterm.c:476-520 | When the agenda of the unmarking tour is empty no mark is left, in cyclic graphs too: a mark left would need an older mark left. |
| TermTour.TourNewFun | src/pl-copyterm.c:174-221 | Meeting a compound for the first time marks it and makes exactly its arguments due. |
| TermCopySteps.CopyNewFun | src/pl-copyterm.c:652-711 | Copying a compound for the first time keeps every fact about the copy so far; its arguments get places apart from all others. |
| TermCopySteps.CopyNewVar | src/pl-copyterm.c:595-609 | A variable met for the first time: a marker and a forwarding reference if it is shared, a fresh variable if not. |
| TermCopySpace.SpaceEnough | src/pl-copyterm.c:652-711 | At no time do source and copy together have more than twice the source's cells and one. |
| TermReach.AllMetReached | src/pl-copyterm.c:174-221 | A path leads to every compound the tour marks. |
| TermReach.AllCopied | src/pl-copyterm.c:567-718 | When the agenda is empty the compounds copied are exactly those a path from the root leads to. |
| TermReach.CopyTakes | src/pl-copyterm.c:652-711 | A finished copy has taken one cell for the root, and 1 + arity for each compound that can be reached. |
| AtomSafety.StepKeeps | src/pl-atom.c:530-654 | Every step of every thread keeps the invariant of the table. |
| AtomSafety.RunKeeps | src/pl-atom.c:530-654 | The invariant holds after every interleaving of any number of threads. |
| AtomSafety.OneAtomPerText | src/pl-atom.c:530-654 | In every run at most one valid atom exists for each unique text. |
| AtomSafety.EveryAtomLinked | src/pl-atom.c:1381-1444 | Whenever the array is not being scanned by a resize, every valid unique atom is on the chain of its bucket in the current table. |
| AtomSafety.ValidForever | src/pl-atom.c:530-654 | A valid atom stays valid and keeps its text. |
| AtomSafety.LookupsAgree | src/pl-atom.c:530-654 | Two lookups of one unique text return the same atom, at whatever times and in whatever threads. |
| AtomProgress.LookupEnds | src/pl-atom.c:530-654 | From every state of every run with no resize going on, a lookup that goes on alone without starting one is done after at most 16 steps and three for each atom linked, and can take a step until then: an atom that exists for a unique text is found and nothing is changed, else an atom that was free is valid with the text and no other atom has changed. |
| AtomProgress.LookupAnswers | src/pl-atom.c:530-654 | So such a lookup can be continued to its answer. |
| AtomProgress.RunClaimed | src/pl-atom.c:437-493 | In every run a reserved atom belongs to a thread that will make it valid or release it. |
| AtomProgress.ResizeEnds | src/pl-atom.c:1381-1444 | From every state of every run in which a thread has just got the lock and none holds an atom, the resize that goes on alone ends after at most four steps and two for each index: it has done nothing, or added a table with twice the buckets; texts and states of the atoms are the same. |
| AtomSafety.ReserveAssertion | src/pl-atom.c:437-493 | The assertion of reserveAtom holds: an atom that may be reserved has the invalid type. |
| AtomSafety.StartAwaited | src/pl-atom.c:1407-1412 | When the scan starts, the atom of every thread that has passed the test of `rehashing` and not yet made it valid is ahead of the scan, which will wait for it. |
| AtomSafety.PassAwaited | src/pl-atom.c:1421-1437 | Going past an index whose atom is not reserved leaves the atoms of all such threads ahead of the scan. |
| AtomSteps.LinkChains | src/pl-atom.c:619-641 | A successful compare-and-swap keeps every chain complete and in order of linking. |
| Evaluate.EvalExpression | src/pl-arith.c:965-1240 | On every acyclic expression the loop with two stacks ends with the value, or the first error from the right, of the recursive evaluator; and that is what every solution of the equations of the cells gives: a variable has an instantiation error, a constant, a list of one character and a compound without arguments the value of their function, a reference the value of what it refers to, a compound the error of its last argument with an error, else an error if its function is not known and the function applied to the values of the arguments in their order if it is. |
| Evaluate.EvalSolves | src/pl-arith.c:965-1240 | The values of the recursive evaluator solve the equations of all cells. |
| Evaluate.OneSolution | src/pl-arith.c:965-1240 | Two solutions agree on every cell of an acyclic expression. |
| Evaluate.CallStep | src/pl-arith.c:1137-1222 | When a function is called its arguments are on top of the value stack in order, and popping the term stack leads back to the argument the compound is. |
| Evaluate.PushFrame | src/pl-arith.c:1060-1122 | Entering a compound from its last argument leaves the value of the whole expression what it was. |
| Evaluate.NextArg | src/pl-arith.c:1137-1146 | Stepping to the argument before leaves the value of the whole expression what it was. |
| IntArith.Mul64 | src/pl-arith.c:3516-3565 | The portable multiplication succeeds exactly when the product fits 64 bits, and then gives it. |
| IntArith.Pow64 | src/pl-arith.c:2416-2434 | The power loop succeeds exactly when the power fits 64 bits, although it squares ahead. |
| IntArith.ArMinus | src/pl-arith.c:1570-1615 | The difference is exact, and stays a machine integer exactly when it can. |
| IntArith.ArDiv | src/pl-arith.c:3001-3040 | The quotient is the floor of the true one; an error exactly for divisor zero. |
| IntArith.ArMod | src/pl-arith.c:1638-1685 | The modulus belongs to the floor quotient and has the sign of the divisor. |
| IntArith.ArShift | src/pl-arith.c:1710-1810 | The result is the floor of n*2^k exactly unless a negative number is shifted right by an amount beyond a long, which gives 0; it is refused exactly when the shifted number would have more than 10000 bits and more than the limit, or the amount to the left is beyond a long. |
| IntArith.ShiftedBits | src/pl-arith.c:1790-1797 | The size computed before the shift is the number of bits of the shifted number. |
| IntArith.FarShiftCounterexample | src/pl-arith.c:1697-1706 | The answer of the code is wrong for any negative integer shifted right by 2^64: it is not -1, the floor. |
| CallCycle.Detector.NonTerminatingRecursion | src/pl-alloc.c:355-395 | Zero exactly when no period below 20 is repeated 100 times with a frame to follow; else the least such period and one frame of context, collected in a buffer that is never exceeded, and the flag says whether the arguments of the first frame and of the one a period later are pairwise variants. |
| CallCycle.Detector.IsVariantFrame | src/pl-alloc.c:335-351 | Two frames are variants exactly if they call one predicate with pairwise variant arguments. |
| CallCycle.Detector.FindNonTerminatingRecursion | src/pl-alloc.c:397-413 | The same for the youngest of the first 20 frames that starts such a cycle. |
| CallCycle.Detector.Compare | src/pl-alloc.c:371-384 | Comparing round after round with the first frames decides the period, or finds that the frames run out. |

## Left out

- Correctness.ClauseCorrect: `Simulation.NoStaleCut` looks at the body only. A refused body is right for programs that never bring its late `!` about, as behind a goal that fails; `LateClauses.LateCutExact` has the exact condition for one family, the other refused bodies have none.
- LateClauses.LateCutExact: g is a plain goal, h has no `!` and the other parts no late one. For a compound g there is no condition in terms of its answers (`CutAssertions.AnswersDoNotDecide`): C_LSCUT keeps the oldest choice point that g has left.
- Correctness.NeverStuck: cuts in bodies that `NoStaleCut` refuses may be stuck (`CutAssertions.MissingMark`, `CutAssertions.LostParent`); everything else is in `Initialisation.DefinitelyInitialised` for all bodies.
- Correctness.ClauseCorrect: choice points are named by a counter that is never reused, so that a stale address is known to be stale; in the source a stale address may by chance be that of a newer choice point.
- Correctness.ClauseCorrect: the bindings of a program are an opaque store that a backtrack restores; unification, the trail and the heap are not part of this model.
- Compiler.CompileInfo.CompileArgument: floats, strings and integers that do not fit a tagged one are not terms of the model; they are constants like atoms and small integers, with longer operands.
- Compiler.CompileInfo.CompileSubClause: inlined `=/2`, `==/2`, `var/1` and `nonvar/1`, compiled arithmetic, call/N and module-qualified goals are left out: goals are plain calls and type tests.
- Compiler.CompileInfo.TryFastCondition: of the instructions it accepts only the type tests exist in the model.
- FastConditions.FastMeansTests: conditions of `==/2`, `var/1`, `nonvar/1` and arithmetic comparison, which are accepted too, are not bodies of the model.
- RoundTrip.RoundTrips: zero-arity compounds, `|`, variable goals, module qualification, `$/0` and `$/1` are not bodies of the model.
- AtomTable.Next: which free atom is reserved and whether a resize is started are free choices, so the runs of the model include those of the source; filling the fields of an atom and comparing a text are one step each.
- AtomSafety.EveryAtomLinked: a thread that walks an old table may meet its chains while they are relinked; that such a walk ends is not stated, only that what it finds is not trusted.
- AtomProgress.LookupEnds: no other thread may hold a linked atom with the text, or have reserved the first atom never used, without having raised `highest`, when no other is free; a lookup waits for such a thread. What threads that run at the same time make of each other's chances is not stated.
- TermCopier.Stack.DoCopyTerm: when the agenda has fewer places than the term has argument cells, whether it suffices depends on the shape of the term and is not stated, only that a failure leaves everything as it was.
- Correctness.RuleCorrect: the instructions around the body of a rule (I_SSU_COMMIT, I_SSU_CHOICE) belong to the head and are not part of the model.
- TermCopier.Stack.CopyTerm: the trail can grow, and attributed variables, copy_term/4 marking and ground sharing (`mark_for_copy`) are left out.
- Evaluate.EvalExpression: expressions are acyclic and the functions are parameters; the test for cycles after 1000 compounds, signals and roundtoward/2 are left out.
- IntArith.ArShift: a long has 64 bits, and the negation of the least long is taken as the unsigned number the comparison makes of it.
- CallCycle.Detector.NonTerminatingRecursion: frames are numbered by their distance from the youngest one; when the result is zero nothing is said about the variant flag.
- Head unification code, `argKey` and the peephole merger; compiled arithmetic; inlined `=/2`, `==/2`, `var/1`, `nonvar/1` and `arg/3`: the property is stated for plain calls and type tests.
- The atom collector with reference counts and holes, `put_fastheap`, and the condition simplifier of when/2.
- Garbage collection, stack shifts, signals, exceptions and debugging.
