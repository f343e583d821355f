// Two further ways in which a `!` in nested soft conditionals goes wrong -- an assertion of the machine fails
// -- and a body on which a late `!` does no harm.

module CutAssertions {
  import opened Terms
  import opened VmCode
  import opened CodeGen
  import opened CodeShapes
  import opened Search
  import opened Machine
  import opened Execution
  import opened Chains
  import opened ControlSteps
  import opened Simulation
  import opened StaleCut

  // ----- one instruction at a time, backwards from where the run gets -----

  lemma Nop(vm: Vm, op: Op, pc: nat, s: Store, w: World, end: Config)
    requires (op.C_SCUT? || op.C_END? || op.I_TRUE?) && At(vm.code, pc, [Ins(op)])
             && Reaches(vm, Pl(pc + 1, vm, s, w), end)
    ensures Reaches(vm, Pl(pc, vm, s, w), end)
  {
    hide Step, Steps, Reaches, At, FrameOf;
    StepNop(vm, op, pc, {}, s, w);
    ReachesVia(vm, Pl(pc, vm, s, w), end);
  }

  lemma Jumps(vm: Vm, pc: nat, n: nat, s: Store, w: World, end: Config)
    requires At(vm.code, pc, Jmp(n)) && Reaches(vm, Pl(pc + 2 + n, vm, s, w), end)
    ensures Reaches(vm, Pl(pc, vm, s, w), end)
  {
    hide Step, Steps, Reaches, At, FrameOf;
    StepJump(vm, pc, {}, s, w, n);
    ReachesVia(vm, Pl(pc, vm, s, w), end);
  }

  /** C_OR, whose first alternative is `true` and a jump to `pc + 5 + n`. */
  lemma Or(vm: Vm, pc: nat, n: nat, s: Store, w: World, end: Config)
    requires At(vm.code, pc, OrHead) && At(vm.code, pc + 2, Yes) && At(vm.code, pc + 3, Jmp(n))
    requires Reaches(vm, Pl(pc + 5 + n, vm, s, Push(w, Machine.Jump(pc + 5, FrameOf(vm.env, {}), s))), end)
    ensures Reaches(vm, Pl(pc, vm, s, w), end)
  {
    hide Step, Steps, Reaches, At, FrameOf, Push;
    var w1 := Push(w, Machine.Jump(pc + 5, FrameOf(vm.env, {}), s));
    Jumps(vm, pc + 3, n, s, w1, end);
    Nop(vm, I_TRUE, pc + 2, s, w1, end);
    StepOr(vm, pc, {}, s, w, 3);
    ReachesVia(vm, Pl(pc, vm, s, w), end);
  }

  /** A soft cut that unlinks a choice point, `true`, and the jump over the else part. */
  lemma Unlink(vm: Vm, pc: nat, v: nat, s: Store, w: World, base: seq<Choice>, ch: Choice, newer: seq<Choice>,
        end: Config)
    requires At(vm.code, pc, Op1(C_SOFTCUT, v)) && At(vm.code, pc + 2, Yes) && At(vm.code, pc + 3, Jmp(1))
    requires w.chain == base + [ch] + newer && Sorted(w.chain) && v in w.marks && w.marks[v] == ch.addr
    requires Reaches(vm, Pl(pc + 6, vm, s,
             World(base + newer, w.marks[v := 0 - Top(base)], w.dead[ch.addr := Top(base)], w.next, w.out)), end)
    ensures Reaches(vm, Pl(pc, vm, s, w), end)
  {
    hide Step, Steps, Reaches, At, FrameOf, SoftCut, Sorted;
    Unlinks(w, v, base, ch, newer);
    RunCommit(vm, pc, v, s, w);
    ReachesTrans(vm, Pl(pc, vm, s, w), Pl(pc + 6, vm, s, SoftCut(w, v)), end);
  }

  /** The same when the choice point is gone already. */
  lemma Pass(vm: Vm, pc: nat, v: nat, s: Store, w: World, end: Config)
    requires At(vm.code, pc, Op1(C_SOFTCUT, v)) && At(vm.code, pc + 2, Yes) && At(vm.code, pc + 3, Jmp(1))
    requires v in w.marks && w.marks[v] <= 0 && Reaches(vm, Pl(pc + 6, vm, s, w), end)
    ensures Reaches(vm, Pl(pc, vm, s, w), end)
  {
    hide Step, Steps, Reaches, At, FrameOf;
    assert SoftCut(w, v) == w;
    RunCommit(vm, pc, v, s, w);
    ReachesTrans(vm, Pl(pc, vm, s, w), Pl(pc + 6, vm, s, SoftCut(w, v)), end);
  }

  /** C_SOFTIF, the start of a soft conditional. */
  lemma Soft(vm: Vm, pc: nat, v: nat, dist: nat, s: Store, w: World, end: Config)
    requires At(vm.code, pc, SoftIf(v, dist))
    requires Reaches(vm, Pl(pc + 3, vm, s, World(w.chain + [J(w.next, pc + 3 + dist, vm, s)], w.marks[v := w.next],
             w.dead, w.next + 1, w.out)), end)
    ensures Reaches(vm, Pl(pc, vm, s, w), end)
  {
    hide Step, Steps, Reaches, At, FrameOf;
    StepIfElse(vm, C_SOFTIF, pc, {}, s, w, v, dist);
    ReachesVia(vm, Pl(pc, vm, s, w), end);
  }

  /** I_EXIT records the answer; backtracking enters the newest choice point. */
  lemma Exits(vm: Vm, pc: nat, s: Store, w: World, l: seq<Choice>, addr: nat, pc1: nat, end: Config)
    requires At(vm.code, pc, [Ins(I_EXIT)]) && w.chain == l + [J(addr, pc1, vm, s)]
    requires Reaches(vm, Pl(pc1, vm, s, w.(chain := l, out := w.out + [s])), end)
    ensures Reaches(vm, Pl(pc, vm, s, w), end)
  {
    hide Step, Steps, Reaches, At, FrameOf;
    var w1 := w.(out := w.out + [s]);
    StepIsExit(vm, pc, s, w);
    StepBackJump(vm, w1, l, addr, pc1, {}, s);
    ReachesVia(vm, Back(w1), end);
    ReachesVia(vm, Pl(pc, vm, s, w), end);
  }

  lemma StepIsExit(vm: Vm, pc: nat, s: Store, w: World)
    requires At(vm.code, pc, [Ins(I_EXIT)])
    ensures Step(vm, Pl(pc, vm, s, w)) == Back(w.(out := w.out + [s]))
  {
    hide Step, FrameOf;
    AtCell(vm.code, pc, [Ins(I_EXIT)], 0);
    StepIs(vm, Pl(pc, vm, s, w), I_EXIT);
  }

  // ----- a `!` in the condition of `*->` without else part -----

  const InMarked := Disj(SoftIfThen(SoftIfThen(Inner, True), True), Fail)

  function MarkedCode(): Code {
    Op1(C_SOFTIFTHEN, 1) + InnerCode(C_LCUTIFTHEN) + [Ins(C_SCUT)] + Yes + [Ins(C_END)]
  }

  lemma ThenOfInner(cl: Clause)
    ensures Gen(cl, SoftIfThen(Inner, True), false, LocalCut(C_LSCUT, 0), {}, 1) == MarkedCode()
            && BodyVars(SoftIfThen(Inner, True)) == {}
  {
    hide Gen, InnerCode, Slots;
    InnerIs(cl, C_LCUTIFTHEN);
    ThenIs(cl, false, Inner, True, false, LocalCut(C_LSCUT, 0), {}, 1);
    assert IfPart(false, Inner, True) == SoftIfThen(Inner, True);
    BodyIs(cl, True, false, LocalCut(C_LSCUT, 0), {}, 2 + Slots(Inner));
    assert Nobody + BodyVars(Inner) == Nobody;
    assert Op1(C_SOFTIFTHEN, 1) == [Ins(C_SOFTIFTHEN), Num(1)];
  }

  lemma MarkedLengths()
    ensures |InnerCode(C_LCUTIFTHEN)| == 13 && |MarkedCode()| == 18
  {
  }

  lemma MarkedIs(cl: Clause)
    requires cl.arity == 0
    ensures GenClause(cl, InMarked, 0) == SoftCode(0, 23, MarkedCode()) + [Ins(I_EXIT)]
  {
    hide Gen, SoftCode, MarkedCode;
    assert Below(0) == {};
    ThenOfInner(cl);
    MarkedLengths();
    SoftOfSimple(cl, SoftIfThen(Inner, True), true, ClauseCut, 0);
  }

  /** The instructions of the clause, by position. */
  lemma MarkedAt(vm: Vm)
    requires vm.code == SoftCode(0, 23, MarkedCode()) + [Ins(I_EXIT)]
    ensures At(vm.code, 0, SoftIf(0, 23)) && At(vm.code, 3, Op1(C_SOFTIFTHEN, 1))
    ensures At(vm.code, 5, OrHead) && At(vm.code, 7, Yes) && At(vm.code, 8, Jmp(1)) && At(vm.code, 10, Yes)
    ensures At(vm.code, 11, OrHead) && At(vm.code, 13, Yes) && At(vm.code, 14, Jmp(2))
            && At(vm.code, 16, Op1(C_LCUTIFTHEN, 1))
    ensures At(vm.code, 18, [Ins(C_SCUT)]) && At(vm.code, 19, Yes) && At(vm.code, 20, [Ins(C_END)])
    ensures At(vm.code, 21, Op1(C_SOFTCUT, 0)) && At(vm.code, 23, Yes) && At(vm.code, 24, Jmp(1))
            && At(vm.code, 27, [Ins(I_EXIT)])
  {
    hide At, SoftCode, InnerCode;
    MarkedLengths();
    SoftLength(0, 23, MarkedCode());
    AtAll(vm.code);
    var cc, head, ic := MarkedCode(), Op1(C_SOFTIFTHEN, 1), InnerCode(C_LCUTIFTHEN);
    AtSplit(vm.code, 0, SoftCode(0, 23, cc), [Ins(I_EXIT)]);
    SoftCodeAt(vm.code, 0, 0, 23, cc);
    AtSplit(vm.code, 3, head + ic + [Ins(C_SCUT)] + Yes, [Ins(C_END)]);
    AtSplit(vm.code, 3, head + ic + [Ins(C_SCUT)], Yes);
    AtSplit(vm.code, 3, head + ic, [Ins(C_SCUT)]);
    AtSplit(vm.code, 3, head, ic);
    InnerAt(vm.code, 5, C_LCUTIFTHEN);
  }

  lemma SoftLength(v: nat, dist: nat, cc: Code)
    ensures |SoftCode(v, dist, cc)| == 3 + |cc| + 6
  {
  }

  /** C_LCUTIFTHEN does not find the choice point it is to cut back to. */
  lemma StepMissing(vm: Vm, pc: nat, s: Store, w: World, v: nat)
    requires At(vm.code, pc, Op1(C_LCUTIFTHEN, v)) && v in w.marks && w.marks[v] >= 0
             && Top(CutTo(w.chain, w.marks[v])) != w.marks[v]
    ensures Step(vm, Pl(pc, vm, s, w)) == Stuck
  {
    hide Step, At, Instr, NumAt, FrameOf, StepArg, StepCall, StepMove, StepBranch, StepInit, CutTo, LocalCutTo,
        ParentOf, SoftCut, Find;
    InstrIs(C_LCUTIFTHEN, v, 0);
    FetchNums(vm, pc, C_LCUTIFTHEN, [v]);
    StepIs(vm, Pl(pc, vm, s, w), C_LCUTIFTHEN);
  }

  /** The world with `chain`, once the choice point of the outer construct has its mark, and once it is gone. */
  function Before(chain: seq<Choice>, next: nat): World {
    World(chain, map[0 := 2, 1 := 2], map[], next, [])
  }

  function Unlinked1(chain: seq<Choice>, out: seq<Store>): World {
    World(chain, map[0 := -1, 1 := 2], map[2 := 1], 5, out)
  }

  /** From the commit of the inner construct to the late `!`. */
  lemma MarkedEnd(vm: Vm, s: Store)
    requires vm.code == SoftCode(0, 23, MarkedCode()) + [Ins(I_EXIT)]
    ensures var chain := [Choice(1, Base)] + [J(2, 26, vm, s)] + [J(3, 10, vm, s), J(4, 16, vm, s)];
            Reaches(vm, Pl(18, vm, s, Before(chain, 5)), Stuck)
  {
    hide Step, Steps, Reaches, At, FrameOf, CutTo, SoftCode, MarkedCode, Sorted;
    MarkedAt(vm);
    var base, ch, j3, j4 := [Choice(1, Base)], J(2, 26, vm, s), J(3, 10, vm, s), J(4, 16, vm, s);
    var w4, w5, w6 := Before(base + [ch] + [j3, j4], 5), Unlinked1(base + [j3, j4], []), Unlinked1(base + [j3], [s]);
    LoopCutsRight(vm, s);
    StepMissing(vm, 16, s, w6, 1);
    ReachesStep(vm, Pl(16, vm, s, w6));
    assert base + [j3, j4] == base + [j3] + [j4] && [] + [s] == [s];
    Exits(vm, 27, s, w5, base + [j3], 4, 16, Stuck);
    assert w4.marks[0 := -1] == w5.marks && map[][2 := 1] == map[2 := 1];
    FourSorted(ch, j3, j4);
    Unlink(vm, 21, 0, s, w4, base, ch, [j3, j4], Stuck);
    Nop(vm, C_END, 20, s, w4, Stuck);
    Nop(vm, I_TRUE, 19, s, w4, Stuck);
    Nop(vm, C_SCUT, 18, s, w4, Stuck);
  }

  lemma FourSorted(c2: Choice, c3: Choice, c4: Choice)
    requires 1 < c2.addr < c3.addr < c4.addr
    ensures Sorted([Choice(1, Base)] + [c2] + [c3, c4])
  {
  }

  /** From the start of the clause to the commit of the inner construct. */
  lemma MarkedBegin(vm: Vm, s: Store, end: Config)
    requires vm.cl.arity == 0 && vm.code == SoftCode(0, 23, MarkedCode()) + [Ins(I_EXIT)]
    requires var chain := [Choice(1, Base)] + [J(2, 26, vm, s)] + [J(3, 10, vm, s), J(4, 16, vm, s)];
             Reaches(vm, Pl(18, vm, s, Before(chain, 5)), end)
    ensures Reaches(vm, Start(vm, s), end)
  {
    hide Step, Steps, Reaches, At, FrameOf, SoftCode, MarkedCode;
    MarkedAt(vm);
    var base, ch, j3, j4 := [Choice(1, Base)], J(2, 26, vm, s), J(3, 10, vm, s), J(4, 16, vm, s);
    var w0, w1 := World(base, map[], map[], 2, []), World(base + [ch], map[0 := 2], map[], 3, []);
    var w2, w3 := Before(base + [ch], 3), Before(base + [ch] + [j3], 4);
    assert w3.chain + [j4] == base + [ch] + [j3, j4] && w2.chain + [j3] == w3.chain;
    Or(vm, 11, 2, s, w3, end);
    Nop(vm, I_TRUE, 10, s, w3, end);
    Or(vm, 5, 1, s, w2, end);
    StepIfThen(vm, C_SOFTIFTHEN, 3, {}, s, w1, 1);
    assert w1.marks[1 := 2] == w2.marks && Marked(w1, 1, 2) == w2;
    ReachesVia(vm, Pl(3, vm, s, w1), end);
    assert map[][0 := 2] == map[0 := 2] && Below(0) == {};
    Soft(vm, 0, 0, 23, s, w0, end);
  }

  /** A late `!` in the condition of a `*->` without else part, which itself is in the condition of one with:
      the choice point it is to cut back to is gone, and the machine is stuck. */
  lemma MissingMark(vm: Vm, s: Store)
    requires vm.cl.arity == 0 && vm.code == GenClause(vm.cl, InMarked, 0)
    ensures ProperBody(InMarked) && BodyVars(InMarked) == {} && !NoStaleCut(InMarked, false)
    ensures Reaches(vm, Start(vm, s), Stuck)
  {
    hide Reaches, GenClause, SoftCode, MarkedCode;
    MarkedFacts();
    MarkedIs(vm.cl);
    MarkedEnd(vm, s);
    MarkedBegin(vm, s, Stuck);
  }

  lemma MarkedFacts()
    ensures ProperBody(InMarked) && BodyVars(InMarked) == {} && !NoStaleCut(InMarked, false)
  {
    assert LateCut(Disj(True, Cut)) && LateCut(Inner) && ProperBody(Inner);
    assert !NoStaleCut(SoftIfThen(Inner, True), true);
    assert ProperBody(SoftIfThen(Inner, True)) && BodyVars(Inner) == {};
  }

  /** When the assertion fails the loop before it has dropped what the `!` is to drop, and nothing else. */
  lemma LoopCutsRight(vm: Vm, s: Store)
    ensures var chain := [Choice(1, Base)] + [J(3, 10, vm, s)];
            && CutTo(chain, 2) == [Choice(1, Base)]
            && Top([Choice(1, Base)]) == 1
  {
    var chain := [Choice(1, Base)] + [J(3, 10, vm, s)];
    assert chain[..1] == [Choice(1, Base)];
  }

  // ----- three soft conditionals, one in the condition of the other -----

  const Triple1 := Disj(SoftIfThen(Disj(True, Cut), True), Fail)
  const Triple2 := Disj(SoftIfThen(Triple1, True), Fail)
  const Triple := Disj(SoftIfThen(Triple2, True), Fail)

  function OrCutCode(v: nat): Code {
    OrHead + Yes + Jmp(2) + Op1(C_LSCUT, v)
  }

  function TripleCode(): Code {
    SoftCode(0, 30, SoftCode(1, 21, SoftCode(2, 12, OrCutCode(2)))) + [Ins(I_EXIT)]
  }

  lemma TripleLengths()
    ensures |OrCutCode(2)| == 7 && |SoftCode(2, 12, OrCutCode(2))| == 16
            && |SoftCode(1, 21, SoftCode(2, 12, OrCutCode(2)))| == 25
    ensures |SoftCode(0, 30, SoftCode(1, 21, SoftCode(2, 12, OrCutCode(2))))| == 34
  {
    hide SoftCode;
    SoftLength(2, 12, OrCutCode(2));
    SoftLength(1, 21, SoftCode(2, 12, OrCutCode(2)));
    SoftLength(0, 30, SoftCode(1, 21, SoftCode(2, 12, OrCutCode(2))));
  }

  lemma TripleIs(cl: Clause)
    requires cl.arity == 0
    ensures GenClause(cl, Triple, 0) == TripleCode()
  {
    hide Gen, SoftCode;
    assert Below(0) == {};
    TripleLengths();
    OrsAre(cl, C_LSCUT, 2);
    SoftOfSimple(cl, Disj(True, Cut), false, LocalCut(C_LSCUT, 1), 2);
    assert BodyVars(Triple1) == {};
    SoftOfSimple(cl, Triple1, false, LocalCut(C_LSCUT, 0), 1);
    assert BodyVars(Triple2) == {};
    SoftOfSimple(cl, Triple2, true, ClauseCut, 0);
  }

  lemma OrCutAt(code: Code, pc: nat, v: nat)
    requires At(code, pc, OrCutCode(v))
    ensures At(code, pc, OrHead) && At(code, pc + 2, Yes) && At(code, pc + 3, Jmp(2))
            && At(code, pc + 5, Op1(C_LSCUT, v))
  {
    hide At;
    AtSplit(code, pc, OrHead + Yes + Jmp(2), Op1(C_LSCUT, v));
    AtSplit(code, pc, OrHead + Yes, Jmp(2));
    AtSplit(code, pc, OrHead, Yes);
  }

  lemma TripleAt(vm: Vm)
    requires vm.code == TripleCode()
    ensures At(vm.code, 0, SoftIf(0, 30)) && At(vm.code, 3, SoftIf(1, 21)) && At(vm.code, 6, SoftIf(2, 12))
    ensures At(vm.code, 9, OrHead) && At(vm.code, 11, Yes) && At(vm.code, 12, Jmp(2))
            && At(vm.code, 14, Op1(C_LSCUT, 2))
    ensures At(vm.code, 16, Op1(C_SOFTCUT, 2)) && At(vm.code, 18, Yes) && At(vm.code, 19, Jmp(1))
    ensures At(vm.code, 22, Op1(C_SOFTCUT, 1)) && At(vm.code, 24, Yes) && At(vm.code, 25, Jmp(1))
    ensures At(vm.code, 28, Op1(C_SOFTCUT, 0)) && At(vm.code, 30, Yes) && At(vm.code, 31, Jmp(1))
            && At(vm.code, 34, [Ins(I_EXIT)])
  {
    hide At, SoftCode, OrCutCode;
    TripleLengths();
    AtAll(vm.code);
    var c3 := OrCutCode(2);
    var c2 := SoftCode(2, 12, c3);
    var c1 := SoftCode(1, 21, c2);
    AtSplit(vm.code, 0, SoftCode(0, 30, c1), [Ins(I_EXIT)]);
    SoftCodeAt(vm.code, 0, 0, 30, c1);
    SoftCodeAt(vm.code, 3, 1, 21, c2);
    SoftCodeAt(vm.code, 6, 2, 12, c3);
    OrCutAt(vm.code, 9, 2);
  }

  /** C_LSCUT finds no choice point with the parent it is to keep, nor that parent. */
  lemma StepLost(vm: Vm, pc: nat, s: Store, w: World, v: nat, a: nat)
    requires At(vm.code, pc, Op1(C_LSCUT, v)) && v in w.marks && w.marks[v] == 0 - a
    requires LocalCutTo(w.chain, ParentOf(w, a)).None? && Top(w.chain) != ParentOf(w, a)
    ensures Step(vm, Pl(pc, vm, s, w)) == Stuck
  {
    hide Step, At, Instr, NumAt, FrameOf, StepArg, StepCall, StepMove, StepBranch, StepInit, CutTo, LocalCutTo,
        ParentOf, SoftCut, Find;
    InstrIs(C_LSCUT, v, 0);
    FetchNums(vm, pc, C_LSCUT, [v]);
    StepIs(vm, Pl(pc, vm, s, w), C_LSCUT);
  }

  /** The worlds of the run: before any soft cut, and after one, two and three. */
  function Nested(chain: seq<Choice>): World {
    World(chain, map[0 := 2, 1 := 3, 2 := 4], map[], 6, [])
  }

  function NestedLess(n: nat, chain: seq<Choice>, out: seq<Store>): World {
    if n == 1 then World(chain, map[0 := 2, 1 := 3, 2 := -3], map[4 := 3], 6, out)
    else if n == 2 then World(chain, map[0 := 2, 1 := -2, 2 := -3], map[4 := 3, 3 := 2], 6, out)
    else World(chain, map[0 := -1, 1 := -2, 2 := -3], map[4 := 3, 3 := 2, 2 := 1], 6, out)
  }

  lemma NestedFacts(vm: Vm, s: Store)
    ensures var base, c2, c3, c4, c5 := [Choice(1, Base)], J(2, 33, vm, s), J(3, 27, vm, s), J(4, 21, vm, s),
            J(5, 14, vm, s);
            && Sorted(base + [c2, c3] + [c4] + [c5]) && Sorted(base + [c2] + [c3] + [c5]) && Sorted(base + [c2] + [c5])
            && Top(base) == 1 && Top(base + [c2]) == 2 && Top(base + [c2, c3]) == 3
            && ParentOf(NestedLess(3, base, [s]), 3) == 2 && LocalCutTo(base, 2).None?
  {
    hide FrameOf;
    var base := [Choice(1, Base)];
    assert base[..0] == [] && Find(base, 3) == 1 && LocalCutTo(base[..0], 2).None?;
  }

  lemma TripleEnd(vm: Vm, s: Store)
    requires vm.code == TripleCode()
    ensures var base, c2, c3, c4, c5 := [Choice(1, Base)], J(2, 33, vm, s), J(3, 27, vm, s), J(4, 21, vm, s),
            J(5, 14, vm, s);
            Reaches(vm, Pl(16, vm, s, Nested(base + [c2, c3] + [c4] + [c5])), Stuck)
  {
    hide Step, Steps, Reaches, At, FrameOf, TripleCode, Sorted, LocalCutTo, ParentOf;
    TripleAt(vm);
    NestedFacts(vm, s);
    var base, c2, c3, c4, c5 := [Choice(1, Base)], J(2, 33, vm, s), J(3, 27, vm, s), J(4, 21, vm, s), J(5, 14, vm, s);
    var w0, w1, w2, w3 := Nested(base + [c2, c3] + [c4] + [c5]), NestedLess(1, base + [c2, c3] + [c5], []),
                          NestedLess(2, base + [c2] + [c5], []), NestedLess(3, base + [c5], []);
    var w4 := NestedLess(3, base, [s]);
    StepLost(vm, 14, s, w4, 2, 3);
    ReachesStep(vm, Pl(14, vm, s, w4));
    assert [] + [s] == [s];
    Exits(vm, 34, s, w3, base, 5, 14, Stuck);
    assert w2.marks[0 := -1] == w3.marks && w2.dead[2 := 1] == w3.dead;
    Unlink(vm, 28, 0, s, w2, base, c2, [c5], Stuck);
    assert w1.marks[1 := -2] == w2.marks && w1.dead[3 := 2] == w2.dead && w1.chain == base + [c2] + [c3] + [c5];
    Unlink(vm, 22, 1, s, w1, base + [c2], c3, [c5], Stuck);
    assert w0.marks[2 := -3] == w1.marks && w0.dead[4 := 3] == w1.dead;
    Unlink(vm, 16, 2, s, w0, base + [c2, c3], c4, [c5], Stuck);
  }

  /** A late `!` in the condition of a soft conditional in the condition of a soft conditional in the condition of
      a third: neither the choice point to keep nor its parent is there, and the machine is stuck. */
  lemma LostParent(vm: Vm, s: Store)
    requires vm.cl.arity == 0 && vm.code == GenClause(vm.cl, Triple, 0)
    ensures ProperBody(Triple) && BodyVars(Triple) == {} && !NoStaleCut(Triple, false)
    ensures Reaches(vm, Start(vm, s), Stuck)
  {
    hide Reaches, TripleCode, GenClause;
    TripleFacts();
    TripleIs(vm.cl);
    TripleEnd(vm, s);
    TripleBegin(vm, s, Stuck);
  }

  lemma TripleBegin(vm: Vm, s: Store, end: Config)
    requires vm.cl.arity == 0 && vm.code == TripleCode()
    requires var base, c2, c3, c4, c5 := [Choice(1, Base)], J(2, 33, vm, s), J(3, 27, vm, s), J(4, 21, vm, s),
             J(5, 14, vm, s);
             Reaches(vm, Pl(16, vm, s, Nested(base + [c2, c3] + [c4] + [c5])), end)
    ensures Reaches(vm, Start(vm, s), end)
  {
    hide Step, Steps, Reaches, At, FrameOf, TripleCode;
    TripleAt(vm);
    var base, c2, c3, c4, c5 := [Choice(1, Base)], J(2, 33, vm, s), J(3, 27, vm, s), J(4, 21, vm, s), J(5, 14, vm, s);
    var w0, w1, w2 := World(base, map[], map[], 2, []), World(base + [c2], map[0 := 2], map[], 3, []),
        World(base + [c2, c3], map[0 := 2, 1 := 3], map[], 4, []);
    var w3 := World(base + [c2, c3] + [c4], map[0 := 2, 1 := 3, 2 := 4], map[], 5, []);
    Or(vm, 9, 2, s, w3, end);
    assert w2.marks[2 := 4] == w3.marks;
    Soft(vm, 6, 2, 12, s, w2, end);
    assert w1.marks[1 := 3] == w2.marks && w1.chain + [c3] == w2.chain;
    Soft(vm, 3, 1, 21, s, w1, end);
    assert w0.marks[0 := 2] == w1.marks && Below(0) == {};
    Soft(vm, 0, 0, 30, s, w0, end);
  }

  lemma TripleFacts()
    ensures ProperBody(Triple) && BodyVars(Triple) == {} && !NoStaleCut(Triple, false)
  {
    assert LateCut(Disj(True, Cut)) && ProperBody(Disj(True, Cut)) && BodyVars(Disj(True, Cut)) == {};
    assert !NoStaleCut(Triple1, true) && ProperBody(Triple1) && BodyVars(Triple1) == {};
    assert !NoStaleCut(SoftIfThen(Triple1, True), true);
    assert !NoStaleCut(Triple2, true) && ProperBody(Triple2) && BodyVars(Triple2) == {};
  }

  // ----- a compound g: its answers do not decide -----

  /** `(true ; true) ; fail` has the answers of `true ; true`. */
  const Older := Disj(Disj(True, True), Fail)
  const OlderGate := Conj(Older, Disj(True, Cut))
  const OlderInner := Disj(SoftIfThen(OlderGate, True), Fail)
  const OlderWhole := Disj(SoftIfThen(OlderInner, True), Fail)

  function OlderGateCode(): Code {
    [Ins(C_OR), Num(8)] + (OrHead + Yes + Jmp(1) + Yes) + Jmp(1) + [Ins(I_FAIL)] + OrCutCode(1)
  }

  function OlderCode(): Code {
    SoftCode(0, 32, SoftCode(1, 23, OlderGateCode())) + [Ins(I_EXIT)]
  }

  lemma OlderLengths()
    ensures |OlderGateCode()| == 18 && |SoftCode(1, 23, OlderGateCode())| == 27
            && |SoftCode(0, 32, SoftCode(1, 23, OlderGateCode()))| == 36
  {
    hide SoftCode;
    SoftLength(1, 23, OlderGateCode());
    SoftLength(0, 32, SoftCode(1, 23, OlderGateCode()));
  }

  lemma OlderOrIs(cl: Clause, cut: CutInfo)
    requires cut == LocalCut(C_LSCUT, 1)
    ensures Gen(cl, Older, false, cut, {}, 2) == [Ins(C_OR), Num(8)] + (OrHead + Yes + Jmp(1) + Yes) + Jmp(1)
            + [Ins(I_FAIL)]
    ensures BodyVars(Older) == {} && Slots(Older) == 0
  {
    hide Gen;
    OrsAre(cl, cut.op, cut.slot);
    BodyIs(cl, Fail, false, cut, {}, 2);
    assert BodyVars(Disj(True, True)) == {} && Slots(Disj(True, True)) == 0;
    NothingToBalance(0, cl.bits);
    assert Nobody + BodyVars(Disj(True, True)) == Nobody && Nobody + BodyVars(Fail) == Nobody && Nobody - Nobody ==
        Nobody;
    BodyIs(cl, Older, false, cut, {}, 2);
    OrIs(cl, Disj(True, True), Fail, false, cut, {}, 2);
  }

  lemma OlderIs(cl: Clause)
    requires cl.arity == 0
    ensures GenClause(cl, OlderWhole, 0) == OlderCode()
  {
    hide Gen, SoftCode;
    assert Below(0) == {};
    var cut := LocalCut(C_LSCUT, 1);
    OlderLengths();
    OlderOrIs(cl, cut);
    OrsAre(cl, C_LSCUT, 1);
    BodyIs(cl, OlderGate, false, cut, {}, 2);
    assert Nobody + BodyVars(Older) == Nobody;
    SoftOfSimple(cl, OlderGate, false, LocalCut(C_LSCUT, 0), 1);
    assert BodyVars(OlderInner) == {};
    SoftOfSimple(cl, OlderInner, true, ClauseCut, 0);
  }

  lemma OlderAt(vm: Vm)
    requires vm.code == OlderCode()
    ensures At(vm.code, 0, SoftIf(0, 32)) && At(vm.code, 3, SoftIf(1, 23)) && At(vm.code, 6, [Ins(C_OR), Num(8)])
    ensures At(vm.code, 8, OrHead) && At(vm.code, 10, Yes) && At(vm.code, 11, Jmp(1)) && At(vm.code, 14, Jmp(1))
            && At(vm.code, 16, [Ins(I_FAIL)])
    ensures At(vm.code, 17, OrHead) && At(vm.code, 19, Yes) && At(vm.code, 20, Jmp(2))
            && At(vm.code, 22, Op1(C_LSCUT, 1))
    ensures At(vm.code, 24, Op1(C_SOFTCUT, 1)) && At(vm.code, 26, Yes) && At(vm.code, 27, Jmp(1))
    ensures At(vm.code, 30, Op1(C_SOFTCUT, 0)) && At(vm.code, 32, Yes) && At(vm.code, 33, Jmp(1))
            && At(vm.code, 36, [Ins(I_EXIT)])
  {
    hide At, SoftCode, OrCutCode;
    OlderLengths();
    AtAll(vm.code);
    var g, inner, head, two := OlderGateCode(), SoftCode(1, 23, OlderGateCode()), [Ins(C_OR), Num(8)], OrHead + Yes
        + Jmp(1) + Yes;
    AtSplit(vm.code, 0, SoftCode(0, 32, inner), [Ins(I_EXIT)]);
    SoftCodeAt(vm.code, 0, 0, 32, inner);
    SoftCodeAt(vm.code, 3, 1, 23, g);
    AtSplit(vm.code, 6, head + two + Jmp(1) + [Ins(I_FAIL)], OrCutCode(1));
    AtSplit(vm.code, 6, head + two + Jmp(1), [Ins(I_FAIL)]);
    AtSplit(vm.code, 6, head + two, Jmp(1));
    AtSplit(vm.code, 6, head, two);
    AtSplit(vm.code, 8, OrHead + Yes + Jmp(1), Yes);
    AtSplit(vm.code, 8, OrHead + Yes, Jmp(1));
    AtSplit(vm.code, 8, OrHead, Yes);
    OrCutAt(vm.code, 17, 1);
  }

  function OlderWorld(chain: seq<Choice>, out: seq<Store>): World {
    World(chain, map[0 := -1, 1 := -2], map[3 := 2, 2 := 1], 7, out)
  }

  lemma OlderFacts(vm: Vm, s: Store)
    ensures var base, c2, c3, newer := [Choice(1, Base)], J(2, 35, vm, s), J(3, 29, vm, s),
            [J(4, 16, vm, s), J(5, 13, vm, s), J(6, 22, vm, s)];
            && Sorted(base + [c2] + [c3] + newer) && Sorted(base + [c2] + newer) && Top(base) == 1
                && Top(base + [c2]) == 2
            && ParentOf(OlderWorld(base + [newer[0], newer[1]], [s]), 2) == 1
            && LocalCutTo(base + [newer[0], newer[1]], 1) == Some(base + [newer[0]])
  {
    hide FrameOf;
    var base, c4, c5 := [Choice(1, Base)], J(4, 16, vm, s), J(5, 13, vm, s);
    var chain := base + [c4, c5];
    assert chain[..2] == base + [c4] && chain[..1] == base && base[..0] == [];
    assert (base + [c4])[..1] == base;
    assert Find([], 2) == 0 && Find(base, 2) == 1 && Find(base + [c4], 2) == 2 && Find(chain, 2) == 3;
    assert LocalCutTo(base + [c4], 1) == Some(base + [c4]);
  }

  /** From the first commits to the end: the late `!` keeps the oldest choice point, which leads to nothing. */
  lemma OlderEnd(vm: Vm, s: Store)
    requires vm.code == OlderCode()
    ensures var base, c2, c3, newer := [Choice(1, Base)], J(2, 35, vm, s), J(3, 29, vm, s),
            [J(4, 16, vm, s), J(5, 13, vm, s), J(6, 22, vm, s)];
            Reaches(vm, Pl(24, vm, s, World(base + [c2] + [c3] + newer, map[0 := 2, 1 := 3], map[], 7, [])),
                Halt([s, s]))
  {
    hide Step, Steps, Reaches, At, FrameOf, OlderCode, Sorted, LocalCutTo, ParentOf;
    OlderAt(vm);
    OlderFacts(vm, s);
    var base, c2, c3, c4, c5, c6 := [Choice(1, Base)], J(2, 35, vm, s), J(3, 29, vm, s), J(4, 16, vm, s),
        J(5, 13, vm, s), J(6, 22, vm, s);
    var newer, end := [c4, c5, c6], Halt([s, s]);
    var last := OlderWorld(base, [s, s]);
    assert last.chain == [Choice(1, Base)];
    LastHalt(vm, last);
    StepFail(vm, I_FAIL, 16, {}, s, last);
    ReachesSelf(vm, end);
    ReachesVia(vm, Back(last), end);
    ReachesVia(vm, Pl(16, vm, s, last), end);
    var w4 := OlderWorld(base + [c4], [s]);
    assert [s] + [s] == [s, s] && [] + [s] == [s];
    Exits(vm, 36, s, w4, base, 4, 16, end);
    Pass(vm, 30, 0, s, w4, end);
    Pass(vm, 24, 1, s, w4, end);
    var w3 := OlderWorld(base + [c4, c5], [s]);
    StepLocalCut(vm, C_LSCUT, 22, {}, s, w3, 1, 1);
    ReachesVia(vm, Pl(22, vm, s, w3), end);
    var w2 := OlderWorld(base + newer, []);
    assert base + newer == base + [c4, c5] + [c6];
    Exits(vm, 36, s, w2, base + [c4, c5], 6, 22, end);
    OlderUnlinks(vm, s, end);
  }

  /** Both soft cuts unlink their choice points. */
  lemma OlderUnlinks(vm: Vm, s: Store, end: Config)
    requires vm.code == OlderCode()
    requires var base, newer := [Choice(1, Base)], [J(4, 16, vm, s), J(5, 13, vm, s), J(6, 22, vm, s)];
             Reaches(vm, Pl(36, vm, s, OlderWorld(base + newer, [])), end)
    ensures var base, c2, c3, newer := [Choice(1, Base)], J(2, 35, vm, s), J(3, 29, vm, s),
            [J(4, 16, vm, s), J(5, 13, vm, s), J(6, 22, vm, s)];
            Reaches(vm, Pl(24, vm, s, World(base + [c2] + [c3] + newer, map[0 := 2, 1 := 3], map[], 7, [])), end)
  {
    hide Step, Steps, Reaches, At, FrameOf, OlderCode, Sorted, LocalCutTo, ParentOf;
    OlderAt(vm);
    OlderFacts(vm, s);
    var base, c2, c3, newer := [Choice(1, Base)], J(2, 35, vm, s), J(3, 29, vm, s),
        [J(4, 16, vm, s), J(5, 13, vm, s), J(6, 22, vm, s)];
    var w0, w1, w2 := World(base + [c2] + [c3] + newer, map[0 := 2, 1 := 3], map[], 7, []),
                      World(base + [c2] + newer, map[0 := 2, 1 := -2], map[3 := 2], 7, []),
                          OlderWorld(base + newer, []);
    assert w1.marks[0 := -1] == w2.marks && w1.dead[2 := 1] == w2.dead;
    Unlink(vm, 30, 0, s, w1, base, c2, newer, end);
    assert w0.marks[1 := -2] == w1.marks && w0.dead[3 := 2] == w1.dead;
    Unlink(vm, 24, 1, s, w0, base + [c2], c3, newer, end);
  }

  lemma LastHalt(vm: Vm, w: World)
    requires w.chain == [Choice(1, Base)]
    ensures Step(vm, Back(w)) == Halt(w.out)
  {
  }

  lemma OlderBegin(vm: Vm, s: Store, end: Config)
    requires vm.cl.arity == 0 && vm.code == OlderCode()
    requires var base, c2, c3, newer := [Choice(1, Base)], J(2, 35, vm, s), J(3, 29, vm, s),
             [J(4, 16, vm, s), J(5, 13, vm, s), J(6, 22, vm, s)];
             Reaches(vm, Pl(24, vm, s, World(base + [c2] + [c3] + newer, map[0 := 2, 1 := 3], map[], 7, [])), end)
    ensures Reaches(vm, Start(vm, s), end)
  {
    hide Step, Steps, Reaches, At, FrameOf, OlderCode;
    OlderAt(vm);
    var base, c2, c3, c4, c5, c6 := [Choice(1, Base)], J(2, 35, vm, s), J(3, 29, vm, s), J(4, 16, vm, s),
        J(5, 13, vm, s), J(6, 22, vm, s);
    var marks := map[0 := 2, 1 := 3];
    var w0, w1, w2 := World(base, map[], map[], 2, []), World(base + [c2], map[0 := 2], map[], 3, []),
        World(base + [c2] + [c3], marks, map[], 4, []);
    var w3, w4 := World(w2.chain + [c4], marks, map[], 5, []), World(w2.chain + [c4] + [c5], marks, map[], 6, []);
    assert w4.chain + [c6] == base + [c2] + [c3] + [c4, c5, c6];
    Or(vm, 17, 2, s, w4, end);
    Jumps(vm, 14, 1, s, w4, end);
    Or(vm, 8, 1, s, w3, end);
    StepOr(vm, 6, {}, s, w2, 8);
    ReachesVia(vm, Pl(6, vm, s, w2), end);
    assert w1.marks[1 := 3] == marks && w0.marks[0 := 2] == w1.marks && Below(0) == {};
    Soft(vm, 3, 1, 23, s, w1, end);
    Soft(vm, 0, 0, 32, s, w0, end);
  }

  /** The bodies `Stale` and `OlderWhole` differ only in that `true ; true` in front is `(true ; true) ; fail`, which
      has the same answers.  The code of the one gives four answers for two, the code of the other is right:
      the answers of g do not decide when g is not a plain goal. */
  lemma AnswersDoNotDecide(vm: Vm, s: Store)
    requires vm.cl.arity == 0 && vm.code == GenClause(vm.cl, OlderWhole, 0)
    ensures Solve(vm.p, vm.env, Older, s) == Solve(vm.p, vm.env, Disj(True, True), s)
    ensures Inner == Conj(Disj(True, True), Disj(True, Cut)) && OlderGate == Conj(Older, Disj(True, Cut))
    ensures Reaches(vm, Start(vm, s), Halt(Solve(vm.p, vm.env, OlderWhole, s).answers))
  {
    hide Reaches, GenClause, OlderCode;
    OlderIs(vm.cl);
    OlderEnd(vm, s);
    OlderBegin(vm, s, Halt([s, s]));
    OlderSolves(vm, s);
  }

  lemma OlderSolves(vm: Vm, s: Store)
    ensures Solve(vm.p, vm.env, Older, s) == Solve(vm.p, vm.env, Disj(True, True), s)
    ensures Solve(vm.p, vm.env, OlderWhole, s).answers == [s, s]
  {
    TwoTrues(vm, s);
    StaleSolution(vm.p, vm.env, s);
    hide SolveEach;
    SoftThenFail(vm, OlderGate, s);
    SoftThenFail(vm, Inner, s);
    SoftThenFail(vm, OlderInner, s);
    SoftThenFail(vm, Middle, s);
    assert Solve(vm.p, vm.env, OlderGate, s) == Solve(vm.p, vm.env, Inner, s);
  }

  /** `c *-> true ; fail` is decided by the answers of c. */
  lemma SoftThenFail(vm: Vm, c: Body, s: Store)
    ensures Solve(vm.p, vm.env, Disj(SoftIfThen(c, True), Fail), s) ==
            var found := Solve(vm.p, vm.env, c, s).answers;
            if found == [] then Solution([], false) else SolveEach(vm.p, vm.env, True, found, false)
  {
    hide SolveEach;
  }

  lemma TwoTrues(vm: Vm, s: Store)
    ensures Solve(vm.p, vm.env, Disj(True, True), s) == Solution([s, s], false) == Solve(vm.p, vm.env, Older, s)
  {
    var two := Solve(vm.p, vm.env, Disj(True, True), s);
    assert two == Solution([s, s], false) by { assert [s] + [s] == [s, s]; }
    assert two.answers + [] == two.answers;
  }
}
