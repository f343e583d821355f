// Clauses with a late `!`: what their code answers, and exactly when that is what the body answers.

module LateClauses {
  import opened Terms
  import opened VmCode
  import opened CodeGen
  import opened CodeShapes
  import opened Search
  import opened Machine
  import opened Execution
  import opened Chains
  import opened Answers
  import opened Composition
  import opened ControlSteps
  import opened Control
  import opened Conditions
  import opened SoftConditions
  import opened Layout
  import opened Simulation
  import opened LateCuts
  import opened Correctness

  // ----- the clause -----

  /** The parts of the body compile well by themselves. */
  predicate Suits(n: Nest) {
    && PlainH(n) && NoStaleCut(n.h, true) && NoStaleCut(n.t, true) && NoStaleCut(n.e, true)
    && NoStaleCut(n.t2, false) && NoStaleCut(n.e2, false)
  }

  ghost predicate Clausal(vm: Vm, n: Nest, slots: nat) {
    && Suits(n) && vm.code == GenClause(vm.cl, Whole(n, Cut), slots)
    && ProperBody(Whole(n, Cut)) && Below(vm.cl.arity) <= Below(vm.cl.bits)
        && BodyVars(Whole(n, Cut)) <= Below(vm.cl.bits)
  }

  /** Around the outer condition: nothing but the choice point that C_SOFTIF makes. */
  function OuterScope(n: Nest, v: nat): Scope {
    SoftScope(Inner(n, Cut), v, 2)
  }

  /** The clause, behind the first answer of the outer condition. */
  const Afterwards := Scope(ClauseScope, Some(1), 2)

  /** Where the inner conditional is, in the code of the clause, and what it does. */
  lemma InnerStands(vm: Vm, n: Nest, slots: nat, v0: nat, used: set<nat>, pc: nat) returns (k: Spot, z: Door)
    requires Suits(n) && Laid(vm, Inner(n, Cut), false, LocalCut(C_LSCUT, v0), used, v0 + 1, pc)
    ensures Stands(vm, n, k, z) && z.pc == pc && z.used == used && z.sc == OuterScope(n, v0)
    ensures z.x == End(vm, Inner(n, Cut), false, LocalCut(C_LSCUT, v0), used, v0 + 1, pc) && z.own ==
            SlotsOf(Inner(n, Cut), v0 + 1)
  {
    hide *;
    var o, gate, v, local, sc := Inner(n, Cut), Gate(n, Cut), v0 + 1, LocalOf(false, v0 + 1), OuterScope(n, v0);
    Shapes(n, v0);
    Shapes(n, v);
    var cc, pe := IfElseLaid(vm, false, gate, n.t, n.e, false, LocalCut(C_LSCUT, v0), used, v, pc);
    CommitIs(false, cc);
    var x, xi := End(vm, o, false, LocalCut(C_LSCUT, v0), used, v, pc),
        End(vm, gate, false, local, used, v + 1, pc + 3);
    k := GateSits(vm, n, v, used, pc + 3);
    var vt, ve := v + 1 + Slots(gate), v + 1 + Slots(gate) + Slots(n.t);
    OuterAllows(vm, n, v0, used, xi.used, vt, xi.pc + 2, ve, pe);
    Simulates(vm, n.t, false, LocalCut(C_LSCUT, v0), xi.used, vt, xi.pc + 2, sc, sc);
    BehavesVia(vm, sc, sc, End(vm, n.t, false, LocalCut(C_LSCUT, v0), xi.used, vt, xi.pc + 2), x, SlotsOf(n.t, vt),
        xi.pc + 2, xi.used, n.t);
    Simulates(vm, n.e, false, LocalCut(C_LSCUT, v0), used, ve, pe, sc, sc);
    BehavesVia(vm, sc, sc, End(vm, n.e, false, LocalCut(C_LSCUT, v0), used, ve, pe), x, SlotsOf(n.e, ve), pe, used,
        n.e);
    z := Door(pc, pe, used, sc, x, SlotsOf(n.t, vt), SlotsOf(n.e, ve), SlotsOf(o, v));
    DoorApart(n, v0, k, z);
    StandsIs(vm, n, k, z, pc);
  }

  lemma Shapes(n: Nest, v0: nat)
    ensures Inner(n, Cut) == Disj(IfPart(false, Gate(n, Cut), n.t), n.e) && Whole(n, Cut) ==
            Disj(IfPart(false, Inner(n, Cut), n.t2), n.e2)
    ensures LocalOf(false, v0) == LocalCut(C_LSCUT, v0) && Gate(n, Cut) == Conj(Goal(n.f, n.ts), Disj(n.h, Cut))
    ensures Slots(Gate(n, Cut)) == Slots(n.h) && OuterScope(n, v0) == SoftScope(Inner(n, Cut), v0, 2)
    ensures Slots(Inner(n, Cut)) == 1 + Slots(Gate(n, Cut)) + Slots(n.t) + Slots(n.e)
    ensures Slots(Whole(n, Cut)) == 1 + Slots(Inner(n, Cut)) + Slots(n.t2) + Slots(n.e2)
  {
    assert Slots(Disj(n.h, Cut)) == Slots(n.h);
    assert Slots(SoftIfThen(Gate(n, Cut), n.t)) == 1 + Slots(Gate(n, Cut)) + Slots(n.t);
    assert Slots(SoftIfThen(Inner(n, Cut), n.t2)) == 1 + Slots(Inner(n, Cut)) + Slots(n.t2);
  }

  /** The inner condition: g, C_OR, h and the late `!`. */
  lemma GateSits(vm: Vm, n: Nest, v: nat, used: set<nat>, pc: nat) returns (k: Spot)
    requires Suits(n) && Laid(vm, Gate(n, Cut), false, LocalCut(C_LSCUT, v), used, v + 1, pc)
    requires At(vm.code, End(vm, Gate(n, Cut), false, LocalCut(C_LSCUT, v), used, v + 1, pc).pc,
             [Ins(C_SOFTCUT), Num(v)])
    ensures Sits(vm, n, k) && k.v == v && k.xi == End(vm, Gate(n, Cut), false, LocalCut(C_LSCUT, v), used, v + 1, pc)
            && k.own == SlotsOf(n.h, v + 1)
    ensures ProperTerms(n.ts) && Below(vm.cl.arity) <= used && At(vm.code, pc, GenGoal(vm.cl, n.f, n.ts, false, used))
    ensures k.xg == Exit(pc + |GenGoal(vm.cl, n.f, n.ts, false, used)|, used + VarsOf(n.ts), false)
  {
    hide *;
    var g, r, cut := Goal(n.f, n.ts), Disj(n.h, Cut), LocalCut(C_LSCUT, v);
    Shapes(n, v);
    ConjLaid(vm, g, r, false, cut, used, v + 1, pc);
    GoalLaid(vm, n, cut, used, v + 1, pc);
    var xg, xi := End(vm, g, false, cut, used, v + 1, pc), End(vm, Gate(n, Cut), false, cut, used, v + 1, pc);
    HIsPlain(n);
    var pr := OrLaid(vm, n.h, Cut, false, cut, xg.used, v + 1, xg.pc);
    CutLaid(vm, v, xg.used, v + 1 + Slots(n.h), pr);
    var own := SlotsOf(n.h, v + 1);
    SlotsAre(n.h, v + 1);
    forall floor: nat ensures Behaves(vm, Free(floor), Free(floor), xi, own, xg.pc + 2, xg.used, n.h) {
      FreeAllows(vm, n, cut, xg.used, v + 1, xg.pc + 2, floor);
      Simulates(vm, n.h, false, cut, xg.used, v + 1, xg.pc + 2, Free(floor), Free(floor));
      BehavesVia(vm, Free(floor), Free(floor), End(vm, n.h, false, cut, xg.used, v + 1, xg.pc + 2), xi, own, xg.pc
          + 2, xg.used, n.h);
    }
    k := Spot(v, xg, pr, xi, own);
    EndIs(vm, Gate(n, Cut), false, cut, used, v + 1, pc);
    SitsIs(vm, n, k);
  }

  lemma HIsPlain(n: Nest)
    requires Suits(n)
    ensures !n.h.IfThen? && !n.h.SoftIfThen? && PlainH(n)
  {
  }

  lemma GoalLaid(vm: Vm, n: Nest, cut: CutInfo, used: set<nat>, slots: nat, pc: nat)
    requires Laid(vm, Goal(n.f, n.ts), false, cut, used, slots, pc)
    ensures ProperTerms(n.ts) && Below(vm.cl.arity) <= used && At(vm.code, pc, GenGoal(vm.cl, n.f, n.ts, false, used))
    ensures End(vm, Goal(n.f, n.ts), false, cut, used, slots, pc) ==
            Exit(pc + |GenGoal(vm.cl, n.f, n.ts, false, used)|, used + VarsOf(n.ts), false)
    ensures Slots(Goal(n.f, n.ts)) == 0
  {
    hide GenGoal, At, Below;
  }

  lemma CutLaid(vm: Vm, v: nat, used: set<nat>, slots: nat, pc: nat)
    requires Laid(vm, Cut, false, LocalCut(C_LSCUT, v), used, slots, pc)
    ensures At(vm.code, pc, [Ins(C_LSCUT), Num(v)])
    ensures End(vm, Cut, false, LocalCut(C_LSCUT, v), used, slots, pc) == Exit(pc + 2, used, false)
  {
    hide At, Below;
    assert used + {} == used;
  }

  lemma FreeAllows(vm: Vm, n: Nest, cut: CutInfo, used: set<nat>, slots: nat, pc: nat, floor: nat)
    requires Suits(n) && Laid(vm, n.h, false, cut, used, slots, pc)
    ensures Compiled(vm, n.h, false, cut, used, slots, pc, Free(floor), Free(floor))
  {
    hide Laid, NoStaleCut, CutsIn, CutMatches;
  }

  lemma SitsIs(vm: Vm, n: Nest, k: Spot)
    requires k.v < k.own.lo <= k.own.hi && !k.xi.dep && k.xg.pc + 2 <= k.pcut
    requires At(vm.code, k.xg.pc, [Ins(C_OR), Num(k.pcut - k.xg.pc - 2)])
    requires At(vm.code, k.pcut, [Ins(C_LSCUT), Num(k.v)])
    requires LeadsTo(vm, Exit(k.pcut + 2, k.xg.used, false), k.xi)
    requires At(vm.code, k.xi.pc, [Ins(C_SOFTCUT), Num(k.v)])
    requires forall floor: nat :: Behaves(vm, Free(floor), Free(floor), k.xi, k.own, k.xg.pc + 2, k.xg.used, n.h)
    ensures Sits(vm, n, k)
  {
    hide Behaves, At, LeadsTo;
  }

  /** t and e in the scope of the outer condition. */
  lemma OuterAllows(vm: Vm, n: Nest, v0: nat, used: set<nat>, usedT: set<nat>, vt: nat, pt: nat, ve: nat, pe: nat)
    requires Suits(n) && Laid(vm, n.t, false, LocalCut(C_LSCUT, v0), usedT, vt, pt)
             && Laid(vm, n.e, false, LocalCut(C_LSCUT, v0), used, ve, pe)
    requires v0 < vt && v0 < ve
    ensures var sc := OuterScope(n, v0);
            && Compiled(vm, n.t, false, LocalCut(C_LSCUT, v0), usedT, vt, pt, sc, sc)
            && Compiled(vm, n.e, false, LocalCut(C_LSCUT, v0), used, ve, pe, sc, sc)
  {
    hide Laid, NoStaleCut;
    assert CutsIn(Inner(n, Cut)) == (CutsIn(SoftIfThen(Gate(n, Cut), n.t)) || CutsIn(n.e));
    assert CutsIn(SoftIfThen(Gate(n, Cut), n.t)) == CutsIn(n.t);
  }

  lemma DoorApart(n: Nest, v0: nat, k: Spot, z: Door)
    requires var gate := Gate(n, Cut);
             && k.v == v0 + 1 && k.own == SlotsOf(n.h, k.v + 1) && z.sc == OuterScope(n, v0) && z.own ==
                 SlotsOf(Inner(n, Cut), k.v)
             && z.ot == SlotsOf(n.t, k.v + 1 + Slots(gate)) && z.oe == SlotsOf(n.e, k.v + 1 + Slots(gate) + Slots(n.t))
    ensures Apart(z.sc, Taken(k), z.ot, z.own) && Within(z.oe, z.own)
    ensures z.sc.pin.None? && z.sc.stale.None? && !z.sc.kind.Spent?
  {
    Shapes(n, v0);
    hide Slots, Gate, Inner;
  }

  lemma StandsIs(vm: Vm, n: Nest, k: Spot, z: Door, pc: nat)
    requires Sits(vm, n, k) && Suits(n) && z.pc == pc && pc + 3 <= z.pe
             && At(vm.code, pc, [Ins(C_SOFTIF), Num(k.v), Num(z.pe - pc - 3)])
    requires ProperTerms(n.ts) && Below(vm.cl.arity) <= z.used
             && At(vm.code, pc + 3, GenGoal(vm.cl, n.f, n.ts, false, z.used))
    requires k.xg == Exit(pc + 3 + |GenGoal(vm.cl, n.f, n.ts, false, z.used)|, z.used + VarsOf(n.ts), false)
    requires z.sc.pin.None? && z.sc.stale.None? && !z.sc.kind.Spent?
    requires Behaves(vm, z.sc, z.sc, z.x, z.ot, k.xi.pc + 2, k.xi.used, n.t)
             && Behaves(vm, z.sc, z.sc, z.x, z.oe, z.pe, z.used, n.e)
    requires Apart(z.sc, Taken(k), z.ot, z.own) && Within(z.oe, z.own)
    ensures Stands(vm, n, k, z)
  {
    hide Behaves, Sits, At, Apart, Within, GenGoal, VarsOf, ProperTerms;
  }

  // ----- running the clause -----

  /** Around the outer condition when it starts. */
  function Entered(vm: Vm, v: nat, pe: nat, used: set<nat>, s: Store): Around {
    Around([Choice(1, Base), Choice(2, Machine.Jump(pe, FrameOf(vm.env, used), s))], map[v := 2], map[], 3, [])
  }

  lemma EnteredFits(vm: Vm, n: Nest, v: nat, pe: nat, used: set<nat>, s: Store)
    ensures var a := Entered(vm, v, pe, used, s);
            Fits(OuterScope(n, v), a) && Top(a.kc) == 2 && Sorted(a.kc)
            && a == Around(Caller(map[], map[], 2, []).kc + [] + [a.kc[1]], map[v := 2], map[], 3, [])
  {
    hide FrameOf;
    var base, a := [Choice(1, Base)], Entered(vm, v, pe, used, s);
    assert a.kc == base + [a.kc[1]] && base + [] == base;
    SoftFits(Inner(n, Cut), base, a.kc[1], a, v);
  }

  /** The parts of the clause around the outer condition: what its alternatives do up to the end of the clause. */
  ghost predicate Outer(vm: Vm, n: Nest, v: nat, x: Exit, xo: Exit, pe: nat, ot: Own, oe: Own, own: Own) {
    && Behaves(vm, Afterwards, Afterwards, x, ot, xo.pc + 2, xo.used, n.t2)
        && Behaves(vm, Outermost, Outermost, x, oe, pe, Below(vm.cl.arity), n.e2)
    && At(vm.code, 0, [Ins(C_SOFTIF), Num(v), Num(pe - 3)]) && 3 <= pe
        && At(vm.code, xo.pc, [Ins(C_SOFTCUT), Num(v)]) && !xo.dep
    && vm.code != [] && vm.code[ExitPc(vm)] == Ins(I_EXIT) && x.pc == ExitPc(vm)
  }

  lemma OuterStarts(vm: Vm, v: nat, pe: nat, s: Store)
    requires At(vm.code, 0, [Ins(C_SOFTIF), Num(v), Num(pe - 3)]) && 3 <= pe
    ensures var a := Entered(vm, v, pe, Below(vm.cl.arity), s);
            Reaches(vm, Start(vm, s), ConfigOf(Entry(vm, 3, Below(vm.cl.arity), s, [], 3), a))
    ensures Start(vm, s) == ConfigOf(Entry(vm, 0, Below(vm.cl.arity), s, [], 2), Caller(map[], map[], 2, []))
  {
    hide Reaches, Step, Steps, FrameOf, At, Below;
    var w := World([Choice(1, Base)], map[], map[], 2, []);
    StepIfElse(vm, C_SOFTIF, 0, Below(vm.cl.arity), s, w, v, pe - 3);
    ReachesStep(vm, Start(vm, s));
    var a := Entered(vm, v, pe, Below(vm.cl.arity), s);
    assert a.kc + [] == [Choice(1, Base)] + [a.kc[1]] && [Choice(1, Base)] + [] == [Choice(1, Base)];
    assert map[][v := 2] == map[v := 2];
  }

  /** The outer condition has failed: the other branch runs to the end. */
  lemma OuterFails(vm: Vm, n: Nest, v: nat, x: Exit, xo: Exit, pe: nat, ot: Own, oe: Own, own: Own, oc: Own,
        cut: bool, s: Store, w: World)
    requires Outer(vm, n, v, x, xo, pe, ot, oe, own)
    requires Exhausts(vm, oc, [], Entry(vm, 3, Below(vm.cl.arity), s, [], 3),
             Entered(vm, v, pe, Below(vm.cl.arity), s), cut, w)
    ensures Reaches(vm, Start(vm, s), Halt(Solve(vm.p, vm.env, n.e2, s).answers))
  {
    hide Reaches, Step, Steps, FrameOf, At, Below, Behaves, Solve, Delivers, SameOutside;
    var a, p, used, base := Entered(vm, v, pe, Below(vm.cl.arity), s), Entry(vm, 3, Below(vm.cl.arity), s, [], 3),
        Below(vm.cl.arity), [Choice(1, Base)];
    OuterStarts(vm, v, pe, s);
    assert a.kc == base + [a.kc[1]];
    GuardFails(vm, oc, p, a, cut, w, base, a.kc[1], pe, used, s);
    var a1 := Caller(w.marks, w.dead, w.next, []);
    PartRuns(vm, Outermost, Outermost, x, oe, pe, used, n.e2, s, [], a1);
    var q, sol := Entry(vm, pe, used, s, [], a1.next), Solve(vm.p, vm.env, n.e2, s);
    assert a1.kc + [] == base;
    Drain(vm, Outermost, x, oe, q, sol.answers, sol.cut, w.marks, w.dead, w.next, []);
    assert [] + sol.answers == sol.answers;
    ReachesTrans(vm, Start(vm, s), ConfigOf(p, a), ConfigOf(q, a1));
    ReachesTrans(vm, Start(vm, s), ConfigOf(q, a1), Halt(sol.answers));
  }

  /** The outer condition has an answer: its choice point is unlinked, and further answers come as they came. */
  lemma OuterUnlinks(vm: Vm, n: Nest, v: nat, xo: Exit, pe: nat, oc: Own, s: Store, z: Solution, ld: Landing)
        returns (ld1: Landing)
    requires At(vm.code, 0, [Ins(C_SOFTIF), Num(v), Num(pe - 3)]) && 3 <= pe
             && At(vm.code, xo.pc, [Ins(C_SOFTCUT), Num(v)]) && !xo.dep
    requires z.answers != [] && v < oc.lo <= oc.hi
    requires var sc, p, a := OuterScope(n, v).(stale := Some(2)), Entry(vm, 3, Below(vm.cl.arity), s, [], 3),
             Entered(vm, v, pe, Below(vm.cl.arity), s);
             Lands(vm, sc, xo, oc, p, a, z.answers[0], ld)
                 && Yields(vm, sc, xo, oc, [], More(oc, ld), z.answers[1..], z.cut)
    ensures var late, a1, x1 := Afterwards.(stale := Some(2)), Caller(ld1.marks, ld1.dead, ld1.next, []),
            Committed(xo, C_SOFTCUT, v);
            && Fits(late, a1) && Above(ld1.l, 2) && Top(ld1.l) < ld1.next
            && Reaches(vm, Start(vm, s), ConfigOf(EntryMore(vm, x1, Own(v, oc.hi), z.answers[0], ld1), a1))
            && Yields(vm, late, x1, Own(v, oc.hi), [], More(Own(v, oc.hi), ld1), z.answers[1..], false)
  {
    hide *;
    var sc, used, a0 := OuterScope(n, v).(stale := Some(2)), Below(vm.cl.arity), Caller(map[], map[], 2, []);
    var p0, p, a := Entry(vm, 0, used, s, [], 2), Entry(vm, 3, used, s, [], 3), Entered(vm, v, pe, used, s);
    OuterStarts(vm, v, pe, s);
    EnteredFits(vm, n, v, pe, used, s);
    CallerStart();
    EmptyAbove(1);
    OuterFloor(n, v);
    LandedFacts(vm, sc, xo, oc, p, a, z.answers[0], ld);
    EnteredIs(vm, v, pe, used, s);
    ld1 := UnlinkLanding(vm, Outermost, sc, xo, oc, v, [], p0, p, z.answers[0], a0, a, a.kc[1], ld);
    var late, oa, x1 := Afterwards.(stale := Some(2)), Own(v, oc.hi), Committed(xo, C_SOFTCUT, v);
    AfterFits(n, v, xo, oc, ld, ld1, vm, p0, a0, z.answers[0]);
    OuterResumes(vm, n, v, xo, oc);
    RebaseYields(vm, late, sc, xo, oc, v, -1, C_SOFTCUT, [], [], More(oc, ld), z.answers[1..], z.cut);
    UnderNone([], z.cut);
    Widen(vm, late, x1, oa, oa, [], Over(More(oc, ld), [], v, -1), More(oa, ld1).m, z.answers[1..], false);
    CommittedIs(xo, v);
    LandedAt(vm, x1, oa, p0, a0, z.answers[0], ld1);
  }

  lemma CommittedIs(xo: Exit, v: nat)
    ensures Committed(xo, C_SOFTCUT, v) == Exit(xo.pc + 2, xo.used, false)
  {
  }

  lemma EnteredIs(vm: Vm, v: nat, pe: nat, used: set<nat>, s: Store)
    ensures var a := Entered(vm, v, pe, used, s);
            && |a.kc| == 2 && a.kc[1].addr == 2 && a.next == 3
            && Caller(map[], map[], 2, []).next == 2
    ensures var a0 := Caller(map[], map[], 2, []); a0.marks == map[] && a0.dead == map[] && a0.out == []
  {
    hide FrameOf;
  }

  /** Then the action runs on every answer. */
  lemma OuterSucceeds(vm: Vm, n: Nest, v: nat, x: Exit, xo: Exit, pe: nat, ot: Own, oe: Own, own: Own, oc: Own,
        s: Store, z: Solution, ld: Landing)
    requires Outer(vm, n, v, x, xo, pe, ot, oe, own) && z.answers != []
    requires v < oc.lo <= oc.hi && Apart(Afterwards, Own(v, oc.hi), ot, own)
    requires var sc, p, a := OuterScope(n, v).(stale := Some(2)), Entry(vm, 3, Below(vm.cl.arity), s, [], 3),
             Entered(vm, v, pe, Below(vm.cl.arity), s);
             Lands(vm, sc, xo, oc, p, a, z.answers[0], ld)
                 && Yields(vm, sc, xo, oc, [], More(oc, ld), z.answers[1..], z.cut)
    ensures Reaches(vm, Start(vm, s), Halt(SolveEach(vm.p, vm.env, n.t2, z.answers, false).answers))
  {
    hide *;
    OuterFacts(vm, n, v, x, xo, pe, ot, oe, own);
    var ld1 := OuterUnlinks(vm, n, v, xo, pe, oc, s, z, ld);
    var late, oa, x1 := Afterwards.(stale := Some(2)), Own(v, oc.hi), Committed(xo, C_SOFTCUT, v);
    var a1 := Caller(ld1.marks, ld1.dead, ld1.next, []);
    CommittedIs(xo, v);
    CallerIs(ld1.marks, ld1.dead, ld1.next, []);
    LateNarrow(oa, ot, own);
    NarrowBehaves(vm, Afterwards, late, x, ot, x1.pc, x1.used, n.t2);
    EachFrom(vm, late, x1, x, oa, ot, own, [], ld1, z.answers[0], z.answers[1..], false, n.t2, a1);
    assert [z.answers[0]] + z.answers[1..] == z.answers;
    var q, sol := EntryMore(vm, x1, oa, z.answers[0], ld1), SolveEach(vm.p, vm.env, n.t2, z.answers, false);
    EntryMoreIs(vm, x1, oa, z.answers[0], ld1);
    Drain(vm, late, x, own, q, sol.answers, sol.cut, ld1.marks, ld1.dead, ld1.next, []);
    assert [] + sol.answers == sol.answers;
    ReachesTrans(vm, Start(vm, s), ConfigOf(q, a1), Halt(sol.answers));
  }

  lemma CallerIs(marks: map<nat, int>, dead: map<nat, nat>, next: nat, out: seq<Store>)
    ensures Caller(marks, dead, next, out) == Around([Choice(1, Base)], marks, dead, next, out)
  {
  }

  lemma EntryMoreIs(vm: Vm, xa: Exit, oa: Own, s: Store, ld: Landing)
    ensures EntryMore(vm, xa, oa, s, ld).l == ld.l
  {
  }

  lemma OuterFacts(vm: Vm, n: Nest, v: nat, x: Exit, xo: Exit, pe: nat, ot: Own, oe: Own, own: Own)
    requires Outer(vm, n, v, x, xo, pe, ot, oe, own)
    ensures Behaves(vm, Afterwards, Afterwards, x, ot, xo.pc + 2, xo.used, n.t2)
    ensures At(vm.code, 0, [Ins(C_SOFTIF), Num(v), Num(pe - 3)]) && 3 <= pe
            && At(vm.code, xo.pc, [Ins(C_SOFTCUT), Num(v)]) && !xo.dep
    ensures vm.code != [] && vm.code[ExitPc(vm)] == Ins(I_EXIT) && x.pc == ExitPc(vm)
  {
    hide Behaves, At;
  }

  lemma OuterFloor(n: Nest, v: nat)
    ensures OuterScope(n, v).(stale := Some(2)).floor == 2
  {
  }

  lemma CallerStart()
    ensures var a := Caller(map[], map[], 2, []);
            Fits(Outermost, a) && Top([]) < a.next && a.kc + [] == a.kc && Top(a.kc + []) == 1 && map[] == a.marks
                && map[] == a.dead
  {
    var a := Caller(map[], map[], 2, []);
    assert a.kc + [] == a.kc;
  }

  lemma LandedAt(vm: Vm, x1: Exit, oa: Own, p0: Place, a0: Around, s: Store, ld1: Landing)
    requires Lands(vm, Outermost, x1, oa, p0, a0, s, ld1) && !x1.dep
    ensures Reaches(vm, ConfigOf(p0, a0), ConfigOf(EntryMore(vm, x1, oa, s, ld1), After(a0, ld1)))
  {
    hide Reaches;
    LandedFacts(vm, Outermost, x1, oa, p0, a0, s, ld1);
  }

  /** What is around when the outer condition has had an answer. */
  lemma AfterFits(n: Nest, v: nat, xo: Exit, oc: Own, ld: Landing, ld1: Landing, vm: Vm, p0: Place, a0: Around,
        s: Store)
    requires a0 == Caller(map[], map[], 2, []) && ld1 == UnlinkedLanding(xo, v, [], a0, ld) && v < oc.lo <= oc.hi
    requires Above(ld.l, 2) && Top(ld.l) < ld.next && 2 < ld.next
    ensures var a1 := After(a0, ld1);
            && Fits(Afterwards.(stale := Some(2)), a1) && a1 == Caller(ld1.marks, ld1.dead, ld1.next, [])
                && a1.next == ld1.next
            && Above(ld1.l, 2) && Top(ld1.l) < ld1.next && a1.marks == ld1.marks
  {
    CallerStart();
    assert [] + ld.l == ld.l;
  }

  lemma LateNarrow(oa: Own, ot: Own, own: Own)
    requires Apart(Afterwards, oa, ot, own)
    ensures var late := Afterwards.(stale := Some(2));
            && Narrower(late, Afterwards) && Apart(late, oa, ot, own)
            && late.kind == ClauseScope && late.floor == 2
  {
  }

  lemma OuterResumes(vm: Vm, n: Nest, v: nat, xo: Exit, oc: Own)
    requires At(vm.code, xo.pc, [Ins(C_SOFTCUT), Num(v)]) && !xo.dep && v < oc.lo <= oc.hi
    ensures Resumes(vm, Afterwards.(stale := Some(2)), OuterScope(n, v).(stale := Some(2)), xo, oc, v, -1, C_SOFTCUT,
            [])
  {
    var late, sc := Afterwards.(stale := Some(2)), OuterScope(n, v).(stale := Some(2));
    forall a: Around | Fits(late, a) && v in a.marks && a.marks[v] == -1 && sc.floor < a.next
        ensures Fits(sc, On(a, [])) {
      assert a.kc + [] == a.kc;
    }
  }

  lemma ActionAllows(vm: Vm, n: Nest, usedT: set<nat>, vt: nat, pt: nat, ve: nat, pe: nat)
    requires Suits(n) && Laid(vm, n.t2, true, ClauseCut, usedT, vt, pt)
             && Laid(vm, n.e2, true, ClauseCut, Below(vm.cl.arity), ve, pe)
    ensures Compiled(vm, n.t2, true, ClauseCut, usedT, vt, pt, Afterwards, Afterwards)
    ensures Compiled(vm, n.e2, true, ClauseCut, Below(vm.cl.arity), ve, pe, Outermost, Outermost)
  {
    hide Laid, NoStaleCut;
  }

  lemma OuterIs(vm: Vm, n: Nest, v: nat, x: Exit, xo: Exit, pe: nat, ot: Own, oe: Own, own: Own)
    requires Behaves(vm, Afterwards, Afterwards, x, ot, xo.pc + 2, xo.used, n.t2)
             && Behaves(vm, Outermost, Outermost, x, oe, pe, Below(vm.cl.arity), n.e2)
    requires At(vm.code, 0, [Ins(C_SOFTIF), Num(v), Num(pe - 3)]) && 3 <= pe
             && At(vm.code, xo.pc, [Ins(C_SOFTCUT), Num(v)]) && !xo.dep
    requires vm.code != [] && vm.code[ExitPc(vm)] == Ins(I_EXIT) && x.pc == ExitPc(vm)
    ensures Outer(vm, n, v, x, xo, pe, ot, oe, own)
  {
    hide Behaves, At;
  }

  /** The clause ends in I_EXIT, behind the code of its body. */
  lemma ClauseLaid(vm: Vm, n: Nest, slots: nat)
    requires Clausal(vm, n, slots)
    ensures Suits(n) && Laid(vm, Whole(n, Cut), true, ClauseCut, Below(vm.cl.arity), slots, 0)
    ensures vm.code != [] && vm.code[ExitPc(vm)] == Ins(I_EXIT)
    ensures End(vm, Whole(n, Cut), true, ClauseCut, Below(vm.cl.arity), slots, 0).pc == ExitPc(vm)
  {
    hide Suits, ProperBody, BodyVars, Gen, At, Whole, Below;
    AtWhole(vm.code, Gen(vm.cl, Whole(n, Cut), true, ClauseCut, Below(vm.cl.arity), slots), [Ins(I_EXIT)]);
  }

  /** Running the code of such a clause to its end gives the answers of the body in which, if the `!` is late,
      `true` stands for it: a late `!` does nothing. */
  lemma LateCutRuns(vm: Vm, n: Nest, slots: nat, s: Store)
    requires Clausal(vm, n, slots)
    ensures Reaches(vm, Start(vm, s), Halt(Solve(vm.p, vm.env, Whole(n, Acting(vm, n, s)), s).answers))
  {
    hide *;
    var b, o, v, used, local := Whole(n, Cut), Inner(n, Cut), slots, Below(vm.cl.arity), LocalCut(C_LSCUT, slots);
    ClauseLaid(vm, n, slots);
    Shapes(n, v);
    var cc, pe := IfElseLaid(vm, false, o, n.t2, n.e2, true, ClauseCut, used, v, 0);
    CommitIs(false, cc);
    var x, xo, vt, ve := End(vm, b, true, ClauseCut, used, v, 0), End(vm, o, false, local, used, v + 1, 3), v + 1
        + Slots(o), v + 1 + Slots(o) + Slots(n.t2);
    var ot, oe, own := SlotsOf(n.t2, vt), SlotsOf(n.e2, ve), SlotsOf(b, v);
    ActionAllows(vm, n, xo.used, vt, xo.pc + 2, ve, pe);
    Simulates(vm, n.t2, true, ClauseCut, xo.used, vt, xo.pc + 2, Afterwards, Afterwards);
    BehavesVia(vm, Afterwards, Afterwards, End(vm, n.t2, true, ClauseCut, xo.used, vt, xo.pc + 2), x, ot, xo.pc + 2,
        xo.used, n.t2);
    Simulates(vm, n.e2, true, ClauseCut, used, ve, pe, Outermost, Outermost);
    BehavesVia(vm, Outermost, Outermost, End(vm, n.e2, true, ClauseCut, used, ve, pe), x, oe, pe, used, n.e2);
    OuterIs(vm, n, v, x, xo, pe, ot, oe, own);
    var k, z := InnerStands(vm, n, slots, v, used, 3);
    EnteredFits(vm, n, v, pe, used, s);
    InnerDelivers(vm, n, k, z, s, Entered(vm, v, pe, used, s));
    WholeSlots(n, v);
    WholeRuns(vm, n, v, x, xo, pe, ot, oe, own, s);
  }

  lemma WholeSlots(n: Nest, v: nat)
    ensures var o := Inner(n, Cut);
            var oc, ot := SlotsOf(o, v + 1), SlotsOf(n.t2, v + 1 + Slots(o));
            v < oc.lo <= oc.hi && Apart(Afterwards, Own(v, oc.hi), ot, SlotsOf(Whole(n, Cut), v))
  {
    Shapes(n, v);
    hide Slots, Inner, Whole;
  }

  lemma WholeRuns(vm: Vm, n: Nest, v: nat, x: Exit, xo: Exit, pe: nat, ot: Own, oe: Own, own: Own, s: Store)
    requires Outer(vm, n, v, x, xo, pe, ot, oe, own)
    requires var oc := SlotsOf(Inner(n, Cut), v + 1); v < oc.lo <= oc.hi && Apart(Afterwards, Own(v, oc.hi), ot, own)
    requires var sol, a := Solve(vm.p, vm.env, Inner(n, Acting(vm, n, s)), s),
             Entered(vm, v, pe, Below(vm.cl.arity), s);
             Delivers(vm, OuterScope(n, v).(stale := Some(2)), xo, SlotsOf(Inner(n, Cut), v + 1), [],
                 Entry(vm, 3, Below(vm.cl.arity), s, [], 3), sol.answers, sol.cut, a)
    ensures Reaches(vm, Start(vm, s), Halt(Solve(vm.p, vm.env, Whole(n, Acting(vm, n, s)), s).answers))
  {
    hide *;
    var last, oc, sc := Acting(vm, n, s), SlotsOf(Inner(n, Cut), v + 1), OuterScope(n, v).(stale := Some(2));
    var sol, a, p := Solve(vm.p, vm.env, Inner(n, last), s), Entered(vm, v, pe, Below(vm.cl.arity), s),
        Entry(vm, 3, Below(vm.cl.arity), s, [], 3);
    SoftElseSolves(vm, Inner(n, last), n.t2, n.e2, s);
    WholeIs(n, last);
    if sol.answers == [] {
      var w := NoneDelivered(vm, sc, xo, oc, [], p, sol.cut, a);
      OuterFails(vm, n, v, x, xo, pe, ot, oe, own, oc, sol.cut, s, w);
    } else {
      var ld := FirstDelivered(vm, sc, xo, oc, [], p, sol.answers, sol.cut, a);
      OuterSucceeds(vm, n, v, x, xo, pe, ot, oe, own, oc, s, sol, ld);
    }
  }

  lemma WholeIs(n: Nest, last: Body)
    ensures Whole(n, last) == Disj(SoftIfThen(Inner(n, last), n.t2), n.e2)
  {
  }

  // ----- exactly when the answers are right -----

  /** What the code answers too many when the `!` is late: t2 on the answers of t on what the further answers
      of g lead to, unless something has cut before. */
  function TooMany(vm: Vm, n: Nest, s: Store): seq<Store> {
    if !Late(vm, n, s) then []
    else
      var found := Found(vm, n, s);
      var first := SolveEach(vm.p, vm.env, n.t, Solve(vm.p, vm.env, n.h, found[0]).answers + [found[0]], false);
      var more := SolveEach(vm.p, vm.env, n.t, Tried(vm, n, found[1..]).answers, false);
      if first.cut || SolveEach(vm.p, vm.env, n.t2, first.answers, false).cut then []
      else SolveEach(vm.p, vm.env, n.t2, more.answers, false).answers
  }

  lemma WholeSolves(vm: Vm, n: Nest, s: Store)
    requires PlainH(n)
    ensures Solve(vm.p, vm.env, Whole(n, Acting(vm, n, s)), s).answers ==
            Solve(vm.p, vm.env, Whole(n, Cut), s).answers + TooMany(vm, n, s)
  {
    var right := Solve(vm.p, vm.env, Whole(n, Cut), s).answers;
    if !Late(vm, n, s) {
      assert right + [] == right;
    } else {
      var found := Found(vm, n, s);
      var g := found[0];
      var hs, more := Solve(vm.p, vm.env, n.h, g).answers, Tried(vm, n, found[1..]).answers;
      GateSolves(vm, n, s, Cut);
      GateSolves(vm, n, s, True);
      assert [g] + found[1..] == found;
      TryMore(vm, n, g, found[1..]);
      SoftElseSolves(vm, Gate(n, Cut), n.t, n.e, s);
      SoftElseSolves(vm, Gate(n, True), n.t, n.e, s);
      SoftElseSolves(vm, Inner(n, Cut), n.t2, n.e2, s);
      SoftElseSolves(vm, Inner(n, True), n.t2, n.e2, s);
      hide Solve, SolveEach, Tried, Gate;
      EachJoin(vm.p, vm.env, n.t, hs, [g], false);
      EachJoin(vm.p, vm.env, n.t, hs + [g], more, false);
      var first, others := SolveEach(vm.p, vm.env, n.t, hs + [g], false), SolveEach(vm.p, vm.env, n.t, more, false);
      EachJoin(vm.p, vm.env, n.t2, first.answers, others.answers, false);
      assert right + [] == right;
    }
  }

  /** The code gives the answers of the body if and only if it gives nothing too many. */
  lemma LateCutExact(vm: Vm, n: Nest, slots: nat, s: Store)
    requires Clausal(vm, n, slots)
    ensures Reaches(vm, Start(vm, s), Halt(Solve(vm.p, vm.env, Whole(n, Cut), s).answers)) <==> TooMany(vm, n, s) == []
    ensures Reaches(vm, Start(vm, s), Halt(Solve(vm.p, vm.env, Whole(n, Cut), s).answers + TooMany(vm, n, s)))
  {
    hide Solve, Reaches, Whole, TooMany, Start, Clausal;
    ClauseLaid(vm, n, slots);
    HIsPlain(n);
    LateCutRuns(vm, n, slots, s);
    WholeSolves(vm, n, s);
    var right, more := Solve(vm.p, vm.env, Whole(n, Cut), s).answers, TooMany(vm, n, s);
    assert right + [] == right;
    if Reaches(vm, Start(vm, s), Halt(right)) {
      HaltOnce(vm, Start(vm, s), right, right + more);
      assert |right + more| == |right| + |more|;
    }
  }

  /** A run ends in one way. */
  lemma HaltOnce(vm: Vm, c: Config, out: seq<Store>, out1: seq<Store>)
    requires Reaches(vm, c, Halt(out)) && Reaches(vm, c, Halt(out1))
    ensures out == out1
  {
    hide Step;
    var m: nat :| Steps(vm, c, m) == Halt(out);
    var k: nat :| Steps(vm, c, k) == Halt(out1);
    if m <= k {
      StepsAdd(vm, c, m, k - m);
      FinalStays(vm, Halt(out), k - m);
    } else {
      StepsAdd(vm, c, k, m - k);
      FinalStays(vm, Halt(out1), m - k);
    }
  }

  /** The plainest of these bodies: wrong exactly when g has a second answer and h has one on the first. */
  lemma PlainLateCut(vm: Vm, n: Nest, slots: nat, s: Store)
    requires Clausal(vm, n, slots) && n.t == True && n.t2 == True && n.e == Fail && n.e2 == Fail
    ensures var found := Found(vm, n, s);
            Reaches(vm, Start(vm, s), Halt(Solve(vm.p, vm.env, Whole(n, Cut), s).answers)) <==>
            |found| < 2 || Solve(vm.p, vm.env, n.h, found[0]).answers == []
  {
    hide Clausal, Reaches, Start, Whole;
    ClauseLaid(vm, n, slots);
    HIsPlain(n);
    LateCutExact(vm, n, slots, s);
    var found := Found(vm, n, s);
    if |found| > 1 {
      var g := found[0];
      var hs, more := Solve(vm.p, vm.env, n.h, g).answers, Tried(vm, n, found[1..]).answers;
      EachSame(vm, hs);
      EachSame(vm, hs + [g]);
      EachSame(vm, more);
      assert [found[1]] + found[2..] == found[1..];
      TryMore(vm, n, found[1], found[2..]);
      assert more != [];
    }
  }

  lemma {:induction false} EachSame(vm: Vm, stores: seq<Store>)
    ensures SolveEach(vm.p, vm.env, True, stores, false) == Solution(stores, false)
    decreases |stores|
  {
    if stores != [] {
      EachSame(vm, stores[1..]);
      assert [stores[0]] + stores[1..] == stores;
    }
  }

  /** The program in which every call has two answers. */
  const Twice := Program((f: Functor, args: seq<Term>, s: Store) => [s, s], (t: TypeTest, x: Term, s: Store) => true)

  /** The condition of `ClauseCorrect` refuses these bodies, and rightly so: a program tells the difference. */
  lemma SomeProgramTells(vm: Vm, n: Nest, slots: nat, s: Store)
    requires Clausal(vm, n, slots) && n.t == True && n.t2 == True && n.e == Fail && n.e2 == Fail
    requires vm.p == Twice && n.f.User? && Solve(Twice, vm.env, n.h, s).answers != []
    ensures !NoStaleCut(Whole(n, Cut), false)
    ensures !Reaches(vm, Start(vm, s), Halt(Solve(vm.p, vm.env, Whole(n, Cut), s).answers))
  {
    hide Clausal, Reaches, Start;
    assert Found(vm, n, s) == [s, s];
    ClauseLaid(vm, n, slots);
    HIsPlain(n);
    Refused(n);
    hide Whole, Solve;
    PlainLateCut(vm, n, slots, s);
  }

  lemma Refused(n: Nest)
    requires PlainH(n)
    ensures !NoStaleCut(Whole(n, Cut), false)
  {
    MayNotCut(n.h);
    assert LateCut(Disj(n.h, Cut));
    assert LateCut(Gate(n, Cut));
    assert !NoStaleCut(Inner(n, Cut), true);
  }

  lemma {:induction false} MayNotCut(b: Body)
    requires !CutsIn(b)
    ensures !AlwaysCuts(b)
  {
    match b
    case Conj(l, r) => MayNotCut(l); MayNotCut(r);
    case Disj(l, r) => MayNotCut(l);
    case IfThen(_, t) => MayNotCut(t);
    case SoftIfThen(_, t) => MayNotCut(t);
    case _ =>
  }
}
