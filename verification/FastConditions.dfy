// Conditions that consist of type tests only: no choice point is made, a failing test jumps.

module FastConditions {
  import opened Terms
  import opened VmCode
  import opened CodeGen
  import opened CodeShapes
  import opened Search
  import opened Machine
  import opened Execution
  import opened Answers
  import opened Composition
  import opened ControlSteps
  import opened Conditions

  /** A conjunction of type tests on initialised variables. */
  predicate OnlyTests(c: Body, used: set<nat>) {
    match c
    case Goal(f, ts) => f.Type? && f.test != TRational && |ts| == 1 && ts[0].Var? && ts[0].index in used
    case Conj(l, r) => OnlyTests(l, used) && OnlyTests(r, used)
    case _ => false
  }

  lemma {:induction false} TestsBindNothing(c: Body, used: set<nat>)
    requires OnlyTests(c, used)
    ensures used + BodyVars(c) == used
  {
    match c
    case Goal(_, ts) =>
      assert ts[1..] == [];
      assert used + VarsOf(ts) == used;
    case Conj(l, r) =>
      TestsBindNothing(l, used);
      TestsBindNothing(r, used);
      assert used + (BodyVars(l) + BodyVars(r)) == used + BodyVars(l) + BodyVars(r);
  }

  lemma {:induction false} AllFastPrefix(a: Code, b: Code, pc: nat)
    requires AllFast(a + b, pc)
    ensures AllFast(a, pc)
    decreases |a + b| - pc
  {
    if pc < |a| {
      assert (a + b)[pc] == a[pc];
      AllFastPrefix(a, b, pc + 2);
    }
  }

  /** Past a first piece of whole instructions, the scan is the scan of the second piece. */
  lemma {:induction false} AllFastJoin(a: Code, b: Code, pc: nat)
    requires AllFast(a, pc) && pc <= |a| && (|a| - pc) % 2 == 0
    ensures AllFast(a + b, pc) <==> AllFast(b, 0)
    decreases |a| - pc
  {
    if pc == |a| {
      AllFastShift(a, b, 0);
    } else {
      assert (a + b)[pc] == a[pc];
      AllFastJoin(a, b, pc + 2);
    }
  }

  lemma {:induction false} AllFastShift(a: Code, b: Code, k: nat)
    ensures AllFast(a + b, |a| + k) <==> AllFast(b, k)
    decreases |b| - k
  {
    if k < |b| {
      assert (a + b)[|a| + k] == b[k];
      AllFastShift(a, b, k + 2);
    }
  }

  lemma StartsSlow(code: Code)
    requires code != [] && !(code[0].Ins? && FastOp(code[0].op))
    ensures !AllFast(code, 0)
  {
  }

  lemma ArgStarts(cl: Clause, t: Term, used: set<nat>)
    ensures var arg := GenArg(cl, t, false, false, used); arg != [] && arg[0].Ins? && !arg[0].op.I_TYPE?
  {
  }

  /** A goal that is not such a test starts with an instruction that is not one either. */
  lemma GoalStarts(cl: Clause, f: Name, ts: seq<Term>, used: set<nat>)
    requires !(f.Type? && |ts| == 1 && ts[0].Var? && ts[0].index in used)
    ensures !AllFast(GenGoal(cl, f, ts, false, used), 0)
  {
    if ts != [] { ArgStarts(cl, ts[0], used); }
    StartsSlow(GenGoal(cl, f, ts, false, used));
  }

  lemma GoalIsTest(cl: Clause, f: Name, ts: seq<Term>, used: set<nat>)
    ensures AllFast(GenGoal(cl, f, ts, false, used), 0) <==> OnlyTests(Goal(f, ts), used)
    ensures OnlyTests(Goal(f, ts), used) ==> |GenGoal(cl, f, ts, false, used)| == 2
  {
    if !(f.Type? && |ts| == 1 && ts[0].Var? && ts[0].index in used) { GoalStarts(cl, f, ts, used); }
  }

  lemma FastJoin(a: Code, b: Code)
    requires AllFast(a, 0) ==> |a| % 2 == 0
    ensures AllFast(a + b, 0) <==> AllFast(a, 0) && AllFast(b, 0)
  {
    if AllFast(a, 0) {
      AllFastJoin(a, b, 0);
    } else if AllFast(a + b, 0) {
      AllFastPrefix(a, b, 0);
    }
  }

  lemma ControlStarts(cl: Clause, c: Body, cut: CutInfo, used: set<nat>, slots: nat)
    requires !c.Goal? && !c.Conj? && (cut.LocalCut? ==> !cut.op.I_TYPE?)
    ensures !AllFast(Gen(cl, c, false, cut, used, slots), 0)
  {
    hide Balance, AllFast, IfOp, CommitOp, Gen, GenOr, GenIfThenElse, GenIfThen, GenNot, BodyVars, Slots, BodySize,
        ProperBody;
    BodyIs(cl, c, false, cut, used, slots);
    StartsSlow(Gen(cl, c, false, cut, used, slots)) by {
      if c.Disj? {
        DisjStarts(cl, c.left, c.right, cut, used, slots);
      } else if c.IfThen? || c.SoftIfThen? {
        IfThenIs(cl, c.IfThen?, c.cond, c.action, false, cut, used, slots);
      } else if c.Not? {
        NotIs(cl, c.body, used, slots);
      }
    }
  }

  lemma DisjStarts(cl: Clause, l: Body, r: Body, cut: CutInfo, used: set<nat>, slots: nat)
    ensures var code := Gen(cl, Disj(l, r), false, cut, used, slots);
            code != [] && !(code[0].Ins? && FastOp(code[0].op))
  {
    hide Balance, AllFast, IfOp, CommitOp, Gen, GenOr, GenIfThenElse, BodyVars, Slots, BodySize, ProperBody;
    BodyIs(cl, Disj(l, r), false, cut, used, slots);
    if l.IfThen? || l.SoftIfThen? {
      var hard := l.IfThen?;
      IfIs(cl, hard, l.cond, l.action, r, false, cut, used, slots);
      IfOps(Gen(cl, l.cond, false, LocalCut(if hard then C_LCUT else C_LSCUT, slots), used, slots + 1));
    } else {
      OrIs(cl, l, r, false, cut, used, slots);
    }
  }

  lemma IfOps(cc: Code)
    ensures !IfOp(true, cc).I_TYPE? && !IfOp(false, cc).I_TYPE?
  {
  }

  /** try_fast_condition accepts exactly the conjunctions of type tests on initialised variables. */
  lemma {:induction false} FastMeansTests(cl: Clause, c: Body, cut: CutInfo, used: set<nat>, slots: nat)
    requires ProperBody(c) && (cut.LocalCut? ==> !cut.op.I_TYPE?)
    ensures AllFast(Gen(cl, c, false, cut, used, slots), 0) <==> OnlyTests(c, used)
    ensures OnlyTests(c, used) ==> |Gen(cl, c, false, cut, used, slots)| % 2 == 0
    decreases c
  {
    hide *;
    if c.Goal? {
      GoalIsTest(cl, c.name, c.gargs, used);
      GoalCode(cl, c, cut, used, slots);
    } else if c.Conj? {
      var l, r := c.left, c.right;
      var lc := Gen(cl, l, false, cut, used, slots);
      ConjOnly(l, r, used);
      FastMeansTests(cl, l, cut, used, slots);
      if OnlyTests(l, used) {
        TestsBindNothing(l, used);
        FastMeansTests(cl, r, cut, used, slots + Slots(l));
      }
      BodyIs(cl, Conj(l, r), false, cut, used, slots);
      FastJoin(lc, Gen(cl, r, false, cut, used + BodyVars(l), slots + Slots(l)));
    } else {
      ControlStarts(cl, c, cut, used, slots);
      NotOnly(c, used);
    }
  }

  lemma GoalCode(cl: Clause, c: Body, cut: CutInfo, used: set<nat>, slots: nat)
    requires c.Goal?
    ensures c == Goal(c.name, c.gargs) && Gen(cl, c, false, cut, used, slots) ==
            GenGoal(cl, c.name, c.gargs, false, used)
  {
    hide GenGoal;
  }

  lemma ConjOnly(l: Body, r: Body, used: set<nat>)
    ensures OnlyTests(Conj(l, r), used) == (OnlyTests(l, used) && OnlyTests(r, used))
    ensures ProperBody(Conj(l, r)) == (ProperBody(l) && ProperBody(r))
  {
  }

  lemma NotOnly(c: Body, used: set<nat>)
    requires !c.Goal? && !c.Conj?
    ensures !OnlyTests(c, used)
  {
  }

  function FastCfg(pc: nat, vm: Vm, used: set<nat>, s: Store, other: nat, w: World): Config {
    Run(pc, FrameOf(vm.env, used), NoArgs, s, Some(other), w)
  }

  function TestsOutcome(pc: nat, vm: Vm, used: set<nat>, s: Store, other: nat, w: World, c: Body): Config {
    if Solve(vm.p, vm.env, c, s).answers == [] then Plain(other, vm, used, s, w) else FastCfg(pc, vm, used, s, other, w)
  }

  lemma TestRuns(vm: Vm, f: Name, ts: seq<Term>, used: set<nat>, pc: nat, s: Store, other: nat, w: World)
    requires f.Type? && |ts| == 1 && ts[0].Var? && ts[0].index in used
    requires At(vm.code, pc, [Ins(I_TYPE(f.test)), Num(ts[0].index)])
    ensures var found := Solve(vm.p, vm.env, Goal(f, ts), s).answers; found == [] || found == [s]
    ensures Step(vm, FastCfg(pc, vm, used, s, other, w)) == TestsOutcome(pc + 2, vm, used, s, other, w, Goal(f, ts))
  {
    hide Step, Steps, At, FrameOf;
    assert ts[1..] == [];
    assert SubstAll(ts, vm.env) == [vm.env(ts[0].index)];
    StepType(vm, f.test, pc, used, s, Some(other), w, ts[0].index);
  }

  lemma ConjCode(cl: Clause, l: Body, r: Body, cut: CutInfo, used: set<nat>, slots: nat)
    requires OnlyTests(Conj(l, r), used)
    ensures OnlyTests(l, used) && OnlyTests(r, used)
    ensures Gen(cl, Conj(l, r), false, cut, used, slots) ==
            Gen(cl, l, false, cut, used, slots) + Gen(cl, r, false, cut, used, slots + Slots(l))
  {
    hide GenGoal, GenOr, GenIfThenElse, GenIfThen, GenNot, BodyVars, Slots;
    assert OnlyTests(l, used) && OnlyTests(r, used);
    TestsBindNothing(l, used);
    assert Gen(cl, Conj(l, r), false, cut, used, slots) ==
           Gen(cl, l, false, cut, used, slots) + Gen(cl, r, false, cut, used + BodyVars(l), slots + Slots(l));
  }

  /** The tests either all succeed, leaving everything as it was, or jump to the other branch. */
  lemma {:induction false} TestsRun(vm: Vm, c: Body, cut: CutInfo, used: set<nat>, slots: nat, pc: nat, s: Store,
        other: nat, w: World)
    requires OnlyTests(c, used) && At(vm.code, pc, Gen(vm.cl, c, false, cut, used, slots))
    ensures Solve(vm.p, vm.env, c, s).answers == [] || Solve(vm.p, vm.env, c, s).answers == [s]
    ensures Reaches(vm, FastCfg(pc, vm, used, s, other, w),
                    TestsOutcome(pc + |Gen(vm.cl, c, false, cut, used, slots)|, vm, used, s, other, w, c))
    decreases c
  {
    if c.Conj? {
      TestsRunConj(vm, c.left, c.right, cut, used, slots, pc, s, other, w);
    } else {
      TestRuns(vm, c.name, c.gargs, used, pc, s, other, w);
      ReachesStep(vm, FastCfg(pc, vm, used, s, other, w));
    }
  }

  lemma {:induction false} TestsRunConj(vm: Vm, l: Body, r: Body, cut: CutInfo, used: set<nat>, slots: nat, pc: nat,
        s: Store, other: nat, w: World)
    requires OnlyTests(Conj(l, r), used) && At(vm.code, pc, Gen(vm.cl, Conj(l, r), false, cut, used, slots))
    ensures var found := Solve(vm.p, vm.env, Conj(l, r), s).answers; found == [] || found == [s]
    ensures Reaches(vm, FastCfg(pc, vm, used, s, other, w),
                    TestsOutcome(pc + |Gen(vm.cl, Conj(l, r), false, cut, used, slots)|, vm, used, s, other, w,
                        Conj(l, r)))
    decreases Conj(l, r), 0
  {
    hide Step, Steps, Reaches, At, FrameOf, Gen, Solve, OnlyTests;
    ConjCode(vm.cl, l, r, cut, used, slots);
    var c0 := FastCfg(pc, vm, used, s, other, w);
    var lc := Gen(vm.cl, l, false, cut, used, slots);
    var rc := Gen(vm.cl, r, false, cut, used, slots + Slots(l));
    AtSplit(vm.code, pc, lc, rc);
    TestsRun(vm, l, cut, used, slots, pc, s, other, w);
    TestsNeverCut(vm, l, used, s);
    ConjOfTests(vm, l, r, s);
    if Solve(vm.p, vm.env, l, s).answers != [] {
      TestsRun(vm, r, cut, used, slots + Slots(l), pc + |lc|, s, other, w);
      ReachesTrans(vm, c0, FastCfg(pc + |lc|, vm, used, s, other, w),
          TestsOutcome(pc + |lc| + |rc|, vm, used, s, other, w, r));
    }
  }

  lemma TestsNeverCut(vm: Vm, c: Body, used: set<nat>, s: Store)
    requires OnlyTests(c, used)
    ensures !Solve(vm.p, vm.env, c, s).cut
  {
    TestsHaveNoCut(c, used);
    NoCut(vm.p, vm.env, c, s);
  }

  lemma {:induction false} TestsHaveNoCut(c: Body, used: set<nat>)
    requires OnlyTests(c, used)
    ensures !CutsIn(c)
  {
    if c.Conj? { TestsHaveNoCut(c.left, used); TestsHaveNoCut(c.right, used); }
  }

  lemma ConjOfTests(vm: Vm, l: Body, r: Body, s: Store)
    requires Solve(vm.p, vm.env, l, s) == Solution([s], false) || Solve(vm.p, vm.env, l, s) == Solution([], false)
    ensures Solve(vm.p, vm.env, Conj(l, r), s).answers ==
            if Solve(vm.p, vm.env, l, s).answers == [] then [] else Solve(vm.p, vm.env, r, s).answers
  {
    var here := Solve(vm.p, vm.env, r, s);
    assert [s][1..] == [];
    assert SolveEach(vm.p, vm.env, r, [], false) == Solution([], false);
    assert SolveEach(vm.p, vm.env, r, [s], false) ==
           if here.cut then here else Solution(here.answers + [], false);
    assert here.answers + [] == here.answers;
  }

  /** C_FASTCOND and the tests behind it: one branch or the other, and no choice point. */
  lemma FastOutcome(vm: Vm, v: nat, dist: nat, pc: nat, used: set<nat>, c: Body, cut: CutInfo, slots: nat, s: Store,
        w: World)
    requires OnlyTests(c, used)
    requires var cc := Gen(vm.cl, c, false, cut, used, slots);
             At(vm.code, pc, [Ins(C_FASTCOND), Num(v), Num(dist)]) && At(vm.code, pc + 3, cc)
             && At(vm.code, pc + 3 + |cc|, [Ins(C_FASTCUT), Num(v)])
    ensures var cc := Gen(vm.cl, c, false, cut, used, slots);
            Reaches(vm, Plain(pc, vm, used, s, w),
                    Outcome(vm, c, s, pc + 3 + dist, used, pc + 3 + |cc| + 2, used, Marked(w, v, Top(w.chain))))
  {
    hide Step, Steps, Reaches, At, FrameOf, Gen, OnlyTests, Solve;
    var cc, c0, w1 := Gen(vm.cl, c, false, cut, used, slots), Plain(pc, vm, used, s, w), Marked(w, v, Top(w.chain));
    StepFastCond(vm, pc, used, s, w, v, dist);
    ReachesStep(vm, c0);
    var c1 := FastCfg(pc + 3, vm, used, s, pc + 3 + dist, w1);
    TestsRun(vm, c, cut, used, slots, pc + 3, s, pc + 3 + dist, w1);
    if Solve(vm.p, vm.env, c, s).answers == [] {
      ReachesTrans(vm, c0, c1, Plain(pc + 3 + dist, vm, used, s, w1));
    } else {
      var c2 := FastCfg(pc + 3 + |cc|, vm, used, s, pc + 3 + dist, w1);
      StepFastCut(vm, pc + 3 + |cc|, used, s, w1, v, pc + 3 + dist);
      ReachesStep(vm, c2);
      ReachesTrans(vm, c0, c1, c2);
      ReachesTrans(vm, c0, c2, Step(vm, c2));
    }
  }

  /** C_FASTCOND comes to the same outcome as C_IFTHENELSE, without a choice point. */
  lemma FastCondition(vm: Vm, sc: Scope, own: Own, v: nat, dist: nat, pc: nat, used: set<nat>, c: Body, cut: CutInfo,
        slots: nat,
                      s: Store, l: seq<Choice>, a: Around) returns (a1: Around)
    requires OnlyTests(c, used) && Fits(sc, a) && own.lo == v < own.hi && ScopeBefore(sc, v)
    requires var cc := Gen(vm.cl, c, false, cut, used, slots);
             At(vm.code, pc, [Ins(C_FASTCOND), Num(v), Num(dist)]) && At(vm.code, pc + 3, cc)
             && At(vm.code, pc + 3 + |cc|, [Ins(C_FASTCUT), Num(v)])
    ensures Later(sc, own, a, a1)
    ensures var cc := Gen(vm.cl, c, false, cut, used, slots);
            Reaches(vm, Plain(pc, vm, used, s, WorldOf(a, l)),
                    Outcome(vm, c, s, pc + 3 + dist, used, pc + 3 + |cc| + 2, used, WorldOf(a1, l)))
  {
    hide Reaches, At, FrameOf, Fits, Gen, OnlyTests, Solve, Outcome;
    var w := WorldOf(a, l);
    a1 := a.(marks := a.marks[v := Top(w.chain)]);
    FastOutcome(vm, v, dist, pc, used, c, cut, slots, s, w);
    FitsStays(sc, own, a, a1.marks, a1.dead, a1.next);
  }

  lemma FastIfElseBehaves(vm: Vm, sc: Scope, rest: Scope, x: Exit, ot: Own, oe: Own, own: Own, v: nat, dist: nat,
        pc: nat, used: set<nat>,
                          c: Body, t: Body, e: Body, cut: CutInfo, slots: nat)
    requires OnlyTests(c, used) && own.lo == v < own.hi && ScopeBefore(sc, v) && Within(ot, own) && Within(oe, own)
    requires var cc := Gen(vm.cl, c, false, cut, used, slots);
             At(vm.code, pc, [Ins(C_FASTCOND), Num(v), Num(dist)]) && At(vm.code, pc + 3, cc)
             && At(vm.code, pc + 3 + |cc|, [Ins(C_FASTCUT), Num(v)])
             && Behaves(vm, sc, rest, x, ot, pc + 3 + |cc| + 2, used, t)
                 && Behaves(vm, sc, rest, x, oe, pc + 3 + dist, used, e)
    ensures Behaves(vm, sc, rest, x, own, pc, used, Disj(IfThen(c, t), e))
  {
    hide Delivers, Behaves, Reaches, At, Fits, Later, FrameOf, Gen, OnlyTests;
    forall s: Store, l: seq<Choice>, next: nat, a: Around | Ready(vm, sc, pc, used, s, l, next, a)
      ensures RunsFrom(vm, rest, x, own, pc, used, Disj(IfThen(c, t), e), s, l, next, a)
    {
      ReadyFacts(vm, sc, pc, used, s, l, next, a);
      var a1 := FastCondition(vm, sc, own, v, dist, pc, used, c, cut, slots, s, l, a);
      TakeBranch(vm, sc, rest, x, ot, oe, own, Entry(vm, pc, used, s, l, next), a, pc + 3
          + |Gen(vm.cl, c, false, cut, used, slots)| + 2, used,
                 pc + 3 + dist, used, c, t, e, s, l, a1);
    }
    AllRunsBehave(vm, sc, rest, x, own, pc, used, Disj(IfThen(c, t), e));
  }
}
