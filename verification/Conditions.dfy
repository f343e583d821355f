// If-then-else, if-then and \+: a condition runs in a scope of its own and is cut on success.

module Conditions {
  import opened Terms
  import opened VmCode
  import opened CodeGen
  import opened Search
  import opened Machine
  import opened Execution
  import opened Chains
  import opened Answers
  import opened Composition
  import opened ControlSteps
  import opened Control

  /** A condition behaves in every scope that C_IFTHENELSE or C_NOT can open for it. */
  ghost predicate BehavesGuarded(vm: Vm, x: Exit, own: Own, v: nat, pc: nat, used: set<nat>, c: Body) {
    forall floor: nat :: Behaves(vm, Scope(Local(v), Some(floor), floor), Scope(Local(v), Some(floor), floor), x,
        own, pc, used, c)
  }

  /** What a condition comes to: the other branch, or its first answer with its choice points cut. */
  function Outcome(vm: Vm, c: Body, s: Store, pcElse: nat, used: set<nat>, pcThen: nat, usedThen: set<nat>,
        w: World): Config {
    var found := Solve(vm.p, vm.env, c, s).answers;
    if found == [] then Plain(pcElse, vm, used, s, w) else Plain(pcThen, vm, usedThen, found[0], w)
  }

  /** A later moment in the same surrounding, with only the marks of `own` changed. */
  ghost predicate Later(sc: Scope, own: Own, a: Around, a1: Around) {
    Fits(sc, a1) && a1.kc == a.kc && a1.out == a.out && a.next <= a1.next && SameOutside(own, a.marks, a1.marks)
  }

  lemma HardCondition(vm: Vm, op: Op, sc: Scope, xc: Exit, oc: Own, own: Own, v: nat, dist: nat, pc: nat,
        used: set<nat>, c: Body,
                      s: Store, l: seq<Choice>, a: Around) returns (a1: Around)
    requires op.C_IFTHENELSE? || op.C_NOT?
    requires At(vm.code, pc, [Ins(op), Num(v), Num(dist)]) && At(vm.code, xc.pc, [Ins(C_CUT), Num(v)]) && !xc.dep
    requires BehavesGuarded(vm, xc, oc, v, pc + 3, used, c)
    requires Fits(sc, a) && Above(l, sc.floor) && Top(l) < a.next
    requires own.lo == v < oc.lo && oc.hi <= own.hi && v < own.hi && ScopeBefore(sc, v)
    ensures Later(sc, own, a, a1)
    ensures Reaches(vm, Plain(pc, vm, used, s, WorldOf(a, l)),
            Outcome(vm, c, s, pc + 3 + dist, used, xc.pc + 2, xc.used, WorldOf(a1, l)))
  {
    hide Delivers, Yields, Step, Steps, Reaches, At, FrameOf, Behaves, Solve, Fits, SameOutside, Sorted, Above;
    var c0 := Plain(pc, vm, used, s, WorldOf(a, l));
    var ch := Choice(a.next, Jump(pc + 3 + dist, FrameOf(vm.env, used), s));
    FitsFacts(sc, a);
    SortedJoin(a.kc, l, sc.floor);
    var base := a.kc + l;
    var ac := Around(base + [ch], a.marks[v := Top(base)], a.dead, a.next + 1, a.out);
    var scc := Scope(Local(v), Some(a.next), a.next);
    StepIfElse(vm, op, pc, used, s, WorldOf(a, l), v, dist);
    ReachesStep(vm, c0);
    GuardFits(base, ch, ac, v);
    PartRuns(vm, scc, scc, xc, oc, pc + 3, used, c, s, [], ac);
    assert ac.kc + [] == ac.kc;
    var p := Entry(vm, pc + 3, used, s, [], ac.next);
    assert ConfigOf(p, ac) == Step(vm, c0);
    var sol := Solve(vm.p, vm.env, c, s);
    var w := GuardDone(vm, scc, xc, oc, v, p, sol.answers, sol.cut, ac, base, ch, pc + 3 + dist, used, s);
    a1 := Around(a.kc, w.marks, w.dead, w.next, a.out);
    assert w == WorldOf(a1, l);
    ReachesTrans(vm, c0, ConfigOf(p, ac), Outcome(vm, c, s, pc + 3 + dist, used, xc.pc + 2, xc.used, w));
    StaysUnlinked(vm, sc, a, l, c0, Outcome(vm, c, s, pc + 3 + dist, used, xc.pc + 2, xc.used, w));
    LaterThan(sc, own, oc, v, Top(base), a, a1);
  }

  /** The condition has run to its first answer and been cut, or has failed into the other branch. */
  lemma GuardDone(vm: Vm, scc: Scope, xc: Exit, oc: Own, v: nat, p: Place, answers: seq<Store>, cut: bool, ac: Around,
                  base: seq<Choice>, ch: Choice, pcElse: nat, used: set<nat>, s: Store) returns (w: World)
    requires Delivers(vm, scc, xc, oc, [], p, answers, cut, ac) && !xc.dep && scc.floor == ch.addr
    requires At(vm.code, xc.pc, [Ins(C_CUT), Num(v)]) && v < oc.lo && v in ac.marks && ac.marks[v] == Top(base)
    requires base != [] && ac.kc == base + [ch] && Sorted(ac.kc) && ch.alt == Jump(pcElse, FrameOf(vm.env, used), s)
    ensures Reaches(vm, ConfigOf(p, ac), if answers == [] then Plain(pcElse, vm, used, s, w)
            else Plain(xc.pc + 2, vm, xc.used, answers[0], w))
    ensures w.chain == base && w.out == ac.out && ac.next <= w.next && SameOutside(oc, ac.marks, w.marks)
  {
    hide Delivers, Yields, Reaches, At, FrameOf, Lands, Exhausts, SameOutside;
    if answers == [] {
      var w0 := NoneDelivered(vm, scc, xc, oc, [], p, cut, ac);
      w := World(base, w0.marks, w0.dead, w0.next, ac.out);
      GuardFails(vm, oc, p, ac, cut, w0, base, ch, pcElse, used, s);
    } else {
      w := CommitFirst(vm, scc, xc, oc, v, p, answers, cut, ac, base, [ch]);
    }
  }

  /** C_CUT after the first answer of a condition whose choice points lie above `base` and `newer`. */
  lemma CommitFirst(vm: Vm, scc: Scope, xc: Exit, oc: Own, v: nat, p: Place, answers: seq<Store>, cut: bool, ac: Around,
                    base: seq<Choice>, newer: seq<Choice>) returns (w: World)
    requires answers != [] && Delivers(vm, scc, xc, oc, [], p, answers, cut, ac) && !xc.dep
    requires At(vm.code, xc.pc, [Ins(C_CUT), Num(v)]) && v < oc.lo && v in ac.marks && ac.marks[v] == Top(base)
    requires base != [] && ac.kc == base + newer && Sorted(ac.kc) && Top(ac.kc) <= scc.floor
    ensures Reaches(vm, ConfigOf(p, ac), Plain(xc.pc + 2, vm, xc.used, answers[0], w))
    ensures w.chain == base && w.out == ac.out && ac.next <= w.next && SameOutside(oc, ac.marks, w.marks)
  {
    hide Delivers, Yields, Step, Steps, Reaches, At, FrameOf, Lands, SameOutside, CutTo;
    var s1 := answers[0];
    var ld := FirstDelivered(vm, scc, xc, oc, [], p, answers, cut, ac);
    LandedFacts(vm, scc, xc, oc, p, ac, s1, ld);
    SortedJoin(ac.kc, ld.l, scc.floor);
    var w1 := LandWorld(ac, ld);
    assert w1.chain == base + (newer + ld.l);
    CommitKeeps(vm, xc, oc, v, base, newer + ld.l, s1, ac.marks, w1);
    w := w1.(chain := base);
    var c1 := Plain(xc.pc, vm, xc.used, s1, w1);
    ReachesStep(vm, c1);
    ReachesTrans(vm, ConfigOf(p, ac), c1, Plain(xc.pc + 2, vm, xc.used, s1, w));
  }

  lemma GuardFits(base: seq<Choice>, ch: Choice, ac: Around, v: nat)
    requires Sorted(base) && base != [] && Top(base) < ch.addr && ac.kc == base + [ch] && ac.next == ch.addr + 1
    requires v in ac.marks && ac.marks[v] == Top(base)
    ensures Fits(Scope(Local(v), Some(ch.addr), ch.addr), ac) && Above([], ch.addr) && Top([]) < ac.next
    ensures Sorted(ac.kc)
  {
    assert ac.kc[..|ac.kc| - 1] == base;
    assert forall i :: 0 <= i < |base| - 1 ==> base[i].addr < base[|base| - 1].addr;
  }

  lemma GuardFails(vm: Vm, oc: Own, p: Place, ac: Around, cut: bool, w: World, base: seq<Choice>, ch: Choice,
        pc: nat, used: set<nat>, s: Store)
    requires Exhausts(vm, oc, [], p, ac, cut, w) && ac.kc == base + [ch] && ch.alt == Jump(pc, FrameOf(vm.env, used), s)
    ensures Reaches(vm, ConfigOf(p, ac), Plain(pc, vm, used, s, World(base, w.marks, w.dead, w.next, ac.out)))
    ensures SameOutside(oc, ac.marks, w.marks) && ac.next <= w.next
  {
    hide Step, Steps, FrameOf;
    assert ac.kc + [] == ac.kc;
    StepBackJump(vm, w, base, ch.addr, pc, used, s);
    ReachesStep(vm, Back(w));
    ReachesTrans(vm, ConfigOf(p, ac), Back(w), Step(vm, Back(w)));
  }

  /** A condition's exit is never the clause's exit. */
  lemma LandedFacts(vm: Vm, sc: Scope, x: Exit, o: Own, p: Place, a: Around, s: Store, ld: Landing)
    requires Lands(vm, sc, x, o, p, a, s, ld) && !x.dep
    ensures ld.pc == x.pc && ld.frame == FrameOf(vm.env, x.used)
    ensures Reaches(vm, ConfigOf(p, a), Plain(x.pc, vm, x.used, s, LandWorld(a, ld)))
    ensures SameOutside(o, a.marks, ld.marks) && Above(ld.l, sc.floor) && Top(ld.l) < ld.next && a.next <= ld.next
  {
  }

  /** C_CUT drops the condition's choice points and nothing else. */
  lemma CommitKeeps(vm: Vm, xc: Exit, oc: Own, v: nat, base: seq<Choice>, newer: seq<Choice>, s: Store,
        marks: map<nat, int>, w: World)
    requires At(vm.code, xc.pc, [Ins(C_CUT), Num(v)]) && v < oc.lo
    requires base != [] && w.chain == base + newer && Sorted(w.chain)
    requires v in marks && marks[v] == Top(base) && SameOutside(oc, marks, w.marks)
    ensures Step(vm, Plain(xc.pc, vm, xc.used, s, w)) == Plain(xc.pc + 2, vm, xc.used, s, w.(chain := base))
  {
    hide Step, At, FrameOf;
    assert !(oc.lo <= v < oc.hi);
    assert w.chain[..|base|] == base;
    CutToKeeps(w.chain, |base|);
    StepCommit(vm, C_CUT, xc.pc, xc.used, s, w, v);
  }

  lemma LaterThan(sc: Scope, own: Own, oc: Own, v: nat, mark: int, a: Around, a1: Around)
    requires Fits(sc, a) && a1.kc == a.kc && a1.out == a.out && a.next + 1 <= a1.next
    requires SameOutside(oc, a.marks[v := mark], a1.marks) && Remembered(sc, a.dead, a1.dead)
    requires own.lo == v < oc.lo && oc.hi <= own.hi && v < own.hi && ScopeBefore(sc, v)
    ensures Later(sc, own, a, a1)
  {
    forall u | !(own.lo <= u < own.hi) ensures (u in a.marks <==> u in a1.marks)
        && (u in a.marks ==> a.marks[u] == a1.marks[u]) {
      assert !(oc.lo <= u < oc.hi) && u != v;
      assert u in a.marks[v := mark] <==> u in a.marks;
    }
    FitsStays(sc, own, a, a1.marks, a1.dead, a1.next);
  }

  // ----- if-then-else -----

  /** A branch taken from the outcome of a condition. */
  lemma BranchRuns(vm: Vm, sc: Scope, rest: Scope, x: Exit, o: Own, own: Own, p: Place, a: Around, pc: nat,
        used: set<nat>, b: Body, s: Store,
                   l: seq<Choice>, a1: Around)
    requires Reaches(vm, ConfigOf(p, a), Plain(pc, vm, used, s, WorldOf(a1, l)))
    requires Behaves(vm, sc, rest, x, o, pc, used, b) && Later(sc, own, a, a1) && Above(l, sc.floor)
             && Top(l) < a.next && Within(o, own)
    ensures Delivers(vm, rest, x, own, l, p, Solve(vm.p, vm.env, b, s).answers, Solve(vm.p, vm.env, b, s).cut, a)
  {
    hide Delivers, Behaves, Reaches, Solve, Fits;
    RunsVia(vm, sc, rest, x, o, own, p, a, pc, used, b, s, l, a1, own);
  }

  lemma IfElseBehaves(vm: Vm, sc: Scope, rest: Scope, x: Exit, xc: Exit, oc: Own, ot: Own, oe: Own, own: Own, v: nat,
        dist: nat, pc: nat, used: set<nat>,
                      c: Body, t: Body, e: Body)
    requires At(vm.code, pc, [Ins(C_IFTHENELSE), Num(v), Num(dist)]) && At(vm.code, xc.pc, [Ins(C_CUT), Num(v)])
             && !xc.dep
    requires BehavesGuarded(vm, xc, oc, v, pc + 3, used, c)
    requires Behaves(vm, sc, rest, x, ot, xc.pc + 2, xc.used, t) && Behaves(vm, sc, rest, x, oe, pc + 3 + dist, used, e)
    requires own.lo == v < oc.lo && oc.hi <= own.hi && v < own.hi && ScopeBefore(sc, v) && Within(ot, own)
             && Within(oe, own)
    ensures Behaves(vm, sc, rest, x, own, pc, used, Disj(IfThen(c, t), e))
  {
    hide Delivers, Behaves, Reaches, At, Fits, Later, BehavesGuarded, FrameOf;
    forall s: Store, l: seq<Choice>, next: nat, a: Around | Ready(vm, sc, pc, used, s, l, next, a)
      ensures RunsFrom(vm, rest, x, own, pc, used, Disj(IfThen(c, t), e), s, l, next, a)
    {
      ReadyFacts(vm, sc, pc, used, s, l, next, a);
      var a1 := HardCondition(vm, C_IFTHENELSE, sc, xc, oc, own, v, dist, pc, used, c, s, l, a);
      TakeBranch(vm, sc, rest, x, ot, oe, own, Entry(vm, pc, used, s, l, next), a, xc.pc + 2, xc.used, pc + 3 + dist,
          used, c, t, e, s, l, a1);
    }
    AllRunsBehave(vm, sc, rest, x, own, pc, used, Disj(IfThen(c, t), e));
  }

  lemma TakeBranch(vm: Vm, sc: Scope, rest: Scope, x: Exit, ot: Own, oe: Own, own: Own, p: Place, a: Around,
        pcThen: nat, usedThen: set<nat>,
                   pcElse: nat, used: set<nat>, c: Body, t: Body, e: Body, s: Store, l: seq<Choice>, a1: Around)
    requires Reaches(vm, ConfigOf(p, a), Outcome(vm, c, s, pcElse, used, pcThen, usedThen, WorldOf(a1, l)))
    requires Behaves(vm, sc, rest, x, ot, pcThen, usedThen, t) && Behaves(vm, sc, rest, x, oe, pcElse, used, e)
    requires Later(sc, own, a, a1) && Above(l, sc.floor) && Top(l) < a.next && Within(ot, own) && Within(oe, own)
    ensures var sol := Solve(vm.p, vm.env, Disj(IfThen(c, t), e), s);
            Delivers(vm, rest, x, own, l, p, sol.answers, sol.cut, a)
  {
    hide Delivers, Behaves, Reaches, Later, FrameOf;
    var found := Solve(vm.p, vm.env, c, s).answers;
    if found == [] {
      BranchRuns(vm, sc, rest, x, oe, own, p, a, pcElse, used, e, s, l, a1);
    } else {
      BranchRuns(vm, sc, rest, x, ot, own, p, a, pcThen, usedThen, t, found[0], l, a1);
    }
  }

  // ----- \+ -----

  lemma NotBehaves(vm: Vm, sc: Scope, rest: Scope, x: Exit, xc: Exit, oc: Own, own: Own, v: nat, dist: nat, pc: nat,
        used: set<nat>, g: Body)
    requires At(vm.code, pc, [Ins(C_NOT), Num(v), Num(dist)]) && !xc.dep
    requires At(vm.code, xc.pc, [Ins(C_CUT), Num(v)]) && At(vm.code, xc.pc + 2, [Ins(C_FAIL)])
    requires BehavesGuarded(vm, xc, oc, v, pc + 3, used, g) && LeadsTo(vm, Exit(pc + 3 + dist, used, false), x)
    requires own.lo == v < oc.lo && oc.hi <= own.hi && v < own.hi && ScopeBefore(sc, v) && rest.floor == sc.floor
    ensures Behaves(vm, sc, rest, x, own, pc, used, Not(g))
  {
    hide Delivers, Behaves, Reaches, At, Fits, BehavesGuarded, FrameOf, LeadsTo, Later;
    forall s: Store, l: seq<Choice>, next: nat, a: Around | Ready(vm, sc, pc, used, s, l, next, a)
      ensures RunsFrom(vm, rest, x, own, pc, used, Not(g), s, l, next, a)
    {
      ReadyFacts(vm, sc, pc, used, s, l, next, a);
      var a1 := HardCondition(vm, C_NOT, sc, xc, oc, own, v, dist, pc, used, g, s, l, a);
      NotRuns(vm, sc, rest, x, xc, own, dist, pc, used, g, s, l, next, a, a1);
    }
    AllRunsBehave(vm, sc, rest, x, own, pc, used, Not(g));
  }

  lemma NotRuns(vm: Vm, sc: Scope, rest: Scope, x: Exit, xc: Exit, own: Own, dist: nat, pc: nat, used: set<nat>,
        g: Body,
                s: Store, l: seq<Choice>, next: nat, a: Around, a1: Around)
    requires Reaches(vm, Plain(pc, vm, used, s, WorldOf(a, l)),
             Outcome(vm, g, s, pc + 3 + dist, used, xc.pc + 2, xc.used, WorldOf(a1, l)))
    requires At(vm.code, xc.pc + 2, [Ins(C_FAIL)]) && LeadsTo(vm, Exit(pc + 3 + dist, used, false), x)
    requires Later(sc, own, a, a1) && Above(l, sc.floor) && Top(l) < a.next && rest.floor == sc.floor
    ensures RunsFrom(vm, rest, x, own, pc, used, Not(g), s, l, next, a)
  {
    hide Delivers, Step, Steps, Reaches, At, FrameOf, LeadsTo, Fits;
    var found := Solve(vm.p, vm.env, g, s).answers;
    var p, c0 := Entry(vm, pc, used, s, l, next), Plain(pc, vm, used, s, WorldOf(a, l));
    var w1 := WorldOf(a1, l);
    if found == [] {
      LeadsApply(vm, Exit(pc + 3 + dist, used, false), x, s, w1);
      ReachesTrans(vm, c0, Plain(pc + 3 + dist, vm, used, s, w1), Plain(x.pc, vm, x.used, s, w1));
      FoundOne(vm, sc, rest, x, own, l, p, a, a1, s);
    } else {
      var c1 := Plain(xc.pc + 2, vm, xc.used, found[0], w1);
      StepFail(vm, C_FAIL, xc.pc + 2, xc.used, found[0], w1);
      ReachesStep(vm, c1);
      ReachesTrans(vm, c0, c1, Back(w1));
      DeliversNone(vm, rest, x, own, l, p, false, a, w1);
    }
  }

  lemma LeadsApply(vm: Vm, x: Exit, y: Exit, s: Store, w: World)
    requires LeadsTo(vm, x, y)
    ensures Reaches(vm, Plain(x.pc, vm, x.used, s, w), Plain(y.pc, vm, y.used, s, w))
  {
  }

  /** Arriving at the exit without choice points of one's own delivers exactly one answer. */
  lemma FoundOne(vm: Vm, sc: Scope, rest: Scope, x: Exit, own: Own, l: seq<Choice>, p: Place, a: Around, a1: Around,
        s: Store)
    requires Reaches(vm, ConfigOf(p, a), Plain(x.pc, vm, x.used, s, WorldOf(a1, l)))
    requires Later(sc, own, a, a1) && Above(l, sc.floor) && Top(l) < a.next && rest.floor == sc.floor
    ensures Delivers(vm, rest, x, own, l, p, [s], false, a)
  {
    hide Reaches, Yields, Fits;
    var ld := Landing(x.pc, FrameOf(vm.env, x.used), l, a1.marks, a1.dead, a1.next);
    ExhaustedYields(vm, rest, x, own, l, OwnMarks(own, a1.marks), a1.next);
    assert [s][1..] == [];
    DeliversFirst(vm, rest, x, own, l, p, [s], false, a, ld);
  }

  // ----- if-then without else -----

  /** A condition behaves in every scope that C_IFTHEN can open for it. */
  ghost predicate BehavesMarked(vm: Vm, x: Exit, own: Own, v: nat, pc: nat, used: set<nat>, c: Body) {
    forall floor: nat ::
      Behaves(vm, Scope(IfThenScope(v), Some(floor), floor), Scope(IfThenScope(v), Some(floor), floor), x, own, pc,
          used, c)
  }

  lemma IfThenBehaves(vm: Vm, sc: Scope, rest: Scope, x: Exit, xc: Exit, oc: Own, ot: Own, own: Own, v: nat, pc: nat,
        used: set<nat>, c: Body, t: Body)
    requires At(vm.code, pc, [Ins(C_IFTHEN), Num(v)]) && At(vm.code, xc.pc, [Ins(C_CUT), Num(v)]) && !xc.dep
    requires BehavesMarked(vm, xc, oc, v, pc + 2, used, c) && Behaves(vm, sc, rest, x, ot, xc.pc + 2, xc.used, t)
    requires own.lo == v < oc.lo && oc.hi <= own.hi && v < own.hi && ScopeBefore(sc, v) && Within(ot, own)
    ensures Behaves(vm, sc, rest, x, own, pc, used, IfThen(c, t))
  {
    hide Delivers, Behaves, At, Fits, FrameOf, BehavesMarked;
    forall s: Store, l: seq<Choice>, next: nat, a: Around | Ready(vm, sc, pc, used, s, l, next, a)
      ensures RunsFrom(vm, rest, x, own, pc, used, IfThen(c, t), s, l, next, a)
    {
      ReadyFacts(vm, sc, pc, used, s, l, next, a);
      IfThenRuns(vm, sc, rest, x, xc, oc, ot, own, v, pc, used, c, t, s, l, next, a);
    }
    AllRunsBehave(vm, sc, rest, x, own, pc, used, IfThen(c, t));
  }

  lemma MarkedBehaves(vm: Vm, x: Exit, own: Own, v: nat, pc: nat, used: set<nat>, c: Body, floor: nat)
    requires BehavesMarked(vm, x, own, v, pc, used, c)
    ensures Behaves(vm, Scope(IfThenScope(v), Some(floor), floor), Scope(IfThenScope(v), Some(floor), floor), x, own,
            pc, used, c)
  {
    hide Behaves;
  }

  lemma IfThenSolves(vm: Vm, c: Body, t: Body, s: Store)
    ensures var found := Solve(vm.p, vm.env, c, s).answers;
            Solve(vm.p, vm.env, IfThen(c, t), s) == if found == [] then Solution([], false)
                else Solve(vm.p, vm.env, t, found[0])
  {
  }

  lemma IfThenRuns(vm: Vm, sc: Scope, rest: Scope, x: Exit, xc: Exit, oc: Own, ot: Own, own: Own, v: nat, pc: nat,
        used: set<nat>, c: Body, t: Body,
                   s: Store, l: seq<Choice>, next: nat, a: Around)
    requires At(vm.code, pc, [Ins(C_IFTHEN), Num(v)]) && At(vm.code, xc.pc, [Ins(C_CUT), Num(v)]) && !xc.dep
    requires BehavesMarked(vm, xc, oc, v, pc + 2, used, c) && Behaves(vm, sc, rest, x, ot, xc.pc + 2, xc.used, t)
    requires own.lo == v < oc.lo && oc.hi <= own.hi && v < own.hi && ScopeBefore(sc, v) && Within(ot, own)
    requires Fits(sc, a) && Above(l, sc.floor) && Top(l) < a.next
    ensures RunsFrom(vm, rest, x, own, pc, used, IfThen(c, t), s, l, next, a)
  {
    hide Delivers, Yields, Step, Steps, Reaches, At, FrameOf, Behaves, BehavesMarked, Exhausts, SameOutside, Fits,
        Sorted, Above, Solve,
         Remembered, ScopeBefore, Later;
    MarkedBehaves(vm, xc, oc, v, pc + 2, used, c, Top(a.kc + l));
    var c0 := Plain(pc, vm, used, s, WorldOf(a, l));
    FitsFacts(sc, a);
    SortedJoin(a.kc, l, sc.floor);
    var base := a.kc + l;
    var floor := Top(base);
    var ac := Around(base, a.marks[v := floor], a.dead, a.next, a.out);
    var scc := Scope(IfThenScope(v), Some(floor), floor);
    StepIfThen(vm, C_IFTHEN, pc, used, s, WorldOf(a, l), v);
    ReachesStep(vm, c0);
    MarkFits(base, ac, v);
    PartRuns(vm, scc, scc, xc, oc, pc + 2, used, c, s, [], ac);
    assert ac.kc + [] == ac.kc;
    var p, p0 := Entry(vm, pc + 2, used, s, [], ac.next), Entry(vm, pc, used, s, l, next);
    var sol := Solve(vm.p, vm.env, c, s);
    IfThenSolves(vm, c, t, s);
    if sol.answers == [] {
      var w := NoneDelivered(vm, scc, xc, oc, [], p, sol.cut, ac);
      MarkedFails(vm, oc, own, l, p, ac, sol.cut, w, a, p0, v, floor);
      DeliversNone(vm, rest, x, own, l, p0, false, a, w);
    } else {
      var s1 := sol.answers[0];
      var w := CommitFirst(vm, scc, xc, oc, v, p, sol.answers, sol.cut, ac, base, []);
      var a1 := Around(a.kc, w.marks, w.dead, w.next, a.out);
      assert w == WorldOf(a1, l);
      ReachesTrans(vm, c0, ConfigOf(p, ac), Plain(xc.pc + 2, vm, xc.used, s1, w));
      StaysUnlinked(vm, sc, a, l, c0, Plain(xc.pc + 2, vm, xc.used, s1, w));
      LaterMarked(sc, own, oc, v, floor, a, a1);
      BranchRuns(vm, sc, rest, x, ot, own, p0, a, xc.pc + 2, xc.used, t, s1, l, a1);
    }
  }

  lemma MarkFits(base: seq<Choice>, ac: Around, v: nat)
    requires Sorted(base) && base != [] && ac.kc == base && Top(base) < ac.next
    requires v in ac.marks && ac.marks[v] == Top(base)
    ensures Fits(Scope(IfThenScope(v), Some(Top(base)), Top(base)), ac) && Above([], Top(base)) && Top([]) < ac.next
  {
  }

  lemma LaterMarked(sc: Scope, own: Own, oc: Own, v: nat, mark: int, a: Around, a1: Around)
    requires Fits(sc, a) && a1.kc == a.kc && a1.out == a.out && a.next <= a1.next
    requires SameOutside(oc, a.marks[v := mark], a1.marks) && Remembered(sc, a.dead, a1.dead)
    requires own.lo == v < oc.lo && oc.hi <= own.hi && v < own.hi && ScopeBefore(sc, v)
    ensures Later(sc, own, a, a1)
  {
    SameSelf(own, a.marks);
    forall u | !(own.lo <= u < own.hi) ensures (u in a.marks <==> u in a1.marks)
        && (u in a.marks ==> a.marks[u] == a1.marks[u]) {
      assert !(oc.lo <= u < oc.hi) && u != v;
      assert u in a.marks[v := mark] <==> u in a.marks;
    }
    FitsStays(sc, own, a, a1.marks, a1.dead, a1.next);
  }

  lemma MarkedFails(vm: Vm, oc: Own, own: Own, l: seq<Choice>, p: Place, ac: Around, cut: bool, w: World, a: Around,
        p0: Place, v: nat, mark: int)
    requires Exhausts(vm, oc, [], p, ac, cut, w) && ac.kc == a.kc + l && ac.marks == a.marks[v := mark] && ac.out ==
             a.out && ac.next == a.next
    requires Reaches(vm, ConfigOf(p0, a), ConfigOf(p, ac)) && own.lo == v < oc.lo && oc.hi <= own.hi && v < own.hi
    ensures Exhausts(vm, own, l, p0, a, false, w)
  {
    hide Reaches;
    ReachesTrans(vm, ConfigOf(p0, a), ConfigOf(p, ac), Back(w));
    assert ac.kc + [] == ac.kc;
    forall u | !(own.lo <= u < own.hi) ensures (u in a.marks <==> u in w.marks)
        && (u in a.marks ==> a.marks[u] == w.marks[u]) {
      assert !(oc.lo <= u < oc.hi) && u != v;
      assert u in a.marks[v := mark] <==> u in a.marks;
    }
  }
}
