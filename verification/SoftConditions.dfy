// Soft conditionals: a condition that stays alive, so that its further answers are tried as well.

module SoftConditions {
  import opened Terms
  import opened VmCode
  import opened CodeGen
  import opened Search
  import opened Machine
  import opened Execution
  import opened Chains
  import opened Answers
  import opened Composition
  import opened ControlSteps
  import opened Control
  import opened Conditions

  /** The surrounding as seen from a condition that runs above `l`. */
  function On(a: Around, l: seq<Choice>): Around {
    Around(a.kc + l, a.marks, a.dead, a.next, a.out)
  }

  /** The condition's scope `scc` above `l` lasts as long as `sc` does and slot `v` holds `mark`. */
  ghost predicate Rebases(sc: Scope, scc: Scope, l: seq<Choice>, v: nat, mark: int) {
    forall a: Around | Fits(sc, a) && v in a.marks && a.marks[v] == mark && scc.floor < a.next :: Fits(scc, On(a, l))
  }

  function CommitCode(op: Op, v: nat): Code {
    if op.C_SOFTCUT? then [Ins(op), Num(v)] else [Ins(op)]
  }

  /** The condition's exit, past the instruction that ends the condition. */
  function Committed(xc: Exit, op: Op, v: nat): Exit {
    Exit(xc.pc + |CommitCode(op, v)|, xc.used, false)
  }

  ghost predicate Resumes(vm: Vm, sc: Scope, scc: Scope, xc: Exit, oc: Own, v: nat, mark: int, op: Op, l: seq<Choice>) {
    && !xc.dep && v < oc.lo <= oc.hi && At(vm.code, xc.pc, CommitCode(op, v))
    && ((op.C_SOFTCUT? && mark <= 0) || op.C_SCUT?)
    && Above(l, sc.floor) && Top(l) <= scc.floor && sc.floor <= scc.floor
    && Rebases(sc, scc, l, v, mark)
  }

  function Over(q: Place, l: seq<Choice>, v: nat, mark: int): Place {
    Place(q.go, l + q.l, q.m[v := mark], q.next)
  }

  lemma JoinAbove(l: seq<Choice>, m: seq<Choice>, floor: nat, floor1: nat)
    requires Above(l, floor) && Above(m, floor1) && Top(l) <= floor1 && floor <= floor1
    ensures Above(l + m, floor) && Top(l + m) == if m == [] then Top(l) else Top(m)
  {
    if l == [] {
      assert l + m == m;
    } else {
      SortedJoin(l, m, floor1);
      if m == [] { assert l + m == l; }
    }
  }

  lemma SameConfig(q: Place, l: seq<Choice>, v: nat, mark: int, a: Around)
    ensures ConfigOf(Over(q, l, v, mark), a) == ConfigOf(q, On(a, l))
  {
    assert a.kc + l + q.l == a.kc + (l + q.l);
  }

  /** C_SOFTCUT changes nothing once the condition's choice point is unlinked; C_SCUT never does. */
  lemma StepAgain(vm: Vm, op: Op, v: nat, pc: nat, used: set<nat>, s: Store, w: World)
    requires At(vm.code, pc, CommitCode(op, v))
    requires (op.C_SOFTCUT? && v in w.marks && w.marks[v] <= 0) || op.C_SCUT?
    ensures Step(vm, Plain(pc, vm, used, s, w)) == Plain(pc + |CommitCode(op, v)|, vm, used, s, w)
  {
    hide Step, FrameOf, At;
    if op.C_SOFTCUT? { StepSoftCut(vm, pc, used, s, w, v); } else { StepNop(vm, op, pc, used, s, w); }
  }

  /** What the condition leaves for backtracking, seen from outside. */
  function Under(l: seq<Choice>, j: seq<Choice>, cut: bool): seq<Choice> {
    if cut then l else l + j
  }

  lemma {:induction false} RebaseYields(vm: Vm, sc: Scope, scc: Scope, xc: Exit, oc: Own, v: nat, mark: int, op: Op,
        l: seq<Choice>,
                                        j: seq<Choice>, q: Place, answers: seq<Store>, cut: bool)
    requires Resumes(vm, sc, scc, xc, oc, v, mark, op, l) && v !in q.m && scc.floor < q.next
    requires Yields(vm, scc, xc, oc, j, q, answers, cut)
    ensures Yields(vm, sc, Committed(xc, op, v), Own(v, oc.hi), Under(l, j, cut), Over(q, l, v, mark), answers, false)
    decreases |answers|, 1
  {
    hide *;
    var p, j1 := Over(q, l, v, mark), Under(l, j, cut);
    forall a: Around | Admits(sc, p, a)
        ensures Delivers(vm, sc, Committed(xc, op, v), Own(v, oc.hi), j1, p, answers, false, a) {
      AdmitsOn(vm, sc, scc, xc, oc, v, mark, op, l, q, a);
      YieldsAt(vm, scc, xc, oc, j, q, answers, cut, On(a, l));
      RebaseDelivers(vm, sc, scc, xc, oc, v, mark, op, l, j, q, answers, cut, a);
    }
    YieldsAll(vm, sc, Committed(xc, op, v), Own(v, oc.hi), j1, p, answers, false);
  }

  lemma AdmitsOn(vm: Vm, sc: Scope, scc: Scope, xc: Exit, oc: Own, v: nat, mark: int, op: Op, l: seq<Choice>,
        q: Place, a: Around)
    requires Resumes(vm, sc, scc, xc, oc, v, mark, op, l) && v !in q.m && scc.floor < q.next
    requires Admits(sc, Over(q, l, v, mark), a)
    ensures Admits(scc, q, On(a, l)) && v in a.marks && a.marks[v] == mark && scc.floor < a.next
  {
    hide Fits;
    var m := q.m[v := mark];
    assert v in m;
    forall u | u in q.m ensures u in a.marks && a.marks[u] == q.m[u] { assert u in m && m[u] == q.m[u]; }
  }

  /** The answers of the condition, as answers of code running in the scope around it. */
  lemma {:induction false} RebaseDelivers(vm: Vm, sc: Scope, scc: Scope, xc: Exit, oc: Own, v: nat, mark: int,
        op: Op, l: seq<Choice>,
                                          j: seq<Choice>, q: Place, answers: seq<Store>, cut: bool, a: Around)
    requires Resumes(vm, sc, scc, xc, oc, v, mark, op, l)
    requires v in a.marks && a.marks[v] == mark && scc.floor < a.next
    requires Delivers(vm, scc, xc, oc, j, q, answers, cut, On(a, l))
    ensures Delivers(vm, sc, Committed(xc, op, v), Own(v, oc.hi), Under(l, j, cut), Over(q, l, v, mark), answers,
            false, a)
    decreases |answers|, 0
  {
    hide *;
    var own, p, x, j1 := Own(v, oc.hi), Over(q, l, v, mark), Committed(xc, op, v), Under(l, j, cut);
    if answers == [] {
      var w := NoneDelivered(vm, scc, xc, oc, j, q, cut, On(a, l));
      RebaseEnd(vm, sc, scc, xc, oc, v, mark, op, l, j, q, cut, a, w);
      DeliversNone(vm, sc, x, own, j1, p, false, a, w);
    } else {
      var ld := FirstDelivered(vm, scc, xc, oc, j, q, answers, cut, On(a, l));
      var ld1 := RebaseLanding(vm, sc, scc, xc, oc, v, mark, op, l, q, a, answers[0], ld);
      RebaseYields(vm, sc, scc, xc, oc, v, mark, op, l, j, More(oc, ld), answers[1..], cut);
      Widen(vm, sc, x, own, own, j1, Over(More(oc, ld), l, v, mark), More(own, ld1).m, answers[1..], false);
      DeliversFirst(vm, sc, x, own, j1, p, answers, false, a, ld1);
    }
  }

  lemma RebaseEnd(vm: Vm, sc: Scope, scc: Scope, xc: Exit, oc: Own, v: nat, mark: int, op: Op, l: seq<Choice>,
                  j: seq<Choice>, q: Place, cut: bool, a: Around, w: World)
    requires Resumes(vm, sc, scc, xc, oc, v, mark, op, l) && Exhausts(vm, oc, j, q, On(a, l), cut, w)
    ensures Exhausts(vm, Own(v, oc.hi), Under(l, j, cut), Over(q, l, v, mark), a, false, w)
  {
    hide Reaches, At;
    SameConfig(q, l, v, mark, a);
    assert On(a, l).kc + j == a.kc + (l + j);
    SameTrans(oc, oc, Own(v, oc.hi), a.marks, a.marks, w.marks);
  }

  lemma RebaseLanding(vm: Vm, sc: Scope, scc: Scope, xc: Exit, oc: Own, v: nat, mark: int, op: Op, l: seq<Choice>,
        q: Place, a: Around, s: Store, ld: Landing)
    returns (ld1: Landing)
    requires Resumes(vm, sc, scc, xc, oc, v, mark, op, l) && Lands(vm, scc, xc, oc, q, On(a, l), s, ld)
    requires v in a.marks && a.marks[v] == mark && scc.floor < a.next
    ensures Lands(vm, sc, Committed(xc, op, v), Own(v, oc.hi), Over(q, l, v, mark), a, s, ld1)
    ensures v !in More(oc, ld).m && scc.floor < More(oc, ld).next
    ensures var p1 := Over(More(oc, ld), l, v, mark);
            p1.(m := More(Own(v, oc.hi), ld1).m) == More(Own(v, oc.hi), ld1) && Agree(p1.m, More(Own(v, oc.hi), ld1).m)
  {
    hide Reaches, At, Fits, FrameOf, Step, Steps;
    var own := Own(v, oc.hi);
    LandedFacts(vm, scc, xc, oc, q, On(a, l), s, ld);
    var w := LandWorld(On(a, l), ld);
    var c := Plain(xc.pc, vm, xc.used, s, w);
    assert !(oc.lo <= v < oc.hi);
    StepAgain(vm, op, v, xc.pc, xc.used, s, w);
    ReachesStep(vm, c);
    ReachesTrans(vm, ConfigOf(q, On(a, l)), c, Step(vm, c));
    SameConfig(q, l, v, mark, a);
    JoinAbove(l, ld.l, sc.floor, scc.floor);
    ld1 := Landing(Committed(xc, op, v).pc, ld.frame, l + ld.l, ld.marks, ld.dead, ld.next);
    assert a.kc + l + ld.l == a.kc + (l + ld.l);
    SameTrans(oc, oc, own, a.marks, a.marks, ld.marks);
  }

  // ----- *-> with else -----

  /** The scope C_SOFTIF opens: the newest choice point below it changes once, when the condition's
      own choice point is unlinked. */
  function SoftScope(c: Body, v: nat, floor: nat): Scope {
    Scope(if CutsIn(c) then Soft(v) else NoScope, None, floor)
  }

  /** What is left of a condition's scope after its first answer, when what is below it stays or may change. */
  function RestScope(scc: Scope, pinned: bool): Scope {
    if pinned then scc else Loose(scc)
  }

  ghost predicate BehavesSoftly(vm: Vm, x: Exit, own: Own, v: nat, pc: nat, used: set<nat>, c: Body, pinned: bool) {
    forall floor: nat :: Behaves(vm, SoftScope(c, v, floor), RestScope(SoftScope(c, v, floor), pinned), x, own, pc,
        used, c)
  }

  lemma SoftlyBehaves(vm: Vm, x: Exit, own: Own, v: nat, pc: nat, used: set<nat>, c: Body, pinned: bool, floor: nat)
    requires BehavesSoftly(vm, x, own, v, pc, used, c, pinned)
    ensures Behaves(vm, SoftScope(c, v, floor), RestScope(SoftScope(c, v, floor), pinned), x, own, pc, used, c)
  {
    hide Behaves;
  }

  lemma SoftFits(c: Body, base: seq<Choice>, ch: Choice, ac: Around, v: nat)
    requires Sorted(base) && base != [] && Top(base) < ch.addr && ac.kc == base + [ch] && ac.next == ch.addr + 1
    requires v in ac.marks && ac.marks[v] == ch.addr
    ensures Fits(SoftScope(c, v, ch.addr), ac) && Above([], ch.addr) && Top([]) < ac.next && Sorted(ac.kc)
  {
    assert forall i :: 0 <= i < |base| - 1 ==> base[i].addr < base[|base| - 1].addr;
  }

  /** The top of the older choice points is known: they end in `l`, or nothing below the scope changes. */
  lemma TopStays(sc: Scope, a: Around, a1: Around, l: seq<Choice>)
    requires Fits(sc, a) && Fits(sc, a1) && Above(l, sc.floor)
    ensures Sorted(a1.kc + l) && a1.kc + l != [] && Top(a1.kc + l) == if l == [] then Top(a1.kc) else Top(l)
    ensures Top(a.kc + l) == if l == [] then Top(a.kc) else Top(l)
    ensures sc.pin.Some? ==> Top(a1.kc + l) == Top(a.kc + l)
  {
    SortedJoin(a.kc, l, sc.floor);
    SortedJoin(a1.kc, l, sc.floor);
  }

  /** `sc` is the scope the condition's answers are looked at in. */
  lemma SoftRebases(sc: Scope, c: Body, v: nat, a: Around, l: seq<Choice>)
    requires Fits(sc, a) && Above(l, sc.floor) && Top(l) < a.next
    ensures Rebases(sc, RestScope(SoftScope(c, v, a.next), sc.pin.Some?), l, v, 0 - Top(a.kc + l))
  {
    var scc, mark: int := RestScope(SoftScope(c, v, a.next), sc.pin.Some?), 0 - Top(a.kc + l);
    forall a1: Around | Fits(sc, a1) && v in a1.marks && a1.marks[v] == mark && scc.floor < a1.next
        ensures Fits(scc, On(a1, l)) {
      TopStays(sc, a, a1, l);
    }
  }

  /** The first C_SOFTCUT unlinks the choice point C_SOFTIF made and keeps everything above it. */
  lemma StepUnlink(vm: Vm, v: nat, pc: nat, used: set<nat>, s: Store, w: World, base: seq<Choice>, ch: Choice,
        newer: seq<Choice>)
    requires At(vm.code, pc, [Ins(C_SOFTCUT), Num(v)]) && v in w.marks && w.marks[v] == ch.addr
    requires w.chain == base + [ch] + newer && Sorted(w.chain)
    ensures Step(vm, Plain(pc, vm, used, s, w)) ==
            Plain(pc + 2, vm, used, s,
                  World(base + newer, w.marks[v := 0 - Top(base)], w.dead[ch.addr := Top(base)], w.next, w.out))
  {
    hide Step, At, FrameOf, SoftCut;
    Unlinks(w, v, base, ch, newer);
    StepSoftCut(vm, pc, used, s, w, v);
  }

  lemma SoftElseRuns(vm: Vm, sc: Scope, rest: Scope, x: Exit, xc: Exit, oc: Own, ot: Own, oe: Own, own: Own, v: nat,
        dist: nat, pc: nat, used: set<nat>,
                     c: Body, t: Body, e: Body, s: Store, l: seq<Choice>, next: nat, a: Around)
    requires At(vm.code, pc, [Ins(C_SOFTIF), Num(v), Num(dist)]) && At(vm.code, xc.pc, [Ins(C_SOFTCUT), Num(v)])
             && !xc.dep
    requires BehavesSoftly(vm, xc, oc, v, pc + 3, used, c, sc.pin.Some?) && Rests(sc, rest)
    requires Continues(vm, sc, rest, x, ot, xc.pc + 2, xc.used, t)
             && Behaves(vm, sc, rest, x, oe, pc + 3 + dist, used, e)
    requires own.lo == v < oc.lo <= oc.hi <= ot.lo && ScopeBefore(sc, v) && v < own.hi && oc.hi <= own.hi
    requires Apart(sc, Own(v, oc.hi), ot, own) && Within(oe, own)
    requires Fits(sc, a) && Above(l, sc.floor) && Top(l) < a.next
    ensures RunsFrom(vm, rest, x, own, pc, used, Disj(SoftIfThen(c, t), e), s, l, next, a)
  {
    hide Delivers, Yields, Step, Steps, Reaches, At, FrameOf, Behaves, BehavesSoftly, Solve, SolveEach, Fits,
        SameOutside, Sorted, Above,
         Apart, Within, Continues, Rests, Seen, SoftScope, RestScope, Remembered, Later;
    var c0 := Plain(pc, vm, used, s, WorldOf(a, l));
    var ch := Choice(a.next, Jump(pc + 3 + dist, FrameOf(vm.env, used), s));
    FitsFacts(sc, a);
    SortedJoin(a.kc, l, sc.floor);
    var base := a.kc + l;
    var ac := Around(base + [ch], a.marks[v := a.next], a.dead, a.next + 1, a.out);
    var scc, scr := SoftScope(c, v, a.next), RestScope(SoftScope(c, v, a.next), sc.pin.Some?);
    SoftFloor(c, v, a.next, sc.pin.Some?);
    StepIfElse(vm, C_SOFTIF, pc, used, s, WorldOf(a, l), v, dist);
    ReachesStep(vm, c0);
    SoftFits(c, base, ch, ac, v);
    SoftlyBehaves(vm, xc, oc, v, pc + 3, used, c, sc.pin.Some?, a.next);
    PartRuns(vm, scc, scr, xc, oc, pc + 3, used, c, s, [], ac);
    assert ac.kc + [] == ac.kc;
    var p, p0 := Entry(vm, pc + 3, used, s, [], ac.next), Entry(vm, pc, used, s, l, next);
    assert ConfigOf(p, ac) == Step(vm, c0);
    var sol := Solve(vm.p, vm.env, c, s);
    SoftElseSolves(vm, c, t, e, s);
    if sol.answers == [] {
      var w := NoneDelivered(vm, scr, xc, oc, [], p, sol.cut, ac);
      var a1 := Around(a.kc, w.marks, w.dead, w.next, a.out);
      GuardFails(vm, oc, p, ac, sol.cut, w, base, ch, pc + 3 + dist, used, s);
      ReachesTrans(vm, c0, ConfigOf(p, ac), Plain(pc + 3 + dist, vm, used, s, WorldOf(a1, l)));
      StaysUnlinked(vm, sc, a, l, c0, Plain(pc + 3 + dist, vm, used, s, WorldOf(a1, l)));
      LaterThan(sc, own, oc, v, a.next, a, a1);
      BranchRuns(vm, sc, rest, x, oe, own, p0, a, pc + 3 + dist, used, e, s, l, a1);
    } else {
      SeenFacts(sc, rest, t, a);
      SoftElseFound(vm, Seen(sc, rest, t), scr, xc, oc, v, l, p0, p, sol.answers, sol.cut, a, ac, ch, c);
      ContinueEach(vm, sc, rest, Committed(xc, C_SOFTCUT, v), x, Own(v, oc.hi), ot, own, l, p0, sol.answers, false,
          t, a);
    }
  }

  lemma SoftFloor(c: Body, v: nat, floor: nat, pinned: bool)
    ensures SoftScope(c, v, floor).floor == floor == RestScope(SoftScope(c, v, floor), pinned).floor
  {
  }

  lemma SoftElseSolves(vm: Vm, c: Body, t: Body, e: Body, s: Store)
    ensures Solve(vm.p, vm.env, Disj(SoftIfThen(c, t), e), s) ==
            var found := Solve(vm.p, vm.env, c, s).answers;
            if found == [] then Solve(vm.p, vm.env, e, s) else SolveEach(vm.p, vm.env, t, found, false)
  {
    hide SolveEach;
  }

  /** Seen from outside, the condition delivers its answers behind C_SOFTCUT and never cuts. */
  lemma SoftElseFound(vm: Vm, sc: Scope, scr: Scope, xc: Exit, oc: Own, v: nat, l: seq<Choice>, p0: Place, p: Place,
                      answers: seq<Store>, cut: bool, a: Around, ac: Around, ch: Choice, c: Body)
    requires answers != [] && Delivers(vm, scr, xc, oc, [], p, answers, cut, ac)
             && Reaches(vm, ConfigOf(p0, a), ConfigOf(p, ac))
    requires scr == RestScope(SoftScope(c, v, a.next), sc.pin.Some?) && ch.addr == a.next && v < oc.lo <= oc.hi
    requires ac == Around(a.kc + l + [ch], a.marks[v := a.next], a.dead, a.next + 1, a.out) && Sorted(ac.kc)
    requires At(vm.code, xc.pc, [Ins(C_SOFTCUT), Num(v)]) && !xc.dep
    requires Fits(sc, a) && Above(l, sc.floor) && Top(l) < a.next
    ensures Delivers(vm, sc, Committed(xc, C_SOFTCUT, v), Own(v, oc.hi), l, p0, answers, false, a)
  {
    hide Delivers, Yields, Reaches, At, Fits, Sorted, Above, Lands, SameOutside, Rebases, Admits, Agree, RestScope,
        SoftScope,
         UnlinkedLanding, Resumes, OwnMarks;
    var own, x, mark: int := Own(v, oc.hi), Committed(xc, C_SOFTCUT, v), 0 - Top(a.kc + l);
    SoftFloor(c, v, a.next, sc.pin.Some?);
    var ld := FirstDelivered(vm, scr, xc, oc, [], p, answers, cut, ac);
    var ld1 := UnlinkLanding(vm, sc, scr, xc, oc, v, l, p0, p, answers[0], a, ac, ch, ld);
    SoftResumes(vm, sc, scr, xc, oc, v, l, a, c);
    RebaseYields(vm, sc, scr, xc, oc, v, mark, C_SOFTCUT, l, [], More(oc, ld), answers[1..], cut);
    UnderNone(l, cut);
    Widen(vm, sc, x, own, own, l, Over(More(oc, ld), l, v, mark), More(own, ld1).m, answers[1..], false);
    DeliversFirst(vm, sc, x, own, l, p0, answers, false, a, ld1);
  }

  lemma SoftResumes(vm: Vm, sc: Scope, scr: Scope, xc: Exit, oc: Own, v: nat, l: seq<Choice>, a: Around, c: Body)
    requires scr == RestScope(SoftScope(c, v, a.next), sc.pin.Some?) && v < oc.lo <= oc.hi
    requires At(vm.code, xc.pc, [Ins(C_SOFTCUT), Num(v)]) && !xc.dep
    requires Fits(sc, a) && Above(l, sc.floor) && Top(l) < a.next
    ensures Resumes(vm, sc, scr, xc, oc, v, 0 - Top(a.kc + l), C_SOFTCUT, l)
  {
    hide Fits, Sorted, Above, Rebases, At;
    SoftRebases(sc, c, v, a, l);
    FitsFacts(sc, a);
  }

  lemma UnderNone(l: seq<Choice>, cut: bool)
    ensures Under(l, [], cut) == l
  {
    assert l + [] == l;
  }

  /** The landing behind the first C_SOFTCUT: the choice point of C_SOFTIF is unlinked. */
  function UnlinkedLanding(xc: Exit, v: nat, l: seq<Choice>, a: Around, ld: Landing): Landing {
    Landing(xc.pc + 2, ld.frame, l + ld.l, ld.marks[v := 0 - Top(a.kc + l)], ld.dead[a.next := Top(a.kc + l)], ld.next)
  }

  /** What the condition counts on agrees with what it does seen from outside. */
  lemma UnlinkedMore(xc: Exit, oc: Own, v: nat, l: seq<Choice>, a: Around, ld: Landing)
    requires v < oc.lo <= oc.hi
    ensures v !in More(oc, ld).m
    ensures var ld1 := UnlinkedLanding(xc, v, l, a, ld);
            var p1 := Over(More(oc, ld), l, v, 0 - Top(a.kc + l));
            p1.(m := More(Own(v, oc.hi), ld1).m) == More(Own(v, oc.hi), ld1) && Agree(p1.m, More(Own(v, oc.hi), ld1).m)
  {
  }

  lemma UnlinkLanding(vm: Vm, sc: Scope, scc: Scope, xc: Exit, oc: Own, v: nat, l: seq<Choice>, p0: Place, p: Place,
        s: Store,
                      a: Around, ac: Around, ch: Choice, ld: Landing) returns (ld1: Landing)
    requires Lands(vm, scc, xc, oc, p, ac, s, ld) && Reaches(vm, ConfigOf(p0, a), ConfigOf(p, ac))
    requires scc.floor == ch.addr == a.next && v < oc.lo <= oc.hi
    requires ac == Around(a.kc + l + [ch], a.marks[v := a.next], a.dead, a.next + 1, a.out) && Sorted(ac.kc)
    requires At(vm.code, xc.pc, [Ins(C_SOFTCUT), Num(v)]) && !xc.dep
    requires Fits(sc, a) && Above(l, sc.floor) && Top(l) < a.next
    ensures ld1 == UnlinkedLanding(xc, v, l, a, ld)
    ensures Lands(vm, sc, Committed(xc, C_SOFTCUT, v), Own(v, oc.hi), p0, a, s, ld1)
    ensures v !in More(oc, ld).m && scc.floor < More(oc, ld).next
    ensures var p1 := Over(More(oc, ld), l, v, 0 - Top(a.kc + l));
            p1.(m := More(Own(v, oc.hi), ld1).m) == More(Own(v, oc.hi), ld1) && Agree(p1.m, More(Own(v, oc.hi), ld1).m)
  {
    hide Reaches, At, Fits, FrameOf, Step, Steps, Sorted, Above, SameOutside, StepCut, OwnMarks;
    var own, base := Own(v, oc.hi), a.kc + l;
    LandedFacts(vm, scc, xc, oc, p, ac, s, ld);
    FitsFacts(sc, a);
    var w := LandWorld(ac, ld);
    SortedJoin(ac.kc, ld.l, a.next);
    MarkKept(oc, v, ac.marks, ld.marks);
    var c1 := Plain(xc.pc, vm, xc.used, s, w);
    StepUnlink(vm, v, xc.pc, xc.used, s, w, base, ch, ld.l);
    ReachesStep(vm, c1);
    ReachesTrans(vm, ConfigOf(p, ac), c1, Step(vm, c1));
    ReachesTrans(vm, ConfigOf(p0, a), ConfigOf(p, ac), Step(vm, c1));
    JoinAbove(l, ld.l, sc.floor, a.next);
    ld1 := UnlinkedLanding(xc, v, l, a, ld);
    UnlinkedMore(xc, oc, v, l, a, ld);
    assert base + ld.l == a.kc + (l + ld.l);
    UnlinkMarks(oc, v, a.marks, a.next, ld.marks, 0 - Top(base));
  }

  lemma MarkKept(oc: Own, v: nat, marks: map<nat, int>, marks1: map<nat, int>)
    requires SameOutside(oc, marks, marks1) && v < oc.lo && v in marks
    ensures v in marks1 && marks1[v] == marks[v]
  {
    assert !(oc.lo <= v < oc.hi);
  }

  lemma UnlinkMarks(oc: Own, v: nat, marks: map<nat, int>, m0: int, marks1: map<nat, int>, m1: int)
    requires SameOutside(oc, marks[v := m0], marks1) && v < oc.lo <= oc.hi
    ensures SameOutside(Own(v, oc.hi), marks, marks1[v := m1])
  {
    forall u | !(v <= u < oc.hi) ensures (u in marks <==> u in marks1[v := m1])
        && (u in marks ==> marks[u] == marks1[v := m1][u]) {
      assert !(oc.lo <= u < oc.hi) && u != v;
      assert u in marks[v := m0] <==> u in marks;
    }
  }

  lemma SoftElseBehaves(vm: Vm, sc: Scope, rest: Scope, x: Exit, xc: Exit, oc: Own, ot: Own, oe: Own, own: Own,
        v: nat, dist: nat, pc: nat, used: set<nat>,
                        c: Body, t: Body, e: Body)
    requires At(vm.code, pc, [Ins(C_SOFTIF), Num(v), Num(dist)]) && At(vm.code, xc.pc, [Ins(C_SOFTCUT), Num(v)])
             && !xc.dep
    requires BehavesSoftly(vm, xc, oc, v, pc + 3, used, c, sc.pin.Some?) && Rests(sc, rest)
    requires Continues(vm, sc, rest, x, ot, xc.pc + 2, xc.used, t)
             && Behaves(vm, sc, rest, x, oe, pc + 3 + dist, used, e)
    requires own.lo == v < oc.lo <= oc.hi <= ot.lo && ScopeBefore(sc, v) && v < own.hi && oc.hi <= own.hi
    requires Apart(sc, Own(v, oc.hi), ot, own) && Within(oe, own)
    ensures Behaves(vm, sc, rest, x, own, pc, used, Disj(SoftIfThen(c, t), e))
  {
    hide Delivers, Behaves, Reaches, At, Fits, BehavesSoftly, FrameOf, Continues, Rests, RunsFrom;
    forall s: Store, l: seq<Choice>, next: nat, a: Around | Ready(vm, sc, pc, used, s, l, next, a)
      ensures RunsFrom(vm, rest, x, own, pc, used, Disj(SoftIfThen(c, t), e), s, l, next, a)
    {
      ReadyFacts(vm, sc, pc, used, s, l, next, a);
      SoftElseRuns(vm, sc, rest, x, xc, oc, ot, oe, own, v, dist, pc, used, c, t, e, s, l, next, a);
    }
    AllRunsBehave(vm, sc, rest, x, own, pc, used, Disj(SoftIfThen(c, t), e));
  }

  // ----- *-> without else -----

  function MarkedScope(c: Body, v: nat, pinned: bool, top: nat, floor: nat): Scope {
    Scope(if CutsIn(c) then IfThenScope(v) else NoScope, if pinned then Some(top) else None, floor)
  }

  ghost predicate BehavesResumed(vm: Vm, x: Exit, own: Own, v: nat, pc: nat, used: set<nat>, c: Body, pinned: bool) {
    forall top: nat, floor: nat ::
      Behaves(vm, MarkedScope(c, v, pinned, top, floor), RestScope(MarkedScope(c, v, pinned, top, floor), pinned), x,
          own, pc, used, c)
  }

  lemma ResumedBehaves(vm: Vm, x: Exit, own: Own, v: nat, pc: nat, used: set<nat>, c: Body, pinned: bool, top: nat,
        floor: nat)
    requires BehavesResumed(vm, x, own, v, pc, used, c, pinned)
    ensures var scc := MarkedScope(c, v, pinned, top, floor);
            Behaves(vm, scc, RestScope(scc, pinned), x, own, pc, used, c)
  {
    hide Behaves;
  }

  lemma MarkedRebases(sc: Scope, c: Body, v: nat, a: Around, l: seq<Choice>)
    requires Fits(sc, a) && Above(l, sc.floor) && Top(l) < a.next
    ensures var floor := if l == [] then sc.floor else Top(l);
            Rebases(sc, RestScope(MarkedScope(c, v, sc.pin.Some?, Top(a.kc + l), floor), sc.pin.Some?), l, v,
                Top(a.kc + l))
  {
    var top, floor := Top(a.kc + l), if l == [] then sc.floor else Top(l);
    var scc := RestScope(MarkedScope(c, v, sc.pin.Some?, top, floor), sc.pin.Some?);
    forall a1: Around | Fits(sc, a1) && v in a1.marks && a1.marks[v] == top && scc.floor < a1.next
        ensures Fits(scc, On(a1, l)) {
      TopStays(sc, a, a1, l);
    }
  }

  lemma SoftThenRuns(vm: Vm, sc: Scope, rest: Scope, x: Exit, xc: Exit, oc: Own, ot: Own, own: Own, v: nat, pc: nat,
        used: set<nat>,
                     c: Body, t: Body, s: Store, l: seq<Choice>, next: nat, a: Around)
    requires At(vm.code, pc, [Ins(C_SOFTIFTHEN), Num(v)]) && At(vm.code, xc.pc, [Ins(C_SCUT)]) && !xc.dep
    requires BehavesResumed(vm, xc, oc, v, pc + 2, used, c, sc.pin.Some?) && Rests(sc, rest)
    requires Continues(vm, sc, rest, x, ot, xc.pc + 1, xc.used, t)
    requires v < oc.lo <= oc.hi && ScopeBefore(sc, v) && Apart(sc, Own(v, oc.hi), ot, own)
    requires Fits(sc, a) && Above(l, sc.floor) && Top(l) < a.next && sc.floor < a.next
    ensures RunsFrom(vm, rest, x, own, pc, used, SoftIfThen(c, t), s, l, next, a)
  {
    hide Delivers, Yields, Step, Steps, Reaches, At, FrameOf, Behaves, Fits, Sorted, Rebases, Apart, Within, Solve,
        SolveEach,
         SameOutside, Above, BehavesResumed, Continues, Rests, Seen, MarkedScope, RestScope;
    SoftThenSolves(vm, c, t, s);
    var c0 := Plain(pc, vm, used, s, WorldOf(a, l));
    var top, floor := Top(a.kc + l), if l == [] then sc.floor else Top(l);
    var scc := MarkedScope(c, v, sc.pin.Some?, top, floor);
    var scr, see := RestScope(scc, sc.pin.Some?), Seen(sc, rest, t);
    var a2 := a.(marks := a.marks[v := top]);
    SeenFacts(sc, rest, t, a);
    MarkedRebases(see, c, v, a, l);
    MarkedStart(sc, c, oc, v, l, top, floor, a, a2);
    StepIfThen(vm, C_SOFTIFTHEN, pc, used, s, WorldOf(a, l), v);
    ReachesStep(vm, c0);
    ResumedBehaves(vm, xc, oc, v, pc + 2, used, c, sc.pin.Some?, top, floor);
    PartRuns(vm, scc, scr, xc, oc, pc + 2, used, c, s, [], On(a2, l));
    var q, p0 := Entry(vm, pc + 2, used, s, [], a2.next), Entry(vm, pc, used, s, l, next);
    var sol, x1, oa := Solve(vm.p, vm.env, c, s), Committed(xc, C_SCUT, v), Own(v, oc.hi);
    RebaseDelivers(vm, see, scr, xc, oc, v, top, C_SCUT, l, [], q, sol.answers, sol.cut, a2);
    UnderNone(l, sol.cut);
    SameConfig(q, l, v, top, a2);
    assert a.kc + l + [] == a.kc + l;
    DeliversVia(vm, see, x1, oa, oa, l, p0, a, Over(q, l, v, top), a2, sol.answers, false);
    ContinueEach(vm, sc, rest, x1, x, oa, ot, own, l, p0, sol.answers, false, t, a);
  }

  lemma SoftThenSolves(vm: Vm, c: Body, t: Body, s: Store)
    ensures Solve(vm.p, vm.env, SoftIfThen(c, t), s) == SolveEach(vm.p, vm.env, t, Solve(vm.p, vm.env, c, s).answers,
            false)
  {
    hide SolveEach;
  }

  lemma MarkedStart(sc: Scope, c: Body, oc: Own, v: nat, l: seq<Choice>, top: nat, floor: nat, a: Around, a2: Around)
    requires a2 == a.(marks := a.marks[v := top]) && floor == (if l == [] then sc.floor else Top(l)) && top ==
             Top(a.kc + l)
    requires Fits(sc, a) && Above(l, sc.floor) && Top(l) < a.next && sc.floor < a.next && ScopeBefore(sc, v)
             && v < oc.lo <= oc.hi
    ensures var scc := MarkedScope(c, v, sc.pin.Some?, top, floor);
            Fits(scc, On(a2, l)) && scc.floor == floor == RestScope(scc, sc.pin.Some?).floor
    ensures Above([], floor) && Top([]) < a2.next && Top(l) <= floor && sc.floor <= floor && floor < a2.next
    ensures SameOutside(Own(v, oc.hi), a.marks, a2.marks)
  {
    FitsStays(sc, Own(v, oc.hi), a, a2.marks, a2.dead, a2.next);
    TopStays(sc, a, a, l);
  }

  lemma SoftThenBehaves(vm: Vm, sc: Scope, rest: Scope, x: Exit, xc: Exit, oc: Own, ot: Own, own: Own, v: nat,
        pc: nat, used: set<nat>, c: Body, t: Body)
    requires At(vm.code, pc, [Ins(C_SOFTIFTHEN), Num(v)]) && At(vm.code, xc.pc, [Ins(C_SCUT)]) && !xc.dep
    requires BehavesResumed(vm, xc, oc, v, pc + 2, used, c, sc.pin.Some?) && Rests(sc, rest)
    requires Continues(vm, sc, rest, x, ot, xc.pc + 1, xc.used, t)
    requires v < oc.lo <= oc.hi && ScopeBefore(sc, v) && Apart(sc, Own(v, oc.hi), ot, own)
    ensures Behaves(vm, sc, rest, x, own, pc, used, SoftIfThen(c, t))
  {
    hide Delivers, Behaves, Reaches, At, Fits, BehavesResumed, FrameOf, Continues, Rests, RunsFrom;
    forall s: Store, l: seq<Choice>, next: nat, a: Around | Ready(vm, sc, pc, used, s, l, next, a)
      ensures RunsFrom(vm, rest, x, own, pc, used, SoftIfThen(c, t), s, l, next, a)
    {
      ReadyFacts(vm, sc, pc, used, s, l, next, a);
      SoftThenRuns(vm, sc, rest, x, xc, oc, ot, own, v, pc, used, c, t, s, l, next, a);
    }
    AllRunsBehave(vm, sc, rest, x, own, pc, used, SoftIfThen(c, t));
  }
}
