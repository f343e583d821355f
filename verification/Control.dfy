// Control constructs: if the parts behave, the construct does.

module Control {
  import opened Terms
  import opened VmCode
  import opened CodeGen
  import opened Search
  import opened Machine
  import opened Execution
  import opened Chains
  import opened Answers
  import opened Composition
  import opened ControlSteps

  /** Code that leads to a part's entry delivers that part's answers. */
  lemma RunsVia(vm: Vm, sc: Scope, rest: Scope, x: Exit, o: Own, own: Own, p: Place, a: Around,
                pc: nat, used: set<nat>, b: Body, s: Store, l: seq<Choice>, a1: Around, o1: Own)
    requires Reaches(vm, ConfigOf(p, a), Plain(pc, vm, used, s, WorldOf(a1, l)))
    requires Behaves(vm, sc, rest, x, o, pc, used, b) && Fits(sc, a1) && Above(l, sc.floor) && Top(l) < a1.next
    requires a1.kc == a.kc && a1.out == a.out && a.next <= a1.next && SameOutside(o1, a.marks, a1.marks)
    requires Within(o, own) && Within(o1, own)
    ensures Delivers(vm, rest, x, own, l, p, Solve(vm.p, vm.env, b, s).answers, Solve(vm.p, vm.env, b, s).cut, a)
  {
    hide Yields, Delivers, Solve, Reaches, Behaves, Fits;
    PartRuns(vm, sc, rest, x, o, pc, used, b, s, l, a1);
    SameTrans(o1, o1, own, a.marks, a.marks, a1.marks);
    DeliversVia(vm, rest, x, own, o, l, p, a, Entry(vm, pc, used, s, l, a1.next), a1,
                Solve(vm.p, vm.env, b, s).answers, Solve(vm.p, vm.env, b, s).cut);
  }

  lemma BehavesVia(vm: Vm, sc: Scope, rest: Scope, x: Exit, y: Exit, own: Own, pc: nat, used: set<nat>, b: Body)
    requires Behaves(vm, sc, rest, x, own, pc, used, b) && LeadsTo(vm, x, y)
    ensures Behaves(vm, sc, rest, y, own, pc, used, b)
  {
    hide Delivers, Solve, LeadsTo, Ready;
    forall s: Store, l: seq<Choice>, next: nat, a: Around | Ready(vm, sc, pc, used, s, l, next, a)
      ensures RunsFrom(vm, rest, y, own, pc, used, b, s, l, next, a)
    {
      assert RunsFrom(vm, rest, x, own, pc, used, b, s, l, next, a);
      ExitDelivers(vm, rest, x, y, own, l, Entry(vm, pc, used, s, l, next),
                   Solve(vm.p, vm.env, b, s).answers, Solve(vm.p, vm.env, b, s).cut, a);
    }
    AllRunsBehave(vm, sc, rest, y, own, pc, used, b);
  }

  // ----- true, fail, cut -----

  lemma TrueBehaves(vm: Vm, sc: Scope, rest: Scope, own: Own, dep: bool, pc: nat, used: set<nat>)
    requires At(vm.code, pc, [Ins(I_TRUE)]) && rest.floor == sc.floor
    ensures Behaves(vm, sc, rest, Exit(pc + 1, used, dep), own, pc, used, True)
  {
    hide Delivers, Step, Steps, Reaches, At, FrameOf;
    var x := Exit(pc + 1, used, dep);
    forall s: Store, l: seq<Choice>, next: nat, a: Around | Ready(vm, sc, pc, used, s, l, next, a)
      ensures RunsFrom(vm, rest, x, own, pc, used, True, s, l, next, a)
    {
      ReadyFacts(vm, sc, pc, used, s, l, next, a);
      StepNop(vm, I_TRUE, pc, used, s, WorldOf(a, l));
      ReachesStep(vm, Plain(pc, vm, used, s, WorldOf(a, l)));
      AnswerDelivers(vm, rest, x, own, l, Entry(vm, pc, used, s, l, next), a, pc + 1, FrameOf(vm.env, used), [s]);
    }
    AllRunsBehave(vm, sc, rest, x, own, pc, used, True);
  }

  lemma FailBehaves(vm: Vm, sc: Scope, rest: Scope, own: Own, dep: bool, pc: nat, used: set<nat>)
    requires At(vm.code, pc, [Ins(I_FAIL)]) && rest.floor == sc.floor
    ensures Behaves(vm, sc, rest, Exit(pc + 1, used, dep), own, pc, used, Fail)
  {
    hide Delivers, Step, Steps, Reaches, At, FrameOf;
    var x := Exit(pc + 1, used, dep);
    forall s: Store, l: seq<Choice>, next: nat, a: Around | Ready(vm, sc, pc, used, s, l, next, a)
      ensures RunsFrom(vm, rest, x, own, pc, used, Fail, s, l, next, a)
    {
      ReadyFacts(vm, sc, pc, used, s, l, next, a);
      StepFail(vm, I_FAIL, pc, used, s, WorldOf(a, l));
      ReachesStep(vm, Plain(pc, vm, used, s, WorldOf(a, l)));
      AnswerDelivers(vm, rest, x, own, l, Entry(vm, pc, used, s, l, next), a, pc + 1, FrameOf(vm.env, used), []);
    }
    AllRunsBehave(vm, sc, rest, x, own, pc, used, Fail);
  }

  /** The cut instruction that belongs to a scope. */
  predicate CutMatches(cut: CutInfo, sc: Scope) {
    match sc.kind
    case ClauseScope => cut == ClauseCut
    case Local(v) => cut == LocalCut(C_LCUT, v)
    case Soft(v) => cut == LocalCut(C_LSCUT, v)
    case IfThenScope(v) => cut == LocalCut(C_LCUTIFTHEN, v)
    case Spent(_) => false
    case NoScope => false
  }

  function CutCode(cut: CutInfo): Code {
    if cut.ClauseCut? then [Ins(I_CUT)] else [Ins(cut.op), Num(cut.slot)]
  }

  /** The scope's cut instruction drops exactly the scope's own choice points. */
  lemma StepCutInstr(vm: Vm, cut: CutInfo, sc: Scope, pc: nat, used: set<nat>, s: Store, a: Around, l: seq<Choice>)
    requires CutMatches(cut, sc) && At(vm.code, pc, CutCode(cut)) && Fits(sc, a) && Above(l, sc.floor)
    ensures Step(vm, Plain(pc, vm, used, s, WorldOf(a, l))) == Plain(pc + |CutCode(cut)|, vm, used, s, WorldOf(a, []))
  {
    hide Step, At, FrameOf, ParentOf, LocalCutTo, CutTo;
    var w, n := WorldOf(a, l), |a.kc|;
    SortedJoin(a.kc, l, sc.floor);
    assert w.chain[..n] == a.kc && a.kc + [] == a.kc;
    match sc.kind {
      case ClauseScope =>
        StepClauseCut(vm, pc, used, s, w);
      case Local(v) =>
        assert w.chain[..n - 1] == a.kc[..n - 1];
        LocalCutKeeps(w.chain, n);
        StepLocalCut(vm, C_LCUT, pc, used, s, w, v, a.marks[v]);
      case Soft(v) =>
        var top := Top(a.kc);
        assert w.chain[n - 1].addr == top && top > 0;
        ParentInChain(w, n - 1);
        assert w.chain[..n - 1] == a.kc[..n - 1];
        LocalCutKeeps(w.chain, n);
        assert (if w.marks[v] < 0 then -w.marks[v] else w.marks[v]) == top;
        StepLocalCut(vm, C_LSCUT, pc, used, s, w, v, ParentOf(w, top));
      case IfThenScope(v) =>
        CutToKeeps(w.chain, n);
        StepCommit(vm, C_LCUTIFTHEN, pc, used, s, w, v);
    }
  }

  lemma ParentInChain(w: World, n: nat)
    requires Sorted(w.chain) && n < |w.chain|
    ensures ParentOf(w, w.chain[n].addr) == Top(w.chain[..n])
  {
    FindFinds(w.chain, n);
  }

  lemma CutBehaves(vm: Vm, sc: Scope, rest: Scope, own: Own, cut: CutInfo, dep: bool, pc: nat, used: set<nat>)
    requires CutMatches(cut, sc) && At(vm.code, pc, CutCode(cut)) && rest.floor == sc.floor
    ensures Behaves(vm, sc, rest, Exit(pc + |CutCode(cut)|, used, dep), own, pc, used, Cut)
  {
    hide Step, Steps, Reaches, At, FrameOf, CutMatches, Fits;
    var x := Exit(pc + |CutCode(cut)|, used, dep);
    forall s: Store, l: seq<Choice>, next: nat, a: Around | Ready(vm, sc, pc, used, s, l, next, a)
      ensures RunsFrom(vm, rest, x, own, pc, used, Cut, s, l, next, a)
    {
      ReadyFacts(vm, sc, pc, used, s, l, next, a);
      StepCutInstr(vm, cut, sc, pc, used, s, a, l);
      ReachesStep(vm, Plain(pc, vm, used, s, WorldOf(a, l)));
      CutDelivers(vm, rest, x, own, l, Entry(vm, pc, used, s, l, next), a, s);
    }
    AllRunsBehave(vm, sc, rest, x, own, pc, used, Cut);
  }

  lemma CutDelivers(vm: Vm, sc: Scope, x: Exit, own: Own, l: seq<Choice>, p: Place, a: Around, s: Store)
    requires Reaches(vm, ConfigOf(p, a), Plain(x.pc, vm, x.used, s, WorldOf(a, []))) && sc.floor < a.next
    ensures Delivers(vm, sc, x, own, l, p, [s], true, a)
  {
    hide Reaches;
    var ld := Landing(x.pc, FrameOf(vm.env, x.used), [], a.marks, a.dead, a.next);
    var more := More(own, ld);
    forall b: Around | Admits(sc, more, b) ensures Delivers(vm, sc, x, own, l, more, [], true, b) {
      ReachesSelf(vm, ConfigOf(more, b));
      assert b.kc + [] == b.kc;
      DeliversNone(vm, sc, x, own, l, more, true, b, WorldOf(b, []));
    }
    assert [s][1..] == [];
    DeliversFirst(vm, sc, x, own, l, p, [s], true, a, ld);
  }

  // ----- conjunction -----

  /** Code that may run on every answer of what comes before it, in scope `sc` up to its own first answer
      and in scope `rest` after that. */
  ghost predicate Continues(vm: Vm, sc: Scope, rest: Scope, x: Exit, own: Own, pc: nat, used: set<nat>, t: Body) {
    && Behaves(vm, sc, rest, x, own, pc, used, t)
    && (AlwaysCuts(t) || Behaves(vm, rest, rest, x, own, pc, used, t))
  }

  /** The scope in which answers are looked at that `t` continues. */
  function Seen(sc: Scope, rest: Scope, t: Body): Scope {
    if AlwaysCuts(t) then sc else rest
  }

  lemma SeenFacts(sc: Scope, rest: Scope, t: Body, a: Around)
    requires Rests(sc, rest) && Fits(sc, a)
    ensures Fits(Seen(sc, rest, t), a) && Seen(sc, rest, t).floor == sc.floor && Seen(sc, rest, t).pin == sc.pin
  {
  }

  /** Such code on every answer of what comes before it. */
  lemma ContinueEach(vm: Vm, sc: Scope, rest: Scope, xa: Exit, x: Exit, oa: Own, ob: Own, own: Own, j: seq<Choice>,
        p: Place,
                     stores: seq<Store>, cut: bool, t: Body, a: Around)
    requires Delivers(vm, Seen(sc, rest, t), xa, oa, j, p, stores, cut, a) && !xa.dep && Fits(sc, a)
             && Above(p.l, sc.floor)
    requires Continues(vm, sc, rest, x, ob, xa.pc, xa.used, t) && Rests(sc, rest) && Apart(sc, oa, ob, own)
    ensures var sol := SolveEach(vm.p, vm.env, t, stores, cut);
            Delivers(vm, rest, x, own, j, p, sol.answers, sol.cut, a)
  {
    hide Delivers, Behaves, SolveEach, Apart, Fits, AlwaysCuts, Above;
    if AlwaysCuts(t) {
      EachUntilCut(vm, sc, rest, xa, x, oa, ob, own, j, p, stores, cut, t, a);
    } else {
      RestFits(sc, rest, a);
      RestApart(sc, rest, oa, ob, own);
      EachDelivers(vm, rest, xa, x, oa, ob, own, j, p, stores, cut, t, a);
    }
  }

  lemma ConjBehaves(vm: Vm, sc: Scope, rest: Scope, xa: Exit, x: Exit, oa: Own, ob: Own, own: Own, pc: nat,
        used: set<nat>, l: Body, r: Body)
    requires Behaves(vm, sc, Seen(sc, rest, r), xa, oa, pc, used, l) && !xa.dep
    requires Continues(vm, sc, rest, x, ob, xa.pc, xa.used, r) && Rests(sc, rest) && Apart(sc, oa, ob, own)
    ensures Behaves(vm, sc, rest, x, own, pc, used, Conj(l, r))
  {
    hide Delivers, Apart, SolveEach, Fits, Continues, Behaves, Seen, Rests;
    forall s: Store, j: seq<Choice>, next: nat, a: Around | Ready(vm, sc, pc, used, s, j, next, a)
      ensures RunsFrom(vm, rest, x, own, pc, used, Conj(l, r), s, j, next, a)
    {
      ReadyFacts(vm, sc, pc, used, s, j, next, a);
      ReadyRuns(vm, sc, Seen(sc, rest, r), xa, oa, pc, used, l, s, j, next, a);
      var first := Solve(vm.p, vm.env, l, s);
      ContinueEach(vm, sc, rest, xa, x, oa, ob, own, j, Entry(vm, pc, used, s, j, next), first.answers, first.cut, r,
          a);
    }
    AllRunsBehave(vm, sc, rest, x, own, pc, used, Conj(l, r));
  }

  lemma ReadyRuns(vm: Vm, sc: Scope, rest: Scope, x: Exit, own: Own, pc: nat, used: set<nat>, b: Body,
                  s: Store, l: seq<Choice>, next: nat, a: Around)
    requires Behaves(vm, sc, rest, x, own, pc, used, b) && Ready(vm, sc, pc, used, s, l, next, a)
    ensures RunsFrom(vm, rest, x, own, pc, used, b, s, l, next, a)
  {
    hide RunsFrom, Ready;
  }

  // ----- disjunction -----

  /** The second alternative need not behave late when the first always cuts. */
  lemma OrBehaves(vm: Vm, sc: Scope, rest: Scope, x: Exit, ol: Own, or: Own, own: Own, pc: nat, dist: nat,
        used: set<nat>, b1: Body, b2: Body)
    requires At(vm.code, pc, [Ins(C_OR), Num(dist)]) && !b1.IfThen? && !b1.SoftIfThen? && Rests(sc, rest)
    requires Behaves(vm, sc, rest, x, ol, pc + 2, used, b1) && Behaves(vm, sc, rest, x, or, pc + 2 + dist, used, b2)
    requires AlwaysCuts(b1) || Behaves(vm, rest, rest, x, or, pc + 2 + dist, used, b2)
    requires Apart(sc, ol, or, own)
    ensures Behaves(vm, sc, rest, x, own, pc, used, Disj(b1, b2))
  {
    hide Delivers, Yields, Step, Steps, Reaches, At, FrameOf, Behaves, Fits, Apart, AlwaysCuts;
    forall s: Store, l: seq<Choice>, next: nat, a: Around | Ready(vm, sc, pc, used, s, l, next, a)
      ensures RunsFrom(vm, rest, x, own, pc, used, Disj(b1, b2), s, l, next, a)
    {
      ReadyFacts(vm, sc, pc, used, s, l, next, a);
      var first, second := Solve(vm.p, vm.env, b1, s), Solve(vm.p, vm.env, b2, s);
      var c := Plain(pc, vm, used, s, WorldOf(a, l));
      StepOr(vm, pc, used, s, WorldOf(a, l), dist);
      ReachesStep(vm, c);
      var ch := Choice(a.next, Jump(pc + 2 + dist, FrameOf(vm.env, used), s));
      var l1, a1 := l + [ch], a.(next := a.next + 1);
      assert a.kc + l + [ch] == a.kc + l1;
      AbovePush(l, sc.floor, ch.addr, ch.alt);
      FitsNext(sc, a);
      PartRuns(vm, sc, rest, x, ol, pc + 2, used, b1, s, l1, a1);
      var q := Entry(vm, pc + 2, used, s, l1, a1.next);
      OrDelivers(vm, sc, rest, x, ol, or, own, l, ch, pc + 2 + dist, used, b1, b2, s, q, a1);
      SameSelf(own, a.marks);
      var sol := Solve(vm.p, vm.env, Disj(b1, b2), s);
      assert first.cut ==> first.answers + [] == first.answers;
      DeliversVia(vm, rest, x, own, own, l, Entry(vm, pc, used, s, l, next), a, q, a1, sol.answers, sol.cut);
    }
    AllRunsBehave(vm, sc, rest, x, own, pc, used, Disj(b1, b2));
  }

  lemma FitsNext(sc: Scope, a: Around)
    requires Fits(sc, a)
    ensures Fits(sc, a.(next := a.next + 1))
  {
  }

  lemma SameSelf(own: Own, m: map<nat, int>)
    ensures SameOutside(own, m, m)
  {
  }

  lemma ApartFacts(sc: Scope, oa: Own, ob: Own, own: Own)
    requires Apart(sc, oa, ob, own)
    ensures Within(oa, own) && Within(ob, own) && oa.hi <= ob.lo && ScopeBefore(sc, own.lo) && ScopeBefore(sc, ob.lo)
  {
  }

  /** The answers of the first alternative, then those of the second unless the first has cut. */
  lemma OrDelivers(vm: Vm, sc: Scope, rest: Scope, x: Exit, ol: Own, or: Own, own: Own, j: seq<Choice>, ch: Choice,
        pc2: nat,
                   used: set<nat>, b1: Body, b2: Body, s: Store, q: Place, a: Around)
    requires var first := Solve(vm.p, vm.env, b1, s);
             Delivers(vm, rest, x, ol, j + [ch], q, first.answers, first.cut, a)
    requires ch.alt == Jump(pc2, FrameOf(vm.env, used), s) && q.m == map[] && Above(q.l, sc.floor) && Rests(sc, rest)
    requires Behaves(vm, sc, rest, x, or, pc2, used, b2)
             && (AlwaysCuts(b1) || Behaves(vm, rest, rest, x, or, pc2, used, b2))
    requires Apart(sc, ol, or, own) && Fits(sc, a) && Above(j, sc.floor) && Top(j) < ch.addr < a.next
    ensures var first, second := Solve(vm.p, vm.env, b1, s), Solve(vm.p, vm.env, b2, s);
            Delivers(vm, rest, x, own, j, q, first.answers + if first.cut then [] else second.answers,
                     if first.cut then true else second.cut, a)
  {
    hide *;
    var first, second := Solve(vm.p, vm.env, b1, s), Solve(vm.p, vm.env, b2, s);
    ApartFacts(sc, ol, or, own);
    if first.cut {
      CutJ(vm, rest, x, ol, j + [ch], j, q, first.answers, a);
      WiderDelivers(vm, rest, x, ol, own, j, q, first.answers, true, a);
      assert first.answers + [] == first.answers;
    } else if first.answers == [] {
      var w := NoneDelivered(vm, rest, x, ol, j + [ch], q, false, a);
      BackToOther(vm, sc, ol, own, j, ch, pc2, used, s, q, a, w);
      RunsVia(vm, sc, rest, x, or, own, q, a, pc2, used, b2, s, j, AfterBack(a, w), ol);
      assert [] + second.answers == second.answers;
    } else {
      if AlwaysCuts(b1) { CutWithAnswer(vm.p, vm.env, b1, s); }
      SameFloor(sc, rest);
      RestApart(sc, rest, ol, or, own);
      var pa := Place(None, j + [ch], map[], ch.addr + 1);
      JumpYields(vm, rest, x, or, j, ch, pc2, used, b2, s);
      WiderYields(vm, rest, x, or, own, j, pa, second.answers, second.cut);
      NoMarks(Nothing(own), a.marks);
      NothingApart(rest, ol, or, own);
      AppendFirst(vm, rest, x, Nothing(own), ol, own, j, pa, q, first.answers, false, second.answers, second.cut, a);
      assert map[] + pa.m == q.m;
    }
  }

  lemma SameFloor(sc: Scope, rest: Scope)
    requires Rests(sc, rest)
    ensures rest.floor == sc.floor
  {
  }

  lemma NoMarks(o: Own, marks: map<nat, int>)
    ensures MarksIn(o, map[]) && Agree(map[], marks)
  {
  }

  /** No slots at all. */
  function Nothing(own: Own): Own {
    Own(own.lo, 0)
  }

  lemma NothingApart(sc: Scope, o: Own, o2: Own, own: Own)
    requires Apart(sc, o, o2, own)
    ensures Apart(sc, Nothing(own), o, own)
  {
  }

  lemma WiderDelivers(vm: Vm, sc: Scope, x: Exit, o: Own, own: Own, j: seq<Choice>, p: Place, answers: seq<Store>,
        cut: bool, a: Around)
    requires Delivers(vm, sc, x, o, j, p, answers, cut, a) && Within(o, own)
    ensures Delivers(vm, sc, x, own, j, p, answers, cut, a)
  {
    hide Delivers, Reaches;
    ReachesSelf(vm, ConfigOf(p, a));
    DeliversVia(vm, sc, x, own, o, j, p, a, p, a, answers, cut);
  }

  lemma WiderYields(vm: Vm, sc: Scope, x: Exit, o: Own, own: Own, j: seq<Choice>, p: Place, answers: seq<Store>,
        cut: bool)
    requires Yields(vm, sc, x, o, j, p, answers, cut) && Within(o, own)
    ensures Yields(vm, sc, x, own, j, p, answers, cut)
  {
    hide Yields;
    Widen(vm, sc, x, o, own, j, p, p.m, answers, cut);
  }

  /** A choice point of C_OR, above `j`, gives the answers of the second alternative. */
  lemma JumpYields(vm: Vm, sc: Scope, x: Exit, own: Own, j: seq<Choice>, ch: Choice, pc: nat, used: set<nat>,
        b: Body, s: Store)
    requires ch.alt == Jump(pc, FrameOf(vm.env, used), s) && Behaves(vm, sc, sc, x, own, pc, used, b)
    requires Above(j, sc.floor) && Top(j) < ch.addr
    ensures var sol := Solve(vm.p, vm.env, b, s);
            Yields(vm, sc, x, own, j, Place(None, j + [ch], map[], ch.addr + 1), sol.answers, sol.cut)
  {
    hide Step, Steps, FrameOf, Fits, Behaves, Delivers, Solve;
    var sol, p := Solve(vm.p, vm.env, b, s), Place(None, j + [ch], map[], ch.addr + 1);
    forall a: Around | Admits(sc, p, a) ensures Delivers(vm, sc, x, own, j, p, sol.answers, sol.cut, a) {
      var w := WorldOf(a, p.l);
      assert w.chain == a.kc + j + [ch];
      StepBackJump(vm, w, a.kc + j, ch.addr, pc, used, s);
      ReachesStep(vm, Back(w));
      SameSelf(own, a.marks);
      RunsVia(vm, sc, sc, x, own, own, p, a, pc, used, b, s, j, a, own);
    }
    YieldsAll(vm, sc, x, own, j, p, sol.answers, sol.cut);
  }

  /** The first alternative has run out; backtracking enters the second. */
  lemma BackToOther(vm: Vm, sc: Scope, ol: Own, own: Own, j: seq<Choice>, ch: Choice, pc2: nat, used: set<nat>,
        s: Store, q: Place, a: Around, w: World)
    requires Exhausts(vm, ol, j + [ch], q, a, false, w) && ch.alt == Jump(pc2, FrameOf(vm.env, used), s)
             && Above(q.l, sc.floor)
    requires Fits(sc, a) && Within(ol, own) && ScopeBefore(sc, own.lo) && Top(j) < ch.addr < a.next
    ensures var a1 := AfterBack(a, w);
            && Reaches(vm, ConfigOf(q, a), Plain(pc2, vm, used, s, WorldOf(a1, j)))
            && Fits(sc, a1) && Top(j) < a1.next && a.next <= a1.next && SameOutside(ol, a.marks, a1.marks)
            && a1.kc == a.kc && a1.out == a.out
  {
    hide Step, Steps, FrameOf, Fits;
    StaysUnlinked(vm, sc, a, q.l, ConfigOf(q, a), Back(w));
    FitsAfter(sc, ol, own, a, AfterBack(a, w));
    assert w.chain == a.kc + j + [ch];
    StepBackJump(vm, w, a.kc + j, ch.addr, pc2, used, s);
    ReachesStep(vm, Back(w));
    ReachesTrans(vm, ConfigOf(q, a), Back(w), Step(vm, Back(w)));
  }
}
