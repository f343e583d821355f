// The main results about the clause compiler: running compiled code gives the answers of the source,
// in order, and never touches an uninitialised slot.

module Correctness {
  import opened Terms
  import opened VmCode
  import opened CodeGen
  import opened Search
  import opened Machine
  import opened Execution
  import opened Answers
  import opened Composition
  import opened Chains
  import opened Layout
  import opened Simulation
  import opened Compiler

  const Outermost := Scope(ClauseScope, Some(1), 1)

  function Caller(marks: map<nat, int>, dead: map<nat, nat>, next: nat, out: seq<Store>): Around {
    Around([Choice(1, Base)], marks, dead, next, out)
  }

  lemma StepExit(vm: Vm, frame: Frame, s: Store, w: World)
    requires vm.code != [] && vm.code[ExitPc(vm)] == Ins(I_EXIT)
    ensures Step(vm, Run(ExitPc(vm), frame, NoArgs, s, None, w)) == Back(w.(out := w.out + [s]))
  {
    StepIs(vm, Run(ExitPc(vm), frame, NoArgs, s, None, w), I_EXIT);
  }

  /** Collecting every answer of the clause by backtracking. */
  lemma {:induction false} Drain(vm: Vm, sc: Scope, x: Exit, own: Own, p: Place, answers: seq<Store>, cut: bool,
                                 marks: map<nat, int>, dead: map<nat, nat>, next: nat, out: seq<Store>)
    requires vm.code != [] && vm.code[ExitPc(vm)] == Ins(I_EXIT) && x.pc == ExitPc(vm)
    requires sc.kind == ClauseScope && Fits(sc, Caller(marks, dead, next, out)) && Above(p.l, sc.floor)
    requires Delivers(vm, sc, x, own, [], p, answers, cut, Caller(marks, dead, next, out))
    ensures Reaches(vm, ConfigOf(p, Caller(marks, dead, next, out)), Halt(out + answers))
    decreases |answers|
  {
    hide Delivers, Yields, Reaches, Steps, Step, Fits, Above;
    var a := Caller(marks, dead, next, out);
    if answers == [] {
      var w := NoneDelivered(vm, sc, x, own, [], p, cut, a);
      assert w.chain == [Choice(1, Base)] && out + [] == out;
      assert Step(vm, Back(w)) == Halt(out) by { LastStep(vm, w); }
      ReachesStep(vm, Back(w));
      ReachesTrans(vm, ConfigOf(p, a), Back(w), Halt(out));
    } else {
      var s := answers[0];
      var ld := FirstDelivered(vm, sc, x, own, [], p, answers, cut, a);
      var w, more := LandWorld(a, ld), More(own, ld);
      StepExit(vm, ld.frame, s, w);
      var c := Run(ld.pc, ld.frame, NoArgs, s, None, w);
      ReachesStep(vm, c);
      ReachesTrans(vm, ConfigOf(p, a), c, Step(vm, c));
      var a1 := Caller(ld.marks, ld.dead, ld.next, out + [s]);
      OwnAgree(own, ld.marks);
      StaysUnlinked(vm, sc, a, p.l, ConfigOf(p, a), c);
      CallerFits(sc, marks, dead, next, out, ld, out + [s]);
      YieldsAt(vm, sc, x, own, [], more, answers[1..], cut, a1);
      Drain(vm, sc, x, own, more, answers[1..], cut, ld.marks, ld.dead, ld.next, out + [s]);
      assert out + [s] + answers[1..] == out + answers;
      ReachesTrans(vm, ConfigOf(p, a), ConfigOf(more, a1), Halt(out + answers));
    }
  }

  lemma CallerFits(sc: Scope, marks: map<nat, int>, dead: map<nat, nat>, next: nat, out: seq<Store>, ld: Landing,
        out1: seq<Store>)
    requires sc.kind == ClauseScope && Fits(sc, Caller(marks, dead, next, out)) && next <= ld.next
             && Remembered(sc, dead, ld.dead)
    ensures Fits(sc, Caller(ld.marks, ld.dead, ld.next, out1))
  {
  }

  lemma LastStep(vm: Vm, w: World)
    requires w.chain == [Choice(1, Base)]
    ensures Step(vm, Back(w)) == Halt(w.out)
  {
  }

  /** What the compiler needs of a clause body: its variables have slots, and no `!` is stale. */
  ghost predicate Compilable(cl: Clause, b: Body) {
    ProperBody(b) && NoStaleCut(b, false) && Below(cl.arity) <= Below(cl.bits) && BodyVars(b) <= Below(cl.bits)
  }

  /** Running the code of a clause body yields exactly the body's answers, in order, whatever the
      predicates it calls do, with or without last-call optimisation. */
  lemma ClauseCorrect(vm: Vm, b: Body, slots: nat, s: Store)
    requires Compilable(vm.cl, b) && vm.code == GenClause(vm.cl, b, slots)
    ensures Reaches(vm, Start(vm, s), Halt(Solve(vm.p, vm.env, b, s).answers))
  {
    hide Delivers, Yields, Reaches, Steps, Step, Gen, Behaves, Solve, FrameOf, ProperBody, NoStaleCut, BodyVars;
    var used, a := Below(vm.cl.arity), Caller(map[], map[], 2, []);
    var code := Gen(vm.cl, b, true, ClauseCut, used, slots);
    AtWhole(vm.code, code, [Ins(I_EXIT)]);
    LaidIs(vm, b, true, ClauseCut, used, slots, 0);
    OutermostAllows(vm, b, slots);
    Simulates(vm, b, true, ClauseCut, used, slots, 0, Outermost, Outermost);
    var x, own := End(vm, b, true, ClauseCut, used, slots, 0), SlotsOf(b, slots);
    PartRuns(vm, Outermost, Outermost, x, own, 0, used, b, s, [], a);
    var sol := Solve(vm.p, vm.env, b, s);
    assert a.kc + [] == a.kc && [] + sol.answers == sol.answers;
    Drain(vm, Outermost, x, own, Entry(vm, 0, used, s, [], 2), sol.answers, sol.cut, map[], map[], 2, []);
  }

  /** The same for rules, with or without a body: a rule without a body succeeds once and changes nothing. */
  lemma RuleCorrect(vm: Vm, b: Body, slots: nat, s: Store)
    requires Compilable(vm.cl, b) && vm.code == GenRule(vm.cl, b, slots)
    ensures Reaches(vm, Start(vm, s), Halt(Solve(vm.p, vm.env, b, s).answers))
    ensures b == True ==> vm.code == [Ins(I_EXIT)] && Reaches(vm, Start(vm, s), Halt([s]))
  {
    hide Reaches, Steps, Step, Start, GenClause, Compilable;
    if b == True {
      ExitOnly(vm, s);
    } else {
      ClauseCorrect(vm, b, slots, s);
    }
  }

  lemma ExitOnly(vm: Vm, s: Store)
    requires vm.code == [Ins(I_EXIT)]
    ensures Reaches(vm, Start(vm, s), Halt([s]))
  {
    hide Steps, Step, Reaches;
    var w := World([Choice(1, Base)], map[], map[], 2, []);
    StepExit(vm, FrameOf(vm.env, Below(vm.cl.arity)), s, w);
    ReachesStep(vm, Start(vm, s));
    var w1 := w.(out := [s]);
    LastStep(vm, w1);
    ReachesStep(vm, Back(w1));
    ReachesTrans(vm, Start(vm, s), Back(w1), Halt([s]));
  }

  lemma OutermostAllows(vm: Vm, b: Body, slots: nat)
    requires NoStaleCut(b, false) && Laid(vm, b, true, ClauseCut, Below(vm.cl.arity), slots, 0)
    ensures Compiled(vm, b, true, ClauseCut, Below(vm.cl.arity), slots, 0, Outermost, Outermost)
  {
    hide Laid, NoStaleCut;
  }

  lemma {:induction false} FinalStays(vm: Vm, c: Config, n: nat)
    requires c.Halt? || c.Stuck?
    ensures Steps(vm, c, n) == c
    decreases n
  {
    if n > 0 { FinalStays(vm, c, n - 1); }
  }

  /** No run of compiled code reads an uninitialised slot, initialises a slot twice, leaves the code or
      cuts to a choice point that is not there. */
  lemma NeverStuck(vm: Vm, b: Body, slots: nat, s: Store, n: nat)
    requires Compilable(vm.cl, b) && vm.code == GenClause(vm.cl, b, slots)
    ensures !Steps(vm, Start(vm, s), n).Stuck?
  {
    hide Step, Solve, GenClause, Compilable;
    ClauseCorrect(vm, b, slots, s);
    var m: nat :| Steps(vm, Start(vm, s), m) == Halt(Solve(vm.p, vm.env, b, s).answers);
    if n <= m {
      StepsAdd(vm, Start(vm, s), n, m - n);
      if Steps(vm, Start(vm, s), n).Stuck? { FinalStays(vm, Stuck, m - n); }
    } else {
      StepsAdd(vm, Start(vm, s), m, n - m);
      FinalStays(vm, Halt(Solve(vm.p, vm.env, b, s).answers), n - m);
    }
  }

  /** A configuration that reaches an end reaches no other. */
  lemma OneEnd(vm: Vm, c: Config, out: seq<Store>, out1: seq<Store>)
    requires Reaches(vm, c, Halt(out)) && Reaches(vm, c, Halt(out1))
    ensures out == out1
  {
    hide Step;
    var m: nat :| Steps(vm, c, m) == Halt(out);
    var n: nat :| Steps(vm, c, n) == Halt(out1);
    if m <= n {
      StepsAdd(vm, c, m, n - m);
      FinalStays(vm, Halt(out), n - m);
    } else {
      StepsAdd(vm, c, n, m - n);
      FinalStays(vm, Halt(out1), m - n);
    }
  }

  lemma {:induction false} InstanceAt(ts: seq<Term>, env: nat -> Term, k: nat)
    requires k < |ts|
    ensures SubstAll(ts, env)[k] == Subst(ts[k], env)
  {
    if k > 0 { InstanceAt(ts[1..], env, k - 1); }
  }

  /** The clause body that is one call: the predicate gets the instances of the arguments in their order,
      and its answers are those of the clause. */
  lemma GoalCalls(vm: Vm, f: Name, ts: seq<Term>, slots: nat, s: Store, args: seq<Term>)
    requires f.User? && Compilable(vm.cl, Goal(f, ts)) && vm.code == GenClause(vm.cl, Goal(f, ts), slots)
    requires |args| == |ts| && forall k :: 0 <= k < |ts| ==> args[k] == Subst(ts[k], vm.env)
    ensures Reaches(vm, Start(vm, s), Halt(vm.p.call(Functor(f, |ts|), args, s)))
  {
    hide Reaches, Start, GenClause, Compilable, Subst, SubstAll;
    ClauseCorrect(vm, Goal(f, ts), slots, s);
    forall k | 0 <= k < |ts| ensures SubstAll(ts, vm.env)[k] == args[k] { InstanceAt(ts, vm.env, k); }
    assert SubstAll(ts, vm.env) == args;
  }

  /** The clause body that is one type test succeeds once, with nothing changed, exactly if the instance of
      the argument passes the test; else it fails. */
  lemma TestDecides(vm: Vm, test: TypeTest, t: Term, slots: nat, s: Store)
    requires Compilable(vm.cl, Goal(Type(test), [t])) && vm.code == GenClause(vm.cl, Goal(Type(test), [t]), slots)
    ensures Reaches(vm, Start(vm, s), Halt([s])) <==> vm.p.holds(test, Subst(t, vm.env), s)
    ensures Reaches(vm, Start(vm, s), Halt([])) <==> !vm.p.holds(test, Subst(t, vm.env), s)
  {
    hide Reaches, Start, GenClause, Compilable, Subst, SubstAll;
    ClauseCorrect(vm, Goal(Type(test), [t]), slots, s);
    InstanceAt([t], vm.env, 0);
    if Reaches(vm, Start(vm, s), Halt([s])) && Reaches(vm, Start(vm, s), Halt([])) {
      OneEnd(vm, Start(vm, s), [s], []);
      assert false;
    }
  }

  /** Compile a clause body with the imperative compiler. */
  method CompileClause(cl: Clause, b: Body, slots: nat) returns (code: Code)
    requires Compilable(cl, b)
    ensures forall p: Program, env: nat -> Term, lastCall: bool, s: Store ::
              Reaches(Vm(code, cl, p, env, lastCall), Start(Vm(code, cl, p, env, lastCall), s),
                  Halt(Solve(p, env, b, s).answers))
  {
    hide Reaches, Solve, GenClause, Start;
    var ci := new CompileInfo(cl, slots);
    ci.CompileClauseBody(b);
    code := ci.codes;
    assert [] + GenClause(cl, b, slots) == GenClause(cl, b, slots);
    forall p: Program, env: nat -> Term, lastCall: bool, s: Store
      ensures Reaches(Vm(code, cl, p, env, lastCall), Start(Vm(code, cl, p, env, lastCall), s),
              Halt(Solve(p, env, b, s).answers))
    {
      ClauseCorrect(Vm(code, cl, p, env, lastCall), b, slots, s);
    }
  }
}
