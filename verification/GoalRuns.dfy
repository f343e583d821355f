// Goals: however a goal is compiled -- inline test, call, last call, last-call block -- running its
// code delivers exactly the answers of the call.

module GoalRuns {
  import opened Terms
  import opened VmCode
  import opened CodeGen
  import opened Search
  import opened Machine
  import opened Execution
  import opened LastCall
  import opened Answers
  import opened Composition
  import opened ControlSteps

  lemma StepCallIs(vm: Vm, depart: bool, pc: nat, used: set<nat>, f: Functor, args: seq<Term>, s: Store, w: World)
    requires At(vm.code, pc, [Ins(if depart then I_DEPART else I_CALL), Fun(f)]) && |args| == f.arity
    ensures Step(vm, BuildCfg(pc, vm, used, Build(args, []), s, w)) ==
            Answer(if depart && MayReuse(vm, w) then ExitPc(vm) else pc + 2, FrameOf(vm.env, used),
                vm.p.Call(f, args, s), w)
  {
    hide Step, FrameOf, Answer;
    var op := if depart then I_DEPART else I_CALL;
    assert [Ins(op), Fun(f)] == [Ins(op)] + [Fun(f)] + [];
    Fetch(vm.code, pc, op, [Fun(f)], []);
    StepIs(vm, BuildCfg(pc, vm, used, Build(args, []), s, w), op);
    assert vm.code[pc + 1 + 0] == Fun(f);
  }

  /** Arguments followed by the call. */
  lemma CallReaches(vm: Vm, f: Name, ts: seq<Term>, depart: bool, used: set<nat>, pc: nat, s: Store, w: World)
    requires ProperTerms(ts) && Below(vm.cl.arity) <= used
    requires At(vm.code, pc, GenArgs(vm.cl, ts, used)
             + [Ins(if depart then I_DEPART else I_CALL), Fun(Functor(f, |ts|))])
    ensures var end := pc + |GenArgs(vm.cl, ts, used)| + 2;
            Reaches(vm, Plain(pc, vm, used, s, w),
                    Answer(if depart && MayReuse(vm, w) then ExitPc(vm) else end, FrameOf(vm.env, used + VarsOf(ts)),
                           vm.p.Call(Functor(f, |ts|), SubstAll(ts, vm.env), s), w))
  {
    hide *;
    var fn, args := Functor(f, |ts|), GenArgs(vm.cl, ts, used);
    AtSplit(vm.code, pc, args, [Ins(if depart then I_DEPART else I_CALL), Fun(fn)]);
    ExecArgs(vm, ts, used, pc, [], s, w);
    assert [] + SubstAll(ts, vm.env) == SubstAll(ts, vm.env);
    BuildPlain(pc, vm, used, s, w);
    var c1 := BuildCfg(pc + |args|, vm, used + VarsOf(ts), Build(SubstAll(ts, vm.env), []), s, w);
    StepCallIs(vm, depart, pc + |args|, used + VarsOf(ts), fn, SubstAll(ts, vm.env), s, w);
    ReachesStep(vm, c1);
    ReachesTrans(vm, Plain(pc, vm, used, s, w), c1, Step(vm, c1));
  }

  lemma BuildPlain(pc: nat, vm: Vm, used: set<nat>, s: Store, w: World)
    ensures BuildCfg(pc, vm, used, Build([], []), s, w) == Plain(pc, vm, used, s, w)
  {
  }

  lemma StepNoLco(vm: Vm, pc: nat, used: set<nat>, s: Store, w: World, dist: nat)
    requires At(vm.code, pc, [Ins(L_NOLCO), Num(dist)])
    ensures Step(vm, Plain(pc, vm, used, s, w)) == Plain(if MayReuse(vm, w) then pc + 2 else pc + 2 + dist, vm, used,
            s, w)
  {
    hide Step, At, Instr, NumAt, FrameOf;
    InstrIs(L_NOLCO, dist, 0);
    FetchNums(vm, pc, L_NOLCO, [dist]);
    StepIs(vm, Plain(pc, vm, used, s, w), L_NOLCO);
  }

  /** I_TCALL and I_LCALL call with the argument slots of the running frame. */
  lemma StepTailCall(vm: Vm, pc: nat, frame: Frame, f: Functor, args: seq<Term>, s: Store, w: World)
    requires At(vm.code, pc, TailCall(vm.cl, f)) && SlotValues(frame, f.arity) == Some(args)
    ensures Step(vm, Run(pc, frame, NoArgs, s, None, w)) == Answer(ExitPc(vm), frame, vm.p.Call(f, args, s), w)
  {
    hide Step, Answer;
    var code := TailCall(vm.cl, f);
    var op := code[0].op;
    assert code == [Ins(op)] + code[1..] + [];
    Fetch(vm.code, pc, op, code[1..], []);
    StepIs(vm, Run(pc, frame, NoArgs, s, None, w), op);
    if op == I_LCALL { assert vm.code[pc + 1 + 0] == Fun(f); }
  }

  /** The last-call block: moves, then the tail call. */
  lemma BlockReaches(vm: Vm, f: Name, ts: seq<Term>, used: set<nat>, pc: nat, s: Store, w: World) returns (frame: Frame)
    requires AllMovable(vm.cl, ts, 0, used) && Below(vm.cl.arity) <= used
    requires At(vm.code, pc, Moves(ts, 0) + TailCall(vm.cl, Functor(f, |ts|)))
    ensures Reaches(vm, Plain(pc, vm, used, s, w),
                    Answer(ExitPc(vm), frame, vm.p.Call(Functor(f, |ts|), SubstAll(ts, vm.env), s), w))
  {
    hide Step, Steps, AllMovable, Moves, Answer, TailCall, Reaches, At;
    var fn := Functor(f, |ts|);
    AtSplit(vm.code, pc, Moves(ts, 0), TailCall(vm.cl, fn));
    frame := ExecMoves(vm, ts, 0, used, pc, FrameOf(vm.env, used), s, w);
    forall k | 0 <= k < |ts| ensures Placed(frame, ts, 0, vm.env, k) { }
    SlotsHold(frame, ts, |ts|, vm.env);
    assert ts[..|ts|] == ts;
    var c1 := Run(pc + |Moves(ts, 0)|, frame, NoArgs, s, None, w);
    StepTailCall(vm, pc + |Moves(ts, 0)|, frame, fn, SubstAll(ts, vm.env), s, w);
    ReachesStep(vm, c1);
    ReachesTrans(vm, Plain(pc, vm, used, s, w), c1, Step(vm, c1));
  }

  /** With last-call optimisation, and no choice point since the clause was entered, the last goal whose
      arguments can be moved is called from the frame of the clause: the tail call is reached with each argument
      in its slot and nothing built. */
  lemma FrameReused(vm: Vm, f: Name, ts: seq<Term>, used: set<nat>, pc: nat, s: Store, w: World) returns (frame: Frame)
    requires AllMovable(vm.cl, ts, 0, used) && Below(vm.cl.arity) <= used
    requires At(vm.code, pc, GenDepart(vm.cl, GenArgs(vm.cl, ts, used), Functor(f, |ts|)))
    requires vm.lastCall && |w.chain| == 1
    ensures var pc1 := pc + 2 + |Moves(ts, 0)|;
            && At(vm.code, pc1, TailCall(vm.cl, Functor(f, |ts|)))
            && Reaches(vm, Plain(pc, vm, used, s, w), Run(pc1, frame, NoArgs, s, None, w))
    ensures forall k :: 0 <= k < |ts| ==> k in frame && frame[k] == Subst(ts[k], vm.env)
  {
    hide Step, Steps, AllMovable, Moves, TailCall, Reaches, At, GenArgs;
    var block := BlockAt(vm, f, ts, used, pc);
    AtSplit(vm.code, pc + 2, Moves(ts, 0), TailCall(vm.cl, Functor(f, |ts|)));
    StepNoLco(vm, pc, used, s, w, |block|);
    frame := ExecMoves(vm, ts, 0, used, pc + 2, FrameOf(vm.env, used), s, w);
    ReachesVia(vm, Plain(pc, vm, used, s, w), Run(pc + 2 + |Moves(ts, 0)|, frame, NoArgs, s, None, w));
    forall k | 0 <= k < |ts| ensures k in frame && frame[k] == Subst(ts[k], vm.env) {
      assert Placed(frame, ts, 0, vm.env, k);
    }
  }

  /** Otherwise the block is jumped over and the arguments are built for a call that leaves the frame. */
  lemma FrameKept(vm: Vm, f: Name, ts: seq<Term>, used: set<nat>, pc: nat, s: Store, w: World) returns (pc1: nat)
    requires AllMovable(vm.cl, ts, 0, used) && Below(vm.cl.arity) <= used && ProperTerms(ts)
    requires At(vm.code, pc, GenDepart(vm.cl, GenArgs(vm.cl, ts, used), Functor(f, |ts|)))
    requires !vm.lastCall || |w.chain| != 1
    ensures At(vm.code, pc1, [Ins(I_DEPART), Fun(Functor(f, |ts|))])
    ensures Reaches(vm, Plain(pc, vm, used, s, w),
                    BuildCfg(pc1, vm, used + VarsOf(ts), Build(SubstAll(ts, vm.env), []), s, w))
  {
    hide Step, Steps, AllMovable, Moves, TailCall, Reaches, At, GenArgs, FrameOf;
    var block := BlockAt(vm, f, ts, used, pc);
    var args, start := GenArgs(vm.cl, ts, used), pc + 2 + |block|;
    pc1 := start + |args|;
    AtSplit(vm.code, start, args, [Ins(I_DEPART), Fun(Functor(f, |ts|))]);
    StepNoLco(vm, pc, used, s, w, |block|);
    ExecArgs(vm, ts, used, start, [], s, w);
    BuildPlain(start, vm, used, s, w);
    assert [] + SubstAll(ts, vm.env) == SubstAll(ts, vm.env);
    ReachesVia(vm, Plain(pc, vm, used, s, w),
               BuildCfg(pc1, vm, used + VarsOf(ts), Build(SubstAll(ts, vm.env), []), s, w));
  }

  lemma BlockAt(vm: Vm, f: Name, ts: seq<Term>, used: set<nat>, pc: nat) returns (block: Code)
    requires AllMovable(vm.cl, ts, 0, used) && Below(vm.cl.arity) <= used
    requires At(vm.code, pc, GenDepart(vm.cl, GenArgs(vm.cl, ts, used), Functor(f, |ts|)))
    ensures block == Moves(ts, 0) + TailCall(vm.cl, Functor(f, |ts|))
    ensures At(vm.code, pc, [Ins(L_NOLCO), Num(|block|)]) && At(vm.code, pc + 2, block)
    ensures At(vm.code, pc + 2 + |block|, GenArgs(vm.cl, ts, used) + [Ins(I_DEPART), Fun(Functor(f, |ts|))])
  {
    hide AllMovable, Moves, TailCall, At, GenArgs;
    var fn, args := Functor(f, |ts|), GenArgs(vm.cl, ts, used);
    var plain := args + [Ins(I_DEPART), Fun(fn)];
    LcoAccepts(vm.cl, ts, 0, used);
    block := Moves(ts, 0) + TailCall(vm.cl, fn);
    var head := [Ins(L_NOLCO), Num(|block|)];
    AtSplit(vm.code, pc, head + block, plain);
    AtSplit(vm.code, pc, head, block);
  }

  /** The last goal: through the block when the frame may be reused, otherwise through a plain call. */
  lemma DepartReaches(vm: Vm, f: Name, ts: seq<Term>, used: set<nat>, pc: nat, s: Store, w: World)
    returns (pc1: nat, frame: Frame)
    requires ProperTerms(ts) && Below(vm.cl.arity) <= used
    requires At(vm.code, pc, GenDepart(vm.cl, GenArgs(vm.cl, ts, used), Functor(f, |ts|)))
    ensures Reaches(vm, Plain(pc, vm, used, s, w),
                    Answer(pc1, frame, vm.p.Call(Functor(f, |ts|), SubstAll(ts, vm.env), s), w))
    ensures pc1 == ExitPc(vm)
         || (pc1 == pc + |GenDepart(vm.cl, GenArgs(vm.cl, ts, used), Functor(f, |ts|))| && frame ==
             FrameOf(vm.env, used + VarsOf(ts)))
  {
    hide Step, Steps, AllMovable, Moves, Answer, TailCall, Reaches, FrameOf, At, MayReuse, ExitPc, GenArgs;
    var fn, args := Functor(f, |ts|), GenArgs(vm.cl, ts, used);
    var plain := args + [Ins(I_DEPART), Fun(fn)];
    LcoAccepts(vm.cl, ts, 0, used);
    frame := FrameOf(vm.env, used + VarsOf(ts));
    if !AllMovable(vm.cl, ts, 0, used) {
      CallReaches(vm, f, ts, true, used, pc, s, w);
      pc1 := if MayReuse(vm, w) then ExitPc(vm) else pc + |plain|;
    } else {
      var c := Plain(pc, vm, used, s, w);
      var block := BlockAt(vm, f, ts, used, pc);
      StepNoLco(vm, pc, used, s, w, |block|);
      if MayReuse(vm, w) {
        frame := BlockReaches(vm, f, ts, used, pc + 2, s, w);
        pc1 := ExitPc(vm);
      } else {
        CallReaches(vm, f, ts, true, used, pc + 2 + |block|, s, w);
        pc1 := pc + 2 + |block| + |plain|;
      }
      ReachesVia(vm, c, Answer(pc1, frame, vm.p.Call(fn, SubstAll(ts, vm.env), s), w));
    }
  }

  lemma TypeReaches(vm: Vm, f: Name, ts: seq<Term>, used: set<nat>, pc: nat, s: Store, w: World)
    requires f.Type? && |ts| == 1 && ts[0].Var? && ts[0].index in used
    requires At(vm.code, pc, [Ins(I_TYPE(f.test)), Num(ts[0].index)])
    ensures Reaches(vm, Plain(pc, vm, used, s, w),
                    Answer(pc + 2, FrameOf(vm.env, used), vm.p.Call(Functor(f, |ts|), SubstAll(ts, vm.env), s), w))
    ensures used + VarsOf(ts) == used
  {
    hide Step, At, FrameOf;
    assert ts[1..] == [];
    assert SubstAll(ts, vm.env) == [vm.env(ts[0].index)];
    StepType(vm, f.test, pc, used, s, None, w, ts[0].index);
    ReachesStep(vm, Plain(pc, vm, used, s, w));
  }

  /** The code of a goal that is not last comes to the answers of its predicate call. */
  lemma GoalReaches(vm: Vm, f: Name, ts: seq<Term>, used: set<nat>, pc: nat, s: Store, w: World)
    requires ProperTerms(ts) && Below(vm.cl.arity) <= used && At(vm.code, pc, GenGoal(vm.cl, f, ts, false, used))
    ensures Reaches(vm, Plain(pc, vm, used, s, w),
                    Answer(pc + |GenGoal(vm.cl, f, ts, false, used)|, FrameOf(vm.env, used + VarsOf(ts)),
                           Solve(vm.p, vm.env, Goal(f, ts), s).answers, w))
  {
    hide Step, Steps, Reaches, FrameOf, At, Answer, GenArgs;
    if f.Type? && |ts| == 1 && ts[0].Var? && ts[0].index in used {
      TypeReaches(vm, f, ts, used, pc, s, w);
    } else {
      CallReaches(vm, f, ts, false, used, pc, s, w);
    }
  }

  /** A goal behaves as its predicate call. */
  lemma GoalBehaves(vm: Vm, sc: Scope, rest: Scope, own: Own, f: Name, ts: seq<Term>, depart: bool, used: set<nat>,
        pc: nat)
    requires ProperTerms(ts) && Below(vm.cl.arity) <= used && rest.floor == sc.floor
    requires At(vm.code, pc, GenGoal(vm.cl, f, ts, depart, used))
    ensures Behaves(vm, sc, rest, Exit(pc + |GenGoal(vm.cl, f, ts, depart, used)|, used + VarsOf(ts), depart), own,
            pc, used, Goal(f, ts))
  {
    hide Ready, GenGoal, At, Delivers;
    var x := Exit(pc + |GenGoal(vm.cl, f, ts, depart, used)|, used + VarsOf(ts), depart);
    forall s: Store, l: seq<Choice>, next: nat, a: Around | Ready(vm, sc, pc, used, s, l, next, a)
      ensures RunsFrom(vm, rest, x, own, pc, used, Goal(f, ts), s, l, next, a)
    {
      GoalDelivers(vm, sc, rest, own, f, ts, depart, used, pc, s, l, next, a);
    }
    AllRunsBehave(vm, sc, rest, x, own, pc, used, Goal(f, ts));
  }

  lemma GoalDelivers(vm: Vm, sc: Scope, rest: Scope, own: Own, f: Name, ts: seq<Term>, depart: bool, used: set<nat>,
        pc: nat,
                     s: Store, l: seq<Choice>, next: nat, a: Around)
    requires ProperTerms(ts) && Below(vm.cl.arity) <= used && rest.floor == sc.floor
    requires At(vm.code, pc, GenGoal(vm.cl, f, ts, depart, used)) && Ready(vm, sc, pc, used, s, l, next, a)
    ensures Delivers(vm, rest, Exit(pc + |GenGoal(vm.cl, f, ts, depart, used)|, used + VarsOf(ts), depart), own, l,
                     Entry(vm, pc, used, s, l, next), vm.p.Call(Functor(f, |ts|), SubstAll(ts, vm.env), s), false, a)
  {
    hide Step, Steps, Reaches, FrameOf, At, Delivers, Yields, Answer, GenArgs, GenDepart;
    ReadyFacts(vm, sc, pc, used, s, l, next, a);
    var x := Exit(pc + |GenGoal(vm.cl, f, ts, depart, used)|, used + VarsOf(ts), depart);
    var p, w := Entry(vm, pc, used, s, l, next), WorldOf(a, l);
    var pc1, frame := x.pc, FrameOf(vm.env, x.used);
    if f.Type? && |ts| == 1 && ts[0].Var? && ts[0].index in used {
      TypeReaches(vm, f, ts, used, pc, s, w);
    } else if depart {
      pc1, frame := DepartReaches(vm, f, ts, used, pc, s, w);
    } else {
      CallReaches(vm, f, ts, false, used, pc, s, w);
    }
    AnswerDelivers(vm, rest, x, own, l, p, a, pc1, frame, vm.p.Call(Functor(f, |ts|), SubstAll(ts, vm.env), s));
  }
}
