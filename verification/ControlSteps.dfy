// One lemma per control instruction: what it does when no goal is under construction.

module ControlSteps {
  import opened Terms
  import opened VmCode
  import opened CodeGen
  import opened Search
  import opened Machine
  import opened Execution

  lemma StepOr(vm: Vm, pc: nat, used: set<nat>, s: Store, w: World, dist: nat)
    requires At(vm.code, pc, [Ins(C_OR), Num(dist)])
    ensures Step(vm, Plain(pc, vm, used, s, w)) ==
            Plain(pc + 2, vm, used, s, Push(w, Jump(pc + 2 + dist, FrameOf(vm.env, used), s)))
  {
    hide Step, At, Instr, NumAt, FrameOf, StepArg, StepCall, StepMove, StepCut, StepInit;
    InstrIs(C_OR, dist, 0);
    FetchNums(vm, pc, C_OR, [dist]);
    StepIs(vm, Plain(pc, vm, used, s, w), C_OR);
  }

  lemma StepJump(vm: Vm, pc: nat, used: set<nat>, s: Store, w: World, dist: nat)
    requires At(vm.code, pc, [Ins(C_JMP), Num(dist)])
    ensures Step(vm, Plain(pc, vm, used, s, w)) == Plain(pc + 2 + dist, vm, used, s, w)
  {
    hide Step, At, Instr, NumAt, FrameOf, StepArg, StepCall, StepMove, StepCut, StepInit;
    InstrIs(C_JMP, dist, 0);
    FetchNums(vm, pc, C_JMP, [dist]);
    StepIs(vm, Plain(pc, vm, used, s, w), C_JMP);
  }

  function Marked(w: World, v: nat, mark: int): World {
    w.(marks := w.marks[v := mark])
  }

  /** C_IFTHENELSE, C_NOT and C_SOFTIF leave a choice point for the other branch and mark the slot. */
  lemma StepIfElse(vm: Vm, op: Op, pc: nat, used: set<nat>, s: Store, w: World, v: nat, dist: nat)
    requires op.C_IFTHENELSE? || op.C_NOT? || op.C_SOFTIF?
    requires At(vm.code, pc, [Ins(op), Num(v), Num(dist)])
    ensures Step(vm, Plain(pc, vm, used, s, w)) ==
            Plain(pc + 3, vm, used, s,
                  Push(Marked(w, v, if op.C_SOFTIF? then w.next else Top(w.chain)),
                      Jump(pc + 3 + dist, FrameOf(vm.env, used), s)))
  {
    hide Step, At, Instr, NumAt, FrameOf, StepArg, StepCall, StepMove, StepCut, StepInit;
    InstrIs(op, v, dist);
    FetchNums(vm, pc, op, [v, dist]);
    StepIs(vm, Plain(pc, vm, used, s, w), op);
  }

  lemma StepIfThen(vm: Vm, op: Op, pc: nat, used: set<nat>, s: Store, w: World, v: nat)
    requires op.C_IFTHEN? || op.C_SOFTIFTHEN?
    requires At(vm.code, pc, [Ins(op), Num(v)])
    ensures Step(vm, Plain(pc, vm, used, s, w)) == Plain(pc + 2, vm, used, s, Marked(w, v, Top(w.chain)))
  {
    hide Step, At, Instr, NumAt, FrameOf, StepArg, StepCall, StepMove, StepCut, StepInit;
    InstrIs(op, v, 0);
    FetchNums(vm, pc, op, [v]);
    StepIs(vm, Plain(pc, vm, used, s, w), op);
  }

  lemma StepFastCond(vm: Vm, pc: nat, used: set<nat>, s: Store, w: World, v: nat, dist: nat)
    requires At(vm.code, pc, [Ins(C_FASTCOND), Num(v), Num(dist)])
    ensures Step(vm, Plain(pc, vm, used, s, w)) ==
            Run(pc + 3, FrameOf(vm.env, used), NoArgs, s, Some(pc + 3 + dist), Marked(w, v, Top(w.chain)))
  {
    hide Step, At, Instr, NumAt, FrameOf, StepArg, StepCall, StepMove, StepCut, StepInit;
    InstrIs(C_FASTCOND, v, dist);
    FetchNums(vm, pc, C_FASTCOND, [v, dist]);
    StepIs(vm, Plain(pc, vm, used, s, w), C_FASTCOND);
  }

  lemma StepFastCut(vm: Vm, pc: nat, used: set<nat>, s: Store, w: World, v: nat, other: nat)
    requires At(vm.code, pc, [Ins(C_FASTCUT), Num(v)]) && v in w.marks
    ensures Step(vm, Run(pc, FrameOf(vm.env, used), NoArgs, s, Some(other), w)) == Plain(pc + 2, vm, used, s, w)
  {
    hide Step, At, Instr, NumAt, FrameOf, StepArg, StepCall, StepMove, StepBranch, StepInit, CutTo, LocalCutTo,
        ParentOf, SoftCut, Find;
    InstrIs(C_FASTCUT, v, 0);
    FetchNums(vm, pc, C_FASTCUT, [v]);
    StepIs(vm, Run(pc, FrameOf(vm.env, used), NoArgs, s, Some(other), w), C_FASTCUT);
  }

  /** C_CUT and C_LCUTIFTHEN cut back to the recorded choice point. */
  lemma StepCommit(vm: Vm, op: Op, pc: nat, used: set<nat>, s: Store, w: World, v: nat)
    requires op.C_CUT? || op.C_LCUTIFTHEN?
    requires At(vm.code, pc, [Ins(op), Num(v)])
    requires v in w.marks && w.marks[v] >= 0 && Top(CutTo(w.chain, w.marks[v])) == w.marks[v]
    ensures Step(vm, Plain(pc, vm, used, s, w)) == Plain(pc + 2, vm, used, s, w.(chain := CutTo(w.chain, w.marks[v])))
  {
    hide Step, At, Instr, NumAt, FrameOf, StepArg, StepCall, StepMove, StepBranch, StepInit, CutTo, LocalCutTo,
        ParentOf, SoftCut, Find;
    InstrIs(op, v, 0);
    FetchNums(vm, pc, op, [v]);
    StepIs(vm, Plain(pc, vm, used, s, w), op);
  }

  lemma StepLocalCut(vm: Vm, op: Op, pc: nat, used: set<nat>, s: Store, w: World, v: nat, och: nat)
    requires At(vm.code, pc, [Ins(op), Num(v)]) && v in w.marks
    requires (op.C_LCUT? && w.marks[v] == och)
          || (op.C_LSCUT? && och == ParentOf(w, if w.marks[v] < 0 then -w.marks[v] else w.marks[v]))
    requires LocalCutTo(w.chain, och).Some?
    ensures Step(vm, Plain(pc, vm, used, s, w)) ==
            Plain(pc + 2, vm, used, s, w.(chain := LocalCutTo(w.chain, och).value))
  {
    hide Step, At, Instr, NumAt, FrameOf, ParentOf, LocalCutTo, StepArg, StepCall, StepMove, StepBranch, StepInit,
        CutTo, SoftCut, Find;
    InstrIs(op, v, 0);
    FetchNums(vm, pc, op, [v]);
    StepIs(vm, Plain(pc, vm, used, s, w), op);
  }

  lemma StepSoftCut(vm: Vm, pc: nat, used: set<nat>, s: Store, w: World, v: nat)
    requires At(vm.code, pc, [Ins(C_SOFTCUT), Num(v)]) && v in w.marks
    ensures Step(vm, Plain(pc, vm, used, s, w)) == Plain(pc + 2, vm, used, s, SoftCut(w, v))
  {
    hide Step, At, Instr, NumAt, FrameOf, SoftCut, StepArg, StepCall, StepMove, StepBranch, StepInit, CutTo,
        LocalCutTo, ParentOf, Find;
    InstrIs(C_SOFTCUT, v, 0);
    FetchNums(vm, pc, C_SOFTCUT, [v]);
    StepIs(vm, Plain(pc, vm, used, s, w), C_SOFTCUT);
  }

  lemma StepNop(vm: Vm, op: Op, pc: nat, used: set<nat>, s: Store, w: World)
    requires op.C_SCUT? || op.C_END? || op.I_TRUE?
    requires At(vm.code, pc, [Ins(op)])
    ensures Step(vm, Plain(pc, vm, used, s, w)) == Plain(pc + 1, vm, used, s, w)
  {
    hide Step, At, Instr, NumAt, FrameOf, StepArg, StepMove, StepBranch, StepCut, StepInit;
    InstrIs(op, 0, 0);
    FetchNums(vm, pc, op, []);
    StepIs(vm, Plain(pc, vm, used, s, w), op);
  }

  lemma StepFail(vm: Vm, op: Op, pc: nat, used: set<nat>, s: Store, w: World)
    requires op.C_FAIL? || op.I_FAIL?
    requires At(vm.code, pc, [Ins(op)])
    ensures Step(vm, Plain(pc, vm, used, s, w)) == Back(w)
  {
    hide Step, At, Instr, NumAt, FrameOf, StepArg, StepMove, StepBranch, StepCut, StepInit;
    InstrIs(op, 0, 0);
    FetchNums(vm, pc, op, []);
    StepIs(vm, Plain(pc, vm, used, s, w), op);
  }

  lemma StepClauseCut(vm: Vm, pc: nat, used: set<nat>, s: Store, w: World)
    requires At(vm.code, pc, [Ins(I_CUT)]) && w.chain != []
    ensures Step(vm, Plain(pc, vm, used, s, w)) == Plain(pc + 1, vm, used, s, w.(chain := w.chain[..1]))
  {
    hide Step, At, Instr, NumAt, FrameOf, StepArg, StepMove, StepBranch, StepCut, StepInit;
    InstrIs(I_CUT, 0, 0);
    FetchNums(vm, pc, I_CUT, []);
    StepIs(vm, Plain(pc, vm, used, s, w), I_CUT);
  }

  lemma StepType(vm: Vm, t: TypeTest, pc: nat, used: set<nat>, s: Store, fast: Option<nat>, w: World, i: nat)
    requires At(vm.code, pc, [Ins(I_TYPE(t)), Num(i)]) && i in used
    ensures Step(vm, Run(pc, FrameOf(vm.env, used), NoArgs, s, fast, w)) ==
            if vm.p.holds(t, vm.env(i), s) then Run(pc + 2, FrameOf(vm.env, used), NoArgs, s, fast, w)
            else if fast.Some? then Plain(fast.value, vm, used, s, w)
            else Back(w)
  {
    hide Step, At, Instr, NumAt, StepArg, StepMove, StepBranch, StepCut, StepInit;
    InstrIs(I_TYPE(t), i, 0);
    FetchNums(vm, pc, I_TYPE(t), [i]);
    StepIs(vm, Run(pc, FrameOf(vm.env, used), NoArgs, s, fast, w), I_TYPE(t));
  }

  /** Backtracking into the choice point of a control construct. */
  lemma StepBackJump(vm: Vm, w: World, l: seq<Choice>, addr: nat, pc: nat, used: set<nat>, s: Store)
    requires w.chain == l + [Choice(addr, Jump(pc, FrameOf(vm.env, used), s))]
    ensures Step(vm, Back(w)) == Plain(pc, vm, used, s, w.(chain := l))
  {
    assert w.chain[..|w.chain| - 1] == l;
  }
}
