// A choice point that C_SOFTCUT has unlinked never comes back, and what is remembered as its parent
// does not change.

module DeadChoices {
  import opened VmCode
  import opened CodeGen
  import opened Search
  import opened Machine
  import opened Execution

  /** Address `n` was a choice point once, below which `parent` stood. */
  predicate Gone(w: World, n: nat, parent: nat) {
    n in w.dead && w.dead[n] == parent && n < w.next && forall i :: 0 <= i < |w.chain| ==> w.chain[i].addr != n
  }


  /** In a configuration the machine goes on from, the choice point is gone. */
  predicate StillGone(c: Config, n: nat, parent: nat) {
    (c.Run? || c.Back?) ==> Gone(c.w, n, parent)
  }

  lemma PushGone(w: World, alt: Alt, n: nat, parent: nat)
    requires Gone(w, n, parent)
    ensures Gone(Push(w, alt), n, parent)
  {
  }

  lemma {:induction false} InitialiseGone(vm: Vm, c: Config, next: Config, at: nat, count: nat, n: nat, parent: nat)
    requires c.Run? && next.Run? && Gone(next.w, n, parent)
    ensures StillGone(Initialise(vm, c, next, at, count), n, parent)
    decreases count
  {
    hide Gone;
    if count > 0 && at !in next.frame {
      InitialiseGone(vm, c, next.(frame := next.frame[at := vm.env(at)]), at + 1, count - 1, n, parent);
    }
  }

  lemma {:induction false} CutToGone(w: World, a: nat, n: nat, parent: nat)
    requires Gone(w, n, parent)
    ensures Gone(w.(chain := CutTo(w.chain, a)), n, parent)
    decreases |w.chain|
  {
    if !(w.chain == [] || Top(w.chain) <= a) {
      var w1 := w.(chain := w.chain[..|w.chain| - 1]);
      CutToGone(w1, a, n, parent);
    }
  }

  lemma {:induction false} LocalCutGone(w: World, och: nat, n: nat, parent: nat)
    requires Gone(w, n, parent)
    ensures var r := LocalCutTo(w.chain, och); r.Some? ==> Gone(w.(chain := r.value), n, parent)
    decreases |w.chain|
  {
    if w.chain != [] {
      var w1 := w.(chain := w.chain[..|w.chain| - 1]);
      LocalCutGone(w1, och, n, parent);
    }
  }

  lemma SoftCutGone(w: World, v: nat, n: nat, parent: nat)
    requires Gone(w, n, parent) && v in w.marks
    ensures Gone(SoftCut(w, v), n, parent)
  {
  }

  /** Cut instructions by what they do to the choice points. */
  lemma StepCutIs(vm: Vm, op: Op, c: Config)
    requires c.Run? && c.pc + Size(op) <= |vm.code|
    ensures var d, next, a := StepCut(vm, op, c), c.(pc := c.pc + Size(op)), NumAt(vm, c.pc + 1);
            || d == Stuck
            || (c.fast.Some? && d == next.(fast := None))
            || (a >= 0 && a in c.w.marks && d == next.(w := SoftCut(c.w, a)))
            || (exists m: int :: d == Commit(c, next, m))
            || (exists och: nat :: d == LocalCommit(c, next, och))
  {
    hide Commit, LocalCommit, SoftCut, ParentOf, NumAt, Size;
  }

  lemma CommitGone(c: Config, next: Config, m: int, n: nat, parent: nat)
    requires c.Run? && next.Run? && Gone(c.w, n, parent) && next.w == c.w
    ensures StillGone(Commit(c, next, m), n, parent)
  {
    hide Gone, CutTo;
    if m >= 0 { CutToGone(c.w, m, n, parent); }
  }

  lemma LocalCommitGone(c: Config, next: Config, och: nat, n: nat, parent: nat)
    requires c.Run? && next.Run? && Gone(c.w, n, parent) && next.w == c.w
    ensures StillGone(LocalCommit(c, next, och), n, parent)
  {
    hide Gone, LocalCutTo;
    LocalCutGone(c.w, och, n, parent);
  }

  lemma StepCutGone(vm: Vm, op: Op, c: Config, n: nat, parent: nat)
    requires c.Run? && c.pc + Size(op) <= |vm.code| && Gone(c.w, n, parent)
    ensures StillGone(StepCut(vm, op, c), n, parent)
  {
    hide Gone, SoftCut, Commit, LocalCommit, NumAt, Size, StepCut;
    StepCutIs(vm, op, c);
    var d, next, a := StepCut(vm, op, c), c.(pc := c.pc + Size(op)), NumAt(vm, c.pc + 1);
    if m: int :| d == Commit(c, next, m) {
      CommitGone(c, next, m, n, parent);
    } else if och: nat :| d == LocalCommit(c, next, och) {
      LocalCommitGone(c, next, och, n, parent);
    } else if a >= 0 && a in c.w.marks {
      SoftCutGone(c.w, a, n, parent);
    }
  }

  lemma AnswerGone(pc: nat, frame: Frame, answers: seq<Store>, w: World, n: nat, parent: nat)
    requires Gone(w, n, parent)
    ensures StillGone(Answer(pc, frame, answers, w), n, parent)
  {
    hide Gone;
    if |answers| > 1 { PushGone(w, Redo(pc, frame, answers[1..]), n, parent); }
  }

  lemma StepCallGone(vm: Vm, op: Op, c: Config, n: nat, parent: nat)
    requires c.Run? && c.pc + Size(op) <= |vm.code| && Gone(c.w, n, parent)
    ensures StillGone(StepCall(vm, op, c), n, parent)
  {
    hide Answer, NumAt, Size, ExitPc, MayReuse, SlotValues;
    forall pc: nat, frame: Frame, answers: seq<Store> ensures StillGone(Answer(pc, frame, answers, c.w), n, parent) {
      AnswerGone(pc, frame, answers, c.w, n, parent);
    }
  }

  lemma StepBranchGone(vm: Vm, op: Op, c: Config, n: nat, parent: nat)
    requires c.Run? && c.pc + Size(op) <= |vm.code| && Gone(c.w, n, parent)
    ensures StillGone(StepBranch(vm, op, c), n, parent)
  {
    hide NumAt, Size;
  }

  lemma BackGone(w: World, n: nat, parent: nat)
    requires Gone(w, n, parent)
    ensures StillGone(Backtrack(w), n, parent)
  {
  }

  lemma StepGone(vm: Vm, c: Config, n: nat, parent: nat)
    requires StillGone(c, n, parent)
    ensures StillGone(Step(vm, c), n, parent)
  {
    hide Gone, StepArg, StepCall, StepMove, StepBranch, StepCut, StepInit, Backtrack, IsArg, IsCall, IsMove,
        IsBranch, IsCut, Size;
    if c.Back? {
      BackGone(c.w, n, parent);
    } else if c.Run? && Step(vm, c) != Stuck {
      var op := vm.code[c.pc].op;
      if IsArg(op) {
        StepArgGone(vm, op, c, n, parent);
      } else if IsCall(op) {
        StepCallGone(vm, op, c, n, parent);
      } else if IsMove(op) {
        StepMoveGone(vm, op, c, n, parent);
      } else if IsBranch(op) {
        StepBranchGone(vm, op, c, n, parent);
      } else if IsCut(op) {
        StepCutGone(vm, op, c, n, parent);
      } else {
        StepInitGone(vm, op, c, n, parent);
      }
    }
  }

  lemma StepArgGone(vm: Vm, op: Op, c: Config, n: nat, parent: nat)
    requires c.Run? && c.pc + Size(op) <= |vm.code| && Gone(c.w, n, parent)
    ensures StillGone(StepArg(vm, op, c), n, parent)
  {
    hide Gone, Size, NumAt, Add, Open, Close;
  }

  lemma StepMoveGone(vm: Vm, op: Op, c: Config, n: nat, parent: nat)
    requires c.Run? && c.pc + Size(op) <= |vm.code| && Gone(c.w, n, parent)
    ensures StillGone(StepMove(vm, op, c), n, parent)
  {
    hide Gone, Size, NumAt, MayReuse;
  }

  lemma StepInitGone(vm: Vm, op: Op, c: Config, n: nat, parent: nat)
    requires c.Run? && c.pc + Size(op) <= |vm.code| && Gone(c.w, n, parent)
    ensures StillGone(StepInit(vm, op, c), n, parent)
  {
    hide Gone, Size, NumAt, Initialise;
    var next, a := c.(pc := c.pc + Size(op)), NumAt(vm, c.pc + 1);
    var count := if op.C_VAR? then 1 else NumAt(vm, c.pc + 2);
    if a >= 0 && count >= 0 { InitialiseGone(vm, c, next, a, count, n, parent); }
  }

  lemma {:induction false} StepsGone(vm: Vm, c: Config, k: nat, n: nat, parent: nat)
    requires StillGone(c, n, parent)
    ensures StillGone(Steps(vm, c, k), n, parent)
    decreases k
  {
    hide Step, StillGone;
    if k > 0 {
      StepGone(vm, c, n, parent);
      StepsGone(vm, Step(vm, c), k - 1, n, parent);
    }
  }

  /** Once gone, a choice point stays gone. */
  lemma StaysGone(vm: Vm, c: Config, d: Config, n: nat, parent: nat)
    requires Reaches(vm, c, d) && StillGone(c, n, parent)
    ensures StillGone(d, n, parent)
  {
    hide Step, Steps, StillGone;
    var k: nat :| Steps(vm, c, k) == d;
    StepsGone(vm, c, k, n, parent);
  }
}
