// Last-call blocks: moving the arguments of the last goal into the slots of the running frame.

module LastCall {
  import opened Terms
  import opened VmCode
  import opened CodeGen
  import opened Search
  import opened Machine
  import opened Execution

  /** An argument that can be moved: a variable that is already initialised, or a constant. */
  predicate Movable(cl: Clause, t: Term, slot: nat, used: set<nat>) {
    match t
    case Void => true
    case Var(i) => (i < cl.arity || i in used) && slot <= i
    case Int(_) => true
    case Atom(_) => true
    case Nil => true
    case Cmp(_, _) => false
  }

  function Move(t: Term, slot: nat): Code {
    match t
    case Void => [Ins(L_VOID), Num(slot)]
    case Var(i) => if i == slot then [] else [Ins(L_VAR), Num(slot), Num(i)]
    case Int(n) => [Ins(L_SMALLINT), Num(slot), Num(n)]
    case Atom(a) => [Ins(L_ATOM), Num(slot), Nam(a)]
    case _ => [Ins(L_NIL), Num(slot)]
  }

  /** Reading a move off argument code: refused unless the argument is movable into its slot. */
  lemma LcoFirst(cl: Clause, t: Term, slot: nat, used: set<nat>, rest: Code)
    ensures GenArg(cl, t, false, false, used) != []
    ensures LcoMove(GenArg(cl, t, false, false, used) + rest, slot) ==
            if Movable(cl, t, slot, used) then Some((Move(t, slot), |GenArg(cl, t, false, false, used)|)) else None
  {
    var arg := GenArg(cl, t, false, false, used);
    assert (arg + rest)[0] == arg[0];
    if |arg| > 1 { assert (arg + rest)[1] == arg[1]; }
  }

  predicate AllMovable(cl: Clause, ts: seq<Term>, slot: nat, used: set<nat>) {
    forall k :: 0 <= k < |ts| ==> Movable(cl, ts[k], slot + k, used)
  }

  lemma MovableKeepsUsed(cl: Clause, t: Term, slot: nat, used: set<nat>)
    requires Movable(cl, t, slot, used) && Below(cl.arity) <= used
    ensures used + Vars(t) == used
  {
    if t.Var? && t.index < cl.arity { assert t.index in Below(cl.arity); }
  }

  function Moves(ts: seq<Term>, slot: nat): Code {
    if ts == [] then [] else Move(ts[0], slot) + Moves(ts[1..], slot + 1)
  }

  /** A last-call block exists exactly when every argument is a constant, a void, or an initialised
      variable whose slot has not been overwritten by an earlier argument. */
  lemma {:induction false} LcoAccepts(cl: Clause, ts: seq<Term>, slot: nat, used: set<nat>)
    requires Below(cl.arity) <= used
    ensures LcoMoves(GenArgs(cl, ts, used), slot) ==
            if AllMovable(cl, ts, slot, used) then Some(Moves(ts, slot)) else None
    decreases ts
  {
    hide AllMovable, GenArg, LcoMove;
    if ts == [] {
      NoneToMove(cl, slot, used);
    } else {
      var arg, used1 := GenArg(cl, ts[0], false, false, used), used + Vars(ts[0]);
      var rest := GenArgs(cl, ts[1..], used1);
      LcoFirst(cl, ts[0], slot, used, rest);
      assert (arg + rest)[|arg|..] == rest;
      if Movable(cl, ts[0], slot, used) {
        MovableKeepsUsed(cl, ts[0], slot, used);
        LcoAccepts(cl, ts[1..], slot + 1, used);
        AllMovableSplit(cl, ts, slot, used);
      } else {
        NotAllMovable(cl, ts, slot, used);
      }
    }
  }

  lemma NoneToMove(cl: Clause, slot: nat, used: set<nat>)
    ensures AllMovable(cl, [], slot, used)
  {
  }

  lemma NotAllMovable(cl: Clause, ts: seq<Term>, slot: nat, used: set<nat>)
    requires ts != [] && !Movable(cl, ts[0], slot, used)
    ensures !AllMovable(cl, ts, slot, used)
  {
    hide Movable;
    assert !Movable(cl, ts[0], slot + 0, used);
  }

  lemma AllMovableSplit(cl: Clause, ts: seq<Term>, slot: nat, used: set<nat>)
    requires ts != [] && Movable(cl, ts[0], slot, used)
    ensures AllMovable(cl, ts, slot, used) <==> AllMovable(cl, ts[1..], slot + 1, used)
  {
    hide Movable;
    if AllMovable(cl, ts[1..], slot + 1, used) {
      forall k | 0 <= k < |ts| ensures Movable(cl, ts[k], slot + k, used) {
        if k > 0 { assert ts[k] == ts[1..][k - 1]; }
      }
    }
    if AllMovable(cl, ts, slot, used) {
      forall k | 0 <= k < |ts[1..]| ensures Movable(cl, ts[1..][k], slot + 1 + k, used) {
        assert ts[1..][k] == ts[k + 1];
      }
    }
  }

  /** What one move does to the frame. */
  lemma ExecMove(vm: Vm, t: Term, slot: nat, used: set<nat>, pc: nat, frame: Frame, s: Store, w: World)
    requires Movable(vm.cl, t, slot, used)
    requires t.Var? ==> t.index in frame && frame[t.index] == vm.env(t.index)
    requires At(vm.code, pc, Move(t, slot))
    ensures Reaches(vm, Run(pc, frame, NoArgs, s, None, w),
                    Run(pc + |Move(t, slot)|, frame[slot := Subst(t, vm.env)], NoArgs, s, None, w))
  {
    hide Step, Steps;
    var c := Run(pc, frame, NoArgs, s, None, w);
    if t == Var(slot) {
      assert frame[slot := frame[slot]] == frame;
      ReachesSelf(vm, c);
    } else {
      StepMoves(vm, c, t, slot);
      ReachesStep(vm, c);
    }
  }

  lemma StepMoves(vm: Vm, c: Config, t: Term, slot: nat)
    requires c.Run? && !t.Cmp? && t != Var(slot) && At(vm.code, c.pc, Move(t, slot))
    requires t.Var? ==> t.index in c.frame && c.frame[t.index] == vm.env(t.index)
    ensures Step(vm, c) == Run(c.pc + |Move(t, slot)|, c.frame[slot := Subst(t, vm.env)], c.build, c.store, c.fast, c.w)
  {
    hide *;
    match t
    case Void => StepMoveOne(vm, c, L_VOID, t, slot);
    case Nil => StepMoveOne(vm, c, L_NIL, t, slot);
    case _ => StepMoveTwo(vm, c, t, slot);
  }

  lemma StepMoveOne(vm: Vm, c: Config, op: Op, t: Term, slot: nat)
    requires c.Run? && ((t == Void && op == L_VOID) || (t == Nil && op == L_NIL)) && At(vm.code, c.pc, Move(t, slot))
    ensures Step(vm, c) == Run(c.pc + |Move(t, slot)|, c.frame[slot := Subst(t, vm.env)], c.build, c.store, c.fast, c.w)
  {
    hide Step, Steps, At, Reaches;
    FetchMove(vm, c, op, [Num(slot)], t, slot);
  }

  lemma StepMoveTwo(vm: Vm, c: Config, t: Term, slot: nat)
    requires c.Run? && (t.Var? || t.Int? || t.Atom?) && t != Var(slot) && At(vm.code, c.pc, Move(t, slot))
    requires t.Var? ==> t.index in c.frame && c.frame[t.index] == vm.env(t.index)
    ensures Step(vm, c) == Run(c.pc + |Move(t, slot)|, c.frame[slot := Subst(t, vm.env)], c.build, c.store, c.fast, c.w)
  {
    hide Step, Steps, At, Reaches, Move;
    var op := if t.Var? then L_VAR else if t.Int? then L_SMALLINT else L_ATOM;
    var x := if t.Var? then Num(t.index) else if t.Int? then Num(t.value) else Nam(t.name);
    assert Move(t, slot) == [Ins(op)] + [Num(slot), x] by { MoveTwo(t, slot, op, x); }
    FetchMove(vm, c, op, [Num(slot), x], t, slot);
  }

  lemma MoveTwo(t: Term, slot: nat, op: Op, x: Cell)
    requires (t.Var? && t != Var(slot) && op == L_VAR && x == Num(t.index))
             || (t.Int? && op == L_SMALLINT && x == Num(t.value))
          || (t.Atom? && op == L_ATOM && x == Nam(t.name))
    ensures Move(t, slot) == [Ins(op)] + [Num(slot), x]
  {
  }

  lemma FetchMove(vm: Vm, c: Config, op: Op, operands: Code, t: Term, slot: nat)
    requires c.Run? && IsMove(op) && op != L_NOLCO && At(vm.code, c.pc, Move(t, slot))
    requires Move(t, slot) == [Ins(op)] + operands && |operands| == Size(op) - 1 && operands[0] == Num(slot)
    ensures c.pc + Size(op) <= |vm.code| && Step(vm, c) == StepMove(vm, op, c)
    ensures NumAt(vm, c.pc + 1) == slot
    ensures |operands| > 1 ==> vm.code[c.pc + 2] == operands[1]
  {
    hide Step, Steps, At, StepMove, StepArg, StepCall, StepBranch, StepCut, StepInit, Move;
    assert Move(t, slot) == [Ins(op)] + operands + [];
    Fetch(vm.code, c.pc, op, operands, []);
    StepIs(vm, c, op);
    assert vm.code[c.pc + 1 + 0] == operands[0];
    if |operands| > 1 { assert vm.code[c.pc + 1 + 1] == operands[1]; }
  }

  /** Argument `k` of the call is in its slot. */
  ghost predicate Placed(frame: Frame, ts: seq<Term>, slot: nat, env: nat -> Term, k: nat)
    requires k < |ts|
  {
    slot + k in frame && frame[slot + k] == Subst(ts[k], env)
  }

  /** Running the moves one after another leaves in the argument slots exactly the values the
      argument code would have built, whatever variables share those slots. */
  lemma {:induction false} ExecMoves(vm: Vm, ts: seq<Term>, slot: nat, used: set<nat>, pc: nat, frame: Frame,
        s: Store, w: World)
    returns (after: Frame)
    requires AllMovable(vm.cl, ts, slot, used) && Below(vm.cl.arity) <= used
    requires At(vm.code, pc, Moves(ts, slot))
    requires forall i :: i in used && i >= slot ==> i in frame && frame[i] == vm.env(i)
    ensures Reaches(vm, Run(pc, frame, NoArgs, s, None, w), Run(pc + |Moves(ts, slot)|, after, NoArgs, s, None, w))
    ensures forall k :: 0 <= k < slot && k in frame ==> k in after && after[k] == frame[k]
    ensures forall k :: 0 <= k < |ts| ==> Placed(after, ts, slot, vm.env, k)
    decreases ts
  {
    hide Step, Steps, Movable, Move;
    if ts == [] {
      after := frame;
      assert Moves(ts, slot) == [];
      ReachesSelf(vm, Run(pc, frame, NoArgs, s, None, w));
    } else {
      assert Moves(ts, slot) == Move(ts[0], slot) + Moves(ts[1..], slot + 1);
      var m, rest := Move(ts[0], slot), Moves(ts[1..], slot + 1);
      AtSplit(vm.code, pc, m, rest);
      assert Movable(vm.cl, ts[0], slot + 0, used);
      MovableReads(vm.cl, ts[0], slot, used);
      ExecMove(vm, ts[0], slot, used, pc, frame, s, w);
      var frame1 := frame[slot := Subst(ts[0], vm.env)];
      forall k | 0 <= k < |ts[1..]| ensures Movable(vm.cl, ts[1..][k], slot + 1 + k, used) {
        assert Movable(vm.cl, ts[k + 1], slot + (k + 1), used);
      }
      after := ExecMoves(vm, ts[1..], slot + 1, used, pc + |m|, frame1, s, w);
      forall k | 0 <= k < slot && k in frame ensures k in after && after[k] == frame[k] { assert k in frame1; }
      forall k | 0 <= k < |ts| ensures Placed(after, ts, slot, vm.env, k) {
        if k == 0 {
          assert slot in frame1;
        } else {
          assert Placed(after, ts[1..], slot + 1, vm.env, k - 1);
        }
      }
      ReachesTrans(vm, Run(pc, frame, NoArgs, s, None, w), Run(pc + |m|, frame1, NoArgs, s, None, w),
                   Run(pc + |Moves(ts, slot)|, after, NoArgs, s, None, w));
    }
  }

  lemma MovableReads(cl: Clause, t: Term, slot: nat, used: set<nat>)
    requires Movable(cl, t, slot, used) && Below(cl.arity) <= used
    ensures t.Var? ==> t.index in used && t.index >= slot
  {
    if t.Var? && t.index < cl.arity { assert t.index in Below(cl.arity); }
  }

  lemma {:induction false} SlotsHold(frame: Frame, ts: seq<Term>, n: nat, env: nat -> Term)
    requires n <= |ts|
    requires forall k :: 0 <= k < n ==> Placed(frame, ts, 0, env, k)
    ensures SlotValues(frame, n) == Some(SubstAll(ts[..n], env))
  {
    if n > 0 {
      SlotsHold(frame, ts, n - 1, env);
      assert Placed(frame, ts, 0, env, n - 1);
      SubstAllSnoc(ts[..n - 1], ts[n - 1], env);
      assert ts[..n] == ts[..n - 1] + [ts[n - 1]];
    }
  }

  lemma {:induction false} SubstAllSnoc(ts: seq<Term>, t: Term, env: nat -> Term)
    ensures SubstAll(ts + [t], env) == SubstAll(ts, env) + [Subst(t, env)]
  {
    if ts == [] {
      assert [t][1..] == [];
    } else {
      SubstAllSnoc(ts[1..], t, env);
      assert (ts + [t])[1..] == ts[1..] + [t];
    }
  }
}
