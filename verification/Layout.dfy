// Where the parts of a compiled body sit, what they start with, and how each of their exits leads on.

module Layout {
  import opened Terms
  import opened VmCode
  import opened CodeGen
  import opened CodeShapes
  import opened Search
  import opened Machine
  import opened Execution
  import opened Answers
  import opened ControlSteps

  /** The code of `b`, entered with exactly `used` initialised, is at `pc`. */
  ghost predicate Laid(vm: Vm, b: Body, depart: bool, cut: CutInfo, used: set<nat>, slots: nat, pc: nat) {
    && ProperBody(b) && At(vm.code, pc, Gen(vm.cl, b, depart, cut, used, slots))
    && Below(vm.cl.arity) <= used <= Below(vm.cl.bits) && BodyVars(b) <= Below(vm.cl.bits)
  }

  function End(vm: Vm, b: Body, depart: bool, cut: CutInfo, used: set<nat>, slots: nat, pc: nat): Exit {
    Exit(pc + |Gen(vm.cl, b, depart, cut, used, slots)|, used + BodyVars(b), depart)
  }

  lemma LaidIs(vm: Vm, b: Body, depart: bool, cut: CutInfo, used: set<nat>, slots: nat, pc: nat)
    requires ProperBody(b) && At(vm.code, pc, Gen(vm.cl, b, depart, cut, used, slots))
    requires Below(vm.cl.arity) <= used <= Below(vm.cl.bits) && BodyVars(b) <= Below(vm.cl.bits)
    ensures Laid(vm, b, depart, cut, used, slots, pc)
  {
  }

  lemma EndIs(vm: Vm, b: Body, depart: bool, cut: CutInfo, used: set<nat>, slots: nat, pc: nat)
    ensures End(vm, b, depart, cut, used, slots, pc) ==
            Exit(pc + |Gen(vm.cl, b, depart, cut, used, slots)|, used + BodyVars(b), depart)
  {
  }

  lemma AtWhole(code: Code, a: Code, b: Code)
    requires code == a + b
    ensures At(code, 0, a)
  {
    assert code[0..|a|] == a;
  }

  // ----- ways out -----

  lemma BalanceLeads(vm: Vm, pc: nat, have: set<nat>, want: set<nat>, dep: bool, dep1: bool)
    requires At(vm.code, pc, Balance(vm.cl, have, want)) && want <= Below(vm.cl.bits) && (dep ==> dep1)
    ensures LeadsTo(vm, Exit(pc, have, dep), Exit(pc + |Balance(vm.cl, have, want)|, have + want, dep1))
  {
    hide Reaches, At, Balance;
    forall s: Store, w: World
      ensures Reaches(vm, Plain(pc, vm, have, s, w), Plain(pc + |Balance(vm.cl, have, want)|, vm, have + want, s, w))
    {
      ExecBalance(vm, have, want, pc, s, w);
    }
  }

  lemma BalanceJumpLeads(vm: Vm, pc: nat, have: set<nat>, want: set<nat>, dist: nat, dep: bool, dep1: bool)
    requires At(vm.code, pc, Balance(vm.cl, have, want) + CodeGen.Jump(dist)) && want <= Below(vm.cl.bits)
             && (dep ==> dep1)
    ensures LeadsTo(vm, Exit(pc, have, dep), Exit(pc + |Balance(vm.cl, have, want)| + 2 + dist, have + want, dep1))
  {
    hide Reaches, At, Balance, Steps, Step, FrameOf;
    var bal := Balance(vm.cl, have, want);
    AtSplit(vm.code, pc, bal, CodeGen.Jump(dist));
    forall s: Store, w: World
      ensures Reaches(vm, Plain(pc, vm, have, s, w), Plain(pc + |bal| + 2 + dist, vm, have + want, s, w))
    {
      ExecBalance(vm, have, want, pc, s, w);
      var c1 := Plain(pc + |bal|, vm, have + want, s, w);
      StepJump(vm, pc + |bal|, have + want, s, w, dist);
      ReachesStep(vm, c1);
      ReachesTrans(vm, Plain(pc, vm, have, s, w), c1, Step(vm, c1));
    }
  }

  lemma EndLeads(vm: Vm, pc: nat, used: set<nat>, dep: bool)
    requires At(vm.code, pc, [Ins(C_END)])
    ensures LeadsTo(vm, Exit(pc, used, dep), Exit(pc + 1, used, dep))
  {
    hide Reaches, At, Steps, Step, FrameOf;
    forall s: Store, w: World ensures Reaches(vm, Plain(pc, vm, used, s, w), Plain(pc + 1, vm, used, s, w)) {
      StepNop(vm, C_END, pc, used, s, w);
      ReachesStep(vm, Plain(pc, vm, used, s, w));
    }
  }

  // ----- conjunction and disjunction -----

  lemma ConjLaid(vm: Vm, l: Body, r: Body, depart: bool, cut: CutInfo, used: set<nat>, slots: nat, pc: nat)
    requires Laid(vm, Conj(l, r), depart, cut, used, slots, pc)
    ensures Laid(vm, l, false, cut, used, slots, pc)
    ensures var xa := End(vm, l, false, cut, used, slots, pc);
            && !xa.dep && Laid(vm, r, depart, cut, xa.used, slots + Slots(l), xa.pc)
            && End(vm, r, depart, cut, xa.used, slots + Slots(l), xa.pc) ==
                End(vm, Conj(l, r), depart, cut, used, slots, pc)
    ensures Slots(Conj(l, r)) == Slots(l) + Slots(r)
  {
    hide At, Below, Gen, ProperBody, BodyVars, Slots;
    BodyIs(vm.cl, Conj(l, r), depart, cut, used, slots);
    var lc := Gen(vm.cl, l, false, cut, used, slots);
    var rc := Gen(vm.cl, r, depart, cut, used + BodyVars(l), slots + Slots(l));
    AtSplit(vm.code, pc, lc, rc);
    assert used + BodyVars(l) + BodyVars(r) == used + (BodyVars(l) + BodyVars(r));
  }

  lemma OrLaid(vm: Vm, l: Body, r: Body, depart: bool, cut: CutInfo, used: set<nat>, slots: nat, pc: nat)
    returns (pr: nat)
    requires Laid(vm, Disj(l, r), depart, cut, used, slots, pc) && !l.IfThen? && !l.SoftIfThen?
    ensures pc + 2 <= pr && At(vm.code, pc, [Ins(C_OR), Num(pr - pc - 2)])
    ensures Laid(vm, l, false, cut, used, slots, pc + 2) && Laid(vm, r, depart, cut, used, slots + Slots(l), pr)
    ensures var x := End(vm, Disj(l, r), depart, cut, used, slots, pc);
            && LeadsTo(vm, End(vm, l, false, cut, used, slots, pc + 2), x)
            && LeadsTo(vm, End(vm, r, depart, cut, used, slots + Slots(l), pr), x)
    ensures Slots(Disj(l, r)) == Slots(l) + Slots(r)
  {
    hide At, Below, Gen, GenOr, OrCode, LeadsTo, Balance, ProperBody, BodyVars, Slots;
    BodyIs(vm.cl, Disj(l, r), depart, cut, used, slots);
    OrIs(vm.cl, l, r, depart, cut, used, slots);
    var have1, have2 := used + BodyVars(l), used + BodyVars(r);
    var lc, bal1 := Gen(vm.cl, l, false, cut, used, slots), Balance(vm.cl, have1, have2);
    var rc, bal2 := Gen(vm.cl, r, depart, cut, used, slots + Slots(l)), Balance(vm.cl, have2, have1);
    pr := pc + 2 + |lc| + |bal1| + 2;
    OrAt(vm.code, pc, lc, bal1, rc, bal2);
    BalanceJumpLeads(vm, pc + 2 + |lc|, have1, have2, |rc| + |bal2|, false, depart);
    BalanceLeads(vm, pr + |rc|, have2, have1, depart, depart);
    assert have1 + have2 == have2 + have1 == used + (BodyVars(l) + BodyVars(r));
  }

  // ----- if-then-else -----

  function LocalOf(hard: bool, v: nat): CutInfo {
    LocalCut(if hard then C_LCUT else C_LSCUT, v)
  }

  /** The parts of an if-then-else, whatever instructions open and commit its condition. */
  lemma IfElseLaid(vm: Vm, hard: bool, c: Body, t: Body, e: Body, depart: bool, cut: CutInfo, used: set<nat>, v: nat,
        pc: nat)
    returns (cc: Code, pe: nat)
    requires Laid(vm, Disj(IfPart(hard, c, t), e), depart, cut, used, v, pc)
    ensures cc == Gen(vm.cl, c, false, LocalOf(hard, v), used, v + 1) && ProperBody(c)
    ensures pc + 3 <= pe && At(vm.code, pc, [Ins(IfOp(hard, cc)), Num(v), Num(pe - pc - 3)]) && At(vm.code, pc + 3, cc)
    ensures Laid(vm, c, false, LocalOf(hard, v), used, v + 1, pc + 3)
    ensures var xc := End(vm, c, false, LocalOf(hard, v), used, v + 1, pc + 3);
            && xc == Exit(pc + 3 + |cc|, used + BodyVars(c), false)
            && At(vm.code, xc.pc, [Ins(CommitOp(hard, cc)), Num(v)])
            && Laid(vm, t, depart, cut, xc.used, v + 1 + Slots(c), xc.pc + 2)
            && LeadsTo(vm, End(vm, t, depart, cut, xc.used, v + 1 + Slots(c), xc.pc + 2),
                       End(vm, Disj(IfPart(hard, c, t), e), depart, cut, used, v, pc))
    ensures Laid(vm, e, depart, cut, used, v + 1 + Slots(c) + Slots(t), pe)
    ensures LeadsTo(vm, End(vm, e, depart, cut, used, v + 1 + Slots(c) + Slots(t), pe),
                    End(vm, Disj(IfPart(hard, c, t), e), depart, cut, used, v, pc))
    ensures Slots(Disj(IfPart(hard, c, t), e)) == 1 + Slots(c) + Slots(t) + Slots(e)
  {
    hide At, Below, Gen, IfCode, LeadsTo, Balance, IfOp, CommitOp, ProperBody, BodyVars, Slots;
    IfElseShape(vm.cl, hard, c, t, e, depart, cut, used, v);
    var have1, have2 := used + (BodyVars(c) + BodyVars(t)), used + BodyVars(e);
    cc := Gen(vm.cl, c, false, LocalOf(hard, v), used, v + 1);
    var tc, bal1 := Gen(vm.cl, t, depart, cut, used + BodyVars(c), v + 1 + Slots(c)), Balance(vm.cl, have1, have2);
    var ec, bal2 := Gen(vm.cl, e, depart, cut, used, v + 1 + Slots(c) + Slots(t)), Balance(vm.cl, have2, have1);
    var pt := pc + 3 + |cc| + 2;
    pe := pt + |tc| + |bal1| + 2;
    IfAt(vm.code, pc, IfOp(hard, cc), CommitOp(hard, cc), v, cc, tc, bal1, ec, bal2);
    BalanceJumpLeads(vm, pt + |tc|, have1, have2, |ec| + |bal2|, depart, depart);
    BalanceLeads(vm, pe + |ec|, have2, have1, depart, depart);
    assert have1 == used + BodyVars(c) + BodyVars(t);
    assert have1 + have2 == have2 + have1 == used + (BodyVars(c) + BodyVars(t) + BodyVars(e));
  }

  lemma IfElseShape(cl: Clause, hard: bool, c: Body, t: Body, e: Body, depart: bool, cut: CutInfo, used: set<nat>,
        v: nat)
    ensures var have1, have2 := used + (BodyVars(c) + BodyVars(t)), used + BodyVars(e);
            var cc := Gen(cl, c, false, LocalOf(hard, v), used, v + 1);
            Gen(cl, Disj(IfPart(hard, c, t), e), depart, cut, used, v) ==
            IfCode(IfOp(hard, cc), CommitOp(hard, cc), v, cc,
                   Gen(cl, t, depart, cut, used + BodyVars(c), v + 1 + Slots(c)), Balance(cl, have1, have2),
                   Gen(cl, e, depart, cut, used, v + 1 + Slots(c) + Slots(t)), Balance(cl, have2, have1))
    ensures var b := Disj(IfPart(hard, c, t), e);
            && (ProperBody(b) ==> ProperBody(c) && ProperBody(t) && ProperBody(e))
            && BodyVars(b) == BodyVars(c) + BodyVars(t) + BodyVars(e) && Slots(b) == 1 + Slots(c) + Slots(t) + Slots(e)
  {
    hide IfCode, Balance, Gen, GenIfThenElse, IfOp, CommitOp, ProperBody, BodyVars, Slots;
    BodyIs(cl, Disj(IfPart(hard, c, t), e), depart, cut, used, v);
    IfIs(cl, hard, c, t, e, depart, cut, used, v);
  }

  // ----- -> and *-> without else -----

  function CommitOf(hard: bool, v: nat): Code {
    if hard then [Ins(C_CUT), Num(v)] else [Ins(C_SCUT)]
  }

  lemma ThenLaid(vm: Vm, hard: bool, c: Body, t: Body, depart: bool, cut: CutInfo, used: set<nat>, v: nat, pc: nat)
    requires Laid(vm, IfPart(hard, c, t), depart, cut, used, v, pc)
    ensures At(vm.code, pc, [Ins(if hard then C_IFTHEN else C_SOFTIFTHEN), Num(v)])
    ensures Laid(vm, c, false, LocalCut(C_LCUTIFTHEN, v), used, v + 1, pc + 2)
    ensures var xc, k := End(vm, c, false, LocalCut(C_LCUTIFTHEN, v), used, v + 1, pc + 2), |CommitOf(hard, v)|;
            && !xc.dep && At(vm.code, xc.pc, CommitOf(hard, v))
            && Laid(vm, t, depart, cut, xc.used, v + 1 + Slots(c), xc.pc + k)
            && LeadsTo(vm, End(vm, t, depart, cut, xc.used, v + 1 + Slots(c), xc.pc + k),
                       End(vm, IfPart(hard, c, t), depart, cut, used, v, pc))
    ensures Slots(IfPart(hard, c, t)) == 1 + Slots(c) + Slots(t)
  {
    hide At, Below, Gen, CommitOf, LeadsTo, ProperBody, BodyVars, Slots;
    ThenIs(vm.cl, hard, c, t, depart, cut, used, v);
    CommitIsIt(hard, v);
    var cc := Gen(vm.cl, c, false, LocalCut(C_LCUTIFTHEN, v), used, v + 1);
    var tc := Gen(vm.cl, t, depart, cut, used + BodyVars(c), v + 1 + Slots(c));
    IfThenAt(vm.code, pc, [Ins(if hard then C_IFTHEN else C_SOFTIFTHEN), Num(v)], cc, CommitOf(hard, v), tc);
    var used2 := used + BodyVars(c) + BodyVars(t);
    assert used2 == used + (BodyVars(c) + BodyVars(t));
    EndLeads(vm, pc + 2 + |cc| + |CommitOf(hard, v)| + |tc|, used2, depart);
  }

  lemma CommitIsIt(hard: bool, v: nat)
    ensures CommitOf(hard, v) == if hard then [Ins(C_CUT), Num(v)] else [Ins(C_SCUT)]
  {
  }

  lemma IfParts(c: Body, t: Body, v: nat)
    ensures IfPart(true, c, t) == IfThen(c, t) && IfPart(false, c, t) == SoftIfThen(c, t)
    ensures LocalOf(true, v) == LocalCut(C_LCUT, v) && LocalOf(false, v) == LocalCut(C_LSCUT, v)
    ensures CommitOf(true, v) == [Ins(C_CUT), Num(v)] && CommitOf(false, v) == [Ins(C_SCUT)]
  {
  }

  // ----- \+ -----

  lemma NotLaid(vm: Vm, g: Body, depart: bool, cut: CutInfo, used: set<nat>, v: nat, pc: nat) returns (dist: nat)
    requires Laid(vm, Not(g), depart, cut, used, v, pc)
    ensures At(vm.code, pc, [Ins(C_NOT), Num(v), Num(dist)])
    ensures Laid(vm, g, false, LocalCut(C_LCUT, v), used, v + 1, pc + 3)
    ensures var xc := End(vm, g, false, LocalCut(C_LCUT, v), used, v + 1, pc + 3);
            !xc.dep && At(vm.code, xc.pc, [Ins(C_CUT), Num(v)]) && At(vm.code, xc.pc + 2, [Ins(C_FAIL)])
    ensures LeadsTo(vm, Exit(pc + 3 + dist, used, false), End(vm, Not(g), depart, cut, used, v, pc))
    ensures Slots(Not(g)) == 1 + Slots(g)
  {
    hide At, Below, Gen, GenNot, NotCode, LeadsTo, Balance, ProperBody, BodyVars, Slots;
    BodyIs(vm.cl, Not(g), depart, cut, used, v);
    NotIs(vm.cl, g, used, v);
    var gc := Gen(vm.cl, g, false, LocalCut(C_LCUT, v), used, v + 1);
    var bal := Balance(vm.cl, used, used + BodyVars(g));
    NotAt(vm.code, pc, v, gc, bal);
    dist := |NotCode(v, gc, bal)| - 3 - |bal|;
    BalanceLeads(vm, pc + 3 + dist, used, used + BodyVars(g), false, depart);
    assert used + (used + BodyVars(g)) == used + BodyVars(g);
  }
}
