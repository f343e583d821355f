// The code of each construct in terms of the codes of its parts, one unfolding at a time.

module CodeShapes {
  import opened Terms
  import opened VmCode
  import opened CodeGen

  lemma BodyIs(cl: Clause, b: Body, depart: bool, cut: CutInfo, used: set<nat>, slots: nat)
    ensures var code := Gen(cl, b, depart, cut, used, slots);
      match b
      case Goal(f, ts) => code == GenGoal(cl, f, ts, depart, used) && BodyVars(b) == VarsOf(ts) && Slots(b) == 0
      case True => code == [Ins(I_TRUE)] && BodyVars(b) == {} && Slots(b) == 0
      case Fail => code == [Ins(I_FAIL)] && BodyVars(b) == {} && Slots(b) == 0
      case Cut => code == (if cut.ClauseCut? then [Ins(I_CUT)] else [Ins(cut.op), Num(cut.slot)])
                  && BodyVars(b) == {} && Slots(b) == 0
      case Conj(l, r) =>
        code == Gen(cl, l, false, cut, used, slots) + Gen(cl, r, depart, cut, used + BodyVars(l), slots + Slots(l))
        && BodyVars(b) == BodyVars(l) + BodyVars(r) && Slots(b) == Slots(l) + Slots(r)
      case Disj(IfThen(c, t), r) =>
        code == GenIfThenElse(cl, true, c, t, r, depart, cut, used, slots)
        && BodyVars(b) == BodyVars(c) + BodyVars(t) + BodyVars(r) && Slots(b) == 1 + Slots(c) + Slots(t) + Slots(r)
      case Disj(SoftIfThen(c, t), r) =>
        code == GenIfThenElse(cl, false, c, t, r, depart, cut, used, slots)
        && BodyVars(b) == BodyVars(c) + BodyVars(t) + BodyVars(r) && Slots(b) == 1 + Slots(c) + Slots(t) + Slots(r)
      case Disj(l, r) =>
        code == GenOr(cl, l, r, depart, cut, used, slots)
        && BodyVars(b) == BodyVars(l) + BodyVars(r) && Slots(b) == Slots(l) + Slots(r)
      case IfThen(c, t) => code == GenIfThen(cl, true, c, t, depart, cut, used, slots)
        && BodyVars(b) == BodyVars(c) + BodyVars(t) && Slots(b) == 1 + Slots(c) + Slots(t)
      case SoftIfThen(c, t) => code == GenIfThen(cl, false, c, t, depart, cut, used, slots)
        && BodyVars(b) == BodyVars(c) + BodyVars(t) && Slots(b) == 1 + Slots(c) + Slots(t)
      case Not(g) => code == GenNot(cl, g, used, slots) && BodyVars(b) == BodyVars(g) && Slots(b) == 1 + Slots(g)
    ensures match b
      case Conj(l, r) => ProperBody(b) == (ProperBody(l) && ProperBody(r)) && BodySize(b) == 1 + BodySize(l)
          + BodySize(r)
      case Disj(IfThen(c, t), r) => ProperBody(b) == (ProperBody(c) && ProperBody(t) && ProperBody(r))
                                    && BodySize(b) == 2 + BodySize(c) + BodySize(t) + BodySize(r)
      case Disj(SoftIfThen(c, t), r) => ProperBody(b) == (ProperBody(c) && ProperBody(t) && ProperBody(r))
                                    && BodySize(b) == 2 + BodySize(c) + BodySize(t) + BodySize(r)
      case Disj(l, r) => ProperBody(b) == (ProperBody(l) && ProperBody(r)) && BodySize(b) == 1 + BodySize(l)
          + BodySize(r)
      case IfThen(c, t) => ProperBody(b) == (ProperBody(c) && ProperBody(t)) && BodySize(b) == 1 + BodySize(c)
          + BodySize(t)
      case SoftIfThen(c, t) => ProperBody(b) == (ProperBody(c) && ProperBody(t)) && BodySize(b) == 1 + BodySize(c)
          + BodySize(t)
      case Not(g) => ProperBody(b) == ProperBody(g) && BodySize(b) == 1 + BodySize(g)
      case Goal(_, ts) => ProperBody(b) ==> ProperTerms(ts)
      case _ => true
  {
    hide GenGoal, GenOr, GenIfThenElse, GenIfThen, GenNot, VarsOf, ProperTerms;
  }

  lemma OrIs(cl: Clause, l: Body, r: Body, depart: bool, cut: CutInfo, used: set<nat>, slots: nat)
    ensures GenOr(cl, l, r, depart, cut, used, slots) ==
            OrCode(Gen(cl, l, false, cut, used, slots), Balance(cl, used + BodyVars(l), used + BodyVars(r)),
                   Gen(cl, r, depart, cut, used, slots + Slots(l)), Balance(cl, used + BodyVars(r), used + BodyVars(l)))
  {
  }

  lemma IfIs(cl: Clause, hard: bool, c: Body, t: Body, e: Body, depart: bool, cut: CutInfo, used: set<nat>, v: nat)
    ensures var have1, have2 := used + (BodyVars(c) + BodyVars(t)), used + BodyVars(e);
            var cc := Gen(cl, c, false, LocalCut(if hard then C_LCUT else C_LSCUT, v), used, v + 1);
            GenIfThenElse(cl, hard, c, t, e, depart, cut, used, v) ==
            IfCode(IfOp(hard, cc), CommitOp(hard, cc), v, cc,
                   Gen(cl, t, depart, cut, used + BodyVars(c), v + 1 + Slots(c)), Balance(cl, have1, have2),
                   Gen(cl, e, depart, cut, used, v + 1 + Slots(c) + Slots(t)), Balance(cl, have2, have1))
  {
  }

  lemma CommitIs(hard: bool, cc: Code)
    ensures IfOp(hard, cc) == if hard && AllFast(cc, 0) then C_FASTCOND else if hard then C_IFTHENELSE else C_SOFTIF
    ensures CommitOp(hard, cc) == if hard && AllFast(cc, 0) then C_FASTCUT else if hard then C_CUT else C_SOFTCUT
  {
  }

  lemma IfThenIs(cl: Clause, hard: bool, c: Body, t: Body, depart: bool, cut: CutInfo, used: set<nat>, v: nat)
    ensures var cc := Gen(cl, c, false, LocalCut(C_LCUTIFTHEN, v), used, v + 1);
            var tc := Gen(cl, t, depart, cut, used + BodyVars(c), v + 1 + Slots(c));
            GenIfThen(cl, hard, c, t, depart, cut, used, v) ==
            [Ins(if hard then C_IFTHEN else C_SOFTIFTHEN), Num(v)] + cc
            + (if hard then [Ins(C_CUT), Num(v)] else [Ins(C_SCUT)]) + tc + [Ins(C_END)]
  {
  }

  lemma NotIs(cl: Clause, g: Body, used: set<nat>, v: nat)
    ensures GenNot(cl, g, used, v) ==
            NotCode(v, Gen(cl, g, false, LocalCut(C_LCUT, v), used, v + 1), Balance(cl, used, used + BodyVars(g)))
  {
  }

  /** `->` and `*->` without an else part. */
  lemma ThenIs(cl: Clause, hard: bool, c: Body, t: Body, depart: bool, cut: CutInfo, used: set<nat>, v: nat)
    ensures Gen(cl, IfPart(hard, c, t), depart, cut, used, v) ==
            [Ins(if hard then C_IFTHEN else C_SOFTIFTHEN), Num(v)] + Gen(cl, c, false, LocalCut(C_LCUTIFTHEN, v),
                used, v + 1)
            + (if hard then [Ins(C_CUT), Num(v)] else [Ins(C_SCUT)])
            + Gen(cl, t, depart, cut, used + BodyVars(c), v + 1 + Slots(c)) + [Ins(C_END)]
    ensures ProperBody(IfPart(hard, c, t)) == (ProperBody(c) && ProperBody(t))
    ensures BodyVars(IfPart(hard, c, t)) == BodyVars(c) + BodyVars(t) && Slots(IfPart(hard, c, t)) ==
            1 + Slots(c) + Slots(t)
  {
    hide Gen, GenIfThen, BodyVars, Slots, BodySize, ProperBody;
    IfThenIs(cl, hard, c, t, depart, cut, used, v);
    if hard {
      BodyIs(cl, IfThen(c, t), depart, cut, used, v);
    } else {
      BodyIs(cl, SoftIfThen(c, t), depart, cut, used, v);
    }
  }

  // ----- where the parts of a construct sit -----

  lemma OrAt(code: Code, pc: nat, lc: Code, bal1: Code, rc: Code, bal2: Code)
    requires At(code, pc, OrCode(lc, bal1, rc, bal2))
    ensures At(code, pc, [Ins(C_OR), Num(|lc| + |bal1| + 2)]) && At(code, pc + 2, lc)
    ensures At(code, pc + 2 + |lc|, bal1 + Jump(|rc| + |bal2|))
    ensures At(code, pc + 2 + |lc| + |bal1| + 2, rc) && At(code, pc + 2 + |lc| + |bal1| + 2 + |rc|, bal2)
    ensures |OrCode(lc, bal1, rc, bal2)| == 4 + |lc| + |bal1| + |rc| + |bal2|
  {
    hide At;
    var head, jump := [Ins(C_OR), Num(|lc| + |bal1| + 2)], Jump(|rc| + |bal2|);
    AtSplit(code, pc, head + lc + bal1 + jump + rc, bal2);
    AtSplit(code, pc, head + lc + bal1 + jump, rc);
    AtSplit(code, pc, head + lc + bal1, jump);
    AtSplit(code, pc, head + lc, bal1);
    AtSplit(code, pc, head, lc);
    AtSplit(code, pc + 2 + |lc|, bal1, jump);
  }

  lemma IfAt(code: Code, pc: nat, op: Op, commit: Op, v: nat, cc: Code, tc: Code, bal1: Code, ec: Code, bal2: Code)
    requires At(code, pc, IfCode(op, commit, v, cc, tc, bal1, ec, bal2))
    ensures At(code, pc, [Ins(op), Num(v), Num(|cc| + 2 + |tc| + |bal1| + 2)]) && At(code, pc + 3, cc)
    ensures At(code, pc + 3 + |cc|, [Ins(commit), Num(v)]) && At(code, pc + 3 + |cc| + 2, tc)
    ensures At(code, pc + 3 + |cc| + 2 + |tc|, bal1 + Jump(|ec| + |bal2|))
    ensures var pe := pc + 3 + |cc| + 2 + |tc| + |bal1| + 2; At(code, pe, ec) && At(code, pe + |ec|, bal2)
    ensures |IfCode(op, commit, v, cc, tc, bal1, ec, bal2)| == 7 + |cc| + |tc| + |bal1| + |ec| + |bal2|
  {
    hide At;
    var head, jump := [Ins(op), Num(v), Num(|cc| + 2 + |tc| + |bal1| + 2)], Jump(|ec| + |bal2|);
    var com := [Ins(commit), Num(v)];
    AtSplit(code, pc, head + cc + com + tc + bal1 + jump + ec, bal2);
    AtSplit(code, pc, head + cc + com + tc + bal1 + jump, ec);
    AtSplit(code, pc, head + cc + com + tc + bal1, jump);
    AtSplit(code, pc, head + cc + com + tc, bal1);
    AtSplit(code, pc, head + cc + com, tc);
    AtSplit(code, pc, head + cc, com);
    AtSplit(code, pc, head, cc);
    AtSplit(code, pc + 3 + |cc| + 2 + |tc|, bal1, jump);
  }

  lemma IfThenAt(code: Code, pc: nat, head: Code, cc: Code, com: Code, tc: Code)
    requires At(code, pc, head + cc + com + tc + [Ins(C_END)])
    ensures At(code, pc, head) && At(code, pc + |head|, cc) && At(code, pc + |head| + |cc|, com)
    ensures At(code, pc + |head| + |cc| + |com|, tc) && At(code, pc + |head| + |cc| + |com| + |tc|, [Ins(C_END)])
  {
    hide At;
    AtSplit(code, pc, head + cc + com + tc, [Ins(C_END)]);
    AtSplit(code, pc, head + cc + com, tc);
    AtSplit(code, pc, head + cc, com);
    AtSplit(code, pc, head, cc);
  }

  lemma NotAt(code: Code, pc: nat, v: nat, gc: Code, bal: Code)
    requires At(code, pc, NotCode(v, gc, bal))
    ensures var dist := |NotCode(v, gc, bal)| - 3 - |bal|;
            dist >= 0 && At(code, pc, [Ins(C_NOT), Num(v), Num(dist)]) && At(code, pc + 3 + dist, bal)
    ensures At(code, pc + 3, gc) && At(code, pc + 3 + |gc|, [Ins(C_CUT), Num(v)])
            && At(code, pc + 3 + |gc| + 2, [Ins(C_FAIL)])
  {
    hide At;
    var jump: Code := if bal == [] then [] else Jump(|bal|);
    var head, fail := [Ins(C_NOT), Num(v), Num(|gc| + 3 + |jump|)], [Ins(C_CUT), Num(v), Ins(C_FAIL)];
    assert jump + bal == if bal == [] then [] else Jump(|bal|) + bal;
    AtSplit(code, pc, head + gc + fail, jump + bal);
    AtSplit(code, pc, head + gc, fail);
    AtSplit(code, pc, head, gc);
    AtSplit(code, pc + 3 + |gc| + 3, jump, bal);
    assert fail == [Ins(C_CUT), Num(v)] + [Ins(C_FAIL)];
    AtSplit(code, pc + 3 + |gc|, [Ins(C_CUT), Num(v)], [Ins(C_FAIL)]);
  }
}
