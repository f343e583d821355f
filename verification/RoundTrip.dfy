// Decompiling what the compiler emitted gives the body back, with conjunctions nested to the right.

module RoundTrip {
  import opened Terms
  import opened VmCode
  import opened CodeGen
  import opened CodeShapes
  import opened Machine
  import opened Execution
  import opened Decompiler

  // ----- the normal form -----

  /** The goals of a conjunction, however it is nested, each in normal form. */
  function Flat(b: Body): (r: seq<Body>)
    ensures r != []
    decreases b, 1
  {
    match b
    case Conj(l, r) => Flat(l) + Flat(r)
    case Disj(l, r) => [Disj(RightNested(l), RightNested(r))]
    case IfThen(c, t) => [IfThen(RightNested(c), RightNested(t))]
    case SoftIfThen(c, t) => [SoftIfThen(RightNested(c), RightNested(t))]
    case Not(g) => [Not(RightNested(g))]
    case _ => [b]
  }

  /** The same body with every conjunction nested to the right. */
  function RightNested(b: Body): Body
    decreases b, 2
  {
    Conjoin(Flat(b))
  }

  function Conjoin(bs: seq<Body>): Body
    requires bs != []
  {
    if |bs| == 1 then bs[0] else Conj(bs[0], Conjoin(bs[1..]))
  }

  function TermsOf(bs: seq<Body>): (r: seq<Term>)
    ensures |r| == |bs|
  {
    if bs == [] then [] else [ToTerm(bs[0])] + TermsOf(bs[1..])
  }

  function CommaTerm(ts: seq<Term>): Term
    requires ts != []
  {
    if |ts| == 1 then ts[0] else Cmp(Comma, [ts[0], CommaTerm(ts[1..])])
  }

  lemma {:induction false} ConjoinedTerm(bs: seq<Body>)
    requires bs != []
    ensures ToTerm(Conjoin(bs)) == CommaTerm(TermsOf(bs))
  {
    if |bs| > 1 {
      ConjoinedTerm(bs[1..]);
      assert TermsOf(bs)[1..] == TermsOf(bs[1..]);
    }
  }

  lemma {:induction false} TermsOfJoin(a: seq<Body>, b: seq<Body>)
    ensures TermsOf(a + b) == TermsOf(a) + TermsOf(b)
  {
    if a == [] {
      assert a + b == b;
    } else {
      TermsOfJoin(a[1..], b);
      assert (a + b)[1..] == a[1..] + b;
    }
  }

  lemma {:induction false} CommaTermLast(front: seq<Term>, x: Term, y: Term)
    ensures CommaTerm(front + [x, y]) == CommaTerm(front + [Cmp(Comma, [x, y])])
    decreases |front|
  {
    if front == [] {
      assert front + [x, y] == [x, y] && front + [Cmp(Comma, [x, y])] == [Cmp(Comma, [x, y])];
      assert [x, y][1..] == [y];
    } else {
      CommaTermLast(front[1..], x, y);
      assert (front + [x, y])[1..] == front[1..] + [x, y];
      assert (front + [Cmp(Comma, [x, y])])[1..] == front[1..] + [Cmp(Comma, [x, y])];
    }
  }

  /** Joining the pushed goals from the end nests them to the right. */
  lemma {:induction false} JoinGoalsIs(done: seq<Term>, ts: seq<Term>)
    requires ts != []
    ensures JoinGoals(Build(done + ts, []), |ts|) == Some(Build(done + [CommaTerm(ts)], []))
    decreases |ts|
  {
    if |ts| == 1 {
      assert ts == [ts[0]];
    } else {
      var k := |ts| - 2;
      var front, x, y := ts[..k], ts[k], ts[k + 1];
      var two := Cmp(Comma, [x, y]);
      assert ts == front + [x, y];
      PackTwo(done + front, x, y, Comma);
      assert done + front + [x, y] == done + ts && done + front + [two] == done + (front + [two]);
      JoinGoalsIs(done, front + [two]);
      CommaTermLast(front, x, y);
    }
  }

  lemma Pack(done: seq<Term>, args: seq<Term>, f: Name)
    ensures BuildTerm(Build(done + args, []), Functor(f, |args|)) ==
            Some(Build(done + [if args == [] then Atom(f) else Cmp(f, args)], []))
  {
    assert (done + args)[..|done|] == done && (done + args)[|done|..] == args;
  }

  lemma PackTwo(done: seq<Term>, x: Term, y: Term, f: Name)
    ensures BuildTerm(Build(done + [x, y], []), Functor(f, 2)) == Some(Build(done + [Cmp(f, [x, y])], []))
  {
    Pack(done, [x, y], f);
  }

  // ----- one instruction at a time -----

  predicate IsEnd(op: Op) {
    op.I_EXIT? || op.C_CUT? || op.C_FASTCUT? || op.C_SOFTCUT? || op.C_SCUT? || op.C_END?
  }

  /** Nothing between `lo` and `hi` makes the reader stop. */
  predicate Passes(end: Option<Op>, until: Option<nat>, lo: nat, hi: nat) {
    (end.Some? ==> IsEnd(end.value)) && (until.Some? ==> !(lo <= until.value < hi))
  }

  lemma ReadsSimple(code: Code, pc: nat, op: Op, end: Option<Op>, until: Option<nat>, stack: Build, pushed: nat)
    requires pc < |code| && code[pc] == Ins(op) && !IsControl(op)
    requires until != Some(pc) && end != Some(op)
    ensures Read(code, pc, end, until, stack, pushed) ==
            match ReadSimple(code, pc, op, stack)
            case Bad => Bad
            case Good(p, st) => Read(code, p, end, until, st, if IsGoalOp(op) then pushed + 1 else pushed)
  {
    hide ReadSimple, ReadControl, Finish;
  }

  lemma ReadsControl(code: Code, pc: nat, op: Op, end: Option<Op>, until: Option<nat>, stack: Build, pushed: nat)
    requires pc < |code| && code[pc] == Ins(op) && IsControl(op)
    requires until != Some(pc) && end != Some(op)
    ensures Read(code, pc, end, until, stack, pushed) ==
            match ReadControl(code, pc, op, stack)
            case Bad => Bad
            case Good(p, st) => Read(code, p, end, until, st, pushed + 1)
  {
    hide ReadSimple, ReadControl, Finish;
  }

  lemma ReadsUntil(code: Code, pc: nat, end: Option<Op>, stack: Build, pushed: nat)
    ensures Read(code, pc, end, Some(pc), stack, pushed) == Finish(pc, stack, pushed)
  {
    hide Finish;
  }

  lemma ReadsEnd(code: Code, pc: nat, op: Op, stack: Build, pushed: nat)
    requires pc < |code| && code[pc] == Ins(op)
    ensures Read(code, pc, Some(op), None, stack, pushed) == Finish(pc, stack, pushed)
  {
    hide Finish;
  }

  // ----- arguments -----

  /** Decompiled variables stand for themselves. */
  const Same: nat -> Term := (i: nat) => Var(i)

  lemma {:induction false} SameTerm(t: Term)
    ensures Subst(t, Same) == t
    decreases t, 1
  {
    if t.Cmp? { SameTerms(t.args); }
  }

  lemma {:induction false} SameTerms(ts: seq<Term>)
    ensures SubstAll(ts, Same) == ts
    decreases ts, 0
  {
    if ts != [] {
      SameTerm(ts[0]);
      SameTerms(ts[1..]);
    }
  }

  lemma FetchOne(code: Code, pc: nat, part: Code)
    requires At(code, pc, part) && part != []
    ensures pc < |code| && code[pc] == part[0] && (|part| > 1 ==> pc + 1 < |code| && code[pc + 1] == part[1])
    ensures |part| > 2 ==> pc + 2 < |code| && code[pc + 2] == part[2]
  {
    AtCell(code, pc, part, 0);
    if |part| > 1 { AtCell(code, pc, part, 1); }
    if |part| > 2 { AtCell(code, pc, part, 2); }
  }

  lemma ReadsVar(code: Code, cl: Clause, i: nat, inArg: bool, used: set<nat>, pc: nat, end: Option<Op>,
        until: Option<nat>, stack: Build, pushed: nat)
    requires var part := GenVar(cl, i, inArg, used); At(code, pc, part) && Passes(end, until, pc, pc + |part|)
    ensures Read(code, pc, end, until, stack, pushed) ==
            Read(code, pc + |GenVar(cl, i, inArg, used)|, end, until, Add(stack, Var(i)), pushed)
  {
    hide At, Read, Add;
    var part := GenVar(cl, i, inArg, used);
    FetchOne(code, pc, part);
    ReadsSimple(code, pc, part[0].op, end, until, stack, pushed);
  }

  lemma ReadsConstant(code: Code, cl: Clause, t: Term, used: set<nat>, pc: nat, end: Option<Op>, until: Option<nat>,
        stack: Build, pushed: nat)
    requires !t.Var? && !t.Cmp?
    requires var part := GenArg(cl, t, false, false, used); At(code, pc, part) && Passes(end, until, pc, pc + |part|)
    ensures Read(code, pc, end, until, stack, pushed) ==
            Read(code, pc + |GenArg(cl, t, false, false, used)|, end, until, Add(stack, t), pushed)
  {
    hide At, Read, Add;
    var part := GenArg(cl, t, false, false, used);
    FetchOne(code, pc, part);
    ReadsSimple(code, pc, part[0].op, end, until, stack, pushed);
  }

  lemma ReadsOpen(code: Code, f: Functor, right: bool, pc: nat, end: Option<Op>, until: Option<nat>, stack: Build,
        pushed: nat)
    requires var part := GenFunctor(f, right); At(code, pc, part) && Passes(end, until, pc, pc + |part|)
    ensures Read(code, pc, end, until, stack, pushed) ==
            Read(code, pc + |GenFunctor(f, right)|, end, until, Open(stack, f, right), pushed)
  {
    hide At, Read, Open;
    var part := GenFunctor(f, right);
    FetchOne(code, pc, part);
    ReadsSimple(code, pc, part[0].op, end, until, stack, pushed);
  }

  lemma ReadsPop(code: Code, pc: nat, end: Option<Op>, until: Option<nat>, stack: Build, pushed: nat)
    requires At(code, pc, [Ins(B_POP)]) && Passes(end, until, pc, pc + 1) && Close(stack).Some?
    ensures Read(code, pc, end, until, stack, pushed) == Read(code, pc + 1, end, until, Close(stack).value, pushed)
  {
    hide At, Read, Close;
    FetchOne(code, pc, [Ins(B_POP)]);
    ReadsSimple(code, pc, B_POP, end, until, stack, pushed);
  }

  /** What an argument adds to the stack. */
  function ArgOn(stack: Build, t: Term, right: bool): Build {
    if right then RightBuild(stack, t, Same) else Add(stack, t)
  }

  lemma {:induction false} ReadsArg(code: Code, cl: Clause, t: Term, inArg: bool, right: bool, used: set<nat>, pc: nat,
                                    end: Option<Op>, until: Option<nat>, stack: Build, pushed: nat)
    requires ProperTerm(t)
    requires var part := GenArg(cl, t, inArg, right, used); At(code, pc, part) && Passes(end, until, pc, pc + |part|)
    ensures Read(code, pc, end, until, stack, pushed) ==
            Read(code, pc + |GenArg(cl, t, inArg, right, used)|, end, until, ArgOn(stack, t, right), pushed)
    decreases t, 1
  {
    hide At, Read, Add, Passes, Vars, VarsOf, GenVar, GenSubs, GenFunctor, Subst, SubstAll;
    SameTerm(t);
    if t.Var? {
      ReadsVar(code, cl, t.index, inArg, used, pc, end, until, stack, pushed);
    } else if t.Cmp? {
      ReadsCompound(code, cl, t.fname, t.args, right, used, pc, end, until, stack, pushed);
    } else {
      ReadsConstant(code, cl, t, used, pc, end, until, stack, pushed);
    }
  }

  lemma {:induction false} ReadsCompound(code: Code, cl: Clause, f: Name, ts: seq<Term>, right: bool, used: set<nat>,
        pc: nat,
                                         end: Option<Op>, until: Option<nat>, stack: Build, pushed: nat)
    requires ts != [] && ProperTerms(ts)
    requires var part := GenArg(cl, Cmp(f, ts), true, right, used);
             At(code, pc, part) && Passes(end, until, pc, pc + |part|)
    ensures Read(code, pc, end, until, stack, pushed) ==
            Read(code, pc + |GenArg(cl, Cmp(f, ts), true, right, used)|, end, until, ArgOn(stack, Cmp(f, ts), right),
                pushed)
    decreases ts, 3
  {
    hide At, Read, Add, Close, RightBuilds, GenSubs, GenFunctor;
    var fn := Functor(f, |ts|);
    var head, subs := GenFunctor(fn, right), GenSubs(cl, ts, used);
    var pop: Code := if right then [] else [Ins(B_POP)];
    AtSplit(code, pc, head + subs, pop);
    AtSplit(code, pc, head, subs);
    ReadsOpen(code, fn, right, pc, end, until, stack, pushed);
    ReadsSubs(code, cl, ts, used, pc + |head|, end, until, Open(stack, fn, right), pushed);
    if !right {
      CloseRights(stack, fn, false, [], ts, Same);
      SameTerms(ts);
      assert [] + ts == ts;
      ReadsPop(code, pc + |head| + |subs|, end, until, RightBuilds(Open(stack, fn, right), ts, Same), pushed);
    }
  }

  lemma {:induction false} ReadsSubs(code: Code, cl: Clause, ts: seq<Term>, used: set<nat>, pc: nat,
                                     end: Option<Op>, until: Option<nat>, stack: Build, pushed: nat)
    requires ts != [] && ProperTerms(ts)
    requires var part := GenSubs(cl, ts, used); At(code, pc, part) && Passes(end, until, pc, pc + |part|)
    ensures Read(code, pc, end, until, stack, pushed) ==
            Read(code, pc + |GenSubs(cl, ts, used)|, end, until, RightBuilds(stack, ts, Same), pushed)
    decreases ts, 2
  {
    hide At, Read, Add, GenArg;
    var last := |ts| == 1;
    var arg, rest := GenArg(cl, ts[0], true, last, used), GenSubs(cl, ts[1..], used + Vars(ts[0]));
    AtSplit(code, pc, arg, rest);
    ReadsArg(code, cl, ts[0], true, last, used, pc, end, until, stack, pushed);
    SameTerm(ts[0]);
    if last {
      assert ts[1..] == [];
      assert arg + rest == arg;
    } else {
      ReadsSubs(code, cl, ts[1..], used + Vars(ts[0]), pc + |arg|, end, until, Add(stack, ts[0]), pushed);
    }
  }

  lemma {:induction false} ReadsArgs(code: Code, cl: Clause, ts: seq<Term>, used: set<nat>, pc: nat,
                                     end: Option<Op>, until: Option<nat>, done: seq<Term>, pushed: nat)
    requires ProperTerms(ts)
    requires var part := GenArgs(cl, ts, used); At(code, pc, part) && Passes(end, until, pc, pc + |part|)
    ensures Read(code, pc, end, until, Build(done, []), pushed) ==
            Read(code, pc + |GenArgs(cl, ts, used)|, end, until, Build(done + ts, []), pushed)
    decreases ts
  {
    hide At, Read, GenArg;
    if ts == [] {
      assert done + ts == done;
    } else {
      var arg, rest := GenArg(cl, ts[0], false, false, used), GenArgs(cl, ts[1..], used + Vars(ts[0]));
      AtSplit(code, pc, arg, rest);
      ReadsArg(code, cl, ts[0], false, false, used, pc, end, until, Build(done, []), pushed);
      ReadsArgs(code, cl, ts[1..], used + Vars(ts[0]), pc + |arg|, end, until, done + [ts[0]], pushed);
      assert done + [ts[0]] + ts[1..] == done + ts;
    }
  }

  // ----- goals and skipped code -----

  lemma ReadsCall(code: Code, cl: Clause, f: Name, ts: seq<Term>, depart: bool, used: set<nat>, pc: nat,
                  end: Option<Op>, until: Option<nat>, done: seq<Term>, pushed: nat)
    requires ProperTerms(ts)
    requires var part := GenArgs(cl, ts, used) + [Ins(if depart then I_DEPART else I_CALL), Fun(Functor(f, |ts|))];
             At(code, pc, part) && Passes(end, until, pc, pc + |part|)
    ensures Read(code, pc, end, until, Build(done, []), pushed) ==
            Read(code, pc + |GenArgs(cl, ts, used)| + 2, end, until, Build(done + [ToTerm(Goal(f, ts))], []), pushed
                + 1)
  {
    hide At, Read, GenArgs, BuildTerm;
    var op, args := if depart then I_DEPART else I_CALL, GenArgs(cl, ts, used);
    AtSplit(code, pc, args, [Ins(op), Fun(Functor(f, |ts|))]);
    ReadsArgs(code, cl, ts, used, pc, end, until, done, pushed);
    FetchOne(code, pc + |args|, [Ins(op), Fun(Functor(f, |ts|))]);
    Pack(done, ts, f);
    ReadsSimple(code, pc + |args|, op, end, until, Build(done + ts, []), pushed);
  }

  lemma ReadsTest(code: Code, f: Name, i: nat, pc: nat, end: Option<Op>, until: Option<nat>, done: seq<Term>,
        pushed: nat)
    requires f.Type? && At(code, pc, [Ins(I_TYPE(f.test)), Num(i)]) && Passes(end, until, pc, pc + 2)
    ensures Read(code, pc, end, until, Build(done, []), pushed) ==
            Read(code, pc + 2, end, until, Build(done + [Cmp(f, [Var(i)])], []), pushed + 1)
  {
    hide At, Read, BuildTerm;
    FetchOne(code, pc, [Ins(I_TYPE(f.test)), Num(i)]);
    Pack(done, [Var(i)], f);
    ReadsSimple(code, pc, I_TYPE(f.test), end, until, Build(done, []), pushed);
  }

  /** L_NOLCO is followed by exactly the block it jumps over. */
  lemma ReadsDepart(code: Code, cl: Clause, f: Name, ts: seq<Term>, used: set<nat>, pc: nat,
                    end: Option<Op>, until: Option<nat>, done: seq<Term>, pushed: nat)
    requires ProperTerms(ts)
    requires var part := GenDepart(cl, GenArgs(cl, ts, used), Functor(f, |ts|));
             At(code, pc, part) && Passes(end, until, pc, pc + |part|)
    ensures Read(code, pc, end, until, Build(done, []), pushed) ==
            Read(code, pc + |GenDepart(cl, GenArgs(cl, ts, used), Functor(f, |ts|))|, end, until,
                 Build(done + [ToTerm(Goal(f, ts))], []), pushed + 1)
  {
    hide At, Read, GenArgs, LcoMoves, TailCall, ToTerm;
    var args, fn := GenArgs(cl, ts, used), Functor(f, |ts|);
    var plain := args + [Ins(I_DEPART), Fun(fn)];
    var moves := LcoMoves(args, 0);
    if moves.None? {
      ReadsCall(code, cl, f, ts, true, used, pc, end, until, done, pushed);
    } else {
      var block := moves.value + TailCall(cl, fn);
      var head := [Ins(L_NOLCO), Num(|block|)];
      AtSplit(code, pc, head + block, plain);
      AtSplit(code, pc, head, block);
      FetchOne(code, pc, head);
      ReadsSimple(code, pc, L_NOLCO, end, until, Build(done, []), pushed);
      ReadsCall(code, cl, f, ts, true, used, pc + 2 + |block|, end, until, done, pushed);
    }
  }

  lemma ReadsGoal(code: Code, cl: Clause, f: Name, ts: seq<Term>, depart: bool, used: set<nat>, pc: nat,
                  end: Option<Op>, until: Option<nat>, done: seq<Term>, pushed: nat)
    requires ProperTerms(ts)
    requires var part := GenGoal(cl, f, ts, depart, used); At(code, pc, part) && Passes(end, until, pc, pc + |part|)
    ensures Read(code, pc, end, until, Build(done, []), pushed) ==
            Read(code, pc + |GenGoal(cl, f, ts, depart, used)|, end, until, Build(done + [ToTerm(Goal(f, ts))], []),
                pushed + 1)
  {
    hide At, Read, GenArgs, GenDepart;
    if f.Type? && |ts| == 1 && ts[0].Var? && ts[0].index in used {
      assert ts == [Var(ts[0].index)];
      ReadsTest(code, f, ts[0].index, pc, end, until, done, pushed);
    } else if depart {
      ReadsDepart(code, cl, f, ts, used, pc, end, until, done, pushed);
    } else {
      ReadsCall(code, cl, f, ts, false, used, pc, end, until, done, pushed);
    }
  }

  lemma ReadsFlush(code: Code, at: nat, count: nat, pc: nat, end: Option<Op>, until: Option<nat>, stack: Build,
        pushed: nat)
    requires At(code, pc, Flush(at, count)) && Passes(end, until, pc, pc + |Flush(at, count)|)
    ensures Read(code, pc, end, until, stack, pushed) == Read(code, pc + |Flush(at, count)|, end, until, stack, pushed)
  {
    hide At, Read;
    if count > 0 {
      FetchOne(code, pc, Flush(at, count));
      ReadsSimple(code, pc, if count == 1 then C_VAR else C_VAR_N, end, until, stack, pushed);
    }
  }

  /** Balancing code is skipped. */
  lemma {:induction false} ReadsBalanceFrom(code: Code, m: set<nat>, i: nat, bits: nat, at: nat, count: nat, pc: nat,
                                            end: Option<Op>, until: Option<nat>, stack: Build, pushed: nat)
    requires i <= bits
    requires var part := BalanceFrom(m, i, bits, at, count); At(code, pc, part) && Passes(end, until, pc, pc + |part|)
    ensures Read(code, pc, end, until, stack, pushed) ==
            Read(code, pc + |BalanceFrom(m, i, bits, at, count)|, end, until, stack, pushed)
    decreases bits - i
  {
    hide At, Read, Flush;
    if i == bits {
      ReadsFlush(code, at, count, pc, end, until, stack, pushed);
    } else if i !in m {
      ReadsBalanceFrom(code, m, i + 1, bits, at, count, pc, end, until, stack, pushed);
    } else if count == 0 {
      ReadsBalanceFrom(code, m, i + 1, bits, i, 1, pc, end, until, stack, pushed);
    } else if i == at + 1 {
      ReadsBalanceFrom(code, m, i + 1, bits, at, count + 1, pc, end, until, stack, pushed);
    } else {
      AtSplit(code, pc, Flush(at, count), BalanceFrom(m, i + 1, bits, i, 1));
      ReadsFlush(code, at, count, pc, end, until, stack, pushed);
      ReadsBalanceFrom(code, m, i + 1, bits, i, 1, pc + |Flush(at, count)|, end, until, stack, pushed);
    }
  }

  lemma ReadsBalance(code: Code, cl: Clause, have: set<nat>, want: set<nat>, pc: nat, end: Option<Op>,
        until: Option<nat>, stack: Build, pushed: nat)
    requires var part := Balance(cl, have, want); At(code, pc, part) && Passes(end, until, pc, pc + |part|)
    ensures Read(code, pc, end, until, stack, pushed) ==
            Read(code, pc + |Balance(cl, have, want)|, end, until, stack, pushed)
  {
    hide At, Read, BalanceFrom;
    ReadsBalanceFrom(code, want - have, 0, cl.bits, 0, 0, pc, end, until, stack, pushed);
  }

  lemma ReadsJump(code: Code, n: int, pc: nat, end: Option<Op>, until: Option<nat>, stack: Build, pushed: nat)
    requires At(code, pc, CodeGen.Jump(n)) && Passes(end, until, pc, pc + 2)
    ensures Read(code, pc, end, until, stack, pushed) == Read(code, pc + 2, end, until, stack, pushed)
  {
    hide At, Read;
    FetchOne(code, pc, CodeGen.Jump(n));
    ReadsSimple(code, pc, C_JMP, end, until, stack, pushed);
  }

  // ----- bodies -----

  /** `!` is compiled to an instruction the decompiler knows as a cut. */
  predicate KnownCut(cut: CutInfo) {
    cut.LocalCut? ==> cut.op.C_LCUT? || cut.op.C_LSCUT? || cut.op.C_LCUTIFTHEN?
  }

  function GoalTerms(b: Body): seq<Term> {
    TermsOf(Flat(b))
  }

  /** Reading the code of `b` pushes the goals of `b`. */
  ghost predicate Reads(code: Code, cl: Clause, b: Body, depart: bool, cut: CutInfo, used: set<nat>, slots: nat,
        pc: nat,
                        end: Option<Op>, until: Option<nat>, done: seq<Term>, pushed: nat) {
    Read(code, pc, end, until, Build(done, []), pushed) ==
    Read(code, pc + |Gen(cl, b, depart, cut, used, slots)|, end, until, Build(done + GoalTerms(b), []), pushed
        + |Flat(b)|)
  }

  ghost predicate Ready(code: Code, cl: Clause, b: Body, depart: bool, cut: CutInfo, used: set<nat>, slots: nat,
        pc: nat,
                        end: Option<Op>, until: Option<nat>) {
    && ProperBody(b) && KnownCut(cut) && At(code, pc, Gen(cl, b, depart, cut, used, slots))
    && Passes(end, until, pc, pc + |Gen(cl, b, depart, cut, used, slots)|)
  }

  lemma {:induction false} ReadsBody(code: Code, cl: Clause, b: Body, depart: bool, cut: CutInfo, used: set<nat>,
        slots: nat, pc: nat,
                                     end: Option<Op>, until: Option<nat>, done: seq<Term>, pushed: nat)
    requires Ready(code, cl, b, depart, cut, used, slots, pc, end, until)
    ensures Reads(code, cl, b, depart, cut, used, slots, pc, end, until, done, pushed)
    decreases b, 2
  {
    hide *;
    match b {
      case Conj(l, r) => ReadsConj(code, cl, l, r, depart, cut, used, slots, pc, end, until, done, pushed);

      case Disj(IfThen(c, t), e) =>
        IfPartIs(c, t);
        ReadsIfElse(code, cl, true, c, t, e, depart, cut, used, slots, pc, end, until, done, pushed);
      case Disj(SoftIfThen(c, t), e) =>
        IfPartIs(c, t);
        ReadsIfElse(code, cl, false, c, t, e, depart, cut, used, slots, pc, end, until, done, pushed);
      case Disj(l, r) => ReadsOr(code, cl, l, r, depart, cut, used, slots, pc, end, until, done, pushed);
      case IfThen(c, t) =>
        IfPartIs(c, t);
        ReadsIfThen(code, cl, true, c, t, depart, cut, used, slots, pc, end, until, done, pushed);
      case SoftIfThen(c, t) =>
        IfPartIs(c, t);
        ReadsIfThen(code, cl, false, c, t, depart, cut, used, slots, pc, end, until, done, pushed);
      case Not(g) => ReadsNot(code, cl, g, depart, cut, used, slots, pc, end, until, done, pushed);
      case _ => ReadsPlain(code, cl, b, depart, cut, used, slots, pc, end, until, done, pushed);
    }
  }

  lemma ReadsPlain(code: Code, cl: Clause, b: Body, depart: bool, cut: CutInfo, used: set<nat>, slots: nat, pc: nat,
                   end: Option<Op>, until: Option<nat>, done: seq<Term>, pushed: nat)
    requires Ready(code, cl, b, depart, cut, used, slots, pc, end, until) && (b.Goal? || b.True? || b.Fail? || b.Cut?)
    ensures Reads(code, cl, b, depart, cut, used, slots, pc, end, until, done, pushed)
  {
    hide At, Read, GenGoal, ProperTerms, TermsOf, ReadGoal, NumIn;
    if b.Goal? {
      assert Flat(b) == [b];
      OneTerm(b);
      ReadsGoal(code, cl, b.name, b.gargs, depart, used, pc, end, until, done, pushed);
    } else {
      ReadsControlGoal(code, cl, b, depart, cut, used, slots, pc, end, until, done, pushed);
    }
  }

  lemma ReadsControlGoal(code: Code, cl: Clause, b: Body, depart: bool, cut: CutInfo, used: set<nat>, slots: nat,
        pc: nat,
                         end: Option<Op>, until: Option<nat>, done: seq<Term>, pushed: nat)
    requires Ready(code, cl, b, depart, cut, used, slots, pc, end, until) && (b.True? || b.Fail? || b.Cut?)
    ensures Reads(code, cl, b, depart, cut, used, slots, pc, end, until, done, pushed)
  {
    hide *;
    var part := Gen(cl, b, depart, cut, used, slots);
    ReadyParts(code, cl, b, depart, cut, used, slots, pc, end, until);
    ReadyPasses(code, cl, b, depart, cut, used, slots, pc, end, until);
    PlainGoal(code, cl, b, depart, cut, used, slots, pc, done);
    FetchOne(code, pc, part);
    var op := part[0].op;
    PassesFirst(end, until, pc, |part|, op);
    ReadsSimple(code, pc, op, end, until, Build(done, []), pushed);
    GoalReads(code, pc, op, Build(done, []), Build(done + [ToTerm(b)], []));
    ReadsOne(code, cl, b, depart, cut, used, slots, pc, end, until, done, pushed);
  }

  lemma ReadyPasses(code: Code, cl: Clause, b: Body, depart: bool, cut: CutInfo, used: set<nat>, slots: nat, pc: nat,
                    end: Option<Op>, until: Option<nat>)
    requires Ready(code, cl, b, depart, cut, used, slots, pc, end, until)
    ensures Passes(end, until, pc, pc + |Gen(cl, b, depart, cut, used, slots)|)
  {
    hide Gen, Passes;
  }

  lemma GoalReads(code: Code, pc: nat, op: Op, st: Build, st1: Build)
    requires pc < |code| && IsGoalOp(op) && ReadGoal(code, pc, op, st) == Some(st1)
    ensures ReadSimple(code, pc, op, st) == Good(pc + Size(op), st1)
  {
    hide ReadGoal;
  }

  lemma PassesFirst(end: Option<Op>, until: Option<nat>, pc: nat, n: nat, op: Op)
    requires Passes(end, until, pc, pc + n) && n > 0 && IsGoalOp(op)
    ensures until != Some(pc) && end != Some(op) && !IsControl(op)
  {
  }

  lemma ReadsOne(code: Code, cl: Clause, b: Body, depart: bool, cut: CutInfo, used: set<nat>, slots: nat, pc: nat,
                 end: Option<Op>, until: Option<nat>, done: seq<Term>, pushed: nat)
    requires b.True? || b.Fail? || b.Cut?
    requires Read(code, pc, end, until, Build(done, []), pushed) ==
             Read(code, pc + |Gen(cl, b, depart, cut, used, slots)|, end, until, Build(done + [ToTerm(b)], []),
                 pushed + 1)
    ensures Reads(code, cl, b, depart, cut, used, slots, pc, end, until, done, pushed)
  {
    hide Read, Gen, ToTerm;
    OneTerm(b);
  }

  lemma PlainGoal(code: Code, cl: Clause, b: Body, depart: bool, cut: CutInfo, used: set<nat>, slots: nat, pc: nat,
        done: seq<Term>)
    requires (b.True? || b.Fail? || b.Cut?) && KnownCut(cut)
    ensures var part := Gen(cl, b, depart, cut, used, slots);
            && part != [] && part[0].Ins? && IsGoalOp(part[0].op) && |part| == Size(part[0].op)
            && ReadGoal(code, pc, part[0].op, Build(done, [])) == Some(Build(done + [ToTerm(b)], []))
  {
  }

  lemma {:induction false} ReadsConj(code: Code, cl: Clause, l: Body, r: Body, depart: bool, cut: CutInfo,
        used: set<nat>, slots: nat, pc: nat,
                                     end: Option<Op>, until: Option<nat>, done: seq<Term>, pushed: nat)
    requires Ready(code, cl, Conj(l, r), depart, cut, used, slots, pc, end, until)
    ensures Reads(code, cl, Conj(l, r), depart, cut, used, slots, pc, end, until, done, pushed)
    decreases Conj(l, r), 0
  {
    hide *;
    var lc := Gen(cl, l, false, cut, used, slots);
    ConjReady(code, cl, l, r, depart, cut, used, slots, pc, end, until);
    ReadsBody(code, cl, l, false, cut, used, slots, pc, end, until, done, pushed);
    ReadsBody(code, cl, r, depart, cut, used + BodyVars(l), slots + Slots(l), pc + |lc|, end, until,
        done + GoalTerms(l), pushed + |Flat(l)|);
    ConjTerms(l, r, done);
    ReadsBoth(code, cl, l, r, depart, cut, used, slots, pc, end, until, done, pushed);
  }

  lemma ConjReady(code: Code, cl: Clause, l: Body, r: Body, depart: bool, cut: CutInfo, used: set<nat>, slots: nat,
        pc: nat,
                  end: Option<Op>, until: Option<nat>)
    requires Ready(code, cl, Conj(l, r), depart, cut, used, slots, pc, end, until)
    ensures Ready(code, cl, l, false, cut, used, slots, pc, end, until)
    ensures Ready(code, cl, r, depart, cut, used + BodyVars(l), slots + Slots(l),
            pc + |Gen(cl, l, false, cut, used, slots)|, end, until)
    ensures |Gen(cl, Conj(l, r), depart, cut, used, slots)| ==
            |Gen(cl, l, false, cut, used, slots)| + |Gen(cl, r, depart, cut, used + BodyVars(l), slots + Slots(l))|
  {
    hide At, Gen, BodyVars, Slots, KnownCut;
    BodyIs(cl, Conj(l, r), depart, cut, used, slots);
    AtSplit(code, pc, Gen(cl, l, false, cut, used, slots),
        Gen(cl, r, depart, cut, used + BodyVars(l), slots + Slots(l)));
  }

  lemma ConjTerms(l: Body, r: Body, done: seq<Term>)
    ensures done + GoalTerms(l) + GoalTerms(r) == done + GoalTerms(Conj(l, r)) && |Flat(Conj(l, r))| ==
            |Flat(l)| + |Flat(r)|
  {
    TermsOfJoin(Flat(l), Flat(r));
    hide TermsOf;
  }

  lemma ReadsBoth(code: Code, cl: Clause, l: Body, r: Body, depart: bool, cut: CutInfo, used: set<nat>, slots: nat,
        pc: nat,
                  end: Option<Op>, until: Option<nat>, done: seq<Term>, pushed: nat)
    requires Reads(code, cl, l, false, cut, used, slots, pc, end, until, done, pushed)
    requires var p := pc + |Gen(cl, l, false, cut, used, slots)|;
             && Reads(code, cl, r, depart, cut, used + BodyVars(l), slots + Slots(l), p, end, until,
                 done + GoalTerms(l), pushed + |Flat(l)|)
             && pc + |Gen(cl, Conj(l, r), depart, cut, used, slots)| ==
                 p + |Gen(cl, r, depart, cut, used + BodyVars(l), slots + Slots(l))|
    requires done + GoalTerms(l) + GoalTerms(r) == done + GoalTerms(Conj(l, r)) && |Flat(Conj(l, r))| ==
             |Flat(l)| + |Flat(r)|
    ensures Reads(code, cl, Conj(l, r), depart, cut, used, slots, pc, end, until, done, pushed)
  {
    hide Read, Gen, Flat, GoalTerms, BodyVars, Slots;
  }

  /** A part read by a nested call: its goals are joined when the call returns. */
  lemma Joined(done: seq<Term>, b: Body, pc: nat)
    ensures Finish(pc, Build(done + GoalTerms(b), []), |Flat(b)|) ==
            Good(pc, Build(done + [ToTerm(RightNested(b))], []))
  {
    hide JoinGoals, Flat;
    JoinGoalsIs(done, GoalTerms(b));
    ConjoinedTerm(Flat(b));
  }

  /** A nested call that ends at an instruction right after the code of `b`. */
  lemma {:induction false} PartToEnd(code: Code, cl: Clause, b: Body, depart: bool, cut: CutInfo, used: set<nat>,
        slots: nat, pc: nat, op: Op, done: seq<Term>)
    requires Ready(code, cl, b, depart, cut, used, slots, pc, Some(op), None)
    requires var p := pc + |Gen(cl, b, depart, cut, used, slots)|; p < |code| && code[p] == Ins(op)
    ensures Read(code, pc, Some(op), None, Build(done, []), 0) ==
            Good(pc + |Gen(cl, b, depart, cut, used, slots)|, Build(done + [ToTerm(RightNested(b))], []))
    decreases b, 3
  {
    hide At, Read, Gen, Finish, GoalTerms, Flat, KnownCut, ProperBody, Passes, ToTerm, RightNested;
    ReadsBody(code, cl, b, depart, cut, used, slots, pc, Some(op), None, done, 0);
    var p := pc + |Gen(cl, b, depart, cut, used, slots)|;
    ReadsEnd(code, p, op, Build(done + GoalTerms(b), []), |Flat(b)|);
    Joined(done, b, p);
  }

  /** A nested call that ends at a position behind the code of `b` and balancing code. */
  lemma {:induction false} PartToBalance(code: Code, cl: Clause, b: Body, depart: bool, cut: CutInfo, used: set<nat>,
        slots: nat, pc: nat,
                                         have: set<nat>, want: set<nat>, done: seq<Term>)
    requires ProperBody(b) && KnownCut(cut) && At(code, pc, Gen(cl, b, depart, cut, used, slots))
    requires At(code, pc + |Gen(cl, b, depart, cut, used, slots)|, Balance(cl, have, want))
    ensures var p := pc + |Gen(cl, b, depart, cut, used, slots)| + |Balance(cl, have, want)|;
            Read(code, pc, None, Some(p), Build(done, []), 0) == Good(p, Build(done + [ToTerm(RightNested(b))], []))
    decreases b, 3
  {
    hide At, Read, Gen, Finish, GoalTerms, Flat, KnownCut, ProperBody, Balance, ToTerm, RightNested;
    var p1 := pc + |Gen(cl, b, depart, cut, used, slots)|;
    var p := p1 + |Balance(cl, have, want)|;
    ReadsBody(code, cl, b, depart, cut, used, slots, pc, None, Some(p), done, 0);
    ReadsBalance(code, cl, have, want, p1, None, Some(p), Build(done + GoalTerms(b), []), |Flat(b)|);
    ReadsUntil(code, p, None, Build(done + GoalTerms(b), []), |Flat(b)|);
    Joined(done, b, p);
  }

  /** The same with a jump behind the balancing code. */
  lemma {:induction false} PartToJump(code: Code, cl: Clause, b: Body, depart: bool, cut: CutInfo, used: set<nat>,
        slots: nat, pc: nat,
                                      have: set<nat>, want: set<nat>, n: int, done: seq<Term>)
    requires ProperBody(b) && KnownCut(cut) && At(code, pc, Gen(cl, b, depart, cut, used, slots))
    requires At(code, pc + |Gen(cl, b, depart, cut, used, slots)|, Balance(cl, have, want) + CodeGen.Jump(n))
    ensures var p := pc + |Gen(cl, b, depart, cut, used, slots)| + |Balance(cl, have, want)| + 2;
            Read(code, pc, None, Some(p), Build(done, []), 0) == Good(p, Build(done + [ToTerm(RightNested(b))], []))
    decreases b, 3
  {
    hide At, Read, Gen, Finish, GoalTerms, Flat, KnownCut, ProperBody, Balance, ToTerm, RightNested;
    var p1 := pc + |Gen(cl, b, depart, cut, used, slots)|;
    var bal := Balance(cl, have, want);
    AtSplit(code, p1, bal, CodeGen.Jump(n));
    var p := p1 + |bal| + 2;
    var st := Build(done + GoalTerms(b), []);
    ReadsBody(code, cl, b, depart, cut, used, slots, pc, None, Some(p), done, 0);
    ReadsBalance(code, cl, have, want, p1, None, Some(p), st, |Flat(b)|);
    ReadsJump(code, n, p1 + |bal|, None, Some(p), st, |Flat(b)|);
    ReadsUntil(code, p, None, st, |Flat(b)|);
    Joined(done, b, p);
  }

  /** A control construct that is read in one go. */
  lemma Constructed(code: Code, cl: Clause, b: Body, norm: Body, depart: bool, cut: CutInfo, used: set<nat>,
        slots: nat, pc: nat,
                    end: Option<Op>, until: Option<nat>, done: seq<Term>, pushed: nat, op: Op)
    requires Ready(code, cl, b, depart, cut, used, slots, pc, end, until) && Flat(b) == [norm]
    requires pc < |code| && code[pc] == Ins(op) && IsControl(op)
    requires ReadControl(code, pc, op, Build(done, [])) ==
             Good(pc + |Gen(cl, b, depart, cut, used, slots)|, Build(done + [ToTerm(norm)], []))
    ensures Reads(code, cl, b, depart, cut, used, slots, pc, end, until, done, pushed)
  {
    hide At, Read, ReadControl, Flat, ProperBody, KnownCut, ToTerm, Gen, IsControl, IsEnd, TermsOf;
    OneTerm(norm);
    ControlIsNoEnd(op);
    ReadControlForward(code, pc, op, Build(done, []));
    ReadsControl(code, pc, op, end, until, Build(done, []), pushed);
  }

  lemma OneTerm(b: Body)
    ensures TermsOf([b]) == [ToTerm(b)]
  {
  }

  lemma ControlIsNoEnd(op: Op)
    requires IsControl(op)
    ensures !IsEnd(op)
  {
  }

  lemma ReadControlForward(code: Code, pc: nat, op: Op, stack: Build)
    requires pc < |code| && IsControl(op)
    ensures ReadControl(code, pc, op, stack).Good? ==> ReadControl(code, pc, op, stack).pc > pc
  {
  }

  lemma {:induction false} ReadsOr(code: Code, cl: Clause, l: Body, r: Body, depart: bool, cut: CutInfo,
        used: set<nat>, slots: nat, pc: nat,
                                   end: Option<Op>, until: Option<nat>, done: seq<Term>, pushed: nat)
    requires Ready(code, cl, Disj(l, r), depart, cut, used, slots, pc, end, until) && !l.IfThen? && !l.SoftIfThen?
    ensures Reads(code, cl, Disj(l, r), depart, cut, used, slots, pc, end, until, done, pushed)
    decreases Disj(l, r), 0
  {
    hide *;
    var have1, have2 := used + BodyVars(l), used + BodyVars(r);
    var lc, bal1 := Gen(cl, l, false, cut, used, slots), Balance(cl, have1, have2);
    var rc, bal2 := Gen(cl, r, depart, cut, used, slots + Slots(l)), Balance(cl, have2, have1);
    OrFacts(cl, l, r, depart, cut, used, slots);
    ReadyParts(code, cl, Disj(l, r), depart, cut, used, slots, pc, end, until);
    OrAt(code, pc, lc, bal1, rc, bal2);
    var pr := pc + 2 + |lc| + |bal1| + 2;
    OrHeads(code, pc, lc, bal1, rc, bal2);
    PartToJump(code, cl, l, false, cut, used, slots, pc + 2, have1, have2, |rc| + |bal2|, done);
    var done1 := done + [ToTerm(RightNested(l))];
    PartToBalance(code, cl, r, depart, cut, used, slots + Slots(l), pr, have2, have1, done1);
    OrRead(code, pc, pr, pr + |rc| + |bal2|, done, l, r);
    Constructed(code, cl, Disj(l, r), Disj(RightNested(l), RightNested(r)), depart, cut, used, slots, pc, end, until,
        done, pushed, C_OR);
  }

  lemma OrFacts(cl: Clause, l: Body, r: Body, depart: bool, cut: CutInfo, used: set<nat>, slots: nat)
    requires !l.IfThen? && !l.SoftIfThen?
    ensures Gen(cl, Disj(l, r), depart, cut, used, slots) ==
            OrCode(Gen(cl, l, false, cut, used, slots), Balance(cl, used + BodyVars(l), used + BodyVars(r)),
                   Gen(cl, r, depart, cut, used, slots + Slots(l)), Balance(cl, used + BodyVars(r), used + BodyVars(l)))
    ensures ProperBody(Disj(l, r)) ==> ProperBody(l) && ProperBody(r)
    ensures Flat(Disj(l, r)) == [Disj(RightNested(l), RightNested(r))]
  {
    BodyIs(cl, Disj(l, r), depart, cut, used, slots);
    OrIs(cl, l, r, depart, cut, used, slots);
    hide Gen, GenOr, OrCode, Balance, BodyVars, Slots, RightNested;
  }

  lemma LocalIsKnown(v: nat)
    ensures KnownCut(LocalCut(C_LCUT, v)) && KnownCut(LocalCut(C_LSCUT, v)) && KnownCut(LocalCut(C_LCUTIFTHEN, v))
  {
  }

  lemma IfPartIs(c: Body, t: Body)
    ensures IfPart(true, c, t) == IfThen(c, t) && IfPart(false, c, t) == SoftIfThen(c, t)
  {
  }

  lemma ReadyParts(code: Code, cl: Clause, b: Body, depart: bool, cut: CutInfo, used: set<nat>, slots: nat, pc: nat,
                   end: Option<Op>, until: Option<nat>)
    requires Ready(code, cl, b, depart, cut, used, slots, pc, end, until)
    ensures ProperBody(b) && KnownCut(cut) && At(code, pc, Gen(cl, b, depart, cut, used, slots))
  {
  }

  lemma OrHeads(code: Code, pc: nat, lc: Code, bal1: Code, rc: Code, bal2: Code)
    requires At(code, pc, [Ins(C_OR), Num(|lc| + |bal1| + 2)])
    requires At(code, pc + 2 + |lc|, bal1 + CodeGen.Jump(|rc| + |bal2|))
    ensures pc < |code| && code[pc] == Ins(C_OR) && IsControl(C_OR) && NumIn(code, pc + 1) == Some(|lc| + |bal1| + 2)
    ensures NumIn(code, pc + 2 + |lc| + |bal1| + 1) == Some(|rc| + |bal2|)
    ensures |OrCode(lc, bal1, rc, bal2)| == 4 + |lc| + |bal1| + |rc| + |bal2|
  {
    FetchOne(code, pc, [Ins(C_OR), Num(|lc| + |bal1| + 2)]);
    AtSplit(code, pc + 2 + |lc|, bal1, CodeGen.Jump(|rc| + |bal2|));
    FetchOne(code, pc + 2 + |lc| + |bal1|, CodeGen.Jump(|rc| + |bal2|));
  }

  lemma OrRead(code: Code, pc: nat, pr: nat, pe: nat, done: seq<Term>, l: Body, r: Body)
    requires pc < |code| && pc + 2 <= pr <= pe && NumIn(code, pc + 1) == Some(pr - pc - 2) && NumIn(code, pr - 1) ==
             Some(pe - pr)
    requires Read(code, pc + 2, None, Some(pr), Build(done, []), 0) ==
             Good(pr, Build(done + [ToTerm(RightNested(l))], []))
    requires var done1 := done + [ToTerm(RightNested(l))];
             Read(code, pr, None, Some(pe), Build(done1, []), 0) ==
                 Good(pe, Build(done1 + [ToTerm(RightNested(r))], []))
    ensures ReadControl(code, pc, C_OR, Build(done, [])) ==
            Good(pe, Build(done + [ToTerm(Disj(RightNested(l), RightNested(r)))], []))
  {
    hide Read, NumIn, RightNested, BuildTerm;
    var x, y := ToTerm(RightNested(l)), ToTerm(RightNested(r));
    PackTwo(done, x, y, Semicolon);
    assert done + [x] + [y] == done + [x, y];
    var st, st1 := Build(done, []), Build(done + [x], []);
    assert ToJump(code, pc + 2, st) == Read(code, pc + 2, None, Some(pr), st, 0);
    assert ToJump(code, pr, st1) == Read(code, pr, None, Some(pe), st1, 0);
    assert ReadOr(code, pc, st) == BuildAt(ToJump(code, pr, st1), 0, Functor(Semicolon, 2));
    assert ReadControl(code, pc, C_OR, st) == ReadOr(code, pc, st);
  }

  lemma {:induction false} ReadsIfElse(code: Code, cl: Clause, hard: bool, c: Body, t: Body, e: Body, depart: bool,
        cut: CutInfo, used: set<nat>, slots: nat,
                                       pc: nat, end: Option<Op>, until: Option<nat>, done: seq<Term>, pushed: nat)
    requires Ready(code, cl, Disj(IfPart(hard, c, t), e), depart, cut, used, slots, pc, end, until)
    ensures Reads(code, cl, Disj(IfPart(hard, c, t), e), depart, cut, used, slots, pc, end, until, done, pushed)
    decreases Disj(IfPart(hard, c, t), e), 0
  {
    hide *;
    var b := Disj(IfPart(hard, c, t), e);
    var have1, have2, local := used + (BodyVars(c) + BodyVars(t)), used + BodyVars(e),
        LocalCut(if hard then C_LCUT else C_LSCUT, slots);
    var cc := Gen(cl, c, false, local, used, slots + 1);
    var tc, bal1 := Gen(cl, t, depart, cut, used + BodyVars(c), slots + 1 + Slots(c)), Balance(cl, have1, have2);
    var ec, bal2 := Gen(cl, e, depart, cut, used, slots + 1 + Slots(c) + Slots(t)), Balance(cl, have2, have1);
    IfPartFacts(cl, hard, c, t, e, depart, cut, used, slots);
    IfIs(cl, hard, c, t, e, depart, cut, used, slots);
    LocalIsKnown(slots);
    ReadyParts(code, cl, b, depart, cut, used, slots, pc, end, until);
    var op, com := IfOp(hard, cc), CommitOp(hard, cc);
    IfAt(code, pc, op, com, slots, cc, tc, bal1, ec, bal2);
    var p1 := pc + 3 + |cc|;
    var pe := p1 + 2 + |tc| + |bal1| + 2;
    IfHeads(code, hard, pc, slots, cc, tc, bal1, ec, bal2);
    EndReady(code, cl, c, false, local, used, slots + 1, pc + 3, com);
    PartToEnd(code, cl, c, false, local, used, slots + 1, pc + 3, com, done);
    var done1 := done + [ToTerm(RightNested(c))];
    PartToJump(code, cl, t, depart, cut, used + BodyVars(c), slots + 1 + Slots(c), p1 + 2, have1, have2,
        |ec| + |bal2|, done1);
    var done2 := done + [ToTerm(IfPart(hard, RightNested(c), RightNested(t)))];
    PartToBalance(code, cl, e, depart, cut, used, slots + 1 + Slots(c) + Slots(t), pe, have2, have1, done2);
    ElseRead(code, hard, op, pc, p1, pe, pe + |ec| + |bal2|, done, c, t, e);
    Constructed(code, cl, b, Disj(IfPart(hard, RightNested(c), RightNested(t)), RightNested(e)), depart, cut, used,
        slots, pc, end, until, done, pushed, op);
  }

  lemma IfPartFacts(cl: Clause, hard: bool, c: Body, t: Body, e: Body, depart: bool, cut: CutInfo, used: set<nat>,
        slots: nat)
    ensures var b := Disj(IfPart(hard, c, t), e);
            && Gen(cl, b, depart, cut, used, slots) == GenIfThenElse(cl, hard, c, t, e, depart, cut, used, slots)
            && (ProperBody(b) ==> ProperBody(c) && ProperBody(t) && ProperBody(e))
            && Flat(b) == [Disj(IfPart(hard, RightNested(c), RightNested(t)), RightNested(e))]
            && c < b && t < b && e < b
  {
    var l := IfPart(hard, c, t);
    BodyIs(cl, Disj(l, e), depart, cut, used, slots);
    assert RightNested(l) == IfPart(hard, RightNested(c), RightNested(t)) by {
      assert Flat(l) == [IfPart(hard, RightNested(c), RightNested(t))];
    }
    hide Gen, GenIfThenElse, BodyVars, Slots, RightNested;
    assert c < l && t < l && l < Disj(l, e);
  }

  lemma EndReady(code: Code, cl: Clause, b: Body, depart: bool, cut: CutInfo, used: set<nat>, slots: nat, pc: nat,
        op: Op)
    requires ProperBody(b) && KnownCut(cut) && At(code, pc, Gen(cl, b, depart, cut, used, slots)) && IsEnd(op)
    ensures Ready(code, cl, b, depart, cut, used, slots, pc, Some(op), None)
  {
  }

  lemma IfHeads(code: Code, hard: bool, pc: nat, v: nat, cc: Code, tc: Code, bal1: Code, ec: Code, bal2: Code)
    requires At(code, pc, [Ins(IfOp(hard, cc)), Num(v), Num(|cc| + 2 + |tc| + |bal1| + 2)])
    requires At(code, pc + 3 + |cc|, [Ins(CommitOp(hard, cc)), Num(v)])
    requires At(code, pc + 3 + |cc| + 2 + |tc|, bal1 + CodeGen.Jump(|ec| + |bal2|))
    ensures var op, com, p1 := IfOp(hard, cc), CommitOp(hard, cc), pc + 3 + |cc|;
            && pc < |code| && code[pc] == Ins(op) && IsControl(op) && NumIn(code, pc + 2) ==
                Some(|cc| + 2 + |tc| + |bal1| + 2)
            && p1 < |code| && code[p1] == Ins(com) && IsEnd(com)
            && EndOf(op) == (com, Functor(if hard then Arrow else SoftArrow, 2)) && !op.C_OR? && !op.C_NOT?
                && !op.C_IFTHEN? && !op.C_SOFTIFTHEN?
            && NumIn(code, p1 + 2 + |tc| + |bal1| + 1) == Some(|ec| + |bal2|)
  {
    hide At;
    var jump := CodeGen.Jump(|ec| + |bal2|);
    FetchOne(code, pc, [Ins(IfOp(hard, cc)), Num(v), Num(|cc| + 2 + |tc| + |bal1| + 2)]);
    FetchOne(code, pc + 3 + |cc|, [Ins(CommitOp(hard, cc)), Num(v)]);
    AtSplit(code, pc + 3 + |cc| + 2 + |tc|, bal1, jump);
    FetchOne(code, pc + 3 + |cc| + 2 + |tc| + |bal1|, jump);
  }

  lemma ElseRead(code: Code, hard: bool, op: Op, pc: nat, p1: nat, pe: nat, pz: nat, done: seq<Term>, c: Body,
        t: Body, e: Body)
    requires pc < |code| && pc + 3 <= p1 && p1 + 2 <= pe <= pz && IsControl(op)
    requires !op.C_OR? && !op.C_NOT? && !op.C_IFTHEN? && !op.C_SOFTIFTHEN? && EndOf(op).1 ==
             Functor(if hard then Arrow else SoftArrow, 2)
    requires NumIn(code, pc + 2) == Some(pe - pc - 3) && NumIn(code, pe - 1) == Some(pz - pe)
    requires var done1 := done + [ToTerm(RightNested(c))];
             && Read(code, pc + 3, Some(EndOf(op).0), None, Build(done, []), 0) == Good(p1, Build(done1, []))
             && Read(code, p1 + 2, None, Some(pe), Build(done1, []), 0) ==
                 Good(pe, Build(done1 + [ToTerm(RightNested(t))], []))
    requires var done2 := done + [ToTerm(IfPart(hard, RightNested(c), RightNested(t)))];
             Read(code, pe, None, Some(pz), Build(done2, []), 0) ==
                 Good(pz, Build(done2 + [ToTerm(RightNested(e))], []))
    ensures ReadControl(code, pc, op, Build(done, [])) ==
            Good(pz, Build(done + [ToTerm(Disj(IfPart(hard, RightNested(c), RightNested(t)), RightNested(e)))], []))
  {
    hide Read, NumIn, RightNested, BuildTerm, EndOf;
    var x, y, z := ToTerm(RightNested(c)), ToTerm(RightNested(t)), ToTerm(RightNested(e));
    var xy := ToTerm(IfPart(hard, RightNested(c), RightNested(t)));
    PackTwo(done, x, y, if hard then Arrow else SoftArrow);
    assert done + [x] + [y] == done + [x, y];
    PackTwo(done, xy, z, Semicolon);
    assert done + [xy] + [z] == done + [xy, z];
    var st, st2 := Build(done, []), Build(done + [xy], []);
    assert ToJump(code, pe, st2) == Read(code, pe, None, Some(pz), st2, 0);
    assert ReadElse(code, pc, op, st) == BuildAt(ToJump(code, pe, st2), 0, Functor(Semicolon, 2));
    assert ReadControl(code, pc, op, st) == ReadElse(code, pc, op, st);
  }

  lemma {:induction false} ReadsIfThen(code: Code, cl: Clause, hard: bool, c: Body, t: Body, depart: bool,
        cut: CutInfo, used: set<nat>, slots: nat,
                                       pc: nat, end: Option<Op>, until: Option<nat>, done: seq<Term>, pushed: nat)
    requires Ready(code, cl, IfPart(hard, c, t), depart, cut, used, slots, pc, end, until)
    ensures Reads(code, cl, IfPart(hard, c, t), depart, cut, used, slots, pc, end, until, done, pushed)
    decreases IfPart(hard, c, t), 0
  {
    hide *;
    var b, local := IfPart(hard, c, t), LocalCut(C_LCUTIFTHEN, slots);
    var cc := Gen(cl, c, false, local, used, slots + 1);
    var tc := Gen(cl, t, depart, cut, used + BodyVars(c), slots + 1 + Slots(c));
    ThenFacts(cl, hard, c, t, depart, cut, used, slots);
    LocalIsKnown(slots);
    ReadyParts(code, cl, b, depart, cut, used, slots, pc, end, until);
    var op, com := if hard then C_IFTHEN else C_SOFTIFTHEN, if hard then [Ins(C_CUT), Num(slots)] else [Ins(C_SCUT)];
    IfThenAt(code, pc, [Ins(op), Num(slots)], cc, com, tc);
    var p1 := pc + 2 + |cc|;
    var p2 := p1 + |com| + |tc|;
    FetchOne(code, pc, [Ins(op), Num(slots)]);
    FetchOne(code, p1, com);
    FetchOne(code, p2, [Ins(C_END)]);
    ThenOps(hard);
    EndReady(code, cl, c, false, local, used, slots + 1, pc + 2, com[0].op);
    PartToEnd(code, cl, c, false, local, used, slots + 1, pc + 2, com[0].op, done);
    var done1 := done + [ToTerm(RightNested(c))];
    EndReady(code, cl, t, depart, cut, used + BodyVars(c), slots + 1 + Slots(c), p1 + |com|, C_END);
    PartToEnd(code, cl, t, depart, cut, used + BodyVars(c), slots + 1 + Slots(c), p1 + |com|, C_END, done1);
    ThenRead(code, hard, pc, p1, p2, done, c, t);
    Constructed(code, cl, b, IfPart(hard, RightNested(c), RightNested(t)), depart, cut, used, slots, pc, end, until,
        done, pushed, op);
  }

  lemma ThenFacts(cl: Clause, hard: bool, c: Body, t: Body, depart: bool, cut: CutInfo, used: set<nat>, slots: nat)
    ensures var b := IfPart(hard, c, t);
            && Gen(cl, b, depart, cut, used, slots) ==
               [Ins(if hard then C_IFTHEN else C_SOFTIFTHEN), Num(slots)]
                   + Gen(cl, c, false, LocalCut(C_LCUTIFTHEN, slots), used, slots + 1)
               + (if hard then [Ins(C_CUT), Num(slots)] else [Ins(C_SCUT)])
               + Gen(cl, t, depart, cut, used + BodyVars(c), slots + 1 + Slots(c)) + [Ins(C_END)]
            && (ProperBody(b) ==> ProperBody(c) && ProperBody(t))
            && Flat(b) == [IfPart(hard, RightNested(c), RightNested(t))]
            && c < b && t < b
  {
    ThenIs(cl, hard, c, t, depart, cut, used, slots);
    hide Gen, BodyVars, Slots, RightNested;
  }

  lemma ThenOps(hard: bool)
    ensures IsEnd(C_END) && IsEnd(if hard then C_CUT else C_SCUT) && IsControl(if hard then C_IFTHEN else C_SOFTIFTHEN)
  {
  }

  lemma ThenRead(code: Code, hard: bool, pc: nat, p1: nat, p2: nat, done: seq<Term>, c: Body, t: Body)
    requires pc < |code| && pc + 2 <= p1 && p1 + (if hard then 2 else 1) <= p2
    requires var done1 := done + [ToTerm(RightNested(c))];
             && Read(code, pc + 2, Some(if hard then C_CUT else C_SCUT), None, Build(done, []), 0) ==
                 Good(p1, Build(done1, []))
             && Read(code, p1 + (if hard then 2 else 1), Some(C_END), None, Build(done1, []), 0) ==
                 Good(p2, Build(done1 + [ToTerm(RightNested(t))], []))
    ensures ReadControl(code, pc, if hard then C_IFTHEN else C_SOFTIFTHEN, Build(done, [])) ==
            Good(p2 + 1, Build(done + [ToTerm(IfPart(hard, RightNested(c), RightNested(t)))], []))
  {
    hide Read, RightNested, BuildTerm;
    var x, y := ToTerm(RightNested(c)), ToTerm(RightNested(t));
    PackTwo(done, x, y, if hard then Arrow else SoftArrow);
    assert done + [x] + [y] == done + [x, y];
  }

  lemma {:induction false} ReadsNot(code: Code, cl: Clause, g: Body, depart: bool, cut: CutInfo, used: set<nat>,
        slots: nat, pc: nat,
                                    end: Option<Op>, until: Option<nat>, done: seq<Term>, pushed: nat)
    requires Ready(code, cl, Not(g), depart, cut, used, slots, pc, end, until)
    ensures Reads(code, cl, Not(g), depart, cut, used, slots, pc, end, until, done, pushed)
    decreases Not(g), 0
  {
    hide *;
    var local := LocalCut(C_LCUT, slots);
    var gc, bal := Gen(cl, g, false, local, used, slots + 1), Balance(cl, used, used + BodyVars(g));
    ReadyParts(code, cl, Not(g), depart, cut, used, slots, pc, end, until);
    ReadyPasses(code, cl, Not(g), depart, cut, used, slots, pc, end, until);
    NotShapes(cl, g, depart, cut, used, slots);
    NotAt(code, pc, slots, gc, bal);
    NotEnds(code, pc, slots, gc, bal);
    FetchOne(code, pc, [Ins(C_NOT), Num(slots), Num(|NotCode(slots, gc, bal)| - 3 - |bal|)]);
    FetchOne(code, pc + 3 + |gc|, [Ins(C_CUT), Num(slots)]);
    EndReady(code, cl, g, false, local, used, slots + 1, pc + 3, C_CUT);
    PartToEnd(code, cl, g, false, local, used, slots + 1, pc + 3, C_CUT, done);
    NotRead(code, pc, pc + 3 + |gc|, done, g);
    NotPasses(end, until, pc, pc + |NotCode(slots, gc, bal)|, pc + 3 + |gc| + 3, |bal|);
    ReadsControl(code, pc, C_NOT, end, until, Build(done, []), pushed);
    var p, st := pc + 3 + |gc| + 3, Build(done + [ToTerm(Not(RightNested(g)))], []);
    NotFlat(g);
    if bal != [] {
      ReadsBalancing(code, cl, used, used + BodyVars(g), p, end, until, st, pushed + 1);
    }
    ReadsSingle(code, cl, Not(g), Not(RightNested(g)), depart, cut, used, slots, pc, end, until, done, pushed);
  }

  lemma NotShapes(cl: Clause, g: Body, depart: bool, cut: CutInfo, used: set<nat>, slots: nat)
    ensures Gen(cl, Not(g), depart, cut, used, slots) ==
            NotCode(slots, Gen(cl, g, false, LocalCut(C_LCUT, slots), used, slots + 1),
                Balance(cl, used, used + BodyVars(g)))
    ensures (ProperBody(Not(g)) ==> ProperBody(g)) && KnownCut(LocalCut(C_LCUT, slots)) && IsEnd(C_CUT)
  {
    hide Gen, Balance, NotCode;
    BodyIs(cl, Not(g), depart, cut, used, slots);
    NotIs(cl, g, used, slots);
  }

  lemma NotPasses(end: Option<Op>, until: Option<nat>, pc: nat, z: nat, p: nat, bal: nat)
    requires Passes(end, until, pc, z) && pc < z && (bal != 0 ==> pc <= p && p + 2 + bal <= z)
    ensures until != Some(pc) && end != Some(C_NOT) && IsControl(C_NOT)
    ensures bal != 0 ==> Passes(end, until, p, p + 2 + bal)
  {
  }

  lemma ReadsSingle(code: Code, cl: Clause, b: Body, norm: Body, depart: bool, cut: CutInfo, used: set<nat>,
        slots: nat, pc: nat,
                    end: Option<Op>, until: Option<nat>, done: seq<Term>, pushed: nat)
    requires Flat(b) == [norm] && TermsOf(Flat(b)) == [ToTerm(norm)]
    requires Read(code, pc, end, until, Build(done, []), pushed) ==
             Read(code, pc + |Gen(cl, b, depart, cut, used, slots)|, end, until, Build(done + [ToTerm(norm)], []),
                 pushed + 1)
    ensures Reads(code, cl, b, depart, cut, used, slots, pc, end, until, done, pushed)
  {
    hide Read, Gen, ToTerm, Flat, TermsOf;
  }

  /** A jump over balancing code, and that code, read as nothing. */
  lemma ReadsBalancing(code: Code, cl: Clause, have: set<nat>, want: set<nat>, pc: nat, end: Option<Op>,
        until: Option<nat>, stack: Build, pushed: nat)
    requires var bal := Balance(cl, have, want);
             At(code, pc, CodeGen.Jump(|bal|)) && At(code, pc + 2, bal) && Passes(end, until, pc, pc + 2 + |bal|)
    ensures Read(code, pc, end, until, stack, pushed) ==
            Read(code, pc + 2 + |Balance(cl, have, want)|, end, until, stack, pushed)
  {
    hide At, Read, Balance;
    ReadsJump(code, |Balance(cl, have, want)|, pc, end, until, stack, pushed);
    ReadsBalance(code, cl, have, want, pc + 2, end, until, stack, pushed);
  }

  lemma NotFlat(g: Body)
    ensures Flat(Not(g)) == [Not(RightNested(g))] && TermsOf(Flat(Not(g))) == [ToTerm(Not(RightNested(g)))]
  {
    hide RightNested, ToTerm;
  }

  /** The jump over the balancing code of \+, when there is any. */
  lemma NotEnds(code: Code, pc: nat, v: nat, gc: Code, bal: Code)
    requires At(code, pc, NotCode(v, gc, bal))
    ensures bal != [] ==> At(code, pc + 3 + |gc| + 3, CodeGen.Jump(|bal|)) && At(code, pc + 3 + |gc| + 3 + 2, bal)
    ensures |NotCode(v, gc, bal)| == 3 + |gc| + 3 + if bal == [] then 0 else 2 + |bal|
  {
    hide At;
    if bal != [] {
      var head := [Ins(C_NOT), Num(v), Num(|gc| + 3 + 2)] + gc + [Ins(C_CUT), Num(v), Ins(C_FAIL)];
      AtSplit(code, pc, head, CodeGen.Jump(|bal|) + bal);
      AtSplit(code, pc + |head|, CodeGen.Jump(|bal|), bal);
    }
  }

  lemma NotRead(code: Code, pc: nat, p1: nat, done: seq<Term>, g: Body)
    requires pc < |code| && pc + 3 <= p1
    requires Read(code, pc + 3, Some(C_CUT), None, Build(done, []), 0) ==
             Good(p1, Build(done + [ToTerm(RightNested(g))], []))
    ensures ReadControl(code, pc, C_NOT, Build(done, [])) ==
            Good(p1 + 3, Build(done + [ToTerm(Not(RightNested(g)))], []))
  {
    hide Read, RightNested, BuildTerm;
    Pack(done, [ToTerm(RightNested(g))], NotProvable);
  }

  /** Decompiling the code of a clause body gives the body, with conjunctions nested to the right. */
  lemma RoundTrips(cl: Clause, b: Body, slots: nat)
    requires ProperBody(b)
    ensures ReadBody(GenClause(cl, b, slots)) == Some(ToTerm(RightNested(b)))
  {
    var code, used := GenClause(cl, b, slots), Below(cl.arity);
    var bc := Gen(cl, b, true, ClauseCut, used, slots);
    assert code[0..|bc|] == bc && code[|bc|] == Ins(I_EXIT);
    assert At(code, 0, bc) && Ready(code, cl, b, true, ClauseCut, used, slots, 0, Some(I_EXIT), None);
    hide At, Gen, Read, ProperBody, ToTerm, RightNested;
    PartToEnd(code, cl, b, true, ClauseCut, used, slots, 0, I_EXIT, []);
    assert [] + [ToTerm(RightNested(b))] == [ToTerm(RightNested(b))];
    NeverStartsWithExit(cl, b, true, ClauseCut, used, slots);
  }

  lemma {:induction false} NeverStartsWithExit(cl: Clause, b: Body, depart: bool, cut: CutInfo, used: set<nat>,
        slots: nat)
    requires KnownCut(cut)
    ensures var code := Gen(cl, b, depart, cut, used, slots); code != [] && code[0] != Ins(I_EXIT)
    decreases b
  {
    hide Gen, GenOr, GenIfThenElse, GenIfThen, GenNot, Balance, BodyVars, Slots, BodySize, IfOp, CommitOp, ProperBody;
    BodyIs(cl, b, depart, cut, used, slots);
    match b {
      case Goal(f, ts) => GoalStartsSo(cl, f, ts, depart, used);
      case Conj(l, r) => NeverStartsWithExit(cl, l, false, cut, used, slots);
      case Disj(l, r) => DisjStartsSo(cl, l, r, depart, cut, used, slots);
      case IfThen(c, t) => IfThenIs(cl, true, c, t, depart, cut, used, slots);
      case SoftIfThen(c, t) => IfThenIs(cl, false, c, t, depart, cut, used, slots);
      case Not(g) => NotIs(cl, g, used, slots);
      case _ =>
    }
  }

  lemma DisjStartsSo(cl: Clause, l: Body, r: Body, depart: bool, cut: CutInfo, used: set<nat>, slots: nat)
    ensures var code := Gen(cl, Disj(l, r), depart, cut, used, slots); code != [] && code[0] != Ins(I_EXIT)
  {
    hide Gen, GenOr, GenIfThenElse, Balance, BodyVars, Slots, BodySize, CommitOp, ProperBody, AllFast;
    BodyIs(cl, Disj(l, r), depart, cut, used, slots);
    if l.IfThen? || l.SoftIfThen? {
      IfIs(cl, l.IfThen?, l.cond, l.action, r, depart, cut, used, slots);
    } else {
      OrIs(cl, l, r, depart, cut, used, slots);
    }
  }

  lemma GoalStartsSo(cl: Clause, f: Name, ts: seq<Term>, depart: bool, used: set<nat>)
    ensures var code := GenGoal(cl, f, ts, depart, used); code != [] && code[0] != Ins(I_EXIT)
  {
    if ts != [] {
      var arg := GenArg(cl, ts[0], false, false, used);
      assert arg != [] && arg[0] != Ins(I_EXIT);
      assert GenArgs(cl, ts, used)[0] == arg[0];
    }
  }
}
