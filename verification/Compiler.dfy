// The body compiler: a code buffer that is appended to, patched and truncated, with the table of
// initialised variables, the slot counter and the current meaning of `!` updated step by step.

module Compiler {
  import opened Terms
  import opened VmCode
  import opened CodeGen
  import opened CodeShapes

  /** What balancing emits once bit `i` is reached, with the run (at, count) pending. */
  lemma BalanceStep(m: set<nat>, i: nat, bits: nat, at: nat, count: nat)
    requires i < bits
    ensures BalanceFrom(m, i, bits, at, count) ==
            if i !in m then BalanceFrom(m, i + 1, bits, at, count)
            else if count == 0 then BalanceFrom(m, i + 1, bits, i, 1)
            else if i == at + 1 then BalanceFrom(m, i + 1, bits, at, count + 1)
            else Flush(at, count) + BalanceFrom(m, i + 1, bits, i, 1)
  {
  }

  class CompileInfo {
    const cl: Clause
    var codes: Code
    var used: set<nat>
    var variables: nat
    var cut: CutInfo

    constructor (cl: Clause, slots: nat)
      ensures this.cl == cl && codes == [] && used == Below(cl.arity) && variables == slots && cut == ClauseCut
    {
      this.cl := cl;
      codes, used, variables, cut := [], Below(cl.arity), slots, ClauseCut;
    }

    // ----- output -----

    method Output(cells: Code)
      modifies this`codes
      ensures codes == old(codes) + cells
    {
      codes := codes + cells;
    }

    method AllocChoiceVar() returns (v: nat)
      modifies this`variables
      ensures v == old(variables) && variables == v + 1
    {
      v := variables;
      variables := variables + 1;
    }

    method IsFirstVarSet(i: nat) returns (first: bool)
      modifies this`used
      ensures first == (i !in old(used)) && used == old(used) + {i}
    {
      first := i !in used;
      used := used + {i};
    }

    // ----- arguments -----

    method CompileVar(i: nat, inArg: bool)
      modifies this`codes, this`used
      ensures codes == old(codes) + GenVar(cl, i, inArg, old(used))
      ensures used == old(used) + {i}
    {
      var first := IsFirstVarSet(i);
      if i < cl.arity {
        if inArg {
          Output([Ins(B_ARGVAR), Num(i)]);
        } else {
          Output(ShortVar(i));
        }
      } else if inArg {
        Output([Ins(if first then B_ARGFIRSTVAR else B_ARGVAR), Num(i)]);
      } else if first {
        Output([Ins(B_FIRSTVAR), Num(i)]);
      } else {
        Output(ShortVar(i));
      }
    }

    method CompileArgument(t: Term, inArg: bool, right: bool)
      requires ProperTerm(t)
      modifies this`codes, this`used
      ensures codes == old(codes) + GenArg(cl, t, inArg, right, old(used))
      ensures used == old(used) + Vars(t)
      decreases t
    {
      match t {
        case Void => Output([Ins(B_VOID)]);
        case Var(i) => CompileVar(i, inArg);
        case Int(n) => Output([Ins(B_SMALLINT), Num(n)]);
        case Atom(a) => Output([Ins(B_ATOM), Nam(a)]);
        case Nil => Output([Ins(B_NIL)]);
        case Cmp(f, ts) =>
          ghost var c0, subs := codes, GenSubs(cl, ts, used);
          var head := GenFunctor(Functor(f, |ts|), right);
          Output(head);
          CompileSubs(ts);
          var pop: Code := if right then [] else [Ins(B_POP)];
          Output(pop);
          assert c0 + head + subs + pop == c0 + (head + subs + pop);
      }
    }

    /** The arguments of a compound, the last one right-recursively. */
    method CompileSubs(ts: seq<Term>)
      requires |ts| > 0 && ProperTerms(ts)
      modifies this`codes, this`used
      ensures codes == old(codes) + GenSubs(cl, ts, old(used))
      ensures used == old(used) + VarsOf(ts)
      decreases ts
    {
      var i := 0;
      ghost var done, left := [], ts;
      ghost var c0, u0 := codes, used;
      while i < |ts| - 1
        invariant 0 <= i < |ts| && left == ts[i..]
        invariant codes == c0 + done
        invariant SubsLeft(cl, ts, u0, left, used, done)
      {
        assert left == [ts[i]] + ts[i + 1..];
        ghost var arg := GenArg(cl, ts[i], true, false, used);
        EarlierSub(cl, ts, u0, ts[i], ts[i + 1..], used, done);
        CompileArgument(ts[i], true, false);
        AppendAppend(c0, done, arg);
        done, left, i := done + arg, ts[i + 1..], i + 1;
      }
      assert left == [ts[i]];
      LastSub(cl, ts, u0, ts[i], used, done);
      AppendAppend(c0, done, GenArg(cl, ts[i], true, true, used));
      CompileArgument(ts[i], true, true);
    }

    method CompileArguments(ts: seq<Term>)
      requires ProperTerms(ts)
      modifies this`codes, this`used
      ensures codes == old(codes) + GenArgs(cl, ts, old(used))
      ensures used == old(used) + VarsOf(ts)
    {
      var i := 0;
      ghost var done: Code, left := [], ts;
      ghost var c0, u0 := codes, used;
      AppendAppend(c0, [], []);
      while i < |ts|
        invariant 0 <= i <= |ts| && left == ts[i..]
        invariant codes == c0 + done
        invariant ArgsLeft(cl, ts, u0, left, used, done)
      {
        assert left == [ts[i]] + ts[i + 1..];
        ghost var arg := GenArg(cl, ts[i], false, false, used);
        NextArg(cl, ts, u0, ts[i], ts[i + 1..], used, done);
        CompileArgument(ts[i], false, false);
        AppendAppend(c0, done, arg);
        done, left, i := done + arg, ts[i + 1..], i + 1;
      }
    }

    // ----- last call -----

    /** Reverse the cells from `a` up to but not including `z` in place. */
    method ReverseCode(a: nat, z: nat)
      requires a <= z <= |codes|
      modifies this`codes
      ensures |codes| == |old(codes)| && codes == ReversedRange(old(codes), a, z)
    {
      hide *;
      var i, j := a, z - 1;
      ghost var was := codes;
      while i < j
        invariant a <= i && j < z && i + j == a + z - 1 && i <= j + 1
        invariant |codes| == |was|
        invariant forall k :: 0 <= k < |was| && !(a <= k < z) ==> codes[k] == was[k]
        invariant forall k :: a <= k < i ==> codes[k] == was[a + z - 1 - k]
        invariant forall k :: j < k < z ==> codes[k] == was[a + z - 1 - k]
        invariant forall k :: i <= k <= j ==> codes[k] == was[k]
        decreases j - i
      {
        codes := codes[i := codes[j]][j := codes[i]];
        i, j := i + 1, j - 1;
      }
      ReversedPointwise(was, codes, a, z);
    }

    /** Append L_NOLCO, one in-place move per argument instruction between `pc0` and the final
        I_DEPART, and the tail call; drop it all again at an argument that cannot be moved. */
    method LcoBlock(pc0: nat, ghost args: Code, f: Functor) returns (ok: bool)
      requires pc0 <= |codes| && codes[pc0..] == args + [Ins(I_DEPART), Fun(f)]
      modifies this`codes
      ensures ok == LcoMoves(args, 0).Some?
      ensures codes == if ok then old(codes) + [Ins(L_NOLCO), Num(0)] + LcoMoves(args, 0).value + TailCall(cl, f)
                       else old(codes)
    {
      hide *;
      var pcz := |codes|;
      ghost var was, base := codes, codes + [Ins(L_NOLCO), Num(0)];
      var s, oarg := pc0, 0;
      MovesStart(codes, pc0, args, [Ins(I_DEPART), Fun(f)], [Ins(L_NOLCO), Num(0)]);
      Output([Ins(L_NOLCO), Num(0)]);
      ghost var moves, left: Code := [], args;
      while s < pcz - 2
        invariant pc0 <= s <= pcz - 2 <= |codes| && codes[s..pcz - 2] == left
        invariant codes == base + moves
        invariant LcoMoves(args, 0) == Prefixed(moves, LcoMoves(left, oarg))
      {
        var step := LcoMove(codes[s..pcz - 2], oarg);
        if step.None? || step.value.1 == 0 || step.value.1 > pcz - 2 - s {
          codes := codes[..pcz];
          MovesStop(left, moves, oarg);
          assert (was + ([Ins(L_NOLCO), Num(0)] + moves))[..pcz] == was;
          return false;
        }
        var (move, n) := step.value;
        MovesStep(codes, s, pcz - 2, n, moves, move, oarg);
        AppendAppend(base, moves, move);
        Output(move);
        moves, left := moves + move, left[n..];
        s, oarg := s + n, oarg + 1;
      }
      assert left == [];
      MovesEnd(moves, oarg);
      Output(TailCall(cl, f));
      ok := true;
    }

    /** Swap the code from `a` to `m` with the rest, by three reversals. */
    method SwapTail(a: nat, m: nat)
      requires a <= m <= |codes|
      modifies this`codes
      ensures codes == old(codes)[..a] + (old(codes)[m..] + old(codes)[a..m])
    {
      hide *;
      var z := |codes|;
      RotateBlocks(codes[..a], codes[a..m], codes[m..]);
      ThreeParts(codes, a, m);
      ReverseCode(a, m);
      ReverseCode(m, z);
      ReverseCode(a, z);
    }

    /** Put a last-call block in front of the code from `pc0`, which ends in I_DEPART, if one exists. */
    method Lco(pc0: nat, ghost args: Code, f: Functor)
      requires pc0 <= |codes| && codes[pc0..] == args + [Ins(I_DEPART), Fun(f)]
      modifies this`codes
      ensures codes == old(codes)[..pc0] + GenDepart(cl, args, f)
    {
      hide *;
      var pcz := |codes|;
      ghost var was := codes;
      DepartIs(cl, args, f);
      var ok := LcoBlock(pc0, args, f);
      if !ok {
        assert was == was[..pc0] + was[pc0..];
        return;
      }
      ghost var moves, call := LcoMoves(args, 0).value, TailCall(cl, f);
      var z := |codes|;
      codes := codes[pcz + 1 := Num(z - pcz - 2)];
      BlockAssembled(was, pc0, moves, call);
      Three(was[..pc0], was[pc0..], [Ins(L_NOLCO), Num(|moves + call|)] + (moves + call));
      SwapTail(pc0, pcz);
    }

    // ----- goals -----

    method CompileSubClause(f: Name, ts: seq<Term>, depart: bool)
      requires ProperTerms(ts)
      modifies this`codes, this`used
      ensures codes == old(codes) + GenGoal(cl, f, ts, depart, old(used))
      ensures used == old(used) + VarsOf(ts)
    {
      if f.Type? && |ts| == 1 && ts[0].Var? && ts[0].index in used {
        Output([Ins(I_TYPE(f.test)), Num(ts[0].index)]);
        assert ts[1..] == [];
      } else {
        var pc0 := |codes|;
        ghost var c0, args := codes, GenArgs(cl, ts, used);
        CompileArguments(ts);
        Output([Ins(if depart then I_DEPART else I_CALL), Fun(Functor(f, |ts|))]);
        assert codes == c0 + (args + [Ins(if depart then I_DEPART else I_CALL), Fun(Functor(f, |ts|))]);
        if depart {
          Lco(pc0, args, Functor(f, |ts|));
        }
      }
    }

    // ----- balancing -----

    /** Emit C_VAR code for what is in `valt2` but not in `valt1`; `done` counts those variables. */
    method BalanceVars(valt1: set<nat>, valt2: set<nat>) returns (done: nat)
      modifies this`codes
      ensures codes == old(codes) + Balance(cl, valt1, valt2)
      ensures done == 0 <==> Balance(cl, valt1, valt2) == []
    {
      var m := valt2 - valt1;
      var n, at, count := 0, 0, 0;
      done := 0;
      ghost var emitted: Code := [];
      while n < cl.bits
        invariant 0 <= n <= cl.bits
        invariant codes == old(codes) + emitted
        invariant emitted + BalanceFrom(m, n, cl.bits, at, count) == Balance(cl, valt1, valt2)
        invariant done == 0 <==> emitted == [] && count == 0
      {
        BalanceStep(m, n, cl.bits, at, count);
        if n in m {
          if count == 0 {
            at, count := n, 1;
          } else if n == at + 1 {
            count := count + 1;
          } else {
            Output(Flush(at, count));
            emitted := emitted + Flush(at, count);
            at, count := n, 1;
          }
          done := done + 1;
        }
        n := n + 1;
      }
      Output(Flush(at, count));
    }

    // ----- control -----

    /** Scan the condition from `tcOr` to the end of the code; if it consists of fast tests only,
        turn the C_IFTHENELSE before it into C_FASTCOND. */
    method TryFastCondition(tcOr: nat) returns (fast: bool)
      requires 3 <= tcOr <= |codes| && codes[tcOr - 3] == Ins(C_IFTHENELSE)
      modifies this`codes
      ensures |codes| == |old(codes)| && fast == AllFast(codes[tcOr..], 0)
      ensures codes == if fast then old(codes)[tcOr - 3 := Ins(C_FASTCOND)] else old(codes)
    {
      var pc := tcOr;
      ghost var cond := codes[tcOr..];
      while pc < |codes|
        invariant tcOr <= pc
        invariant AllFast(cond, 0) == AllFast(cond, pc - tcOr)
      {
        assert cond[pc - tcOr] == codes[pc];
        if !(codes[pc].Ins? && FastOp(codes[pc].op)) {
          return false;
        }
        pc := pc + Size(codes[pc].op);
      }
      codes := codes[tcOr - 3 := Ins(C_FASTCOND)];
      fast := true;
      assert codes[tcOr..] == cond;
    }

    method CompileBody(b: Body, depart: bool)
      requires ProperBody(b)
      modifies this
      ensures codes == old(codes) + Gen(cl, b, depart, old(cut), old(used), old(variables))
      ensures used == old(used) + BodyVars(b)
      ensures variables == old(variables) + Slots(b)
      ensures cut == old(cut)
      decreases BodySize(b), 1
    {
      hide *;
      BodyIs(cl, b, depart, cut, used, variables);
      match b {
        case Goal(f, ts) => CompileSubClause(f, ts, depart);
        case True => Output([Ins(I_TRUE)]);
        case Fail => Output([Ins(I_FAIL)]);
        case Cut =>
          match cut {
            case ClauseCut => Output([Ins(I_CUT)]);
            case LocalCut(op, v) => Output([Ins(op), Num(v)]);
          }
        case Conj(l, r) =>
          AppendAppend(codes, Gen(cl, l, false, cut, used, variables),
                       Gen(cl, r, depart, cut, used + BodyVars(l), variables + Slots(l)));
          CompileBody(l, false);
          CompileBody(r, depart);
        case Disj(l, r) =>
          match l {
            case IfThen(c, t) => CompileIfThenElse(true, c, t, r, depart);
            case SoftIfThen(c, t) => CompileIfThenElse(false, c, t, r, depart);
            case _ => CompileOr(l, r, depart);
          }
        case IfThen(c, t) => CompileIfThen(true, c, t, depart);
        case SoftIfThen(c, t) => CompileIfThen(false, c, t, depart);
        case Not(g) => CompileNot(g);
      }
    }

    method CompileOr(l: Body, r: Body, depart: bool)
      requires ProperBody(l) && ProperBody(r)
      modifies this
      ensures codes == old(codes) + GenOr(cl, l, r, depart, old(cut), old(used), old(variables))
      ensures used == old(used) + (BodyVars(l) + BodyVars(r))
      ensures variables == old(variables) + (Slots(l) + Slots(r))
      ensures cut == old(cut)
      decreases BodySize(l) + BodySize(r), 3
    {
      hide *;
      var vsave := used;
      var valt1, valt2 := used + BodyVars(l), used + BodyVars(r);
      ghost var c0, bal1, bal2 := codes, Balance(cl, valt1, valt2), Balance(cl, valt2, valt1);
      Output([Ins(C_OR), Num(0)]);
      var tcOr := |codes|;
      ghost var lc := Gen(cl, l, false, cut, used, variables);
      CompileBody(l, false);
      var _ := BalanceVars(valt1, valt2);
      Output([Ins(C_JMP), Num(0)]);
      codes := codes[tcOr - 1 := Num(|codes| - tcOr)];
      used := vsave;
      ghost var rc := Gen(cl, r, depart, cut, used, variables);
      OrAssembled(c0, lc, bal1, rc, bal2);
      CompileElse(r, depart, valt1, valt2);
      OrIs(cl, l, r, depart, cut, vsave, old(variables));
      used := valt1 + valt2;
    }

    method CompileIfThenElse(hard: bool, c: Body, t: Body, e: Body, depart: bool)
      requires ProperBody(c) && ProperBody(t) && ProperBody(e)
      modifies this
      ensures codes == old(codes) + GenIfThenElse(cl, hard, c, t, e, depart, old(cut), old(used), old(variables))
      ensures used == old(used) + (BodyVars(c) + BodyVars(t) + BodyVars(e))
      ensures variables == old(variables) + (1 + Slots(c) + Slots(t) + Slots(e))
      ensures cut == old(cut)
      decreases BodySize(c) + BodySize(t) + BodySize(e) + 1, 1
    {
      hide *;
      var vsave := used;
      var valt1, valt2 := used + (BodyVars(c) + BodyVars(t)), used + BodyVars(e);
      ghost var c0 := codes;
      var v := AllocChoiceVar();
      ghost var cc := Gen(cl, c, false, LocalCut(if hard then C_LCUT else C_LSCUT, v), used, variables);
      ghost var tc := Gen(cl, t, depart, cut, used + BodyVars(c), variables + Slots(c));
      CompileThen(hard, c, t, v, depart, valt1, valt2);
      used := vsave;
      ghost var c1, ec := codes, Gen(cl, e, depart, cut, used, variables);
      ghost var bal1, bal2 := Balance(cl, valt1, valt2), Balance(cl, valt2, valt1);
      assert c1 == c0 + ThenCode(IfOp(hard, cc), CommitOp(hard, cc), v, cc, tc, bal1);
      ElseAssembled(c0, IfOp(hard, cc), CommitOp(hard, cc), v, cc, tc, bal1, ec, bal2);
      CompileElse(e, depart, valt1, valt2);
      assert codes == Skipping(c1, ec, bal2);
      assert codes == c0 + IfCode(IfOp(hard, cc), CommitOp(hard, cc), v, cc, tc, bal1, ec, bal2);
      IfIs(cl, hard, c, t, e, depart, cut, vsave, v);
      used := valt1 + valt2;
      UnionOfBranches(vsave, BodyVars(c) + BodyVars(t), BodyVars(e));
    }

    /** Condition, commit and action, up to the jump over the else part. */
    method CompileThen(hard: bool, c: Body, t: Body, v: nat, depart: bool, valt1: set<nat>, valt2: set<nat>)
      requires ProperBody(c) && ProperBody(t)
      modifies this
      ensures var cc := Gen(cl, c, false, LocalCut(if hard then C_LCUT else C_LSCUT, v), old(used), old(variables));
              var tc := Gen(cl, t, depart, old(cut), old(used) + BodyVars(c), old(variables) + Slots(c));
              codes == old(codes) + ThenCode(IfOp(hard, cc), CommitOp(hard, cc), v, cc, tc, Balance(cl, valt1, valt2))
      ensures variables == old(variables) + Slots(c) + Slots(t)
      ensures cut == old(cut)
      decreases BodySize(c) + BodySize(t) + 1, 0
    {
      hide *;
      var cutsave, tcOr := cut, |codes| + 3;
      ghost var c0 := codes;
      cut := LocalCut(if hard then C_LCUT else C_LSCUT, v);
      ghost var cc := Gen(cl, c, false, cut, used, variables);
      var fast := CompileCondition(c, hard, v);
      cut := cutsave;
      var commit := if fast then C_FASTCUT else if hard then C_CUT else C_SOFTCUT;
      ghost var tc := Gen(cl, t, depart, cut, used, variables);
      CompileAction(t, commit, v, depart, valt1, valt2);
      CommitIs(hard, cc);
      ThenAssembled(c0, IfOp(hard, cc), CommitOp(hard, cc), v, cc, tc, Balance(cl, valt1, valt2));
      codes := codes[tcOr - 1 := Num(|codes| - tcOr)];
    }

    method CompileCondition(c: Body, hard: bool, v: nat) returns (fast: bool)
      requires ProperBody(c)
      modifies this
      ensures var cc := Gen(cl, c, false, old(cut), old(used), old(variables));
              codes == old(codes) + CondCode(IfOp(hard, cc), v, 0, cc) && fast == (hard && AllFast(cc, 0))
      ensures used == old(used) + BodyVars(c)
      ensures variables == old(variables) + Slots(c)
      ensures cut == old(cut)
      decreases BodySize(c), 2
    {
      hide *;
      ghost var c0, cc := codes, Gen(cl, c, false, cut, used, variables);
      Output([Ins(if hard then C_IFTHENELSE else C_SOFTIF), Num(v), Num(0)]);
      var tcOr := |codes|;
      CompileBody(c, false);
      CondAssembled(c0, if hard then C_IFTHENELSE else C_SOFTIF, v, cc);
      fast := false;
      if hard {
        fast := TryFastCondition(tcOr);
      }
      CommitIs(hard, cc);
    }

    method CompileAction(t: Body, commit: Op, v: nat, depart: bool, valt1: set<nat>, valt2: set<nat>)
      requires ProperBody(t)
      modifies this
      ensures codes == old(codes) + ActionCode(commit, v, Gen(cl, t, depart, old(cut), old(used), old(variables)),
                                               Balance(cl, valt1, valt2), 0)
      ensures used == old(used) + BodyVars(t)
      ensures variables == old(variables) + Slots(t)
      ensures cut == old(cut)
      decreases BodySize(t), 2
    {
      hide *;
      ghost var c0, tc := codes, Gen(cl, t, depart, cut, used, variables);
      Output([Ins(commit), Num(v)]);
      CompileBody(t, depart);
      var _ := BalanceVars(valt1, valt2);
      Output([Ins(C_JMP), Num(0)]);
      ActionAssembled(c0, commit, v, tc, Balance(cl, valt1, valt2));
    }

    /** The else part, after the C_JMP whose distance is the last cell. */
    method CompileElse(e: Body, depart: bool, valt1: set<nat>, valt2: set<nat>)
      requires ProperBody(e) && |codes| > 0
      modifies this
      ensures codes == Skipping(old(codes), Gen(cl, e, depart, old(cut), old(used), old(variables)),
              Balance(cl, valt2, valt1))
      ensures used == old(used) + BodyVars(e)
      ensures variables == old(variables) + Slots(e)
      ensures cut == old(cut)
      decreases BodySize(e), 2
    {
      hide *;
      var tcJmp := |codes|;
      ghost var c0, ec := codes, Gen(cl, e, depart, cut, used, variables);
      CompileBody(e, depart);
      var _ := BalanceVars(valt2, valt1);
      codes := codes[tcJmp - 1 := Num(|codes| - tcJmp)];
      SkippingIs(c0, ec, Balance(cl, valt2, valt1));
    }

    method CompileIfThen(hard: bool, c: Body, t: Body, depart: bool)
      requires ProperBody(c) && ProperBody(t)
      modifies this
      ensures codes == old(codes) + GenIfThen(cl, hard, c, t, depart, old(cut), old(used), old(variables))
      ensures used == old(used) + (BodyVars(c) + BodyVars(t))
      ensures variables == old(variables) + (1 + Slots(c) + Slots(t))
      ensures cut == old(cut)
      decreases BodySize(c) + BodySize(t), 2
    {
      hide *;
      var cutsave := cut;
      ghost var c0 := codes;
      var v := AllocChoiceVar();
      Output([Ins(if hard then C_IFTHEN else C_SOFTIFTHEN), Num(v)]);
      cut := LocalCut(C_LCUTIFTHEN, v);
      ghost var cc := Gen(cl, c, false, cut, used, variables);
      CompileBody(c, false);
      cut := cutsave;
      Output(if hard then [Ins(C_CUT), Num(v)] else [Ins(C_SCUT)]);
      ghost var tc := Gen(cl, t, depart, cut, used, variables);
      CompileBody(t, depart);
      Output([Ins(C_END)]);
      Concat5(c0, [Ins(if hard then C_IFTHEN else C_SOFTIFTHEN), Num(v)], cc,
              if hard then [Ins(C_CUT), Num(v)] else [Ins(C_SCUT)], tc, [Ins(C_END)]);
      IfThenIs(cl, hard, c, t, depart, cut, old(used), v);
    }

    method CompileNot(g: Body)
      requires ProperBody(g)
      modifies this
      ensures codes == old(codes) + GenNot(cl, g, old(used), old(variables))
      ensures used == old(used) + (BodyVars(g))
      ensures variables == old(variables) + (1 + Slots(g))
      ensures cut == old(cut)
      decreases BodySize(g), 2
    {
      hide *;
      var vsave, cutsave := used, cut;
      ghost var c0 := codes;
      var v := AllocChoiceVar();
      Output([Ins(C_NOT), Num(v), Num(0)]);
      var tcOr := |codes|;
      cut := LocalCut(C_LCUT, v);
      ghost var gc := Gen(cl, g, false, cut, used, variables);
      CompileBody(g, false);
      cut := cutsave;
      Output([Ins(C_CUT), Num(v), Ins(C_FAIL)]);
      Output([Ins(C_JMP), Num(0)]);
      var tcJmp := |codes|;
      codes := codes[tcOr - 1 := Num(|codes| - tcOr)];
      ghost var bal := Balance(cl, vsave, used);
      var done := BalanceVars(vsave, used);
      if done > 0 {
        codes := codes[tcJmp - 1 := Num(|codes| - tcJmp)];
      } else {
        codes := codes[..tcJmp - 2];
        codes := codes[tcOr - 1 := Num(|codes| - tcOr)];
      }
      NotAssembled(c0, v, gc, bal);
      NotIs(cl, g, vsave, v);
    }

    /** The body of a clause whose head has been compiled, and the final exit. */
    method CompileClauseBody(b: Body)
      requires ProperBody(b) && used == Below(cl.arity) && cut == ClauseCut
      modifies this
      ensures codes == old(codes) + GenClause(cl, b, old(variables))
    {
      CompileBody(b, true);
      Output([Ins(I_EXIT)]);
    }

    /** The body of a rule `head => body` whose head has been compiled. */
    method CompileRuleBody(b: Body)
      requires ProperBody(b) && used == Below(cl.arity) && cut == ClauseCut
      modifies this
      ensures codes == old(codes) + GenRule(cl, b, old(variables))
    {
      if b != True {
        CompileClauseBody(b);
      } else {
        Output([Ins(I_EXIT)]);
      }
    }
  }

  lemma DepartIs(cl: Clause, args: Code, f: Functor)
    ensures var plain := args + [Ins(I_DEPART), Fun(f)];
            GenDepart(cl, args, f) ==
            if LcoMoves(args, 0).None? then plain
            else [Ins(L_NOLCO), Num(|LcoMoves(args, 0).value + TailCall(cl, f)|)]
                 + (LcoMoves(args, 0).value + TailCall(cl, f)) + plain
  {
  }

  lemma UnionOfBranches(used: set<nat>, a: set<nat>, b: set<nat>)
    ensures (used + a) + (used + b) == used + (a + b)
  {
  }

  // ----- what appending and patching amount to -----

  lemma AppendAppend(a: Code, b: Code, c: Code)
    ensures a + b + c == a + (b + c)
  {
  }

  /** Part way through the arguments `ts` of a compound: `done` is emitted, `left` is not. */
  ghost predicate SubsLeft(cl: Clause, ts: seq<Term>, u0: set<nat>, left: seq<Term>, used: set<nat>, done: Code) {
    && ProperTerms(left)
    && done + GenSubs(cl, left, used) == GenSubs(cl, ts, u0)
    && used + VarsOf(left) == u0 + VarsOf(ts)
  }

  lemma EarlierSub(cl: Clause, ts: seq<Term>, u0: set<nat>, t: Term, left: seq<Term>, used: set<nat>, done: Code)
    requires left != [] && SubsLeft(cl, ts, u0, [t] + left, used, done)
    ensures ProperTerm(t)
    ensures SubsLeft(cl, ts, u0, left, used + Vars(t), done + GenArg(cl, t, true, false, used))
  {
    hide GenArg, ProperTerm, Vars;
    assert ([t] + left)[1..] == left;
    AppendAppend(done, GenArg(cl, t, true, false, used), GenSubs(cl, left, used + Vars(t)));
  }

  /** Part way through the arguments `ts` of a goal. */
  ghost predicate ArgsLeft(cl: Clause, ts: seq<Term>, u0: set<nat>, left: seq<Term>, used: set<nat>, done: Code) {
    && ProperTerms(left)
    && done + GenArgs(cl, left, used) == GenArgs(cl, ts, u0)
    && used + VarsOf(left) == u0 + VarsOf(ts)
  }

  lemma NextArg(cl: Clause, ts: seq<Term>, u0: set<nat>, t: Term, left: seq<Term>, used: set<nat>, done: Code)
    requires ArgsLeft(cl, ts, u0, [t] + left, used, done)
    ensures ProperTerm(t)
    ensures ArgsLeft(cl, ts, u0, left, used + Vars(t), done + GenArg(cl, t, false, false, used))
  {
    hide GenArg, ProperTerm, Vars;
    assert ([t] + left)[1..] == left;
    AppendAppend(done, GenArg(cl, t, false, false, used), GenArgs(cl, left, used + Vars(t)));
  }

  lemma LastSub(cl: Clause, ts: seq<Term>, u0: set<nat>, t: Term, used: set<nat>, done: Code)
    requires SubsLeft(cl, ts, u0, [t], used, done)
    ensures ProperTerm(t)
    ensures done + GenArg(cl, t, true, true, used) == GenSubs(cl, ts, u0)
    ensures used + Vars(t) == u0 + VarsOf(ts)
  {
    hide GenArg, ProperTerm, Vars;
    assert [t][1..] == [];
    assert GenSubs(cl, [t], used) == GenArg(cl, t, true, true, used) + [];
    assert VarsOf([t]) == Vars(t);
  }

  lemma Concat5(c0: Code, a: Code, b: Code, c: Code, d: Code, e: Code)
    ensures c0 + a + b + c + d + e == c0 + (a + b + c + d + e)
  {
  }

  /** The argument code as `lco` finds it, once L_NOLCO has been appended. */
  lemma MovesStart(was: Code, pc0: nat, args: Code, call: Code, extra: Code)
    requires pc0 <= |was| && was[pc0..] == args + call
    ensures |was| == pc0 + |args| + |call|
    ensures (was + extra)[pc0..|was| - |call|] == args
    ensures was + extra == was + extra + []
    ensures LcoMoves(args, 0) == Prefixed([], LcoMoves(args, 0))
  {
    PrefixedNothing(LcoMoves(args, 0));
    assert (was + extra)[pc0..|was| - |call|] == was[pc0..][..|args|];
  }

  lemma MovesStep(codes: Code, s: nat, e: nat, n: nat, moves: Code, move: Code, oarg: nat)
    requires s < e <= |codes| && LcoMove(codes[s..e], oarg) == Some((move, n)) && 0 < n <= e - s
    ensures Prefixed(moves, LcoMoves(codes[s..e], oarg)) == Prefixed(moves + move, LcoMoves(codes[s..e][n..], oarg + 1))
    ensures codes[s..e][n..] == (codes + move)[s + n..e]
  {
    assert LcoMoves(codes[s..e], oarg) == Prefixed(move, LcoMoves(codes[s..e][n..], oarg + 1));
    PrefixedTwice(moves, move, LcoMoves(codes[s..e][n..], oarg + 1));
  }

  lemma MovesStop(left: Code, moves: Code, oarg: nat)
    requires left != []
    requires var step := LcoMove(left, oarg); step.None? || step.value.1 == 0 || step.value.1 > |left|
    ensures Prefixed(moves, LcoMoves(left, oarg)).None?
  {
  }

  lemma MovesEnd(moves: Code, oarg: nat)
    ensures Prefixed(moves, LcoMoves([], oarg)) == Some(moves)
  {
    assert moves + [] == moves;
  }

  lemma BlockAssembled(was: Code, pc0: nat, moves: Code, call: Code)
    requires pc0 <= |was|
    ensures (was + [Ins(L_NOLCO), Num(0)] + moves + call)[|was| + 1 := Num(|moves + call|)]
            == was[..pc0] + was[pc0..] + ([Ins(L_NOLCO), Num(|moves + call|)] + (moves + call))
  {
    assert was == was[..pc0] + was[pc0..];
  }

  lemma ThreeParts(c: Code, a: nat, m: nat)
    requires a <= m <= |c|
    ensures c[..a] + c[a..m] + c[m..] == c && |c[..a]| == a && |c[a..m]| == m - a && |c[m..]| == |c| - m
  {
  }

  function ReversedRange(c: Code, a: nat, z: nat): Code
    requires a <= z <= |c|
  {
    c[..a] + Reversed(c[a..z]) + c[z..]
  }

  lemma ReversedPointwise(was: Code, now: Code, a: nat, z: nat)
    requires a <= z <= |was| == |now|
    requires forall k :: 0 <= k < |was| && !(a <= k < z) ==> now[k] == was[k]
    requires forall k :: a <= k < z ==> now[k] == was[a + z - 1 - k]
    ensures now == ReversedRange(was, a, z)
  {
    ReversedLength(was[a..z]);
    forall k | a <= k < z ensures now[k] == Reversed(was[a..z])[k - a] {
      ReversedAt(was[a..z], k - a);
    }
  }

  lemma Three(h: Code, x: Code, t: Code)
    ensures var s := h + x + t;
            |h| + |x| <= |s| && s[..|h|] == h && s[|h|..|h| + |x|] == x && s[|h| + |x|..] == t
  {
  }

  lemma ReversedMiddle(h: Code, x: Code, t: Code)
    ensures ReversedRange(h + x + t, |h|, |h| + |x|) == h + Reversed(x) + t
  {
    hide Reversed;
    Three(h, x, t);
  }

  /** Reversing two adjacent blocks one by one and then together swaps them. */
  lemma RotateBlocks(head: Code, a: Code, b: Code)
    ensures var n, m, z := |head|, |head| + |a|, |head| + |a| + |b|;
            var c1 := ReversedRange(head + a + b, n, m);
            |c1| == z && (var c2 := ReversedRange(c1, m, z); |c2| == z && ReversedRange(c2, n, z) == head + (b + a))
  {
    ReversedLength(a);
    ReversedLength(b);
    ReversedMiddle(head, a, b);
    assert head + Reversed(a) + b + [] == head + Reversed(a) + b;
    ReversedMiddle(head + Reversed(a), b, []);
    assert head + Reversed(a) + Reversed(b) + [] == head + (Reversed(a) + Reversed(b)) + [];
    ReversedMiddle(head, Reversed(a) + Reversed(b), []);
    ThreeReversals(a, b);
    assert head + (b + a) + [] == head + (b + a);
  }

  lemma OrAssembled(c0: Code, lc: Code, bal1: Code, rc: Code, bal2: Code)
    ensures var k := |c0| + 2;
            var c1 := c0 + [Ins(C_OR), Num(0)] + lc + bal1 + [Ins(C_JMP), Num(0)];
            Skipping(c1[k - 1 := Num(|c1| - k)], rc, bal2) == c0 + OrCode(lc, bal1, rc, bal2)
  {
    var d1 := Num(|lc| + |bal1| + 2);
    var c1 := c0 + [Ins(C_OR), Num(0)] + lc + bal1 + [Ins(C_JMP), Num(0)];
    var c2 := c1[|c0| + 1 := d1];
    assert c2[..|c2| - 1] == c0 + ([Ins(C_OR), d1] + lc + bal1 + [Ins(C_JMP)]);
  }

  function CondCode(op: Op, v: nat, dist: nat, cc: Code): Code {
    [Ins(op), Num(v), Num(dist)] + cc
  }

  function ActionCode(commit: Op, v: nat, tc: Code, bal1: Code, dist: nat): Code {
    [Ins(commit), Num(v)] + tc + bal1 + Jump(dist)
  }

  lemma CondAssembled(c0: Code, op: Op, v: nat, cc: Code)
    ensures c0 + [Ins(op), Num(v), Num(0)] + cc == c0 + CondCode(op, v, 0, cc)
    ensures (c0 + CondCode(op, v, 0, cc))[|c0| + 3..] == cc
    ensures forall op1 :: (c0 + CondCode(op, v, 0, cc))[|c0| := Ins(op1)] == c0 + CondCode(op1, v, 0, cc)
  {
  }

  lemma ActionAssembled(c0: Code, commit: Op, v: nat, tc: Code, bal1: Code)
    ensures c0 + [Ins(commit), Num(v)] + tc + bal1 + [Ins(C_JMP), Num(0)] == c0 + ActionCode(commit, v, tc, bal1, 0)
  {
  }

  lemma ThenAssembled(c0: Code, op: Op, commit: Op, v: nat, cc: Code, tc: Code, bal1: Code)
    ensures var k := |c0| + 3;
            var c1 := c0 + CondCode(op, v, 0, cc) + ActionCode(commit, v, tc, bal1, 0);
            |c1| >= k && c1[k - 1 := Num(|c1| - k)] == c0 + ThenCode(op, commit, v, cc, tc, bal1)
  {
  }

  function ThenCode(op: Op, commit: Op, v: nat, cc: Code, tc: Code, bal1: Code): Code {
    CondCode(op, v, |cc| + 2 + |tc| + |bal1| + 2, cc) + ActionCode(commit, v, tc, bal1, 0)
  }

  /** Code ending in a jump distance, extended by what that jump skips. */
  function Skipping(c1: Code, ec: Code, bal2: Code): Code
    requires |c1| > 0
  {
    c1[..|c1| - 1] + [Num(|ec| + |bal2|)] + ec + bal2
  }

  lemma SkippingIs(c1: Code, ec: Code, bal2: Code)
    requires |c1| > 0
    ensures (c1 + ec + bal2)[|c1| - 1 := Num(|c1 + ec + bal2| - |c1|)] == Skipping(c1, ec, bal2)
  {
  }

  lemma ElseAssembled(c0: Code, op: Op, commit: Op, v: nat, cc: Code, tc: Code, bal1: Code, ec: Code, bal2: Code)
    ensures |ThenCode(op, commit, v, cc, tc, bal1)| > 0
    ensures Skipping(c0 + ThenCode(op, commit, v, cc, tc, bal1), ec, bal2)
            == c0 + IfCode(op, commit, v, cc, tc, bal1, ec, bal2)
  {
    var c1 := c0 + ThenCode(op, commit, v, cc, tc, bal1);
    var d1 := |cc| + 2 + |tc| + |bal1| + 2;
    assert c1[..|c1| - 1] == c0 + ([Ins(op), Num(v), Num(d1)] + cc + [Ins(commit), Num(v)] + tc + bal1 + [Ins(C_JMP)]);
  }

  lemma NotAssembled(c0: Code, v: nat, gc: Code, bal: Code)
    ensures var k := |c0| + 3;
            var c1 := c0 + [Ins(C_NOT), Num(v), Num(0)] + gc + [Ins(C_CUT), Num(v), Ins(C_FAIL)] + [Ins(C_JMP), Num(0)];
            var c2 := c1[k - 1 := Num(|c1| - k)] + bal;
            var c3 := c2[..|c1| - 2];
            c0 + NotCode(v, gc, bal) ==
              if bal != [] then c2[|c1| - 1 := Num(|c2| - |c1|)] else c3[k - 1 := Num(|c3| - k)]
  {
    var d1, d2 := Num(|gc| + 5), Num(|gc| + 3);
    var c1 := c0 + [Ins(C_NOT), Num(v), Num(0)] + gc + [Ins(C_CUT), Num(v), Ins(C_FAIL)] + [Ins(C_JMP), Num(0)];
    assert c1[|c0| + 2 := d1] == c0 + [Ins(C_NOT), Num(v), d1] + gc + [Ins(C_CUT), Num(v), Ins(C_FAIL)]
        + [Ins(C_JMP), Num(0)];
    if bal == [] {
      var c3 := c0 + [Ins(C_NOT), Num(v), d1] + gc + [Ins(C_CUT), Num(v), Ins(C_FAIL)];
      assert c1[|c0| + 2 := d1][..|c1| - 2] == c3;
      assert c3[|c0| + 2 := d2] == c0 + [Ins(C_NOT), Num(v), d2] + gc + [Ins(C_CUT), Num(v), Ins(C_FAIL)];
    }
  }

  // ----- reversal -----

  function Reversed(s: Code): Code {
    if s == [] then [] else Reversed(s[1..]) + [s[0]]
  }

  lemma {:induction false} ReversedLength(s: Code)
    ensures |Reversed(s)| == |s|
  {
    if s != [] { ReversedLength(s[1..]); }
  }

  lemma {:induction false} ReversedAt(s: Code, k: nat)
    requires k < |s|
    ensures k < |Reversed(s)| && Reversed(s)[k] == s[|s| - 1 - k]
  {
    ReversedLength(s);
    ReversedLength(s[1..]);
    if k < |s| - 1 { ReversedAt(s[1..], k); }
  }

  /** Reversing two adjacent blocks and then the whole swaps them. */
  lemma {:induction false} ThreeReversals(a: Code, b: Code)
    ensures Reversed(Reversed(a) + Reversed(b)) == b + a
  {
    ReversedLength(a);
    ReversedLength(b);
    var r := Reversed(a) + Reversed(b);
    ReversedLength(r);
    forall k | 0 <= k < |a| + |b| ensures Reversed(r)[k] == (b + a)[k] {
      ReversedAt(r, k);
      var j := |r| - 1 - k;
      if j < |a| { ReversedAt(a, j); } else { ReversedAt(b, j - |a|); }
    }
  }

  lemma PrefixedNothing(rest: Option<Code>)
    ensures Prefixed([], rest) == rest
  {
    assert rest.Some? ==> [] + rest.value == rest.value;
  }

  lemma PrefixedTwice(p: Code, q: Code, rest: Option<Code>)
    ensures Prefixed(p, Prefixed(q, rest)) == Prefixed(p + q, rest)
  {
    assert rest.Some? ==> p + (q + rest.value) == (p + q) + rest.value;
  }

  function Prefixed(p: Code, rest: Option<Code>): Option<Code> {
    match rest
    case None => None
    case Some(r) => Some(p + r)
  }
}
