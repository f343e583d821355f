// Running straight-line pieces of compiled code: arguments, balancing code, last-call blocks.

module Execution {
  import opened Terms
  import opened VmCode
  import opened CodeGen
  import opened Search
  import opened Machine

  ghost predicate Reaches(vm: Vm, c: Config, d: Config) {
    exists n: nat :: Steps(vm, c, n) == d
  }

  lemma ReachesSelf(vm: Vm, c: Config)
    ensures Reaches(vm, c, c)
  {
    assert Steps(vm, c, 0) == c;
  }

  lemma ReachesStep(vm: Vm, c: Config)
    ensures Reaches(vm, c, Step(vm, c))
  {
    assert Steps(vm, Step(vm, c), 0) == Step(vm, c);
    assert Steps(vm, c, 1) == Step(vm, c);
  }

  lemma {:induction false} StepsAdd(vm: Vm, c: Config, m: nat, n: nat)
    ensures Steps(vm, c, m + n) == Steps(vm, Steps(vm, c, m), n)
    decreases m
  {
    if m > 0 { StepsAdd(vm, Step(vm, c), m - 1, n); }
  }

  lemma ReachesTrans(vm: Vm, a: Config, b: Config, c: Config)
    requires Reaches(vm, a, b) && Reaches(vm, b, c)
    ensures Reaches(vm, a, c)
  {
    var m: nat :| Steps(vm, a, m) == b;
    var n: nat :| Steps(vm, b, n) == c;
    StepsAdd(vm, a, m, n);
  }

  /** One step from `c` continues to wherever the next configuration goes. */
  lemma ReachesVia(vm: Vm, c: Config, d: Config)
    requires Reaches(vm, Step(vm, c), d)
    ensures Reaches(vm, c, d)
  {
    ReachesStep(vm, c);
    ReachesTrans(vm, c, Step(vm, c), d);
  }

  /** The instruction at the program counter decides the step. */
  lemma StepIs(vm: Vm, c: Config, op: Op)
    requires c.Run? && c.pc + Size(op) <= |vm.code| && vm.code[c.pc] == Ins(op)
    ensures Step(vm, c) == Execute(vm, op, c)
  {
    hide Execute;
  }

  /** The instruction found at the start of a piece of code. */
  lemma Fetch(code: Code, pc: nat, op: Op, operands: Code, rest: Code)
    requires At(code, pc, [Ins(op)] + operands + rest) && |operands| == Size(op) - 1
    ensures pc + Size(op) <= |code| && code[pc] == Ins(op)
    ensures forall k :: 0 <= k < |operands| ==> code[pc + 1 + k] == operands[k]
    ensures At(code, pc + Size(op), rest)
  {
    var part := [Ins(op)] + operands + rest;
    AtSplit(code, pc, [Ins(op)] + operands, rest);
    AtCell(code, pc, part, 0);
    forall k | 0 <= k < |operands| ensures code[pc + 1 + k] == operands[k] {
      AtCell(code, pc, part, k + 1);
      assert part[k + 1] == operands[k];
    }
  }

  /** Fetch an instruction with at most two numeric operands. */
  lemma FetchNums(vm: Vm, pc: nat, op: Op, operands: seq<int>)
    requires |operands| == Size(op) - 1 <= 2
    requires At(vm.code, pc, Instr(op, operands))
    ensures pc + Size(op) <= |vm.code| && vm.code[pc] == Ins(op)
    ensures |operands| > 0 ==> NumAt(vm, pc + 1) == operands[0]
    ensures |operands| > 1 ==> NumAt(vm, pc + 2) == operands[1]
  {
    var code := Instr(op, operands);
    AtCell(vm.code, pc, code, 0);
    if |operands| > 0 { AtCell(vm.code, pc, code, 1); }
    if |operands| > 1 { AtCell(vm.code, pc, code, 2); }
  }

  function Instr(op: Op, operands: seq<int>): Code {
    [Ins(op)] + seq(|operands|, k requires 0 <= k < |operands| => Num(operands[k]))
  }

  lemma InstrIs(op: Op, a: int, b: int)
    ensures Instr(op, []) == [Ins(op)]
    ensures Instr(op, [a]) == [Ins(op), Num(a)]
    ensures Instr(op, [a, b]) == [Ins(op), Num(a), Num(b)]
  {
  }

  // ----- arguments -----

  /** The builder after the code of a right-most argument, whose compounds are still open. */
  function RightBuild(b: Build, t: Term, env: nat -> Term): Build
    decreases t, 1
  {
    if t.Cmp? then RightBuilds(Open(b, Functor(t.fname, |t.args|), true), t.args, env)
    else Add(b, Subst(t, env))
  }

  function RightBuilds(b: Build, ts: seq<Term>, env: nat -> Term): Build
    decreases ts, 0
  {
    if ts == [] then b
    else if |ts| == 1 then RightBuild(b, ts[0], env)
    else RightBuilds(Add(b, Subst(ts[0], env)), ts[1..], env)
  }

  function Fill(b: Build, f: Functor, right: bool, done: seq<Term>): Build {
    Build(b.args, b.open + [Pending(f, right, done)])
  }

  lemma AddToFill(b: Build, f: Functor, right: bool, done: seq<Term>, t: Term)
    ensures Add(Fill(b, f, right, done), t) == Fill(b, f, right, done + [t])
  {
    var g := Fill(b, f, right, done);
    assert g.open[..|g.open| - 1] == b.open;
  }

  lemma CloseFill(b: Build, f: Functor, right: bool, done: seq<Term>)
    requires |done| == f.arity
    ensures Close(Fill(b, f, right, done)) ==
            if right then Close(Add(b, Cmp(f.name, done))) else Some(Add(b, Cmp(f.name, done)))
  {
    var g := Fill(b, f, right, done);
    assert g.open[..|g.open| - 1] == b.open;
  }

  /** Closing right-most compounds has the same effect as adding the finished term and closing. */
  lemma {:induction false} CloseRight(b: Build, t: Term, env: nat -> Term)
    requires ProperTerm(t)
    ensures Close(RightBuild(b, t, env)) == Close(Add(b, Subst(t, env)))
    decreases t, 1
  {
    if t.Cmp? {
      var f := Functor(t.fname, |t.args|);
      CloseRights(b, f, true, [], t.args, env);
      assert [] + SubstAll(t.args, env) == SubstAll(t.args, env);
    }
  }

  lemma {:induction false} CloseRights(b: Build, f: Functor, right: bool, done: seq<Term>, ts: seq<Term>,
        env: nat -> Term)
    requires ts != [] && ProperTerms(ts) && |done| + |ts| == f.arity
    ensures var t := Cmp(f.name, done + SubstAll(ts, env));
            Close(RightBuilds(Fill(b, f, right, done), ts, env)) == if right then Close(Add(b, t)) else Some(Add(b, t))
    decreases ts, 0
  {
    var v := Subst(ts[0], env);
    AddToFill(b, f, right, done, v);
    if |ts| == 1 {
      CloseRight(Fill(b, f, right, done), ts[0], env);
      CloseFill(b, f, right, done + [v]);
      assert SubstAll(ts, env) == [v];
    } else {
      CloseRights(b, f, right, done + [v], ts[1..], env);
      assert done + [v] + SubstAll(ts[1..], env) == done + SubstAll(ts, env);
    }
  }

  function BuildCfg(pc: nat, vm: Vm, used: set<nat>, b: Build, s: Store, w: World): Config {
    Run(pc, FrameOf(vm.env, used), b, s, None, w)
  }

  lemma FrameGrows(env: nat -> Term, used: set<nat>, i: nat)
    ensures FrameOf(env, used + {i}) == FrameOf(env, used)[i := env(i)]
    ensures i in used ==> FrameOf(env, used + {i}) == FrameOf(env, used)
    ensures i in FrameOf(env, used) <==> i in used
    ensures i in used ==> FrameOf(env, used)[i] == env(i)
  {
    if i in used { assert used + {i} == used; }
  }

  /** Reading a variable, or making it on its first occurrence. */
  lemma ExecVar(vm: Vm, i: nat, inArg: bool, used: set<nat>, pc: nat, b: Build, s: Store, w: World)
    requires Below(vm.cl.arity) <= used
    requires At(vm.code, pc, GenVar(vm.cl, i, inArg, used))
    ensures Reaches(vm, BuildCfg(pc, vm, used, b, s, w),
                    BuildCfg(pc + |GenVar(vm.cl, i, inArg, used)|, vm, used + {i}, Add(b, vm.env(i)), s, w))
  {
    hide Step, Steps, Reaches, At, StepCall, StepMove, StepBranch, StepCut, StepInit, Close, FrameOf;
    var code := GenVar(vm.cl, i, inArg, used);
    var op := code[0].op;
    assert code == [Ins(op)] + code[1..] + [];
    Fetch(vm.code, pc, op, code[1..], []);
    if |code| > 1 { assert vm.code[pc + 1 + 0] == code[1..][0]; }
    if i < vm.cl.arity { assert i in Below(vm.cl.arity); }
    FrameGrows(vm.env, used, i);
    var c := BuildCfg(pc, vm, used, b, s, w);
    StepIs(vm, c, op);
    ReachesStep(vm, c);
  }

  lemma {:induction false} ExecArg(vm: Vm, t: Term, inArg: bool, right: bool, used: set<nat>, pc: nat, b: Build,
        s: Store, w: World)
    requires ProperTerm(t) && Below(vm.cl.arity) <= used
    requires At(vm.code, pc, GenArg(vm.cl, t, inArg, right, used))
    ensures Reaches(vm, BuildCfg(pc, vm, used, b, s, w),
                    BuildCfg(pc + |GenArg(vm.cl, t, inArg, right, used)|, vm, used + Vars(t),
                             if right then RightBuild(b, t, vm.env) else Add(b, Subst(t, vm.env)), s, w))
    decreases t, 1
  {
    hide Step, Steps, At, Reaches, FrameOf;
    var code := GenArg(vm.cl, t, inArg, right, used);
    var c := BuildCfg(pc, vm, used, b, s, w);
    match t
    case Var(i) => ExecVar(vm, i, inArg, used, pc, b, s, w);
    case Cmp(f, ts) => ExecCompound(vm, f, ts, right, used, pc, b, s, w);
    case _ =>
      ExecConstant(vm, t, used, pc, b, s, w);
      assert used + {} == used;
  }

  lemma ExecConstant(vm: Vm, t: Term, used: set<nat>, pc: nat, b: Build, s: Store, w: World)
    requires !t.Var? && !t.Cmp? && At(vm.code, pc, GenArg(vm.cl, t, false, false, used))
    ensures Reaches(vm, BuildCfg(pc, vm, used, b, s, w),
                    BuildCfg(pc + |GenArg(vm.cl, t, false, false, used)|, vm, used, Add(b, t), s, w))
  {
    hide Step, Steps, Reaches, At, StepCall, StepMove, StepBranch, StepCut, StepInit, Close, FrameOf, Add;
    var code := GenArg(vm.cl, t, false, false, used);
    var op := code[0].op;
    assert code == [Ins(op)] + code[1..] + [];
    Fetch(vm.code, pc, op, code[1..], []);
    if |code| > 1 { assert vm.code[pc + 1 + 0] == code[1..][0]; }
    var c := BuildCfg(pc, vm, used, b, s, w);
    StepIs(vm, c, op);
    ReachesStep(vm, c);
  }

  lemma {:induction false} ExecCompound(vm: Vm, f: Name, ts: seq<Term>, right: bool, used: set<nat>, pc: nat,
        b: Build, s: Store, w: World)
    requires ts != [] && ProperTerms(ts) && Below(vm.cl.arity) <= used
    requires At(vm.code, pc, GenArg(vm.cl, Cmp(f, ts), true, right, used))
    ensures Reaches(vm, BuildCfg(pc, vm, used, b, s, w),
                    BuildCfg(pc + |GenArg(vm.cl, Cmp(f, ts), true, right, used)|, vm, used + VarsOf(ts),
                             if right then RightBuild(b, Cmp(f, ts), vm.env) else Add(b, Subst(Cmp(f, ts), vm.env)),
                                 s, w))
    decreases ts, 3
  {
    hide Step, Steps, At, Reaches, FrameOf, Close, RightBuilds, GenSubs, GenFunctor, Add;
    var fn := Functor(f, |ts|);
    var head, subs := GenFunctor(fn, right), GenSubs(vm.cl, ts, used);
    var pop: Code := if right then [] else [Ins(B_POP)];
    AtSplit(vm.code, pc, head + subs, pop);
    AtSplit(vm.code, pc, head, subs);
    var c, c1 := BuildCfg(pc, vm, used, b, s, w), BuildCfg(pc + |head|, vm, used, Open(b, fn, right), s, w);
    ExecOpen(vm, fn, right, used, pc, b, s, w);
    ExecSubs(vm, ts, used, pc + |head|, Open(b, fn, right), s, w);
    var full := RightBuilds(Open(b, fn, right), ts, vm.env);
    var c2 := BuildCfg(pc + |head| + |subs|, vm, used + VarsOf(ts), full, s, w);
    ReachesTrans(vm, c, c1, c2);
    if !right {
      CloseRights(b, fn, false, [], ts, vm.env);
      assert [] + SubstAll(ts, vm.env) == SubstAll(ts, vm.env);
      ExecPop(vm, used + VarsOf(ts), pc + |head| + |subs|, full, s, w);
      ReachesTrans(vm, c, c2, BuildCfg(c2.pc + 1, vm, used + VarsOf(ts), Close(full).value, s, w));
    }
  }

  lemma ExecOpen(vm: Vm, f: Functor, right: bool, used: set<nat>, pc: nat, b: Build, s: Store, w: World)
    requires At(vm.code, pc, GenFunctor(f, right))
    ensures Reaches(vm, BuildCfg(pc, vm, used, b, s, w),
                    BuildCfg(pc + |GenFunctor(f, right)|, vm, used, Open(b, f, right), s, w))
  {
    hide Step, Steps, Reaches, At, StepCall, StepMove, StepBranch, StepCut, StepInit, Close, FrameOf;
    var head := GenFunctor(f, right);
    var op := head[0].op;
    assert head == [Ins(op)] + head[1..] + [];
    Fetch(vm.code, pc, op, head[1..], []);
    if |head| > 1 { assert vm.code[pc + 1 + 0] == head[1..][0]; }
    var c := BuildCfg(pc, vm, used, b, s, w);
    StepIs(vm, c, op);
    ReachesStep(vm, c);
  }

  lemma ExecPop(vm: Vm, used: set<nat>, pc: nat, b: Build, s: Store, w: World)
    requires At(vm.code, pc, [Ins(B_POP)]) && Close(b).Some?
    ensures Reaches(vm, BuildCfg(pc, vm, used, b, s, w), BuildCfg(pc + 1, vm, used, Close(b).value, s, w))
  {
    hide Step, Steps, Reaches, At, StepCall, StepMove, StepBranch, StepCut, StepInit, Close, FrameOf;
    assert [Ins(B_POP)] == [Ins(B_POP)] + [] + [];
    Fetch(vm.code, pc, B_POP, [], []);
    var c := BuildCfg(pc, vm, used, b, s, w);
    StepIs(vm, c, B_POP);
    ReachesStep(vm, c);
  }

  lemma {:induction false} ExecSubs(vm: Vm, ts: seq<Term>, used: set<nat>, pc: nat, b: Build, s: Store, w: World)
    requires ts != [] && ProperTerms(ts) && Below(vm.cl.arity) <= used
    requires At(vm.code, pc, GenSubs(vm.cl, ts, used))
    ensures Reaches(vm, BuildCfg(pc, vm, used, b, s, w),
                    BuildCfg(pc + |GenSubs(vm.cl, ts, used)|, vm, used + VarsOf(ts), RightBuilds(b, ts, vm.env), s, w))
    decreases ts, 2
  {
    hide Step, Steps, At, Reaches, Add;
    var last := |ts| == 1;
    var arg := GenArg(vm.cl, ts[0], true, last, used);
    var rest := GenSubs(vm.cl, ts[1..], used + Vars(ts[0]));
    AtSplit(vm.code, pc, arg, rest);
    ExecArg(vm, ts[0], true, last, used, pc, b, s, w);
    assert used + Vars(ts[0]) + VarsOf(ts[1..]) == used + VarsOf(ts);
    if last {
      assert ts[1..] == [];
      assert arg + rest == arg && used + Vars(ts[0]) == used + VarsOf(ts);
    } else {
      var b1 := Add(b, Subst(ts[0], vm.env));
      ExecSubs(vm, ts[1..], used + Vars(ts[0]), pc + |arg|, b1, s, w);
      ReachesTrans(vm, BuildCfg(pc, vm, used, b, s, w),
                   BuildCfg(pc + |arg|, vm, used + Vars(ts[0]), b1, s, w),
                   BuildCfg(pc + |arg| + |rest|, vm, used + VarsOf(ts), RightBuilds(b, ts, vm.env), s, w));
    }
  }

  /** The arguments of a goal end up, instantiated and in order, in the argument area. */
  lemma {:induction false} ExecArgs(vm: Vm, ts: seq<Term>, used: set<nat>, pc: nat, done: seq<Term>, s: Store, w: World)
    requires ProperTerms(ts) && Below(vm.cl.arity) <= used
    requires At(vm.code, pc, GenArgs(vm.cl, ts, used))
    ensures Reaches(vm, BuildCfg(pc, vm, used, Build(done, []), s, w),
                    BuildCfg(pc + |GenArgs(vm.cl, ts, used)|, vm, used + VarsOf(ts),
                        Build(done + SubstAll(ts, vm.env), []), s, w))
    decreases ts
  {
    hide Step, Steps, At, Reaches, FrameOf, GenArg;
    var c := BuildCfg(pc, vm, used, Build(done, []), s, w);
    if ts == [] {
      assert done + [] == done && used + {} == used;
      ReachesSelf(vm, c);
    } else {
      var arg := GenArg(vm.cl, ts[0], false, false, used);
      var rest := GenArgs(vm.cl, ts[1..], used + Vars(ts[0]));
      AtSplit(vm.code, pc, arg, rest);
      ExecArg(vm, ts[0], false, false, used, pc, Build(done, []), s, w);
      var done1 := done + [Subst(ts[0], vm.env)];
      ExecArgs(vm, ts[1..], used + Vars(ts[0]), pc + |arg|, done1, s, w);
      assert used + Vars(ts[0]) + VarsOf(ts[1..]) == used + VarsOf(ts);
      assert done1 + SubstAll(ts[1..], vm.env) == done + SubstAll(ts, vm.env);
      ReachesTrans(vm, c, BuildCfg(pc + |arg|, vm, used + Vars(ts[0]), Build(done1, []), s, w),
                   BuildCfg(pc + |arg| + |rest|, vm, used + VarsOf(ts), Build(done + SubstAll(ts, vm.env), []), s, w));
    }
  }

  // ----- balancing -----

  /** The pending run, and the members of `m` still to come. */
  function Span(at: nat, count: nat): (r: set<nat>)
    ensures forall k :: k in r <==> at <= k < at + count
    decreases count
  {
    if count == 0 then {} else {at} + Span(at + 1, count - 1)
  }

  function From(m: set<nat>, i: nat): set<nat> {
    set k | k in m && k >= i
  }

  function Plain(pc: nat, vm: Vm, used: set<nat>, s: Store, w: World): Config {
    Run(pc, FrameOf(vm.env, used), NoArgs, s, None, w)
  }

  lemma {:induction false} InitialiseSpan(vm: Vm, c: Config, pc: nat, used: set<nat>, at: nat, count: nat, s: Store,
        w: World)
    requires c.Run? && used !! Span(at, count)
    ensures Initialise(vm, c, Plain(pc, vm, used, s, w), at, count) == Plain(pc, vm, used + Span(at, count), s, w)
    decreases count
  {
    if count == 0 {
      assert used + {} == used;
    } else {
      assert at in Span(at, count);
      FrameGrows(vm.env, used, at);
      forall k | k in Span(at + 1, count - 1) ensures k !in used + {at} { assert k in Span(at, count); }
      InitialiseSpan(vm, c, pc, used + {at}, at + 1, count - 1, s, w);
      assert used + {at} + Span(at + 1, count - 1) == used + Span(at, count);
    }
  }

  /** C_VAR and C_VAR_N step to the initialised frame. */
  lemma StepFlush(vm: Vm, c: Config, at: nat, count: nat)
    requires c.Run? && count > 0 && At(vm.code, c.pc, Flush(at, count))
    ensures Step(vm, c) == Initialise(vm, c, c.(pc := c.pc + |Flush(at, count)|), at, count)
  {
    hide Step, Steps, At, Instr, NumAt, Initialise, StepArg, StepCall, StepMove, StepBranch, StepCut;
    if count == 1 {
      InstrIs(C_VAR, at, count);
      FetchNums(vm, c.pc, C_VAR, [at]);
      StepIs(vm, c, C_VAR);
    } else {
      InstrIs(C_VAR_N, at, count);
      FetchNums(vm, c.pc, C_VAR_N, [at, count]);
      StepIs(vm, c, C_VAR_N);
    }
  }

  lemma ExecFlush(vm: Vm, at: nat, count: nat, pc: nat, used: set<nat>, s: Store, w: World)
    requires At(vm.code, pc, Flush(at, count)) && used !! Span(at, count)
    ensures Reaches(vm, Plain(pc, vm, used, s, w), Plain(pc + |Flush(at, count)|, vm, used + Span(at, count), s, w))
  {
    hide Step, Steps, Initialise, Size;
    var c := Plain(pc, vm, used, s, w);
    if count == 0 {
      assert used + {} == used;
      ReachesSelf(vm, c);
    } else {
      StepFlush(vm, c, at, count);
      InitialiseSpan(vm, c, pc + |Flush(at, count)|, used, at, count, s, w);
      ReachesStep(vm, c);
    }
  }

  /** Balancing code initialises exactly the pending run and what is left of `m`, each slot once. */
  lemma {:induction false} ExecBalanceFrom(vm: Vm, m: set<nat>, i: nat, bits: nat, at: nat, count: nat, pc: nat,
        used: set<nat>, s: Store, w: World)
    requires i <= bits && m <= Below(bits) && (count > 0 ==> at + count <= i)
    requires used !! Span(at, count) && used !! From(m, i)
    requires At(vm.code, pc, BalanceFrom(m, i, bits, at, count))
    ensures Reaches(vm, Plain(pc, vm, used, s, w),
                    Plain(pc + |BalanceFrom(m, i, bits, at, count)|, vm, used + Span(at, count) + From(m, i), s, w))
    decreases bits - i
  {
    hide Step, Steps, Flush, Size;
    if i == bits {
      ExecFlush(vm, at, count, pc, used, s, w);
      assert forall k :: k in m ==> k in Below(bits);
      assert From(m, i) == {};
      assert used + Span(at, count) + {} == used + Span(at, count);
    } else if i !in m {
      assert From(m, i) == From(m, i + 1);
      ExecBalanceFrom(vm, m, i + 1, bits, at, count, pc, used, s, w);
    } else {
      SpanFacts(m, i, at, count, used);
      if count == 0 {
        ExecBalanceFrom(vm, m, i + 1, bits, i, 1, pc, used, s, w);
      } else if i == at + 1 {
        ExecBalanceFrom(vm, m, i + 1, bits, at, 2, pc, used, s, w);
      } else {
        ExecBalanceSplit(vm, m, i, bits, at, count, pc, used, s, w);
      }
    }
  }

  lemma SpanFacts(m: set<nat>, i: nat, at: nat, count: nat, used: set<nat>)
    requires i in m && used !! From(m, i)
    ensures used !! Span(i, 1) && used !! From(m, i + 1)
    ensures used + Span(i, 1) + From(m, i + 1) == used + From(m, i) == used + Span(at, 0) + From(m, i)
    ensures i == at + 1 ==> used + Span(at, 2) + From(m, i + 1) == used + Span(at, 1) + From(m, i)
    ensures used + Span(at, count) + Span(i, 1) + From(m, i + 1) == used + Span(at, count) + From(m, i)
  {
    assert From(m, i) == {i} + From(m, i + 1);
    assert Span(i, 1) == {i} + Span(i + 1, 0);
    if i == at + 1 { assert Span(at, 2) == Span(at, 1) + {i}; }
  }

  /** A run that cannot be extended is emitted and a new one started. */
  lemma {:induction false} ExecBalanceSplit(vm: Vm, m: set<nat>, i: nat, bits: nat, at: nat, count: nat, pc: nat,
        used: set<nat>, s: Store, w: World)
    requires i < bits && i in m && m <= Below(bits) && 0 < count && at + count <= i && i != at + 1
    requires used !! Span(at, count) && used !! From(m, i)
    requires At(vm.code, pc, BalanceFrom(m, i, bits, at, count))
    ensures Reaches(vm, Plain(pc, vm, used, s, w),
                    Plain(pc + |BalanceFrom(m, i, bits, at, count)|, vm, used + Span(at, count) + From(m, i), s, w))
    decreases bits - i, 0
  {
    hide Step, Steps, Size;
    var first, rest := Flush(at, count), BalanceFrom(m, i + 1, bits, i, 1);
    assert BalanceFrom(m, i, bits, at, count) == first + rest;
    hide Flush;
    AtSplit(vm.code, pc, first, rest);
    ExecFlush(vm, at, count, pc, used, s, w);
    SpanFacts(m, i, at, count, used);
    var used1 := used + Span(at, count);
    assert used1 !! Span(i, 1) && used1 !! From(m, i + 1);
    ExecBalanceFrom(vm, m, i + 1, bits, i, 1, pc + |first|, used1, s, w);
    ReachesTrans(vm, Plain(pc, vm, used, s, w), Plain(pc + |first|, vm, used1, s, w),
                 Plain(pc + |first + rest|, vm, used1 + Span(i, 1) + From(m, i + 1), s, w));
  }

  /** Balancing turns a frame holding exactly `have` into one holding `have` and `want`. */
  lemma ExecBalance(vm: Vm, have: set<nat>, want: set<nat>, pc: nat, s: Store, w: World)
    requires want <= Below(vm.cl.bits)
    requires At(vm.code, pc, Balance(vm.cl, have, want))
    ensures Reaches(vm, Plain(pc, vm, have, s, w), Plain(pc + |Balance(vm.cl, have, want)|, vm, have + want, s, w))
  {
    var m := want - have;
    assert From(m, 0) == m;
    ExecBalanceFrom(vm, m, 0, vm.cl.bits, 0, 0, pc, have, s, w);
    assert have + Span(0, 0) + m == have + want;
  }
}
