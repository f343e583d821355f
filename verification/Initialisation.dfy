// Definite initialisation: in the code of every body, whatever its cuts do, no instruction but a cut
// can go wrong.
//
// A safe place is one from which the machine runs for n steps without going wrong, in every world whose
// choice points are safe places for fewer steps.

module Initialisation {
  import opened Terms
  import opened VmCode
  import opened CodeGen
  import opened CodeShapes
  import opened Search
  import opened Machine
  import opened Execution
  import opened Answers
  import opened DeadChoices
  import opened ControlSteps
  import opened GoalRuns
  import opened Conditions
  import opened FastConditions
  import opened Layout

  predicate CutOp(op: Op) {
    IsCut(op) || op.I_CUT?
  }

  /** The configuration is about to execute a cut. */
  predicate AtCut(vm: Vm, c: Config) {
    c.Run? && c.pc < |vm.code| && vm.code[c.pc].Ins? && CutOp(vm.code[c.pc].op)
  }

  /** The next instruction, unless it is a cut, finds what it needs. */
  predicate Sane(vm: Vm, c: Config) {
    c.Run? && Step(vm, c).Stuck? ==> AtCut(vm, c)
  }

  ghost predicate Safe(vm: Vm, c: Config, n: nat)
    decreases n
  {
    Sane(vm, c) && (n > 0 ==> Safe(vm, Step(vm, c), n - 1))
  }

  ghost predicate SafePlace(vm: Vm, pc: nat, frame: Frame, n: nat)
    decreases n, 2
  {
    forall k: nat, s: Store, w: World | k <= n && SafeWorld(vm, w, k) :: Safe(vm, Run(pc, frame, NoArgs, s, None, w), k)
  }

  ghost predicate SafeWorld(vm: Vm, w: World, n: nat)
    decreases n, 1
  {
    forall i :: 0 <= i < |w.chain| ==> SafeAlt(vm, w.chain[i].alt, n)
  }

  ghost predicate SafeAlt(vm: Vm, alt: Alt, n: nat)
    decreases n, 0
  {
    n > 0 ==>
      match alt
      case Base => true
      case Jump(pc, frame, _) => SafePlace(vm, pc, frame, n - 1)
      case Redo(pc, frame, _) => SafePlace(vm, pc, frame, n - 1)
  }

  /** Safe at `pc` with exactly `used` initialised. */
  ghost predicate SafeEntry(vm: Vm, pc: nat, used: set<nat>, n: nat) {
    SafePlace(vm, pc, FrameOf(vm.env, used), n)
  }

  // ----- fewer steps -----

  lemma {:induction false} SafeLess(vm: Vm, c: Config, n: nat, m: nat)
    requires Safe(vm, c, n) && m <= n
    ensures Safe(vm, c, m)
    decreases n
  {
    hide Step, Sane;
    if m > 0 { SafeLess(vm, Step(vm, c), n - 1, m - 1); }
  }

  lemma PlaceLess(vm: Vm, pc: nat, frame: Frame, n: nat, m: nat)
    requires SafePlace(vm, pc, frame, n) && m <= n
    ensures SafePlace(vm, pc, frame, m)
  {
    hide Safe, SafeWorld;
  }

  lemma AltLess(vm: Vm, alt: Alt, n: nat, m: nat)
    requires SafeAlt(vm, alt, n) && m <= n
    ensures SafeAlt(vm, alt, m)
  {
    hide SafePlace;
    if m > 0 {
      match alt
      case Base =>
      case Jump(pc, frame, _) => PlaceLess(vm, pc, frame, n - 1, m - 1);
      case Redo(pc, frame, _) => PlaceLess(vm, pc, frame, n - 1, m - 1);
    }
  }

  lemma WorldLess(vm: Vm, w: World, n: nat, m: nat)
    requires SafeWorld(vm, w, n) && m <= n
    ensures SafeWorld(vm, w, m)
  {
    hide SafeAlt;
    forall i | 0 <= i < |w.chain| ensures SafeAlt(vm, w.chain[i].alt, m) { AltLess(vm, w.chain[i].alt, n, m); }
  }

  // ----- safety of configurations -----

  lemma {:induction false} SafeFinal(vm: Vm, c: Config, n: nat)
    requires c.Halt? || c.Stuck?
    ensures Safe(vm, c, n)
    decreases n
  {
    if n > 0 { SafeFinal(vm, c, n - 1); }
  }

  lemma StuckStays(vm: Vm, n: nat)
    ensures Steps(vm, Stuck, n) == Stuck
  {
  }

  /** What leads to a safe configuration is safe. */
  lemma {:induction false} SafeBefore(vm: Vm, c: Config, d: Config, m: nat, n: nat)
    requires Steps(vm, c, m) == d && !d.Stuck? && Safe(vm, d, n)
    ensures Safe(vm, c, n)
    decreases m
  {
    hide Step;
    if m > 0 {
      var c1 := Step(vm, c);
      SafeBefore(vm, c1, d, m - 1, n);
      if c1.Stuck? { StuckStays(vm, m - 1); }
      if n > 0 { SafeLess(vm, c1, n, n - 1); }
    }
  }

  lemma SafeVia(vm: Vm, c: Config, d: Config, n: nat)
    requires Reaches(vm, c, d) && !d.Stuck? && Safe(vm, d, n)
    ensures Safe(vm, c, n)
  {
    hide Safe, Steps;
    var m: nat :| Steps(vm, c, m) == d;
    SafeBefore(vm, c, d, m, n);
  }

  lemma SafeRun(vm: Vm, pc: nat, used: set<nat>, n: nat, k: nat, s: Store, w: World)
    requires SafeEntry(vm, pc, used, n) && k <= n && SafeWorld(vm, w, k)
    ensures Safe(vm, Plain(pc, vm, used, s, w), k)
  {
    hide Safe, SafeWorld, FrameOf;
  }

  lemma PlaceRun(vm: Vm, pc: nat, frame: Frame, k: nat, s: Store, w: World)
    requires SafePlace(vm, pc, frame, k) && SafeWorld(vm, w, k)
    ensures Safe(vm, Run(pc, frame, NoArgs, s, None, w), k)
  {
    hide Safe, SafeWorld;
  }

  lemma ShorterWorld(vm: Vm, w: World, chain: seq<Choice>, marks: map<nat, int>, dead: map<nat, nat>, next: nat,
        out: seq<Store>, n: nat)
    requires SafeWorld(vm, w, n) && forall i :: 0 <= i < |chain| ==> chain[i] in w.chain
    ensures SafeWorld(vm, World(chain, marks, dead, next, out), n)
  {
    hide SafeAlt;
  }

  lemma PushWorld(vm: Vm, w: World, alt: Alt, n: nat)
    requires SafeWorld(vm, w, n) && SafeAlt(vm, alt, n)
    ensures SafeWorld(vm, Push(w, alt), n)
  {
    hide SafeAlt;
  }

  /** Backtracking into safe choice points is safe. */
  lemma SafeBack(vm: Vm, w: World, n: nat)
    requires SafeWorld(vm, w, n)
    ensures Safe(vm, Back(w), n)
  {
    if n > 0 {
      var d := Step(vm, Back(w));
      if w.chain != [] {
        var k := |w.chain| - 1;
        var rest := w.(chain := w.chain[..k]);
        assert SafeAlt(vm, w.chain[k].alt, n);
        WorldLess(vm, w, n, n - 1);
        ShorterWorld(vm, w, w.chain[..k], w.marks, w.dead, w.next, w.out, n - 1);
        hide SafeWorld, SafePlace, Safe;
        match w.chain[k].alt {
          case Base => SafeFinal(vm, d, n - 1);
          case Jump(pc, frame, s) => PlaceRun(vm, pc, frame, n - 1, s, rest);
          case Redo(pc, frame, answers) =>
            if answers == [] {
              SafeFinal(vm, d, n - 1);
            } else if |answers| == 1 {
              assert w.chain[..k] + [] == w.chain[..k];
              PlaceRun(vm, pc, frame, n - 1, answers[0], rest);
            } else {
              if n > 1 { PlaceLess(vm, pc, frame, n - 1, n - 2); }
              OneMore(vm, rest, Choice(w.chain[k].addr, Redo(pc, frame, answers[1..])), n - 1);
              PlaceRun(vm, pc, frame, n - 1, answers[0],
                  rest.(chain := rest.chain + [Choice(w.chain[k].addr, Redo(pc, frame, answers[1..]))]));
            }
        }
      } else {
        SafeFinal(vm, d, n - 1);
      }
    }
  }

  lemma OneMore(vm: Vm, w: World, ch: Choice, n: nat)
    requires SafeWorld(vm, w, n) && SafeAlt(vm, ch.alt, n)
    ensures SafeWorld(vm, w.(chain := w.chain + [ch]), n)
  {
    hide SafeAlt;
  }

  lemma SafeAnswer(vm: Vm, pc: nat, frame: Frame, answers: seq<Store>, w: World, n: nat)
    requires SafePlace(vm, pc, frame, n) && SafeWorld(vm, w, n)
    ensures Safe(vm, Answer(pc, frame, answers, w), n) && !Answer(pc, frame, answers, w).Stuck?
  {
    hide Safe, SafePlace, SafeWorld;
    if answers == [] {
      SafeBack(vm, w, n);
    } else if |answers| == 1 {
      PlaceRun(vm, pc, frame, n, answers[0], w);
    } else {
      if n > 0 { PlaceLess(vm, pc, frame, n, n - 1); }
      PushWorld(vm, w, Redo(pc, frame, answers[1..]), n);
      PlaceRun(vm, pc, frame, n, answers[0], Push(w, Redo(pc, frame, answers[1..])));
    }
  }

  /** The end of the clause is safe with any frame. */
  lemma SafeExit(vm: Vm, frame: Frame, n: nat)
    requires vm.code != [] && vm.code[ExitPc(vm)] == Ins(I_EXIT)
    ensures SafePlace(vm, ExitPc(vm), frame, n)
  {
    hide SafeWorld, Safe;
    forall k: nat, s: Store, w: World | k <= n && SafeWorld(vm, w, k)
      ensures Safe(vm, Run(ExitPc(vm), frame, NoArgs, s, None, w), k)
    {
      var c := Run(ExitPc(vm), frame, NoArgs, s, None, w);
      StepIs(vm, c, I_EXIT);
      ReachesStep(vm, c);
      ShorterWorld(vm, w, w.chain, w.marks, w.dead, w.next, w.out + [s], k);
      SafeBack(vm, w.(out := w.out + [s]), k);
      SafeVia(vm, c, Step(vm, c), k);
    }
  }

  // ----- the constructs -----

  lemma PlaceIf(vm: Vm, pc: nat, frame: Frame, n: nat)
    requires forall k: nat, s: Store, w: World | k <= n && SafeWorld(vm, w, k) ::
             Safe(vm, Run(pc, frame, NoArgs, s, None, w), k)
    ensures SafePlace(vm, pc, frame, n)
  {
  }

  lemma EntryIf(vm: Vm, pc: nat, used: set<nat>, n: nat)
    requires forall k: nat, s: Store, w: World | k <= n && SafeWorld(vm, w, k) :: Safe(vm, Plain(pc, vm, used, s, w), k)
    ensures SafeEntry(vm, pc, used, n)
  {
    hide FrameOf, Safe, SafeWorld, SafeEntry;
    var frame := FrameOf(vm.env, used);
    forall k: nat, s: Store, w: World | k <= n && SafeWorld(vm, w, k)
        ensures Safe(vm, Run(pc, frame, NoArgs, s, None, w), k) {
      assert Plain(pc, vm, used, s, w) == Run(pc, frame, NoArgs, s, None, w);
    }
    PlaceIf(vm, pc, frame, n);
    PlaceIsEntry(vm, pc, used, n);
  }

  lemma SafeLeads(vm: Vm, x: Exit, y: Exit, n: nat)
    requires LeadsTo(vm, x, y) && SafeEntry(vm, y.pc, y.used, n)
    ensures SafeEntry(vm, x.pc, x.used, n)
  {
    hide SafeWorld, Safe, FrameOf, SafeEntry, Reaches;
    forall k: nat, s: Store, w: World | k <= n && SafeWorld(vm, w, k)
        ensures Safe(vm, Plain(x.pc, vm, x.used, s, w), k) {
      SafeRun(vm, y.pc, y.used, n, k, s, w);
      SafeVia(vm, Plain(x.pc, vm, x.used, s, w), Plain(y.pc, vm, y.used, s, w), k);
    }
    EntryIf(vm, x.pc, x.used, n);
  }

  lemma GoalSafe(vm: Vm, f: Name, ts: seq<Term>, depart: bool, used: set<nat>, pc: nat, n: nat)
    requires ProperTerms(ts) && Below(vm.cl.arity) <= used && At(vm.code, pc, GenGoal(vm.cl, f, ts, depart, used))
    requires SafeEntry(vm, pc + |GenGoal(vm.cl, f, ts, depart, used)|, used + VarsOf(ts), n)
    requires vm.code != [] && vm.code[ExitPc(vm)] == Ins(I_EXIT)
    ensures SafeEntry(vm, pc, used, n)
  {
    hide SafeWorld, Safe, FrameOf, SafePlace, SafeEntry, Reaches, At, Answer, GenArgs, GenDepart, ExitPc, MayReuse;
    var end := pc + |GenGoal(vm.cl, f, ts, depart, used)|;
    forall k: nat, s: Store, w: World | k <= n && SafeWorld(vm, w, k) ensures Safe(vm, Plain(pc, vm, used, s, w), k) {
      var pc1, frame := end, FrameOf(vm.env, used + VarsOf(ts));
      if f.Type? && |ts| == 1 && ts[0].Var? && ts[0].index in used {
        TypeReaches(vm, f, ts, used, pc, s, w);
      } else if depart {
        pc1, frame := DepartReaches(vm, f, ts, used, pc, s, w);
      } else {
        CallReaches(vm, f, ts, false, used, pc, s, w);
      }
      var answers := vm.p.Call(Functor(f, |ts|), SubstAll(ts, vm.env), s);
      if pc1 == end && frame == FrameOf(vm.env, used + VarsOf(ts)) {
        EntryPlace(vm, end, used + VarsOf(ts), n, k);
      } else {
        SafeExit(vm, frame, k);
      }
      SafeAnswer(vm, pc1, frame, answers, w, k);
      SafeVia(vm, Plain(pc, vm, used, s, w), Answer(pc1, frame, answers, w), k);
    }
    EntryIf(vm, pc, used, n);
  }

  lemma EntryPlace(vm: Vm, pc: nat, used: set<nat>, n: nat, k: nat)
    requires SafeEntry(vm, pc, used, n) && k <= n
    ensures SafePlace(vm, pc, FrameOf(vm.env, used), k)
  {
    hide SafePlace, FrameOf;
    PlaceLess(vm, pc, FrameOf(vm.env, used), n, k);
  }

  lemma NopSafe(vm: Vm, op: Op, pc: nat, used: set<nat>, n: nat)
    requires (op.C_SCUT? || op.C_END? || op.I_TRUE?) && At(vm.code, pc, [Ins(op)]) && SafeEntry(vm, pc + 1, used, n)
    ensures SafeEntry(vm, pc, used, n)
  {
    hide SafeWorld, Safe, FrameOf, SafeEntry, Reaches, At, Step;
    forall k: nat, s: Store, w: World | k <= n && SafeWorld(vm, w, k) ensures Safe(vm, Plain(pc, vm, used, s, w), k) {
      StepNop(vm, op, pc, used, s, w);
      ReachesStep(vm, Plain(pc, vm, used, s, w));
      SafeRun(vm, pc + 1, used, n, k, s, w);
      SafeVia(vm, Plain(pc, vm, used, s, w), Plain(pc + 1, vm, used, s, w), k);
    }
    EntryIf(vm, pc, used, n);
  }

  lemma FailSafe(vm: Vm, op: Op, pc: nat, used: set<nat>, n: nat)
    requires (op.C_FAIL? || op.I_FAIL?) && At(vm.code, pc, [Ins(op)])
    ensures SafeEntry(vm, pc, used, n)
  {
    hide SafeWorld, Safe, FrameOf, SafeEntry, Reaches, At, Step;
    forall k: nat, s: Store, w: World | k <= n && SafeWorld(vm, w, k) ensures Safe(vm, Plain(pc, vm, used, s, w), k) {
      StepFail(vm, op, pc, used, s, w);
      ReachesStep(vm, Plain(pc, vm, used, s, w));
      SafeBack(vm, w, k);
      SafeVia(vm, Plain(pc, vm, used, s, w), Back(w), k);
    }
    EntryIf(vm, pc, used, n);
  }

  // ----- cuts drop choice points, or go wrong themselves -----

  lemma {:induction false} CutToIn(chain: seq<Choice>, a: nat)
    ensures forall i :: 0 <= i < |CutTo(chain, a)| ==> CutTo(chain, a)[i] in chain
    decreases |chain|
  {
    if !(chain == [] || Top(chain) <= a) { CutToIn(chain[..|chain| - 1], a); }
  }

  lemma {:induction false} LocalCutIn(chain: seq<Choice>, och: nat)
    ensures var r := LocalCutTo(chain, och); r.Some? ==> forall i :: 0 <= i < |r.value| ==> r.value[i] in chain
    decreases |chain|
  {
    if chain != [] {
      var init := chain[..|chain| - 1];
      LocalCutIn(init, och);
      assert forall i :: 0 <= i < |init| ==> init[i] == chain[i];
      var r := LocalCutTo(chain, och);
      if r.Some? && Top(init) != och {
        assert r == LocalCutTo(init, och);
        forall i | 0 <= i < |r.value| ensures r.value[i] in chain { assert r.value[i] in init; }
      }
    }
  }

  /** A world whose choice points are some of those of `w`. */
  ghost predicate FewerIn(w: World, w1: World) {
    forall i :: 0 <= i < |w1.chain| ==> w1.chain[i] in w.chain
  }

  /** Only choice points are lost on the way to `d`, or the cut goes wrong. */
  ghost predicate Drops(c: Config, next: Config, d: Config)
    requires c.Run? && next.Run?
  {
    d.Stuck? || (d.Run? && d == next.(w := d.w) && FewerIn(c.w, d.w))
  }

  lemma CommitFewer(c: Config, next: Config, mark: int)
    requires c.Run? && next.Run? && next.w == c.w
    ensures Drops(c, next, Commit(c, next, mark))
  {
    hide CutTo;
    if mark >= 0 { CutToIn(c.w.chain, mark); }
  }

  lemma LocalCommitFewer(c: Config, next: Config, och: nat)
    requires c.Run? && next.Run? && next.w == c.w
    ensures Drops(c, next, LocalCommit(c, next, och))
  {
    hide LocalCutTo;
    LocalCutIn(c.w.chain, och);
  }

  lemma SoftCutFewer(c: Config, next: Config, v: nat)
    requires c.Run? && next.Run? && v in c.w.marks
    ensures Drops(c, next, next.(w := SoftCut(c.w, v)))
  {
  }

  lemma StepCutFewer(vm: Vm, op: Op, c: Config)
    requires c.Run? && c.pc + Size(op) <= |vm.code| && c.fast.None?
    ensures Drops(c, c.(pc := c.pc + Size(op)), StepCut(vm, op, c))
  {
    hide Commit, LocalCommit, SoftCut, NumAt, Size, Drops, StepCut;
    StepCutIs(vm, op, c);
    var d, next, a := StepCut(vm, op, c), c.(pc := c.pc + Size(op)), NumAt(vm, c.pc + 1);
    StuckDrops(c, next);
    if m: int :| d == Commit(c, next, m) {
      CommitFewer(c, next, m);
    } else if och: nat :| d == LocalCommit(c, next, och) {
      LocalCommitFewer(c, next, och);
    } else if a >= 0 && a in c.w.marks {
      SoftCutFewer(c, next, a);
    }
  }

  lemma StuckDrops(c: Config, next: Config)
    requires c.Run? && next.Run?
    ensures Drops(c, next, Stuck)
  {
  }

  lemma CutSteps(vm: Vm, cut: Op, pc: nat, used: set<nat>, s: Store, w: World, v: nat)
    requires IsCut(cut) && At(vm.code, pc, [Ins(cut), Num(v)])
    ensures var d := Step(vm, Plain(pc, vm, used, s, w));
            d.Stuck? || (d.Run? && d == Plain(pc + 2, vm, used, s, d.w) && FewerIn(w, d.w))
    ensures AtCut(vm, Plain(pc, vm, used, s, w))
  {
    hide Step, Instr, NumAt, FrameOf, StepArg, StepCall, StepMove, StepBranch, StepInit, StepCut, FewerIn;
    InstrIs(cut, v, 0);
    FetchNums(vm, pc, cut, [v]);
    var c := Plain(pc, vm, used, s, w);
    StepIs(vm, c, cut);
    StepCutFewer(vm, cut, c);
  }

  lemma AfterCut(vm: Vm, c: Config, d: Config, k: nat)
    requires AtCut(vm, c) && Step(vm, c) == d && Safe(vm, d, k)
    ensures Safe(vm, c, k)
  {
    hide Step;
    if k > 0 { SafeLess(vm, d, k, k - 1); }
  }

  lemma CutSafe(vm: Vm, cut: Op, v: nat, pc: nat, used: set<nat>, n: nat)
    requires IsCut(cut) && At(vm.code, pc, [Ins(cut), Num(v)]) && SafeEntry(vm, pc + 2, used, n)
    ensures SafeEntry(vm, pc, used, n)
  {
    hide SafeWorld, Safe, FrameOf, SafeEntry, At, Step, AtCut, IsCut;
    forall k: nat, s: Store, w: World | k <= n && SafeWorld(vm, w, k) ensures Safe(vm, Plain(pc, vm, used, s, w), k) {
      var c := Plain(pc, vm, used, s, w);
      var d := Step(vm, c);
      CutSteps(vm, cut, pc, used, s, w, v);
      if d.Stuck? {
        SafeFinal(vm, d, k);
      } else {
        ShorterWorld(vm, w, d.w.chain, d.w.marks, d.w.dead, d.w.next, d.w.out, k);
        SafeRun(vm, pc + 2, used, n, k, s, d.w);
      }
      AfterCut(vm, c, d, k);
    }
    EntryIf(vm, pc, used, n);
  }

  lemma ClauseCutSafe(vm: Vm, pc: nat, used: set<nat>, n: nat)
    requires At(vm.code, pc, [Ins(I_CUT)]) && SafeEntry(vm, pc + 1, used, n)
    ensures SafeEntry(vm, pc, used, n)
  {
    hide SafeWorld, Safe, FrameOf, SafeEntry, Step, AtCut;
    forall k: nat, s: Store, w: World | k <= n && SafeWorld(vm, w, k) ensures Safe(vm, Plain(pc, vm, used, s, w), k) {
      var c := Plain(pc, vm, used, s, w);
      CutHere(vm, pc, used, s, w);
      var d := Step(vm, c);
      if w.chain == [] {
        SafeFinal(vm, d, k);
      } else {
        StepClauseCut(vm, pc, used, s, w);
        ShorterWorld(vm, w, w.chain[..1], w.marks, w.dead, w.next, w.out, k);
        SafeRun(vm, pc + 1, used, n, k, s, w.(chain := w.chain[..1]));
      }
      AfterCut(vm, c, d, k);
    }
    EntryIf(vm, pc, used, n);
  }

  lemma CutHere(vm: Vm, pc: nat, used: set<nat>, s: Store, w: World)
    requires At(vm.code, pc, [Ins(I_CUT)])
    ensures AtCut(vm, Plain(pc, vm, used, s, w))
    ensures w.chain == [] ==> Step(vm, Plain(pc, vm, used, s, w)) == Stuck
  {
    hide Step, Instr, NumAt, FrameOf, StepArg, StepMove, StepBranch, StepCut, StepInit;
    InstrIs(I_CUT, 0, 0);
    FetchNums(vm, pc, I_CUT, []);
    StepIs(vm, Plain(pc, vm, used, s, w), I_CUT);
  }

  // ----- instructions that open a construct -----

  lemma OrSafe(vm: Vm, pc: nat, pr: nat, used: set<nat>, n: nat)
    requires pc + 2 <= pr && At(vm.code, pc, [Ins(C_OR), Num(pr - pc - 2)])
    requires SafeEntry(vm, pc + 2, used, n) && SafeEntry(vm, pr, used, n)
    ensures SafeEntry(vm, pc, used, n)
  {
    hide SafeWorld, Safe, FrameOf, SafeEntry, Reaches, At, Step, SafePlace;
    forall k: nat, s: Store, w: World | k <= n && SafeWorld(vm, w, k) ensures Safe(vm, Plain(pc, vm, used, s, w), k) {
      var c, alt := Plain(pc, vm, used, s, w), Jump(pr, FrameOf(vm.env, used), s);
      StepOr(vm, pc, used, s, w, pr - pc - 2);
      ReachesStep(vm, c);
      if k > 0 { EntryPlace(vm, pr, used, n, k - 1); }
      PushWorld(vm, w, alt, k);
      SafeRun(vm, pc + 2, used, n, k, s, Push(w, alt));
      SafeVia(vm, c, Plain(pc + 2, vm, used, s, Push(w, alt)), k);
    }
    EntryIf(vm, pc, used, n);
  }

  lemma BranchSafe(vm: Vm, op: Op, v: nat, pc: nat, pe: nat, used: set<nat>, n: nat)
    requires (op.C_IFTHENELSE? || op.C_NOT? || op.C_SOFTIF?) && pc + 3 <= pe
    requires At(vm.code, pc, [Ins(op), Num(v), Num(pe - pc - 3)])
    requires SafeEntry(vm, pc + 3, used, n) && SafeEntry(vm, pe, used, n)
    ensures SafeEntry(vm, pc, used, n)
  {
    hide SafeWorld, Safe, FrameOf, SafeEntry, Reaches, At, Step, SafePlace;
    forall k: nat, s: Store, w: World | k <= n && SafeWorld(vm, w, k) ensures Safe(vm, Plain(pc, vm, used, s, w), k) {
      var c, alt := Plain(pc, vm, used, s, w), Jump(pe, FrameOf(vm.env, used), s);
      StepIfElse(vm, op, pc, used, s, w, v, pe - pc - 3);
      ReachesStep(vm, c);
      if k > 0 { EntryPlace(vm, pe, used, n, k - 1); }
      var w1 := Marked(w, v, if op.C_SOFTIF? then w.next else Top(w.chain));
      ShorterWorld(vm, w, w1.chain, w1.marks, w1.dead, w1.next, w1.out, k);
      PushWorld(vm, w1, alt, k);
      SafeRun(vm, pc + 3, used, n, k, s, Push(w1, alt));
      SafeVia(vm, c, Plain(pc + 3, vm, used, s, Push(w1, alt)), k);
    }
    EntryIf(vm, pc, used, n);
  }

  lemma MarkSafe(vm: Vm, op: Op, v: nat, pc: nat, used: set<nat>, n: nat)
    requires (op.C_IFTHEN? || op.C_SOFTIFTHEN?) && At(vm.code, pc, [Ins(op), Num(v)]) && SafeEntry(vm, pc + 2, used, n)
    ensures SafeEntry(vm, pc, used, n)
  {
    hide SafeWorld, Safe, FrameOf, SafeEntry, Reaches, At, Step;
    forall k: nat, s: Store, w: World | k <= n && SafeWorld(vm, w, k) ensures Safe(vm, Plain(pc, vm, used, s, w), k) {
      var c, w1 := Plain(pc, vm, used, s, w), Marked(w, v, Top(w.chain));
      StepIfThen(vm, op, pc, used, s, w, v);
      ReachesStep(vm, c);
      ShorterWorld(vm, w, w1.chain, w1.marks, w1.dead, w1.next, w1.out, k);
      SafeRun(vm, pc + 2, used, n, k, s, w1);
      SafeVia(vm, c, Plain(pc + 2, vm, used, s, w1), k);
    }
    EntryIf(vm, pc, used, n);
  }

  lemma FastSafe(vm: Vm, v: nat, pc: nat, pe: nat, used: set<nat>, c: Body, cut: CutInfo, slots: nat, n: nat)
    requires OnlyTests(c, used) && pc + 3 <= pe
    requires var cc := Gen(vm.cl, c, false, cut, used, slots);
             && At(vm.code, pc, [Ins(C_FASTCOND), Num(v), Num(pe - pc - 3)]) && At(vm.code, pc + 3, cc)
             && At(vm.code, pc + 3 + |cc|, [Ins(C_FASTCUT), Num(v)])
             && SafeEntry(vm, pc + 3 + |cc| + 2, used, n) && SafeEntry(vm, pe, used, n)
    ensures SafeEntry(vm, pc, used, n)
  {
    hide SafeWorld, Safe, FrameOf, SafeEntry, Reaches, At, Gen, OnlyTests, Solve;
    var cc := Gen(vm.cl, c, false, cut, used, slots);
    forall k: nat, s: Store, w: World | k <= n && SafeWorld(vm, w, k) ensures Safe(vm, Plain(pc, vm, used, s, w), k) {
      var w1 := Marked(w, v, Top(w.chain));
      FastOutcome(vm, v, pe - pc - 3, pc, used, c, cut, slots, s, w);
      ShorterWorld(vm, w, w1.chain, w1.marks, w1.dead, w1.next, w1.out, k);
      var found := Solve(vm.p, vm.env, c, s).answers;
      if found == [] {
        SafeRun(vm, pe, used, n, k, s, w1);
      } else {
        SafeRun(vm, pc + 3 + |cc| + 2, used, n, k, found[0], w1);
      }
      SafeVia(vm, Plain(pc, vm, used, s, w), Outcome(vm, c, s, pe, used, pc + 3 + |cc| + 2, used, w1), k);
    }
    EntryIf(vm, pc, used, n);
  }

  // ----- the induction -----

  /** If the exit of a body's code is safe, so is its entry. */
  lemma {:induction false} BodySafe(vm: Vm, b: Body, depart: bool, cut: CutInfo, used: set<nat>, slots: nat, pc: nat,
        n: nat)
    requires Laid(vm, b, depart, cut, used, slots, pc) && (cut.LocalCut? ==> IsCut(cut.op))
    requires vm.code != [] && vm.code[ExitPc(vm)] == Ins(I_EXIT)
    requires var x := End(vm, b, depart, cut, used, slots, pc); SafeEntry(vm, x.pc, x.used, n)
    ensures SafeEntry(vm, pc, used, n)
    decreases b, 1
  {
    hide *;
    var x := End(vm, b, depart, cut, used, slots, pc);
    match b {
      case Conj(l, r) =>
        ConjLaid(vm, l, r, depart, cut, used, slots, pc);
        var xa := End(vm, l, false, cut, used, slots, pc);
        BodySafe(vm, r, depart, cut, xa.used, slots + Slots(l), xa.pc, n);
        BodySafe(vm, l, false, cut, used, slots, pc, n);
      case Disj(IfThen(c, t), e) => IfParts(c, t, 0); IfElseSafe(vm, b, true, c, t, e, depart, cut, used, slots, pc, n);
      case Disj(SoftIfThen(c, t), e) => IfParts(c, t, 0);
          IfElseSafe(vm, b, false, c, t, e, depart, cut, used, slots, pc, n);
      case Disj(l, r) =>
        var pr := OrLaid(vm, l, r, depart, cut, used, slots, pc);
        SafeLeads(vm, End(vm, l, false, cut, used, slots, pc + 2), x, n);
        BodySafe(vm, l, false, cut, used, slots, pc + 2, n);
        SafeLeads(vm, End(vm, r, depart, cut, used, slots + Slots(l), pr), x, n);
        BodySafe(vm, r, depart, cut, used, slots + Slots(l), pr, n);
        OrSafe(vm, pc, pr, used, n);
      case IfThen(c, t) => IfParts(c, t, 0); ThenSafe(vm, b, true, c, t, depart, cut, used, slots, pc, n);
      case SoftIfThen(c, t) => IfParts(c, t, 0); ThenSafe(vm, b, false, c, t, depart, cut, used, slots, pc, n);
      case Not(g) =>
        var dist := NotLaid(vm, g, depart, cut, used, slots, pc);
        var local := LocalCut(C_LCUT, slots);
        var xc := End(vm, g, false, local, used, slots + 1, pc + 3);
        LocalOps(true, slots);
        FailSafe(vm, C_FAIL, xc.pc + 2, xc.used, n);
        CutSafe(vm, C_CUT, slots, xc.pc, xc.used, n);
        BodySafe(vm, g, false, local, used, slots + 1, pc + 3, n);
        SafeLeads(vm, Exit(pc + 3 + dist, used, false), x, n);
        BranchSafe(vm, C_NOT, slots, pc, pc + 3 + dist, used, n);
      case _ => SimpleSafe(vm, b, depart, cut, used, slots, pc, n);
    }
  }

  lemma LocalOps(hard: bool, v: nat)
    ensures LocalOf(hard, v).LocalCut? && IsCut(LocalOf(hard, v).op) && !LocalOf(hard, v).op.I_TYPE?
    ensures IsCut(C_CUT) && IsCut(C_SOFTCUT) && IsCut(C_LCUT) && IsCut(C_LCUTIFTHEN)
    ensures CommitOf(true, v) == [Ins(C_CUT), Num(v)] && CommitOf(false, v) == [Ins(C_SCUT)]
  {
  }

  lemma SimpleSafe(vm: Vm, b: Body, depart: bool, cut: CutInfo, used: set<nat>, slots: nat, pc: nat, n: nat)
    requires Laid(vm, b, depart, cut, used, slots, pc) && (cut.LocalCut? ==> IsCut(cut.op))
    requires vm.code != [] && vm.code[ExitPc(vm)] == Ins(I_EXIT) && (b.Goal? || b.True? || b.Fail? || b.Cut?)
    requires var x := End(vm, b, depart, cut, used, slots, pc); SafeEntry(vm, x.pc, x.used, n)
    ensures SafeEntry(vm, pc, used, n)
  {
    hide SafeEntry, At, Below, GenGoal, IsCut, ExitPc;
    assert used + {} == used;
    match b {
      case Goal(f, ts) => GoalSafe(vm, f, ts, depart, used, pc, n);
      case True => NopSafe(vm, I_TRUE, pc, used, n);
      case Fail => FailSafe(vm, I_FAIL, pc, used, n);
      case Cut => if cut.ClauseCut? { ClauseCutSafe(vm, pc, used, n); } else {
          CutSafe(vm, cut.op, cut.slot, pc, used, n); }
    }
  }

  lemma {:induction false} IfElseSafe(vm: Vm, b: Body, hard: bool, c: Body, t: Body, e: Body, depart: bool,
        cut: CutInfo,
                                      used: set<nat>, v: nat, pc: nat, n: nat)
    requires b == Disj(IfPart(hard, c, t), e)
    requires Laid(vm, b, depart, cut, used, v, pc) && (cut.LocalCut? ==> IsCut(cut.op))
    requires vm.code != [] && vm.code[ExitPc(vm)] == Ins(I_EXIT)
    requires var x := End(vm, b, depart, cut, used, v, pc); SafeEntry(vm, x.pc, x.used, n)
    ensures SafeEntry(vm, pc, used, n)
    decreases b, 0
  {
    hide *;
    IfParts(c, t, 0);
    var x, local := End(vm, b, depart, cut, used, v, pc), LocalOf(hard, v);
    var cc, pe := IfElseLaid(vm, hard, c, t, e, depart, cut, used, v, pc);
    var xc := End(vm, c, false, local, used, v + 1, pc + 3);
    LocalOps(hard, v);
    SafeLeads(vm, End(vm, t, depart, cut, xc.used, v + 1 + Slots(c), xc.pc + 2), x, n);
    BodySafe(vm, t, depart, cut, xc.used, v + 1 + Slots(c), xc.pc + 2, n);
    SafeLeads(vm, End(vm, e, depart, cut, used, v + 1 + Slots(c) + Slots(t), pe), x, n);
    BodySafe(vm, e, depart, cut, used, v + 1 + Slots(c) + Slots(t), pe, n);
    CommitCuts(hard, cc);
    CutSafe(vm, CommitOp(hard, cc), v, xc.pc, xc.used, n);
    BodySafe(vm, c, false, local, used, v + 1, pc + 3, n);
    OpenSafe(vm, hard, v, pc, pe, used, c, cc, xc, n);
  }

  lemma CommitCuts(hard: bool, cc: Code)
    ensures IsCut(CommitOp(hard, cc))
  {
    hide AllFast;
  }

  /** The instruction that opens an if-then-else, with or without a choice point. */
  lemma OpenSafe(vm: Vm, hard: bool, v: nat, pc: nat, pe: nat, used: set<nat>, c: Body, cc: Code, xc: Exit, n: nat)
    requires ProperBody(c) && cc == Gen(vm.cl, c, false, LocalOf(hard, v), used, v + 1) && pc + 3 <= pe
    requires At(vm.code, pc, [Ins(IfOp(hard, cc)), Num(v), Num(pe - pc - 3)]) && At(vm.code, pc + 3, cc)
    requires xc == Exit(pc + 3 + |cc|, used + BodyVars(c), false)
             && At(vm.code, xc.pc, [Ins(CommitOp(hard, cc)), Num(v)])
    requires SafeEntry(vm, pc + 3, used, n) && SafeEntry(vm, xc.pc + 2, xc.used, n) && SafeEntry(vm, pe, used, n)
    ensures SafeEntry(vm, pc, used, n)
  {
    hide *;
    CommitIs(hard, cc);
    LocalOps(hard, v);
    if hard && AllFast(cc, 0) {
      FastMeansTests(vm.cl, c, LocalOf(hard, v), used, v + 1);
      TestsBindNothing(c, used);
      FastSafe(vm, v, pc, pe, used, c, LocalOf(hard, v), v + 1, n);
    } else {
      BranchSafe(vm, IfOp(hard, cc), v, pc, pe, used, n);
    }
  }

  lemma {:induction false} ThenSafe(vm: Vm, b: Body, hard: bool, c: Body, t: Body, depart: bool, cut: CutInfo,
                                    used: set<nat>, v: nat, pc: nat, n: nat)
    requires b == IfPart(hard, c, t) && Laid(vm, b, depart, cut, used, v, pc) && (cut.LocalCut? ==> IsCut(cut.op))
    requires vm.code != [] && vm.code[ExitPc(vm)] == Ins(I_EXIT)
    requires var x := End(vm, b, depart, cut, used, v, pc); SafeEntry(vm, x.pc, x.used, n)
    ensures SafeEntry(vm, pc, used, n)
    decreases b, 0
  {
    hide *;
    IfParts(c, t, 0);
    var x, local := End(vm, b, depart, cut, used, v, pc), LocalCut(C_LCUTIFTHEN, v);
    ThenLaid(vm, hard, c, t, depart, cut, used, v, pc);
    var xc := End(vm, c, false, local, used, v + 1, pc + 2);
    LocalOps(hard, v);
    var pt := xc.pc + |CommitOf(hard, v)|;
    SafeLeads(vm, End(vm, t, depart, cut, xc.used, v + 1 + Slots(c), pt), x, n);
    BodySafe(vm, t, depart, cut, xc.used, v + 1 + Slots(c), pt, n);
    if hard { CutSafe(vm, C_CUT, v, xc.pc, xc.used, n); } else { NopSafe(vm, C_SCUT, xc.pc, xc.used, n); }
    BodySafe(vm, c, false, local, used, v + 1, pc + 2, n);
    MarkSafe(vm, if hard then C_IFTHEN else C_SOFTIFTHEN, v, pc, used, n);
  }

  lemma {:induction false} SafeAfter(vm: Vm, c: Config, m: nat, n: nat)
    requires Safe(vm, c, n) && m <= n
    ensures Sane(vm, Steps(vm, c, m))
    decreases m
  {
    hide Step, Sane;
    if m > 0 { SafeAfter(vm, Step(vm, c), m - 1, n - 1); }
  }

  // ----- what that means for the slots -----

  function FunAt(vm: Vm, i: nat): nat {
    if i < |vm.code| && vm.code[i].Fun? then vm.code[i].f.arity else 0
  }

  /** Slot `i` is one the instruction at `pc` reads. */
  predicate ReadsSlot(vm: Vm, pc: nat, op: Op, i: int) {
    match op
    case B_VAR0 => i == 0
    case B_VAR1 => i == 1
    case B_VAR2 => i == 2
    case B_VAR => i == NumAt(vm, pc + 1)
    case B_ARGVAR => i == NumAt(vm, pc + 1)
    case I_TYPE(_) => i == NumAt(vm, pc + 1)
    case L_VAR => i == NumAt(vm, pc + 2)
    case I_TCALL => 0 <= i < vm.cl.self.arity
    case I_LCALL => 0 <= i < FunAt(vm, pc + 1)
    case _ => false
  }

  /** Slot `i` is one the instruction at `pc` initialises. */
  predicate MakesSlot(vm: Vm, pc: nat, op: Op, i: int) {
    match op
    case B_FIRSTVAR => i == NumAt(vm, pc + 1)
    case B_ARGFIRSTVAR => i == NumAt(vm, pc + 1)
    case C_VAR => i == NumAt(vm, pc + 1)
    case C_VAR_N => NumAt(vm, pc + 1) <= i < NumAt(vm, pc + 1) + NumAt(vm, pc + 2)
    case _ => false
  }

  /** The next instruction is in the code; it reads slots that hold something and initialises slots that do not. */
  ghost predicate SlotsFine(vm: Vm, c: Config)
    requires c.Run?
  {
    && c.pc < |vm.code| && vm.code[c.pc].Ins?
    && (forall i: int :: ReadsSlot(vm, c.pc, vm.code[c.pc].op, i) ==> i >= 0 && i in c.frame)
    && (forall i: int :: MakesSlot(vm, c.pc, vm.code[c.pc].op, i) ==> i >= 0 && i !in c.frame)
  }

  lemma {:induction false} InitialisesEach(vm: Vm, c: Config, next: Config, at: nat, count: nat)
    requires c.Run? && next.Run? && !Initialise(vm, c, next, at, count).Stuck?
    ensures forall i: int :: at <= i < at + count ==> i !in next.frame
    decreases count
  {
    if count > 0 {
      var next1 := next.(frame := next.frame[at := vm.env(at)]);
      InitialisesEach(vm, c, next1, at + 1, count - 1);
      forall i: int | at <= i < at + count ensures i !in next.frame {
        if i > at { assert i !in next1.frame; }
      }
    }
  }

  lemma {:induction false} ValuesEach(frame: Frame, n: nat)
    requires SlotValues(frame, n).Some?
    ensures forall i: int :: 0 <= i < n ==> i in frame
  {
    if n > 0 { ValuesEach(frame, n - 1); }
  }

  lemma ArgFine(vm: Vm, c: Config, op: Op)
    requires c.Run? && c.pc + Size(op) <= |vm.code| && IsArg(op) && !StepArg(vm, op, c).Stuck?
    ensures forall i: int :: ReadsSlot(vm, c.pc, op, i) ==> i >= 0 && i in c.frame
    ensures forall i: int :: MakesSlot(vm, c.pc, op, i) ==> i >= 0 && i !in c.frame
  {
    hide Add, Open, Close;
  }

  lemma CallFine(vm: Vm, c: Config, op: Op)
    requires c.Run? && c.pc + Size(op) <= |vm.code| && IsCall(op) && !StepCall(vm, op, c).Stuck?
    ensures forall i: int :: ReadsSlot(vm, c.pc, op, i) ==> i >= 0 && i in c.frame
  {
    hide SlotValues, Answer, MayReuse, ExitPc;
    if op.I_TCALL? {
      ValuesEach(c.frame, vm.cl.self.arity);
    } else if op.I_LCALL? {
      ValuesEach(c.frame, vm.code[c.pc + 1].f.arity);
    }
  }

  lemma InitFine(vm: Vm, c: Config, op: Op)
    requires c.Run? && c.pc + Size(op) <= |vm.code| && (op.C_VAR? || op.C_VAR_N?) && !StepInit(vm, op, c).Stuck?
    ensures forall i: int :: MakesSlot(vm, c.pc, op, i) ==> i >= 0 && i !in c.frame
  {
    hide Initialise;
    var next := c.(pc := c.pc + Size(op));
    InitialisesEach(vm, c, next, NumAt(vm, c.pc + 1), if op.C_VAR? then 1 else NumAt(vm, c.pc + 2));
  }

  /** A step that does not go wrong finds the slots as it needs them. */
  lemma StepFine(vm: Vm, c: Config)
    requires c.Run? && (!Step(vm, c).Stuck? || AtCut(vm, c))
    ensures SlotsFine(vm, c)
  {
    var op := vm.code[c.pc].op;
    if !AtCut(vm, c) {
      hide ReadsSlot, MakesSlot, StepArg, StepCall, StepInit, StepMove, StepBranch, StepCut;
      if IsArg(op) {
        ArgFine(vm, c, op);
      } else if IsCall(op) {
        CallFine(vm, c, op);
        OnlyReads(vm, c.pc, op);
      } else {
        RestFine(vm, c, op);
      }
    }
  }

  lemma OnlyReads(vm: Vm, pc: nat, op: Op)
    requires IsCall(op)
    ensures forall i: int :: !MakesSlot(vm, pc, op, i)
  {
  }

  lemma RestFine(vm: Vm, c: Config, op: Op)
    requires c.Run? && c.pc + Size(op) <= |vm.code| && !IsArg(op) && !IsCall(op) && !Execute(vm, op, c).Stuck?
    ensures forall i: int :: ReadsSlot(vm, c.pc, op, i) ==> i >= 0 && i in c.frame
    ensures forall i: int :: MakesSlot(vm, c.pc, op, i) ==> i >= 0 && i !in c.frame
  {
    hide StepArg, StepCall, StepInit, StepBranch, StepCut;
    if op.C_VAR? || op.C_VAR_N? { InitFine(vm, c, op); }
  }

  /** In no configuration that compiled code reaches, whatever its cuts do, does an instruction other
      than a cut go wrong: no B_*, I_TYPE or L_VAR reads a slot that is not initialised on the path taken,
      no C_VAR or first-variable instruction initialises one that is, and control stays in the code. */
  lemma DefinitelyInitialised(vm: Vm, b: Body, slots: nat, s: Store, n: nat)
    requires ProperBody(b) && Below(vm.cl.arity) <= Below(vm.cl.bits) && BodyVars(b) <= Below(vm.cl.bits)
    requires vm.code == GenClause(vm.cl, b, slots)
    ensures var c := Steps(vm, Start(vm, s), n); c.Run? ==> SlotsFine(vm, c) && (Step(vm, c).Stuck? ==> AtCut(vm, c))
  {
    hide SlotsFine, Safe, SafeEntry, SafePlace, Step, Steps, Gen, FrameOf, ProperBody, BodyVars, At;
    var used, code := Below(vm.cl.arity), Gen(vm.cl, b, true, ClauseCut, Below(vm.cl.arity), slots);
    AtWhole(vm.code, code, [Ins(I_EXIT)]);
    LaidIs(vm, b, true, ClauseCut, used, slots, 0);
    EndIs(vm, b, true, ClauseCut, used, slots, 0);
    var x := End(vm, b, true, ClauseCut, used, slots, 0);
    assert x.pc == ExitPc(vm);
    SafeExit(vm, FrameOf(vm.env, x.used), n);
    assert SafeEntry(vm, x.pc, x.used, n) by { PlaceIsEntry(vm, x.pc, x.used, n); }
    BodySafe(vm, b, true, ClauseCut, used, slots, 0, n);
    var w := World([Choice(1, Base)], map[], map[], 2, []);
    assert SafeWorld(vm, w, n);
    SafeRun(vm, 0, used, n, n, s, w);
    SafeAfter(vm, Start(vm, s), n, n);
    if Steps(vm, Start(vm, s), n).Run? { StepFine(vm, Steps(vm, Start(vm, s), n)); }
  }

  lemma PlaceIsEntry(vm: Vm, pc: nat, used: set<nat>, n: nat)
    requires SafePlace(vm, pc, FrameOf(vm.env, used), n)
    ensures SafeEntry(vm, pc, used, n)
  {
    hide SafePlace, FrameOf;
  }
}
