// Why Compilable excludes some nested soft conditionals: a clause on which the compiled code goes on
// after a cut.  The clause is
//
//   p :- ( ( ( (true ; true), (true ; !) ) *-> true ; fail ) *-> true ; fail ).

module StaleCut {
  import opened Terms
  import opened VmCode
  import opened CodeGen
  import opened CodeShapes
  import opened Search
  import opened Machine
  import opened Execution
  import opened Chains
  import opened ControlSteps
  import opened Layout
  import opened Simulation

  const Inner := Conj(Disj(True, True), Disj(True, Cut))
  const Middle := Disj(SoftIfThen(Inner, True), Fail)
  const Stale := Disj(SoftIfThen(Middle, True), Fail)

  const OrHead: Code := [Ins(C_OR), Num(3)]
  const Yes: Code := [Ins(I_TRUE)]

  function Jmp(n: nat): Code {
    [Ins(C_JMP), Num(n)]
  }

  function SoftIf(v: nat, dist: nat): Code {
    [Ins(C_SOFTIF), Num(v), Num(dist)]
  }

  function Op1(op: Op, v: nat): Code {
    [Ins(op), Num(v)]
  }

  /** `(true ; true), (true ; !)`, with the `!` compiled as `op`. */
  function InnerCode(op: Op): Code {
    OrHead + Yes + Jmp(1) + Yes + OrHead + Yes + Jmp(2) + Op1(op, 1)
  }

  function SoftCode(v: nat, dist: nat, cc: Code): Code {
    SoftIf(v, dist) + cc + Op1(C_SOFTCUT, v) + Yes + Jmp(1) + [Ins(I_FAIL)]
  }

  function StaleCode(): Code {
    SoftCode(0, 27, SoftCode(1, 18, InnerCode(C_LSCUT))) + [Ins(I_EXIT)]
  }

  lemma {:induction false} NothingToBalance(i: nat, bits: nat)
    requires i <= bits
    ensures BalanceFrom({}, i, bits, 0, 0) == []
    decreases bits - i
  {
    if i < bits { NothingToBalance(i + 1, bits); }
  }

  const Nobody: set<nat> := {}

  lemma OrOfSimple(cl: Clause, l: Body, r: Body, cut: CutInfo, slots: nat)
    requires l == True && (r == True || r == Cut)
    ensures Gen(cl, Disj(l, r), false, cut, {}, slots) ==
            [Ins(C_OR), Num(3), Ins(I_TRUE), Ins(C_JMP), Num(|Gen(cl, r, false, cut, {}, slots)|)]
                + Gen(cl, r, false, cut, {}, slots)
  {
    NothingToBalance(0, cl.bits);
    assert Nobody + BodyVars(l) == Nobody && Nobody + BodyVars(r) == Nobody && Nobody - Nobody == Nobody;
  }

  /** The codes of `true ; true` and of `true ; !`. */
  lemma OrsAre(cl: Clause, op: Op, v: nat)
    ensures Gen(cl, Disj(True, True), false, LocalCut(op, v), {}, v + 1) == OrHead + Yes + Jmp(1) + Yes
    ensures Gen(cl, Disj(True, Cut), false, LocalCut(op, v), {}, v + 1) == OrHead + Yes + Jmp(2) + Op1(op, v)
    ensures BodyVars(Disj(True, True)) == {} && BodyVars(Disj(True, Cut)) == {} && Slots(Disj(True, True)) == 0
            && Slots(Disj(True, Cut)) == 0
  {
    OrOfSimple(cl, True, True, LocalCut(op, v), v + 1);
    OrOfSimple(cl, True, Cut, LocalCut(op, v), v + 1);
  }

  lemma InnerIs(cl: Clause, op: Op)
    ensures Gen(cl, Inner, false, LocalCut(op, 1), {}, 2) == InnerCode(op) && BodyVars(Inner) == {} && Slots(Inner) == 0
  {
    hide Gen;
    OrsAre(cl, op, 1);
    hide BodyVars, Slots;
    BodyIs(cl, Inner, false, LocalCut(op, 1), {}, 2);
    assert Nobody + Nobody == Nobody;
  }

  lemma SoftOfSimple(cl: Clause, c: Body, depart: bool, cut: CutInfo, v: nat)
    requires BodyVars(c) == {}
    ensures var cc := Gen(cl, c, false, LocalCut(C_LSCUT, v), {}, v + 1);
            Gen(cl, Disj(SoftIfThen(c, True), Fail), depart, cut, {}, v) ==
            SoftCode(v, |cc| + 5, cc)
  {
    hide Slots, AllFast, GenOr, GenIfThen, GenNot, GenGoal, GenIfThenElse;
    NothingToBalance(0, cl.bits);
    var cc := Gen(cl, c, false, LocalCut(C_LSCUT, v), {}, v + 1);
    assert IfPart(false, c, True) == SoftIfThen(c, True);
    IfElseShape(cl, false, c, True, Fail, depart, cut, {}, v);
    assert Nobody + (BodyVars(c) + BodyVars(True)) == Nobody && Nobody + BodyVars(Fail) == Nobody
        && Nobody - Nobody == Nobody;
  }

  lemma StaleIs(cl: Clause)
    requires cl.arity == 0
    ensures GenClause(cl, Stale, 0) == StaleCode()
  {
    hide Gen;
    assert Below(0) == {};
    InnerIs(cl, C_LSCUT);
    SoftOfSimple(cl, Inner, false, LocalCut(C_LSCUT, 0), 1);
    assert BodyVars(Middle) == {};
    SoftOfSimple(cl, Middle, true, ClauseCut, 0);
  }

  // ----- the run -----

  ghost predicate Holds(vm: Vm) {
    vm.cl.arity == 0 && vm.code == StaleCode()
  }

  function Pl(pc: nat, vm: Vm, s: Store, w: World): Config {
    Plain(pc, vm, {}, s, w)
  }

  lemma InnerAt(code: Code, pc: nat, op: Op)
    requires At(code, pc, InnerCode(op))
    ensures At(code, pc, OrHead) && At(code, pc + 2, Yes) && At(code, pc + 3, Jmp(1)) && At(code, pc + 5, Yes)
    ensures At(code, pc + 6, OrHead) && At(code, pc + 8, Yes) && At(code, pc + 9, Jmp(2))
            && At(code, pc + 11, Op1(op, 1))
  {
    hide At;
    AtSplit(code, pc, OrHead + Yes + Jmp(1) + Yes + OrHead + Yes + Jmp(2), Op1(op, 1));
    AtSplit(code, pc, OrHead + Yes + Jmp(1) + Yes + OrHead + Yes, Jmp(2));
    AtSplit(code, pc, OrHead + Yes + Jmp(1) + Yes + OrHead, Yes);
    AtSplit(code, pc, OrHead + Yes + Jmp(1) + Yes, OrHead);
    AtSplit(code, pc, OrHead + Yes + Jmp(1), Yes);
    AtSplit(code, pc, OrHead + Yes, Jmp(1));
    AtSplit(code, pc, OrHead, Yes);
  }

  lemma SoftCodeAt(code: Code, pc: nat, v: nat, dist: nat, cc: Code)
    requires At(code, pc, SoftCode(v, dist, cc))
    ensures At(code, pc, SoftIf(v, dist)) && At(code, pc + 3, cc) && At(code, pc + 3 + |cc|, Op1(C_SOFTCUT, v))
    ensures At(code, pc + 3 + |cc| + 2, Yes) && At(code, pc + 3 + |cc| + 3, Jmp(1))
  {
    hide At;
    AtSplit(code, pc, SoftIf(v, dist) + cc + Op1(C_SOFTCUT, v) + Yes + Jmp(1), [Ins(I_FAIL)]);
    AtSplit(code, pc, SoftIf(v, dist) + cc + Op1(C_SOFTCUT, v) + Yes, Jmp(1));
    AtSplit(code, pc, SoftIf(v, dist) + cc + Op1(C_SOFTCUT, v), Yes);
    AtSplit(code, pc, SoftIf(v, dist) + cc, Op1(C_SOFTCUT, v));
    AtSplit(code, pc, SoftIf(v, dist), cc);
  }

  lemma Lengths()
    ensures |InnerCode(C_LSCUT)| == 13 && |SoftCode(1, 18, InnerCode(C_LSCUT))| == 22
    ensures |SoftCode(0, 27, SoftCode(1, 18, InnerCode(C_LSCUT)))| == 31
  {
  }

  lemma WholeCode(vm: Vm, outer: Code)
    requires Holds(vm) && outer == SoftCode(0, 27, SoftCode(1, 18, InnerCode(C_LSCUT)))
    ensures At(vm.code, 0, outer + [Ins(I_EXIT)])
  {
    hide SoftCode, InnerCode;
    AtAll(vm.code);
  }

  lemma AtAll(code: Code)
    ensures At(code, 0, code)
  {
    assert code[0..|code|] == code;
  }

  /** The instructions of the clause, by position. */
  lemma CodeAt(vm: Vm)
    requires Holds(vm)
    ensures At(vm.code, 0, SoftIf(0, 27)) && At(vm.code, 3, SoftIf(1, 18))
    ensures At(vm.code, 6, OrHead) && At(vm.code, 8, Yes) && At(vm.code, 9, Jmp(1)) && At(vm.code, 11, Yes)
    ensures At(vm.code, 12, OrHead) && At(vm.code, 14, Yes) && At(vm.code, 15, Jmp(2))
            && At(vm.code, 17, Op1(C_LSCUT, 1))
    ensures At(vm.code, 19, Op1(C_SOFTCUT, 1)) && At(vm.code, 21, Yes) && At(vm.code, 22, Jmp(1))
    ensures At(vm.code, 25, Op1(C_SOFTCUT, 0)) && At(vm.code, 27, Yes) && At(vm.code, 28, Jmp(1))
            && At(vm.code, 31, [Ins(I_EXIT)])
  {
    hide *;
    var outer, middle := SoftCode(0, 27, SoftCode(1, 18, InnerCode(C_LSCUT))), SoftCode(1, 18, InnerCode(C_LSCUT));
    Lengths();
    WholeCode(vm, outer);
    AtSplit(vm.code, 0, outer, [Ins(I_EXIT)]);
    SoftCodeAt(vm.code, 0, 0, 27, middle);
    SoftCodeAt(vm.code, 3, 1, 18, InnerCode(C_LSCUT));
    InnerAt(vm.code, 6, C_LSCUT);
  }

  /** A soft cut, `true` and the jump over the else part. */
  lemma RunCommit(vm: Vm, pc: nat, v: nat, s: Store, w: World)
    requires At(vm.code, pc, Op1(C_SOFTCUT, v)) && At(vm.code, pc + 2, Yes) && At(vm.code, pc + 3, Jmp(1))
    requires v in w.marks
    ensures Reaches(vm, Pl(pc, vm, s, w), Pl(pc + 6, vm, s, SoftCut(w, v)))
  {
    hide Step, Steps, Reaches, At, SoftCut, FrameOf;
    var w1 := SoftCut(w, v);
    StepSoftCut(vm, pc, {}, s, w, v);
    StepNop(vm, I_TRUE, pc + 2, {}, s, w1);
    StepJump(vm, pc + 3, {}, s, w1, 1);
    ReachesSelf(vm, Pl(pc + 6, vm, s, w1));
    ReachesVia(vm, Pl(pc + 3, vm, s, w1), Pl(pc + 6, vm, s, w1));
    ReachesVia(vm, Pl(pc + 2, vm, s, w1), Pl(pc + 6, vm, s, w1));
    ReachesVia(vm, Pl(pc, vm, s, w), Pl(pc + 6, vm, s, w1));
  }

  /** From the inner commit to the end of the clause, recording one answer. */
  lemma RunOut(vm: Vm, s: Store, w: World)
    requires Holds(vm) && 0 in w.marks && 1 in w.marks
    ensures 0 in SoftCut(w, 1).marks
    ensures var w2 := SoftCut(SoftCut(w, 1), 0);
            Reaches(vm, Pl(19, vm, s, w), Back(w2.(out := w2.out + [s])))
  {
    CodeAt(vm);
    var w1 := SoftCut(w, 1);
    assert 0 in w1.marks;
    hide Step, Steps, Reaches, At, SoftCut, FrameOf, Holds;
    var w2 := SoftCut(w1, 0);
    RunCommit(vm, 19, 1, s, w);
    RunCommit(vm, 25, 0, s, w1);
    ReachesTrans(vm, Pl(19, vm, s, w), Pl(25, vm, s, w1), Pl(31, vm, s, w2));
    StepAnswer(vm, s, w2);
    ReachesStep(vm, Pl(31, vm, s, w2));
    ReachesTrans(vm, Pl(19, vm, s, w), Pl(31, vm, s, w2), Step(vm, Pl(31, vm, s, w2)));
  }

  lemma StepAnswer(vm: Vm, s: Store, w: World)
    requires At(vm.code, 31, [Ins(I_EXIT)])
    ensures Step(vm, Pl(31, vm, s, w)) == Back(w.(out := w.out + [s]))
  {
    hide Step, FrameOf;
    AtCell(vm.code, 31, [Ins(I_EXIT)], 0);
    StepIs(vm, Pl(31, vm, s, w), I_EXIT);
  }

  /** The second disjunction, entered with both soft cuts done or to do: first its `true`. */
  lemma RunSecondOr(vm: Vm, s: Store, w: World)
    requires Holds(vm)
    ensures Reaches(vm, Pl(12, vm, s, w), Pl(19, vm, s, Push(w, Machine.Jump(17, FrameOf(vm.env, {}), s))))
  {
    CodeAt(vm);
    hide Step, Steps, Reaches, At, FrameOf, Holds;
    var w1 := Push(w, Machine.Jump(17, FrameOf(vm.env, {}), s));
    StepOr(vm, 12, {}, s, w, 3);
    StepNop(vm, I_TRUE, 14, {}, s, w1);
    StepJump(vm, 15, {}, s, w1, 2);
    ReachesSelf(vm, Pl(19, vm, s, w1));
    ReachesVia(vm, Pl(15, vm, s, w1), Pl(19, vm, s, w1));
    ReachesVia(vm, Pl(14, vm, s, w1), Pl(19, vm, s, w1));
    ReachesVia(vm, Pl(12, vm, s, w), Pl(19, vm, s, w1));
  }

  /** The first disjunction, its `true`, and the second. */
  lemma RunFirstOr(vm: Vm, s: Store, w: World)
    requires Holds(vm)
    ensures var w1 := Push(w, Machine.Jump(11, FrameOf(vm.env, {}), s));
            Reaches(vm, Pl(6, vm, s, w), Pl(19, vm, s, Push(w1, Machine.Jump(17, FrameOf(vm.env, {}), s))))
  {
    CodeAt(vm);
    hide Step, Steps, Reaches, At, FrameOf, Holds, Push;
    var w1 := Push(w, Machine.Jump(11, FrameOf(vm.env, {}), s));
    var end := Pl(19, vm, s, Push(w1, Machine.Jump(17, FrameOf(vm.env, {}), s)));
    StepOr(vm, 6, {}, s, w, 3);
    StepNop(vm, I_TRUE, 8, {}, s, w1);
    StepJump(vm, 9, {}, s, w1, 1);
    RunSecondOr(vm, s, w1);
    ReachesVia(vm, Pl(9, vm, s, w1), end);
    ReachesVia(vm, Pl(8, vm, s, w1), end);
    ReachesVia(vm, Pl(6, vm, s, w), end);
  }

  /** C_SOFTIF leads on. */
  lemma RunSoftIf(vm: Vm, pc: nat, v: nat, dist: nat, s: Store, w: World, end: Config)
    requires At(vm.code, pc, SoftIf(v, dist))
    requires Reaches(vm, Pl(pc + 3, vm, s,
             Push(Marked(w, v, w.next), Machine.Jump(pc + 3 + dist, FrameOf(vm.env, {}), s))), end)
    ensures Reaches(vm, Pl(pc, vm, s, w), end)
  {
    hide Step, Steps, Reaches, At, FrameOf, Push, Marked;
    StepIfElse(vm, C_SOFTIF, pc, {}, s, w, v, dist);
    ReachesVia(vm, Pl(pc, vm, s, w), end);
  }

  /** From the start to the first commit. */
  lemma RunIn(vm: Vm, s: Store, w: World)
    requires Holds(vm)
    ensures var w1 := Push(Marked(w, 0, w.next), Machine.Jump(30, FrameOf(vm.env, {}), s));
            var w2 := Push(Marked(w1, 1, w1.next), Machine.Jump(24, FrameOf(vm.env, {}), s));
            var w3 := Push(w2, Machine.Jump(11, FrameOf(vm.env, {}), s));
            var w4 := Push(w3, Machine.Jump(17, FrameOf(vm.env, {}), s));
            Reaches(vm, Pl(0, vm, s, w), Pl(19, vm, s, w4))
  {
    hide *;
    CodeAt(vm);
    var w1 := Push(Marked(w, 0, w.next), Machine.Jump(30, FrameOf(vm.env, {}), s));
    var w2 := Push(Marked(w1, 1, w1.next), Machine.Jump(24, FrameOf(vm.env, {}), s));
    RunFirstOr(vm, s, w2);
    var w3 := Push(w2, Machine.Jump(11, FrameOf(vm.env, {}), s));
    var end := Pl(19, vm, s, Push(w3, Machine.Jump(17, FrameOf(vm.env, {}), s)));
    RunSoftIf(vm, 3, 1, 18, s, w1, end);
    RunSoftIf(vm, 0, 0, 27, s, w, end);
  }

  function J(addr: nat, pc: nat, vm: Vm, s: Store): Choice {
    Choice(addr, Machine.Jump(pc, FrameOf(vm.env, {}), s))
  }

  /** The world once both choice points of the soft conditionals have been unlinked. */
  function Unlinked(chain: seq<Choice>, next: nat, out: seq<Store>): World {
    World(chain, map[0 := -1, 1 := -2], map[3 := 2, 2 := 1], next, out)
  }

  lemma FirstAnswer(vm: Vm, s: Store)
    requires Holds(vm)
    ensures Reaches(vm, Start(vm, s), Back(Unlinked([Choice(1, Base), J(4, 11, vm, s), J(5, 17, vm, s)], 6, [s])))
  {
    var w0 := World([Choice(1, Base)], map[], map[], 2, []);
    assert Below(0) == {};
    var w4 := World([Choice(1, Base), J(2, 30, vm, s), J(3, 24, vm, s), J(4, 11, vm, s), J(5, 17, vm, s)],
                    map[0 := 2, 1 := 3], map[], 6, []);
    hide Step, Steps, Reaches, FrameOf, SoftCut;
    RunIn(vm, s, w0);
    EntryWorld(vm, s, w0, w4);
    RunOut(vm, s, w4);
    TwoUnlinks(vm, s, w4);
    ReachesTrans(vm, Start(vm, s), Pl(19, vm, s, w4),
        Back(Unlinked([Choice(1, Base), J(4, 11, vm, s), J(5, 17, vm, s)], 6, [s])));
  }

  lemma EntryWorld(vm: Vm, s: Store, w: World, w4: World)
    requires w == World([Choice(1, Base)], map[], map[], 2, [])
    requires w4 == World([Choice(1, Base), J(2, 30, vm, s), J(3, 24, vm, s), J(4, 11, vm, s), J(5, 17, vm, s)],
                         map[0 := 2, 1 := 3], map[], 6, [])
    ensures var w1 := Push(Marked(w, 0, w.next), Machine.Jump(30, FrameOf(vm.env, {}), s));
            var w2 := Push(Marked(w1, 1, w1.next), Machine.Jump(24, FrameOf(vm.env, {}), s));
            var w3 := Push(w2, Machine.Jump(11, FrameOf(vm.env, {}), s));
            Push(w3, Machine.Jump(17, FrameOf(vm.env, {}), s)) == w4
  {
    hide FrameOf;
  }

  lemma TwoUnlinks(vm: Vm, s: Store, w: World)
    requires w == World([Choice(1, Base), J(2, 30, vm, s), J(3, 24, vm, s), J(4, 11, vm, s), J(5, 17, vm, s)],
                        map[0 := 2, 1 := 3], map[], 6, [])
    ensures SoftCut(SoftCut(w, 1), 0) == Unlinked([Choice(1, Base), J(4, 11, vm, s), J(5, 17, vm, s)], 6, [])
  {
    hide FrameOf, SoftCut;
    var c2, c3, newer := J(2, 30, vm, s), J(3, 24, vm, s), [J(4, 11, vm, s), J(5, 17, vm, s)];
    assert w.chain == [Choice(1, Base), c2] + [c3] + newer;
    Unlinks(w, 1, [Choice(1, Base), c2], c3, newer);
    var w1 := SoftCut(w, 1);
    assert w1.chain == [Choice(1, Base)] + [c2] + newer;
    Unlinks(w1, 0, [Choice(1, Base)], c2, newer);
  }

  /** Any later pass through the commits changes nothing and records an answer. */
  lemma NextAnswer(vm: Vm, s: Store, chain: seq<Choice>, next: nat, out: seq<Store>)
    requires Holds(vm)
    ensures Reaches(vm, Pl(19, vm, s, Unlinked(chain, next, out)), Back(Unlinked(chain, next, out + [s])))
  {
    hide Step, Steps, Reaches, FrameOf, Holds;
    var w := Unlinked(chain, next, out);
    RunOut(vm, s, w);
    assert SoftCut(w, 1) == w && SoftCut(w, 0) == w;
  }

  /** The stale cut: it looks for the parent of a choice point that is gone, and cuts nothing. */
  lemma StaleStep(vm: Vm, s: Store, chain: seq<Choice>, next: nat, out: seq<Store>)
    requires Holds(vm) && (chain == [Choice(1, Base)] || chain == [Choice(1, Base), J(4, 11, vm, s)])
    ensures Step(vm, Pl(17, vm, s, Unlinked(chain, next, out))) == Pl(19, vm, s, Unlinked(chain, next, out))
  {
    hide *;
    CodeAt(vm);
    NothingCut(vm, s, chain, next, out);
    UnlinkedMarks(chain, next, out);
    StaleIsLocalCommit(vm, s, Unlinked(chain, next, out));
  }

  lemma UnlinkedMarks(chain: seq<Choice>, next: nat, out: seq<Store>)
    ensures 1 in Unlinked(chain, next, out).marks && Unlinked(chain, next, out).marks[1] == -2
  {
  }

  lemma StaleIsLocalCommit(vm: Vm, s: Store, w: World)
    requires At(vm.code, 17, Op1(C_LSCUT, 1)) && 1 in w.marks && w.marks[1] == -2 && ParentOf(w, 2) == 1
    ensures Step(vm, Pl(17, vm, s, w)) == LocalCommit(Pl(17, vm, s, w), Pl(17, vm, s, w).(pc := 19), 1)
  {
    hide Step, FrameOf, At, StepArg, StepCall, StepMove, StepBranch, StepInit, Find, LocalCommit, ParentOf, Commit,
        SoftCut, Instr, NumAt;
    InstrIs(C_LSCUT, 1, 0);
    FetchNums(vm, 17, C_LSCUT, [1]);
    StepIs(vm, Pl(17, vm, s, w), C_LSCUT);
  }

  lemma NothingCut(vm: Vm, s: Store, chain: seq<Choice>, next: nat, out: seq<Store>)
    requires chain == [Choice(1, Base)] || chain == [Choice(1, Base), J(4, 11, vm, s)]
    ensures ParentOf(Unlinked(chain, next, out), 2) == 1
    ensures var c := Pl(17, vm, s, Unlinked(chain, next, out));
            LocalCommit(c, c.(pc := 19), 1) == c.(pc := 19) == Pl(19, vm, s, Unlinked(chain, next, out))
  {
    hide FrameOf, Find, LocalCutTo;
    NotFound(chain, vm, s);
  }

  lemma NotFound(chain: seq<Choice>, vm: Vm, s: Store)
    requires chain == [Choice(1, Base)] || chain == [Choice(1, Base), J(4, 11, vm, s)]
    ensures Find(chain, 2) == |chain|
    ensures LocalCutTo(chain, 1) == Some(chain) || (LocalCutTo(chain, 1) == None && Top(chain) == 1)
  {
    hide FrameOf;
    var base := [Choice(1, Base)];
    assert base[..0] == [] && Find(base, 2) == 1;
    assert LocalCutTo(base[..0], 1) == None;
    if |chain| == 2 { assert chain[..1] == base; }
  }

  lemma BackInto(vm: Vm, s: Store, chain: seq<Choice>, addr: nat, pc: nat, next: nat, out: seq<Store>)
    ensures Step(vm, Back(Unlinked(chain + [J(addr, pc, vm, s)], next, out))) ==
            Pl(pc, vm, s, Unlinked(chain, next, out))
  {
    hide Step, FrameOf;
    StepBackJump(vm, Unlinked(chain + [J(addr, pc, vm, s)], next, out), chain, addr, pc, {}, s);
  }

  /** Backtracking into the second disjunction's `!`: an answer, and nothing is cut. */
  lemma CutAnswer(vm: Vm, s: Store, chain: seq<Choice>, addr: nat, next: nat, out: seq<Store>)
    requires Holds(vm) && (chain == [Choice(1, Base)] || chain == [Choice(1, Base), J(4, 11, vm, s)])
    ensures Reaches(vm, Back(Unlinked(chain + [J(addr, 17, vm, s)], next, out)), Back(Unlinked(chain, next, out + [s])))
  {
    hide Step, Steps, Reaches, FrameOf, Holds, Unlinked, J;
    BackInto(vm, s, chain, addr, 17, next, out);
    StaleStep(vm, s, chain, next, out);
    NextAnswer(vm, s, chain, next, out);
    ReachesVia(vm, Pl(17, vm, s, Unlinked(chain, next, out)), Back(Unlinked(chain, next, out + [s])));
    ReachesVia(vm, Back(Unlinked(chain + [J(addr, 17, vm, s)], next, out)), Back(Unlinked(chain, next, out + [s])));
  }

  /** Backtracking into the first disjunction, which should have been cut, goes round once more. */
  lemma UncutAnswer(vm: Vm, s: Store, out: seq<Store>)
    requires Holds(vm)
    ensures var base := [Choice(1, Base)];
            Reaches(vm, Back(Unlinked(base + [J(4, 11, vm, s)], 6, out)),
                Back(Unlinked(base + [J(6, 17, vm, s)], 7, out + [s])))
  {
    CodeAt(vm);
    hide Step, Steps, Reaches, FrameOf, Holds, At;
    var base := [Choice(1, Base)];
    var w, w1 := Unlinked(base, 6, out), Unlinked(base + [J(6, 17, vm, s)], 7, out);
    var end := Back(Unlinked(base + [J(6, 17, vm, s)], 7, out + [s]));
    BackInto(vm, s, base, 4, 11, 6, out);
    StepNop(vm, I_TRUE, 11, {}, s, w);
    RunSecondOr(vm, s, w);
    assert Push(w, Machine.Jump(17, FrameOf(vm.env, {}), s)) == w1;
    NextAnswer(vm, s, base + [J(6, 17, vm, s)], 7, out);
    ReachesTrans(vm, Pl(12, vm, s, w), Pl(19, vm, s, w1), end);
    ReachesVia(vm, Pl(11, vm, s, w), end);
    ReachesVia(vm, Back(Unlinked(base + [J(4, 11, vm, s)], 6, out)), end);
  }

  /** The clause has two answers, but running its code gives four, whatever the program. */
  lemma StaleCutGoesOn(vm: Vm, s: Store)
    requires vm.cl.arity == 0 && vm.code == GenClause(vm.cl, Stale, 0)
    ensures ProperBody(Stale) && BodyVars(Stale) == {} && !NoStaleCut(Stale, false)
    ensures Solve(vm.p, vm.env, Stale, s).answers == [s, s]
    ensures Reaches(vm, Start(vm, s), Halt([s, s, s, s]))
  {
    StaleIs(vm.cl);
    StaleSolution(vm.p, vm.env, s);
    StaleFacts();
    FourAnswers(vm, s);
  }

  lemma FourAnswers(vm: Vm, s: Store)
    requires Holds(vm)
    ensures Reaches(vm, Start(vm, s), Halt([s, s, s, s]))
  {
    hide *;
    var base := [Choice(1, Base)];
    var c1 := Back(Unlinked(base + [J(4, 11, vm, s)] + [J(5, 17, vm, s)], 6, [s]));
    assert base + [J(4, 11, vm, s)] + [J(5, 17, vm, s)] == [Choice(1, Base), J(4, 11, vm, s), J(5, 17, vm, s)];
    FirstAnswer(vm, s);
    assert base + [J(4, 11, vm, s)] == [Choice(1, Base), J(4, 11, vm, s)];
    CutAnswer(vm, s, base + [J(4, 11, vm, s)], 5, 6, [s]);
    assert [s] + [s] == [s, s];
    var c2 := Back(Unlinked(base + [J(4, 11, vm, s)], 6, [s, s]));
    ReachesTrans(vm, Start(vm, s), c1, c2);
    UncutAnswer(vm, s, [s, s]);
    assert [s, s] + [s] == [s, s, s];
    var c3 := Back(Unlinked(base + [J(6, 17, vm, s)], 7, [s, s, s]));
    ReachesTrans(vm, Start(vm, s), c2, c3);
    CutAnswer(vm, s, base, 6, 7, [s, s, s]);
    assert [s, s, s] + [s] == [s, s, s, s];
    var c4 := Back(Unlinked(base, 7, [s, s, s, s]));
    ReachesTrans(vm, Start(vm, s), c3, c4);
    HaltAt(vm, 7, [s, s, s, s]);
    ReachesStep(vm, c4);
    ReachesTrans(vm, Start(vm, s), c4, Halt([s, s, s, s]));
  }

  lemma HaltAt(vm: Vm, next: nat, out: seq<Store>)
    ensures Step(vm, Back(Unlinked([Choice(1, Base)], next, out))) == Halt(out)
  {
  }

  lemma StaleFacts()
    ensures ProperBody(Stale) && BodyVars(Stale) == {} && !NoStaleCut(Stale, false)
  {
    assert ProperBody(Inner) && CutsIn(Inner);
    assert ProperBody(Middle) && !NoStaleCut(Middle, true);
    assert BodyVars(Inner) == {} && BodyVars(Middle) == {};
  }

  lemma StaleSolution(p: Program, env: nat -> Term, s: Store)
    ensures Solve(p, env, Stale, s).answers == [s, s]
  {
    var second := Solution([s, s], true);
    assert Solve(p, env, Disj(True, Cut), s) == second by { assert [s] + [s] == [s, s]; }
    assert Solve(p, env, Disj(True, True), s) == Solution([s, s], false) by { assert [s] + [s] == [s, s]; }
    assert SolveEach(p, env, Disj(True, Cut), [s, s], false) == second;
    assert Solve(p, env, Inner, s) == second;
    EachTrue(p, env, s);
    assert Solve(p, env, Middle, s) == Solution([s, s], false);
  }

  lemma EachTrue(p: Program, env: nat -> Term, s: Store)
    ensures SolveEach(p, env, True, [s, s], false) == Solution([s, s], false)
  {
    assert [s, s][1..] == [s] && [s][1..] == [];
    assert SolveEach(p, env, True, [], false) == Solution([], false);
    assert SolveEach(p, env, True, [s], false) == Solution([s], false) by { assert [s] + [] == [s]; }
    assert [s] + [s] == [s, s];
  }
}
