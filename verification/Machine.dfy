// The virtual machine instructions a clause body uses, as a small-step machine.
//
// The frame maps initialised slots to their contents.  Choice points remember the frame, so a slot
// initialised after a choice point was made counts as uninitialised again on backtracking; reading
// an uninitialised slot, or initialising one twice, is an error (Stuck).  Choice-point marks are
// kept in slots of their own and, as in the real machine, are not restored on backtracking.

module Machine {
  import opened Terms
  import opened VmCode
  import opened CodeGen
  import opened Search

  type Frame = map<nat, Term>

  /** A compound being filled; `right` when entered by B_RFUNCTOR, which saves no argument pointer. */
  datatype Pending = Pending(f: Functor, right: bool, done: seq<Term>)

  /** Finished goal arguments and the compounds still open, innermost last. */
  datatype Build = Build(args: seq<Term>, open: seq<Pending>)

  const NoArgs := Build([], [])

  datatype Alt =
    | Base                                                   // whatever the caller left
    | Jump(pc: nat, frame: Frame, store: Store)              // made by C_OR and friends
    | Redo(pc: nat, frame: Frame, answers: seq<Store>)       // further answers of a call

  datatype Choice = Choice(addr: nat, alt: Alt)

  /** The choice points, newest last; the mark slots; the parents of choice points that C_SOFTCUT
      unlinked; the address of the next choice point; the answers so far.  Later choice points have
      higher addresses, which is what cutting relies on. */
  datatype World = World(chain: seq<Choice>, marks: map<nat, int>, dead: map<nat, nat>, next: nat, out: seq<Store>)

  datatype Config =
    | Run(pc: nat, frame: Frame, build: Build, store: Store, fast: Option<nat>, w: World)
    | Back(w: World)
    | Halt(out: seq<Store>)
    | Stuck

  datatype Vm = Vm(code: Code, cl: Clause, p: Program, env: nat -> Term, lastCall: bool)

  function Top(chain: seq<Choice>): nat {
    if chain == [] then 0 else chain[|chain| - 1].addr
  }

  // ----- building arguments -----

  function Add(b: Build, t: Term): Build {
    if b.open == [] then Build(b.args + [t], [])
    else
      var k := |b.open| - 1;
      Build(b.args, b.open[..k] + [b.open[k].(done := b.open[k].done + [t])])
  }

  function Open(b: Build, f: Functor, right: bool): Build {
    Build(b.args, b.open + [Pending(f, right, [])])
  }

  /** B_POP: the argument pointer returns to where the innermost B_FUNCTOR left it, which completes
      that compound and every right-most compound inside it. */
  function Close(b: Build): Option<Build>
    decreases |b.open|
  {
    if b.open == [] then None
    else
      var k := |b.open| - 1;
      var top := b.open[k];
      if |top.done| != top.f.arity then None
      else
        var up := Add(Build(b.args, b.open[..k]), Cmp(top.f.name, top.done));
        if top.right then Close(up) else Some(up)
  }

  // ----- choice points -----

  /** Drop the choice points newer than `a`. */
  function CutTo(chain: seq<Choice>, a: nat): seq<Choice> {
    if chain == [] || Top(chain) <= a then chain else CutTo(chain[..|chain| - 1], a)
  }

  /** The newest part of the chain that starts at a choice point whose parent is `och`. */
  function LocalCutTo(chain: seq<Choice>, och: nat): Option<seq<Choice>> {
    if chain == [] then None
    else if Top(chain[..|chain| - 1]) == och then Some(chain)
    else LocalCutTo(chain[..|chain| - 1], och)
  }

  /** The position of a choice point in the chain, or its length. */
  function Find(chain: seq<Choice>, a: nat): (k: nat)
    ensures k <= |chain| && (k < |chain| ==> chain[k].addr == a)
  {
    if chain == [] then 0
    else if Top(chain) == a then |chain| - 1
    else
      var k := Find(chain[..|chain| - 1], a);
      if k == |chain| - 1 then |chain| else k
  }

  function ParentOf(w: World, a: nat): nat {
    var k := Find(w.chain, a);
    if k < |w.chain| then Top(w.chain[..k]) else if a in w.dead then w.dead[a] else 0
  }

  function Push(w: World, alt: Alt): World {
    w.(chain := w.chain + [Choice(w.next, alt)], next := w.next + 1)
  }

  // ----- instructions -----

  function StepArg(vm: Vm, op: Op, c: Config): Config
    requires c.Run? && c.pc + Size(op) <= |vm.code|
  {
    var next := c.(pc := c.pc + Size(op));
    match op
    case B_VOID => next.(build := Add(c.build, Void))
    case B_NIL => next.(build := Add(c.build, Nil))
    case B_SMALLINT =>
      var x := vm.code[c.pc + 1];
      if x.Num? then next.(build := Add(c.build, Int(x.n))) else Stuck
    case B_ATOM =>
      var x := vm.code[c.pc + 1];
      if x.Nam? then next.(build := Add(c.build, Atom(x.name))) else Stuck
    case B_VAR0 => ReadSlot(c, next, 0)
    case B_VAR1 => ReadSlot(c, next, 1)
    case B_VAR2 => ReadSlot(c, next, 2)
    case B_VAR => ReadSlot(c, next, NumAt(vm, c.pc + 1))
    case B_ARGVAR => ReadSlot(c, next, NumAt(vm, c.pc + 1))
    case B_FIRSTVAR => FirstSlot(vm, c, next, NumAt(vm, c.pc + 1))
    case B_ARGFIRSTVAR => FirstSlot(vm, c, next, NumAt(vm, c.pc + 1))
    case B_FUNCTOR =>
      var x := vm.code[c.pc + 1];
      if x.Fun? then next.(build := Open(c.build, x.f, false)) else Stuck
    case B_RFUNCTOR =>
      var x := vm.code[c.pc + 1];
      if x.Fun? then next.(build := Open(c.build, x.f, true)) else Stuck
    case B_LIST => next.(build := Open(c.build, DOT2, false))
    case B_RLIST => next.(build := Open(c.build, DOT2, true))
    case B_POP =>
      var b := Close(c.build);
      if b.Some? then next.(build := b.value) else Stuck
    case _ => Stuck
  }

  function NumAt(vm: Vm, i: nat): int {
    if i < |vm.code| && vm.code[i].Num? then vm.code[i].n else -1
  }

  function ReadSlot(c: Config, next: Config, i: int): Config
    requires c.Run? && next.Run?
  {
    if i >= 0 && i in c.frame then next.(build := Add(c.build, c.frame[i])) else Stuck
  }

  function FirstSlot(vm: Vm, c: Config, next: Config, i: int): Config
    requires c.Run? && next.Run?
  {
    if i >= 0 && i !in c.frame then
      next.(build := Add(c.build, vm.env(i)), frame := c.frame[i := vm.env(i)])
    else Stuck
  }

  /** Continue at `pc` with the first answer, leaving a choice point for any others. */
  function Answer(pc: nat, frame: Frame, answers: seq<Store>, w: World): Config {
    if answers == [] then Back(w)
    else if |answers| == 1 then Run(pc, frame, NoArgs, answers[0], None, w)
    else Run(pc, frame, NoArgs, answers[0], None, Push(w, Redo(pc, frame, answers[1..])))
  }

  /** The newest choice point is older than the clause's frame, so the frame may be reused. */
  predicate MayReuse(vm: Vm, w: World) {
    vm.lastCall && |w.chain| == 1
  }

  function ExitPc(vm: Vm): nat {
    if vm.code == [] then 0 else |vm.code| - 1
  }

  function SlotValues(frame: Frame, n: nat): Option<seq<Term>> {
    if n == 0 then Some([])
    else
      var init := SlotValues(frame, n - 1);
      if init.None? || n - 1 !in frame then None else Some(init.value + [frame[n - 1]])
  }

  function TailTo(vm: Vm, f: Functor, c: Config): Config
    requires c.Run?
  {
    var args := SlotValues(c.frame, f.arity);
    if args.None? then Stuck else Answer(ExitPc(vm), c.frame, vm.p.Call(f, args.value, c.store), c.w)
  }

  function StepCall(vm: Vm, op: Op, c: Config): Config
    requires c.Run? && c.pc + Size(op) <= |vm.code|
  {
    var next := c.(pc := c.pc + Size(op));
    match op
    case I_CALL =>
      var x := vm.code[c.pc + 1];
      if x.Fun? && c.build.open == [] && |c.build.args| == x.f.arity then
        Answer(c.pc + 2, c.frame, vm.p.Call(x.f, c.build.args, c.store), c.w)
      else Stuck
    case I_DEPART =>
      var x := vm.code[c.pc + 1];
      if x.Fun? && c.build.open == [] && |c.build.args| == x.f.arity then
        Answer(if MayReuse(vm, c.w) then ExitPc(vm) else c.pc + 2,
               c.frame, vm.p.Call(x.f, c.build.args, c.store), c.w)
      else Stuck
    case I_TCALL => TailTo(vm, vm.cl.self, c)
    case I_LCALL =>
      var x := vm.code[c.pc + 1];
      if x.Fun? then TailTo(vm, x.f, c) else Stuck
    case I_EXIT => Back(c.w.(out := c.w.out + [c.store]))
    case I_CUT => if c.w.chain == [] then Stuck else next.(w := c.w.(chain := c.w.chain[..1]))
    case I_TRUE => next
    case I_FAIL => Back(c.w)
    case I_TYPE(t) =>
      var i := NumAt(vm, c.pc + 1);
      if i < 0 || i !in c.frame then Stuck
      else if vm.p.holds(t, c.frame[i], c.store) then next
      else if c.fast.Some? then c.(pc := c.fast.value, fast := None)
      else Back(c.w)
    case _ => Stuck
  }

  /** Instructions that open a control construct, and jumps. */
  function StepBranch(vm: Vm, op: Op, c: Config): Config
    requires c.Run? && c.pc + Size(op) <= |vm.code|
  {
    var next := c.(pc := c.pc + Size(op));
    var a, b := NumAt(vm, c.pc + 1), NumAt(vm, c.pc + 2);
    if a < 0 then Stuck
    else
      match op
      case C_OR => next.(w := Push(c.w, Jump(c.pc + 2 + a, c.frame, c.store)))
      case C_JMP => c.(pc := c.pc + 2 + a)
      case C_IFTHENELSE => IfElse(c, next, a, b, Top(c.w.chain))
      case C_NOT => IfElse(c, next, a, b, Top(c.w.chain))
      case C_SOFTIF => IfElse(c, next, a, b, c.w.next)
      case C_FASTCOND =>
        if b < 0 then Stuck
        else next.(fast := Some(c.pc + 3 + b), w := c.w.(marks := c.w.marks[a := Top(c.w.chain)]))
      case _ => next.(w := c.w.(marks := c.w.marks[a := Top(c.w.chain)]))     // C_IFTHEN, C_SOFTIFTHEN
  }

  /** Instructions that drop choice points. */
  function StepCut(vm: Vm, op: Op, c: Config): Config
    requires c.Run? && c.pc + Size(op) <= |vm.code|
  {
    var next := c.(pc := c.pc + Size(op));
    var a := NumAt(vm, c.pc + 1);
    if a < 0 || a !in c.w.marks then Stuck
    else
      var m := c.w.marks[a];
      match op
      case C_FASTCUT => if c.fast.None? then Commit(c, next, m) else next.(fast := None)
      case C_LCUT => if m < 0 then Stuck else LocalCommit(c, next, m)
      case C_LSCUT => LocalCommit(c, next, ParentOf(c.w, if m < 0 then -m else m))
      case C_SOFTCUT => next.(w := SoftCut(c.w, a))
      case _ => Commit(c, next, m)                                           // C_CUT, C_LCUTIFTHEN
  }

  /** Variable balancing. */
  function StepInit(vm: Vm, op: Op, c: Config): Config
    requires c.Run? && c.pc + Size(op) <= |vm.code|
  {
    var next := c.(pc := c.pc + Size(op));
    var a := NumAt(vm, c.pc + 1);
    var count := if op.C_VAR? then 1 else NumAt(vm, c.pc + 2);
    if a < 0 || count < 0 then Stuck else Initialise(vm, c, next, a, count)
  }

  function IfElse(c: Config, next: Config, v: int, dist: int, mark: nat): Config
    requires c.Run? && next.Run?
  {
    if v < 0 || dist < 0 then Stuck
    else
      var w := c.w.(marks := c.w.marks[v := mark]);
      next.(w := Push(w, Jump(c.pc + 3 + dist, c.frame, c.store)))
  }

  /** Cut back to the choice point recorded as `mark`, which must still be there. */
  function Commit(c: Config, next: Config, mark: int): Config
    requires c.Run? && next.Run?
  {
    if mark < 0 then Stuck
    else
      var chain := CutTo(c.w.chain, mark);
      if Top(chain) != mark then Stuck else next.(w := c.w.(chain := chain))
  }

  /** Cut back to, and keep, the choice point whose parent is `och`. */
  function LocalCommit(c: Config, next: Config, och: nat): Config
    requires c.Run? && next.Run?
  {
    var chain := LocalCutTo(c.w.chain, och);
    if chain.Some? then next.(w := c.w.(chain := chain.value))
    else if Top(c.w.chain) == och then next
    else Stuck
  }

  /** Unlink the choice point of a soft-cut condition, once; the slot then refers to its parent, negated. */
  function SoftCut(w: World, v: nat): World
    requires v in w.marks
  {
    var m := w.marks[v];
    if m <= 0 then w
    else
      var k := Find(w.chain, m);
      if k == |w.chain| then w
      else
        var parent: int := Top(w.chain[..k]);
        World(w.chain[..k] + w.chain[k + 1..], w.marks[v := -parent], w.dead[m := parent], w.next, w.out)
  }

  /** Make slots `at` .. `at`+`count`-1 fresh variables; none may be in use. */
  function Initialise(vm: Vm, c: Config, next: Config, at: nat, count: nat): Config
    requires c.Run? && next.Run?
    decreases count
  {
    if count == 0 then next
    else if at in next.frame then Stuck
    else Initialise(vm, c, next.(frame := next.frame[at := vm.env(at)]), at + 1, count - 1)
  }

  function StepMove(vm: Vm, op: Op, c: Config): Config
    requires c.Run? && c.pc + Size(op) <= |vm.code|
  {
    var next := c.(pc := c.pc + Size(op));
    var a, b := NumAt(vm, c.pc + 1), NumAt(vm, c.pc + 2);
    if a < 0 then Stuck
    else
      match op
      case L_NOLCO => if MayReuse(vm, c.w) then next else c.(pc := c.pc + 2 + a)
      case L_VAR => if b < 0 || b !in c.frame then Stuck else next.(frame := c.frame[a := c.frame[b]])
      case L_VOID => next.(frame := c.frame[a := Void])
      case L_SMALLINT =>
        var x := vm.code[c.pc + 2];
        if x.Num? then next.(frame := c.frame[a := Int(x.n)]) else Stuck
      case L_ATOM =>
        var x := vm.code[c.pc + 2];
        if x.Nam? then next.(frame := c.frame[a := Atom(x.name)]) else Stuck
      case L_NIL => next.(frame := c.frame[a := Nil])
      case _ => Stuck
  }

  predicate IsArg(op: Op) {
    op.B_VOID? || op.B_SMALLINT? || op.B_ATOM? || op.B_NIL? || op.B_VAR0? || op.B_VAR1? || op.B_VAR2? || op.B_VAR?
    || op.B_FIRSTVAR? || op.B_ARGVAR? || op.B_ARGFIRSTVAR? || op.B_FUNCTOR? || op.B_RFUNCTOR? || op.B_LIST?
    || op.B_RLIST? || op.B_POP?
  }

  predicate IsCall(op: Op) {
    op.I_CALL? || op.I_DEPART? || op.I_TCALL? || op.I_LCALL? || op.I_EXIT? || op.I_CUT? || op.I_TRUE? || op.I_FAIL?
    || op.I_TYPE?
  }

  predicate IsMove(op: Op) {
    op.L_NOLCO? || op.L_VAR? || op.L_VOID? || op.L_SMALLINT? || op.L_ATOM? || op.L_NIL?
  }

  predicate IsBranch(op: Op) {
    op.C_OR? || op.C_JMP? || op.C_IFTHENELSE? || op.C_NOT? || op.C_SOFTIF? || op.C_FASTCOND? || op.C_IFTHEN?
    || op.C_SOFTIFTHEN?
  }

  predicate IsCut(op: Op) {
    op.C_CUT? || op.C_LCUTIFTHEN? || op.C_FASTCUT? || op.C_LCUT? || op.C_LSCUT? || op.C_SOFTCUT?
  }

  /** Resume the newest choice point. */
  function Backtrack(w: World): Config {
    if w.chain == [] then Stuck
    else
      var k := |w.chain| - 1;
      match w.chain[k].alt
      case Base => Halt(w.out)
      case Jump(pc, frame, store) => Run(pc, frame, NoArgs, store, None, w.(chain := w.chain[..k]))
      case Redo(pc, frame, answers) =>
        if answers == [] then Stuck
        else
          var rest := if |answers| == 1 then [] else [Choice(w.chain[k].addr, Redo(pc, frame, answers[1..]))];
          Run(pc, frame, NoArgs, answers[0], None, w.(chain := w.chain[..k] + rest))
  }

  /** Execute the instruction with opcode `op` at the program counter. */
  function Execute(vm: Vm, op: Op, c: Config): Config
    requires c.Run? && c.pc + Size(op) <= |vm.code|
  {
    if IsArg(op) then StepArg(vm, op, c)
    else if IsCall(op) then StepCall(vm, op, c)
    else if IsMove(op) then StepMove(vm, op, c)
    else if IsBranch(op) then StepBranch(vm, op, c)
    else if IsCut(op) then StepCut(vm, op, c)
    else if op.C_VAR? || op.C_VAR_N? then StepInit(vm, op, c)
    else if op.C_FAIL? then Back(c.w)
    else c.(pc := c.pc + 1)                                                  // C_SCUT, C_END
  }

  function Step(vm: Vm, c: Config): Config {
    match c
    case Halt(_) => c
    case Stuck => c
    case Back(w) => Backtrack(w)
    case Run(pc, _, _, _, _, _) =>
      if pc >= |vm.code| || !vm.code[pc].Ins? || pc + Size(vm.code[pc].op) > |vm.code| then Stuck
      else Execute(vm, vm.code[pc].op, c)
  }

  function Steps(vm: Vm, c: Config, n: nat): Config
    decreases n
  {
    if n == 0 then c else Steps(vm, Step(vm, c), n - 1)
  }

  function FrameOf(env: nat -> Term, used: set<nat>): Frame {
    map i | i in used :: env(i)
  }

  /** Enter the clause body: the arguments are in their slots, no choice point is newer than the frame. */
  function Start(vm: Vm, s: Store): Config {
    Run(0, FrameOf(vm.env, Below(vm.cl.arity)), NoArgs, s, None, World([Choice(1, Base)], map[], map[], 2, []))
  }
}
