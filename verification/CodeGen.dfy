// The code the clause compiler emits, as a function of the body and the compiler state.
// Compiler.dfy proves that the compiler's appending, patching and truncating produces exactly this.

module CodeGen {
  import opened Terms
  import opened VmCode

  datatype Option<T> = None | Some(value: T)

  /** What stays fixed while one clause is compiled: the head arity, the predicate being
      compiled (for self recursion) and the size in bits of the table of used variables. */
  datatype Clause = Clause(arity: nat, self: Functor, bits: nat)

  /** How `!` is compiled: as I_CUT, or as a cut local to a condition. */
  datatype CutInfo = ClauseCut | LocalCut(op: Op, slot: nat)

  // ----- arguments -----

  function ShortVar(i: nat): Code {
    if i == 0 then [Ins(B_VAR0)] else if i == 1 then [Ins(B_VAR1)] else if i == 2 then [Ins(B_VAR2)]
    else [Ins(B_VAR), Num(i)]
  }

  function GenVar(cl: Clause, i: nat, inArg: bool, used: set<nat>): Code {
    var first := i !in used;
    if i < cl.arity then
      if inArg then [Ins(B_ARGVAR), Num(i)] else ShortVar(i)
    else if inArg then [Ins(if first then B_ARGFIRSTVAR else B_ARGVAR), Num(i)]
    else if first then [Ins(B_FIRSTVAR), Num(i)]
    else ShortVar(i)
  }

  function GenFunctor(f: Functor, right: bool): Code {
    if f == DOT2 then [Ins(if right then B_RLIST else B_LIST)]
    else [Ins(if right then B_RFUNCTOR else B_FUNCTOR), Fun(f)]
  }

  /** One argument.  `inArg`: inside a compound; `right`: it is the last argument of one. */
  function GenArg(cl: Clause, t: Term, inArg: bool, right: bool, used: set<nat>): Code
    decreases t, 1
  {
    match t
    case Void => [Ins(B_VOID)]
    case Var(i) => GenVar(cl, i, inArg, used)
    case Int(n) => [Ins(B_SMALLINT), Num(n)]
    case Atom(a) => [Ins(B_ATOM), Nam(a)]
    case Nil => [Ins(B_NIL)]
    case Cmp(f, ts) =>
      GenFunctor(Functor(f, |ts|), right) + GenSubs(cl, ts, used) + (if right then [] else [Ins(B_POP)])
  }

  /** The arguments of a compound; only the last is compiled right-recursively. */
  function GenSubs(cl: Clause, ts: seq<Term>, used: set<nat>): Code
    decreases ts, 0
  {
    if ts == [] then []
    else GenArg(cl, ts[0], true, |ts| == 1, used) + GenSubs(cl, ts[1..], used + Vars(ts[0]))
  }

  /** The arguments of a goal. */
  function GenArgs(cl: Clause, ts: seq<Term>, used: set<nat>): Code {
    if ts == [] then []
    else GenArg(cl, ts[0], false, false, used) + GenArgs(cl, ts[1..], used + Vars(ts[0]))
  }

  // ----- last call -----

  /** One in-place move for argument `slot` read off the front of `args`, and the cells it consumed. */
  function LcoMove(args: Code, slot: nat): Option<(Code, nat)>
    requires args != []
  {
    match args[0]
    case Ins(B_VAR0) => LcoVar(0, slot, 1)
    case Ins(B_VAR1) => LcoVar(1, slot, 1)
    case Ins(B_VAR2) => LcoVar(2, slot, 1)
    case Ins(B_VAR) => if |args| > 1 && args[1].Num? && args[1].n >= 0 then LcoVar(args[1].n, slot, 2) else None
    case Ins(B_VOID) => Some(([Ins(L_VOID), Num(slot)], 1))
    case Ins(B_SMALLINT) => if |args| > 1 then Some(([Ins(L_SMALLINT), Num(slot), args[1]], 2)) else None
    case Ins(B_ATOM) => if |args| > 1 then Some(([Ins(L_ATOM), Num(slot), args[1]], 2)) else None
    case Ins(B_NIL) => Some(([Ins(L_NIL), Num(slot)], 1))
    case _ => None
  }

  function LcoVar(bv: nat, slot: nat, size: nat): (r: Option<(Code, nat)>)
    ensures r.Some? <==> slot <= bv
  {
    if bv < slot then None
    else Some((if bv == slot then [] else [Ins(L_VAR), Num(slot), Num(bv)], size))
  }

  function LcoMoves(args: Code, slot: nat): Option<Code> {
    if args == [] then Some([])
    else
      match LcoMove(args, slot)
      case None => None
      case Some((move, n)) =>
        if n == 0 || n > |args| then None
        else
          match LcoMoves(args[n..], slot + 1)
          case None => None
          case Some(rest) => Some(move + rest)
  }

  function TailCall(cl: Clause, f: Functor): Code {
    if f == cl.self then [Ins(I_TCALL)] else [Ins(I_LCALL), Fun(f)]
  }

  /** The argument code and final call of the last goal, preceded by a last-call block when one exists. */
  function GenDepart(cl: Clause, args: Code, f: Functor): Code {
    var plain := args + [Ins(I_DEPART), Fun(f)];
    match LcoMoves(args, 0)
    case None => plain
    case Some(moves) =>
      var block := moves + TailCall(cl, f);
      [Ins(L_NOLCO), Num(|block|)] + block + plain
  }

  // ----- goals and control -----

  function GenGoal(cl: Clause, f: Name, ts: seq<Term>, depart: bool, used: set<nat>): Code {
    if f.Type? && |ts| == 1 && ts[0].Var? && ts[0].index in used then
      [Ins(I_TYPE(f.test)), Num(ts[0].index)]
    else if depart then
      GenDepart(cl, GenArgs(cl, ts, used), Functor(f, |ts|))
    else
      GenArgs(cl, ts, used) + [Ins(I_CALL), Fun(Functor(f, |ts|))]
  }

  function Flush(at: nat, count: nat): Code {
    if count == 0 then []
    else if count == 1 then [Ins(C_VAR), Num(at)]
    else [Ins(C_VAR_N), Num(at), Num(count)]
  }

  /** C_VAR code for the members of `m` from bit `i` on; `at` and `count` describe the pending run.
      A run is extended only by the successor of its first member, so it never exceeds two slots. */
  function BalanceFrom(m: set<nat>, i: nat, bits: nat, at: nat, count: nat): Code
    requires i <= bits
    decreases bits - i
  {
    if i == bits then Flush(at, count)
    else if i !in m then BalanceFrom(m, i + 1, bits, at, count)
    else if count == 0 then BalanceFrom(m, i + 1, bits, i, 1)
    else if i == at + 1 then BalanceFrom(m, i + 1, bits, at, count + 1)
    else Flush(at, count) + BalanceFrom(m, i + 1, bits, i, 1)
  }

  /** Initialise what `have` lacks and `want` has. */
  function Balance(cl: Clause, have: set<nat>, want: set<nat>): Code {
    BalanceFrom(want - have, 0, cl.bits, 0, 0)
  }

  predicate FastOp(op: Op) {
    op.I_TYPE? && op.test != TRational
  }

  /** Every instruction from `pc` on is one that fails without leaving anything to undo. */
  predicate AllFast(code: Code, pc: nat)
    decreases |code| - pc
  {
    pc >= |code| ||
    (code[pc].Ins? && FastOp(code[pc].op) && AllFast(code, pc + 2))
  }

  function Jump(n: int): Code {
    [Ins(C_JMP), Num(n)]
  }

  /** The frame slots a body reserves for its conditionals. */
  function Slots(b: Body): nat {
    match b
    case Conj(l, r) => Slots(l) + Slots(r)
    case Disj(l, r) => Slots(l) + Slots(r)
    case IfThen(c, t) => 1 + Slots(c) + Slots(t)
    case SoftIfThen(c, t) => 1 + Slots(c) + Slots(t)
    case Not(g) => 1 + Slots(g)
    case _ => 0
  }

  /** The code of a body, given the variables `used` so far and the next free slot. */
  function Gen(cl: Clause, b: Body, depart: bool, cut: CutInfo, used: set<nat>, slots: nat): Code
    decreases b, 1
  {
    match b
    case Goal(f, ts) => GenGoal(cl, f, ts, depart, used)
    case True => [Ins(I_TRUE)]
    case Fail => [Ins(I_FAIL)]
    case Cut => (if cut.ClauseCut? then [Ins(I_CUT)] else [Ins(cut.op), Num(cut.slot)])
    case Conj(l, r) =>
      Gen(cl, l, false, cut, used, slots) + Gen(cl, r, depart, cut, used + BodyVars(l), slots + Slots(l))
    case Disj(l, r) =>
      (match l
       case IfThen(c, t) => GenIfThenElse(cl, true, c, t, r, depart, cut, used, slots)
       case SoftIfThen(c, t) => GenIfThenElse(cl, false, c, t, r, depart, cut, used, slots)
       case _ => GenOr(cl, l, r, depart, cut, used, slots))
    case IfThen(c, t) => GenIfThen(cl, true, c, t, depart, cut, used, slots)
    case SoftIfThen(c, t) => GenIfThen(cl, false, c, t, depart, cut, used, slots)
    case Not(g) => GenNot(cl, g, used, slots)
  }

  function GenOr(cl: Clause, l: Body, r: Body, depart: bool, cut: CutInfo, used: set<nat>, slots: nat): Code
    decreases Disj(l, r), 0
  {
    var have1, have2 := used + BodyVars(l), used + BodyVars(r);
    OrCode(Gen(cl, l, false, cut, used, slots), Balance(cl, have1, have2),
           Gen(cl, r, depart, cut, used, slots + Slots(l)), Balance(cl, have2, have1))
  }

  function OrCode(lc: Code, bal1: Code, rc: Code, bal2: Code): Code {
    [Ins(C_OR), Num(|lc| + |bal1| + 2)] + lc + bal1 + Jump(|rc| + |bal2|) + rc + bal2
  }

  /** The left side of an if-then-else: `c -> t` or `c *-> t`. */
  function IfPart(hard: bool, c: Body, t: Body): Body {
    if hard then IfThen(c, t) else SoftIfThen(c, t)
  }

  function GenIfThenElse(cl: Clause, hard: bool, c: Body, t: Body, e: Body, depart: bool, cut: CutInfo,
        used: set<nat>, slots: nat): Code
    decreases Disj(IfPart(hard, c, t), e), 0
  {
    var have1, have2 := used + (BodyVars(c) + BodyVars(t)), used + BodyVars(e);
    var local := LocalCut(if hard then C_LCUT else C_LSCUT, slots);
    var cc := Gen(cl, c, false, local, used, slots + 1);
    IfCode(IfOp(hard, cc), CommitOp(hard, cc), slots, cc,
           Gen(cl, t, depart, cut, used + BodyVars(c), slots + 1 + Slots(c)), Balance(cl, have1, have2),
           Gen(cl, e, depart, cut, used, slots + 1 + Slots(c) + Slots(t)), Balance(cl, have2, have1))
  }

  /** A condition of fast tests only needs no choice point. */
  function IfOp(hard: bool, cc: Code): Op {
    if !hard then C_SOFTIF else if AllFast(cc, 0) then C_FASTCOND else C_IFTHENELSE
  }

  function CommitOp(hard: bool, cc: Code): Op {
    if !hard then C_SOFTCUT else if AllFast(cc, 0) then C_FASTCUT else C_CUT
  }

  function IfCode(op: Op, commit: Op, v: nat, cc: Code, tc: Code, bal1: Code, ec: Code, bal2: Code): Code {
    [Ins(op), Num(v), Num(|cc| + 2 + |tc| + |bal1| + 2)] + cc + [Ins(commit), Num(v)] + tc + bal1
    + Jump(|ec| + |bal2|) + ec + bal2
  }

  function GenIfThen(cl: Clause, hard: bool, c: Body, t: Body, depart: bool, cut: CutInfo, used: set<nat>,
        slots: nat): Code
    decreases IfPart(hard, c, t), 0
  {
    var cc := Gen(cl, c, false, LocalCut(C_LCUTIFTHEN, slots), used, slots + 1);
    var tc := Gen(cl, t, depart, cut, used + BodyVars(c), slots + 1 + Slots(c));
    if hard then [Ins(C_IFTHEN), Num(slots)] + cc + [Ins(C_CUT), Num(slots)] + tc + [Ins(C_END)]
    else [Ins(C_SOFTIFTHEN), Num(slots)] + cc + [Ins(C_SCUT)] + tc + [Ins(C_END)]
  }

  function GenNot(cl: Clause, g: Body, used: set<nat>, slots: nat): Code
    decreases Not(g), 0
  {
    NotCode(slots, Gen(cl, g, false, LocalCut(C_LCUT, slots), used, slots + 1),
            Balance(cl, used, used + BodyVars(g)))
  }

  /** The jump over the balancing code is deleted when there is none. */
  function NotCode(v: nat, gc: Code, bal: Code): Code {
    var tail := if bal == [] then [] else Jump(|bal|) + bal;
    [Ins(C_NOT), Num(v), Num(|gc| + 3 + |tail| - |bal|)] + gc + [Ins(C_CUT), Num(v), Ins(C_FAIL)] + tail
  }

  /** The variables 0 .. n-1. */
  function Below(n: nat): (r: set<nat>)
    ensures forall i :: i in r <==> 0 <= i < n
  {
    if n == 0 then {} else Below(n - 1) + {n - 1}
  }

  /** A whole clause body.  After the head, every argument slot counts as initialised. */
  function GenClause(cl: Clause, b: Body, slots: nat): Code {
    Gen(cl, b, true, ClauseCut, Below(cl.arity), slots) + [Ins(I_EXIT)]
  }

  /** The body of a rule `head => body`: without a body, which is the same as `true`, only the exit is left. */
  function GenRule(cl: Clause, b: Body, slots: nat): Code {
    if b == True then [Ins(I_EXIT)] else GenClause(cl, b, slots)
  }
}
