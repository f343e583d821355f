// The body decompiler: it reads code left to right, keeping a program counter and a stack of terms,
// and calls itself for the parts of a control construct.

module Decompiler {
  import opened Terms
  import opened VmCode
  import opened CodeGen
  import opened Machine

  /** Where a pass over the code stopped and what it left on the stack. */
  datatype Reading = Bad | Good(pc: nat, stack: Build)

  /** Take the arguments of `f` off the stack and push the term (build_term). */
  function BuildTerm(stack: Build, f: Functor): Option<Build> {
    if stack.open != [] || |stack.args| < f.arity then None
    else
      var k := |stack.args| - f.arity;
      Some(Build(stack.args[..k] + [if f.arity == 0 then Atom(f.name) else Cmp(f.name, stack.args[k..])], []))
  }

  /** Join the last `pushed` goals with commas. */
  function JoinGoals(stack: Build, pushed: nat): Option<Build>
    decreases pushed
  {
    if pushed <= 1 then Some(stack)
    else
      match BuildTerm(stack, Functor(Comma, 2))
      case None => None
      case Some(st) => JoinGoals(st, pushed - 1)
  }

  function Finish(pc: nat, stack: Build, pushed: nat): Reading {
    match JoinGoals(stack, pushed)
    case None => Bad
    case Some(st) => Good(pc, st)
  }

  function NumIn(code: Code, i: nat): Option<nat> {
    if i < |code| && code[i].Num? && code[i].n >= 0 then Some(code[i].n) else None
  }

  function PushVar(stack: Build, i: Option<nat>): Option<Build> {
    match i
    case None => None
    case Some(k) => Some(Add(stack, Var(k)))
  }

  /** An argument instruction at `pc`: what it adds to the stack. */
  function ReadArg(code: Code, pc: nat, op: Op, stack: Build): Option<Build> {
    match op
    case B_VOID => Some(Add(stack, Void))
    case B_NIL => Some(Add(stack, Nil))
    case B_SMALLINT => if pc + 1 < |code| && code[pc + 1].Num? then Some(Add(stack, Int(code[pc + 1].n))) else None
    case B_ATOM => if pc + 1 < |code| && code[pc + 1].Nam? then Some(Add(stack, Atom(code[pc + 1].name))) else None
    case B_VAR0 => PushVar(stack, Some(0))
    case B_VAR1 => PushVar(stack, Some(1))
    case B_VAR2 => PushVar(stack, Some(2))
    case B_VAR => PushVar(stack, NumIn(code, pc + 1))
    case B_FIRSTVAR => PushVar(stack, NumIn(code, pc + 1))
    case B_ARGVAR => PushVar(stack, NumIn(code, pc + 1))
    case B_ARGFIRSTVAR => PushVar(stack, NumIn(code, pc + 1))
    case B_FUNCTOR => if pc + 1 < |code| && code[pc + 1].Fun? then Some(Open(stack, code[pc + 1].f, false)) else None
    case B_RFUNCTOR => if pc + 1 < |code| && code[pc + 1].Fun? then Some(Open(stack, code[pc + 1].f, true)) else None
    case B_LIST => Some(Open(stack, DOT2, false))
    case B_RLIST => Some(Open(stack, DOT2, true))
    case B_POP => Close(stack)
    case _ => None
  }

  /** An instruction that is a goal by itself. */
  function ReadGoal(code: Code, pc: nat, op: Op, stack: Build): Option<Build> {
    match op
    case I_TRUE => Some(Add(stack, Atom(TrueName)))
    case I_FAIL => Some(Add(stack, Atom(FailName)))
    case I_TYPE(t) =>
      (match PushVar(stack, NumIn(code, pc + 1))
       case None => None
       case Some(st) => BuildTerm(st, Functor(Type(t), 1)))
    case I_CALL => if pc + 1 < |code| && code[pc + 1].Fun? then BuildTerm(stack, code[pc + 1].f) else None
    case I_DEPART => if pc + 1 < |code| && code[pc + 1].Fun? then BuildTerm(stack, code[pc + 1].f) else None
    case _ => Some(Add(stack, Atom(CutName)))                        // I_CUT, C_LCUT, C_LSCUT, C_LCUTIFTHEN
  }

  predicate IsGoalOp(op: Op) {
    op.I_TRUE? || op.I_FAIL? || op.I_TYPE? || op.I_CALL? || op.I_DEPART? || op.I_CUT? || op.C_LCUT? || op.C_LSCUT?
        || op.C_LCUTIFTHEN?
  }

  predicate IsSkipped(op: Op) {
    op.C_CUT? || op.C_FASTCUT? || op.C_VAR? || op.C_JMP? || op.C_VAR_N? || op.I_EXIT?
  }

  predicate IsControl(op: Op) {
    op.C_OR? || op.C_NOT? || op.C_IFTHENELSE? || op.C_FASTCOND? || op.C_SOFTIF? || op.C_IFTHEN? || op.C_SOFTIFTHEN?
  }

  /** The instruction that ends the condition opened by `op`, and the functor of the conditional. */
  function EndOf(op: Op): (Op, Functor) {
    if op.C_SOFTIF? then (C_SOFTCUT, Functor(SoftArrow, 2))
    else if op.C_FASTCOND? then (C_FASTCUT, Functor(Arrow, 2))
    else if op.C_SOFTIFTHEN? then (C_SCUT, Functor(SoftArrow, 2))
    else (C_CUT, Functor(Arrow, 2))
  }

  /** Read from `pc` up to the first instruction `end`, or up to the position `until`. */
  function Read(code: Code, pc: nat, end: Option<Op>, until: Option<nat>, stack: Build, pushed: nat): (r: Reading)
    ensures r.Good? ==> r.pc >= pc
    decreases |code| - pc, 1
  {
    if until == Some(pc) then Finish(pc, stack, pushed)
    else if pc >= |code| || !code[pc].Ins? then Bad
    else
      var op := code[pc].op;
      if end == Some(op) then Finish(pc, stack, pushed)
      else if IsControl(op) then
        match ReadControl(code, pc, op, stack)
        case Bad => Bad
        case Good(p, st) => Read(code, p, end, until, st, pushed + 1)
      else
        match ReadSimple(code, pc, op, stack)
        case Bad => Bad
        case Good(p, st) => Read(code, p, end, until, st, if IsGoalOp(op) then pushed + 1 else pushed)
  }

  /** Instructions other than control constructs. */
  function ReadSimple(code: Code, pc: nat, op: Op, stack: Build): (r: Reading)
    requires pc < |code|
    ensures r.Good? ==> r.pc > pc
  {
    if IsArg(op) then
      match ReadArg(code, pc, op, stack)
      case None => Bad
      case Some(st) => Good(pc + Size(op), st)
    else if IsGoalOp(op) then
      match ReadGoal(code, pc, op, stack)
      case None => Bad
      case Some(st) => Good(pc + Size(op), st)
    else if IsSkipped(op) then Good(pc + Size(op), stack)
    else if op.L_NOLCO? then
      match NumIn(code, pc + 1)
      case None => Bad
      case Some(n) => Good(pc + 2 + n, stack)
    else Bad
  }

  function BuildAt(r: Reading, skip: nat, f: Functor): (q: Reading)
    ensures q.Good? ==> r.Good? && q.pc == r.pc + skip
  {
    match r
    case Bad => Bad
    case Good(p, st) =>
      match BuildTerm(st, f)
      case None => Bad
      case Some(st1) => Good(p + skip, st1)
  }

  /** A control construct: its parts, then the term for it. */
  function ReadControl(code: Code, pc: nat, op: Op, stack: Build): (r: Reading)
    requires pc < |code| && IsControl(op)
    ensures r.Good? ==> r.pc > pc
    decreases |code| - pc, 0
  {
    if op.C_OR? then ReadOr(code, pc, stack)
    else if op.C_NOT? then BuildAt(Read(code, pc + 3, Some(C_CUT), None, stack, 0), 3, Functor(NotProvable, 1))
    else if op.C_IFTHEN? || op.C_SOFTIFTHEN? then ReadThen(code, pc, op, stack)
    else ReadElse(code, pc, op, stack)
  }

  function ReadOr(code: Code, pc: nat, stack: Build): (r: Reading)
    requires pc < |code|
    ensures r.Good? ==> r.pc > pc
    decreases |code| - pc - 1, 3
  {
    match ToJump(code, pc + 2, stack)
    case Bad => Bad
    case Good(p, st) => BuildAt(ToJump(code, p, st), 0, Functor(Semicolon, 2))
  }

  function ReadElse(code: Code, pc: nat, op: Op, stack: Build): (r: Reading)
    requires pc < |code|
    ensures r.Good? ==> r.pc > pc
    decreases |code| - pc - 1, 3
  {
    match NumIn(code, pc + 2)
    case None => Bad
    case Some(jmp) =>
      match Read(code, pc + 3, Some(EndOf(op).0), None, stack, 0)
      case Bad => Bad
      case Good(p1, st1) =>
        match BuildAt(Read(code, p1 + 2, None, Some(pc + 3 + jmp), st1, 0), 0, EndOf(op).1)
        case Bad => Bad
        case Good(p2, st2) => BuildAt(ToJump(code, p2, st2), 0, Functor(Semicolon, 2))
  }

  /** The operand just before `pc` tells how far to read. */
  function ToJump(code: Code, pc: nat, stack: Build): (r: Reading)
    requires pc > 0
    ensures r.Good? ==> r.pc >= pc
    decreases |code| - pc, 2
  {
    match NumIn(code, pc - 1)
    case None => Bad
    case Some(n) => Read(code, pc, None, Some(pc + n), stack, 0)
  }

  /** ReadElse, one unfolding. */
  lemma ElseReads(code: Code, pc: nat, op: Op, stack: Build)
    requires pc < |code|
    ensures ReadElse(code, pc, op, stack) ==
            match NumIn(code, pc + 2)
            case None => Bad
            case Some(jmp) =>
              match Read(code, pc + 3, Some(EndOf(op).0), None, stack, 0)
              case Bad => Bad
              case Good(p1, st1) =>
                match BuildAt(Read(code, p1 + 2, None, Some(pc + 3 + jmp), st1, 0), 0, EndOf(op).1)
                case Bad => Bad
                case Good(p2, st2) => BuildAt(ToJump(code, p2, st2), 0, Functor(Semicolon, 2))
  {
    hide EndOf, Read, ToJump, NumIn, BuildAt;
  }

  function ReadThen(code: Code, pc: nat, op: Op, stack: Build): (r: Reading)
    requires pc < |code|
    ensures r.Good? ==> r.pc > pc
    decreases |code| - pc - 1, 3
  {
    match Read(code, pc + 2, Some(EndOf(op).0), None, stack, 0)
    case Bad => Bad
    case Good(p, st) =>
      BuildAt(Read(code, p + (if op.C_IFTHEN? then 2 else 1), Some(C_END), None, st, 0), 1, EndOf(op).1)
  }

  /** A clause body: `true` when there is no code before the exit. */
  function ReadBody(code: Code): Option<Term> {
    if code != [] && code[0] == Ins(I_EXIT) then Some(Atom(TrueName))
    else
      match Read(code, 0, Some(I_EXIT), None, NoArgs, 0)
      case Bad => None
      case Good(_, st) => if |st.args| == 1 then Some(st.args[0]) else None
  }

  class DecompileInfo {
    const code: Code
    var pc: nat
    var stack: Build

    constructor (code: Code)
      ensures this.code == code && pc == 0 && stack == NoArgs
    {
      this.code, pc, stack := code, 0, NoArgs;
    }

    method MakeTerm(f: Functor) returns (ok: bool)
      modifies this`stack
      ensures ok == BuildTerm(old(stack), f).Some?
      ensures stack == if ok then BuildTerm(old(stack), f).value else old(stack)
    {
      var st := BuildTerm(stack, f);
      ok := st.Some?;
      if ok { stack := st.value; }
    }

    /** Read until `end` or `until`, then join the goals that were pushed. */
    method DecompileBody(end: Option<Op>, until: Option<nat>) returns (ok: bool)
      modifies this`pc, this`stack
      ensures var r := Read(code, old(pc), end, until, old(stack), 0);
              ok == r.Good? && (ok ==> pc == r.pc && stack == r.stack)
      decreases |code| - pc, 1
    {
      var pushed := 0;
      ghost var goal := Read(code, pc, end, until, stack, 0);
      while until != Some(pc)
        invariant pc >= old(pc)
        invariant Read(code, pc, end, until, stack, pushed) == goal
        decreases |code| - pc
      {
        if pc >= |code| || !code[pc].Ins? { return false; }
        var op := code[pc].op;
        if end == Some(op) { break; }
        if IsControl(op) {
          var good := DecompileControl(op);
          if !good { return false; }
          pushed := pushed + 1;
        } else {
          var r := ReadSimple(code, pc, op, stack);
          if r.Bad? { return false; }
          pc, stack := r.pc, r.stack;
          if IsGoalOp(op) { pushed := pushed + 1; }
        }
      }
      while pushed > 1
        invariant Finish(pc, stack, pushed) == goal
        decreases pushed
      {
        var good := MakeTerm(Functor(Comma, 2));
        if !good { return false; }
        pushed := pushed - 1;
      }
      return true;
    }

    method DecompileControl(op: Op) returns (ok: bool)
      requires pc < |code| && IsControl(op)
      modifies this`pc, this`stack
      ensures var r := ReadControl(code, old(pc), op, old(stack));
              ok == r.Good? && (ok ==> pc == r.pc && stack == r.stack)
      decreases |code| - pc, 0
    {
      if op.C_OR? {
        ok := DecompileOr();
      } else if op.C_NOT? {
        pc := pc + 3;
        ok := DecompileBody(Some(C_CUT), None);
        if !ok { return; }
        pc := pc + 3;
        ok := MakeTerm(Functor(NotProvable, 1));
      } else if op.C_IFTHEN? || op.C_SOFTIFTHEN? {
        ok := DecompileThen(op);
      } else {
        ok := DecompileElse(op);
      }
    }

    method DecompileOr() returns (ok: bool)
      requires pc < |code|
      modifies this`pc, this`stack
      ensures var r := ReadOr(code, old(pc), old(stack)); ok == r.Good? && (ok ==> pc == r.pc && stack == r.stack)
      decreases |code| - pc - 1, 3
    {
      pc := pc + 2;
      ok := DecompileToJump();
      if !ok { return; }
      ok := DecompileToJump();
      if !ok { return; }
      ok := MakeTerm(Functor(Semicolon, 2));
    }

    method DecompileThen(op: Op) returns (ok: bool)
      requires pc < |code|
      modifies this`pc, this`stack
      ensures var r := ReadThen(code, old(pc), op, old(stack)); ok == r.Good? && (ok ==> pc == r.pc && stack == r.stack)
      decreases |code| - pc - 1, 3
    {
      hide EndOf, Read, BuildTerm;
      pc := pc + 2;
      ok := DecompileBody(Some(EndOf(op).0), None);
      if !ok { return; }
      pc := pc + if op.C_IFTHEN? then 2 else 1;
      ok := DecompileBody(Some(C_END), None);
      if !ok { return; }
      pc := pc + 1;
      ok := MakeTerm(EndOf(op).1);
    }

    method DecompileElse(op: Op) returns (ok: bool)
      requires pc < |code|
      modifies this`pc, this`stack
      ensures var r := ReadElse(code, old(pc), op, old(stack)); ok == r.Good? && (ok ==> pc == r.pc && stack == r.stack)
      decreases |code| - pc - 1, 3
    {
      hide EndOf, Read, BuildTerm, ToJump, NumIn, ReadElse;
      ElseReads(code, pc, op, stack);
      var start := pc;
      var jmp := NumIn(code, pc + 2);
      if jmp.None? { return false; }
      pc := pc + 3;
      ok := DecompileBody(Some(EndOf(op).0), None);
      if !ok { return; }
      pc := pc + 2;
      ok := DecompileBody(None, Some(start + 3 + jmp.value));
      if !ok { return; }
      ok := MakeTerm(EndOf(op).1);
      if !ok { return; }
      ok := DecompileToJump();
      if !ok { return; }
      ok := MakeTerm(Functor(Semicolon, 2));
    }

    method DecompileToJump() returns (ok: bool)
      requires pc > 0
      modifies this`pc, this`stack
      ensures var r := ToJump(code, old(pc), old(stack));
              ok == r.Good? && (ok ==> pc == r.pc && stack == r.stack)
      decreases |code| - pc, 2
    {
      var n := NumIn(code, pc - 1);
      if n.None? { return false; }
      ok := DecompileBody(None, Some(pc + n.value));
    }
  }

  /** Decompile the code of a clause body. */
  method Decompile(code: Code) returns (t: Option<Term>)
    ensures t == ReadBody(code)
  {
    if code != [] && code[0] == Ins(I_EXIT) { return Some(Atom(TrueName)); }
    var di := new DecompileInfo(code);
    var ok := di.DecompileBody(Some(I_EXIT), None);
    if !ok || |di.stack.args| != 1 { return None; }
    return Some(di.stack.args[0]);
  }
}
