// Virtual machine code: a flat sequence of cells, each an opcode or an operand.

module VmCode {
  import opened Terms

  datatype Op =
    // argument building
    | B_VOID | B_SMALLINT | B_ATOM | B_NIL
    | B_VAR0 | B_VAR1 | B_VAR2 | B_VAR | B_FIRSTVAR | B_ARGVAR | B_ARGFIRSTVAR
    | B_FUNCTOR | B_RFUNCTOR | B_LIST | B_RLIST | B_POP
    // calls
    | I_CALL | I_DEPART | I_TCALL | I_LCALL | I_EXIT
    | I_CUT | I_TRUE | I_FAIL | I_TYPE(test: TypeTest)
    // control
    | C_OR | C_JMP | C_IFTHENELSE | C_FASTCOND | C_SOFTIF | C_NOT
    | C_CUT | C_FASTCUT | C_SOFTCUT | C_LCUT | C_LSCUT | C_LCUTIFTHEN
    | C_IFTHEN | C_SOFTIFTHEN | C_SCUT | C_END | C_FAIL
    | C_VAR | C_VAR_N
    // last-call block
    | L_NOLCO | L_VAR | L_VOID | L_SMALLINT | L_ATOM | L_NIL

  /** One cell: an opcode, a number (slot, distance, integer), a name, or a functor. */
  datatype Cell = Ins(op: Op) | Num(n: int) | Nam(name: Name) | Fun(f: Functor)

  type Code = seq<Cell>

  const DOT2 := Functor(Dot, 2)

  /** The number of cells an instruction occupies. */
  function Size(op: Op): nat {
    match op
    case B_SMALLINT => 2
    case B_ATOM => 2
    case B_VAR => 2
    case B_FIRSTVAR => 2
    case B_ARGVAR => 2
    case B_ARGFIRSTVAR => 2
    case B_FUNCTOR => 2
    case B_RFUNCTOR => 2
    case I_CALL => 2
    case I_DEPART => 2
    case I_LCALL => 2
    case I_TYPE(_) => 2
    case C_OR => 2
    case C_JMP => 2
    case C_IFTHENELSE => 3
    case C_FASTCOND => 3
    case C_SOFTIF => 3
    case C_NOT => 3
    case C_CUT => 2
    case C_FASTCUT => 2
    case C_SOFTCUT => 2
    case C_LCUT => 2
    case C_LSCUT => 2
    case C_LCUTIFTHEN => 2
    case C_IFTHEN => 2
    case C_SOFTIFTHEN => 2
    case C_VAR => 2
    case C_VAR_N => 3
    case L_NOLCO => 2
    case L_VAR => 3
    case L_VOID => 2
    case L_SMALLINT => 3
    case L_ATOM => 3
    case L_NIL => 2
    case _ => 1
  }

  /** `part` sits in `code` at position `pc`. */
  predicate At(code: Code, pc: nat, part: Code) {
    pc + |part| <= |code| && code[pc..pc + |part|] == part
  }

  lemma AtSplit(code: Code, pc: nat, a: Code, b: Code)
    ensures At(code, pc, a + b) <==> At(code, pc, a) && At(code, pc + |a|, b)
  {
    if pc + |a| + |b| <= |code| {
      var w := code[pc..pc + |a| + |b|];
      assert w == code[pc..pc + |a|] + code[pc + |a|..pc + |a| + |b|];
      assert (a + b)[..|a|] == a && (a + b)[|a|..] == b;
      assert w[..|a|] == code[pc..pc + |a|] && w[|a|..] == code[pc + |a|..pc + |a| + |b|];
    }
  }

  lemma AtCell(code: Code, pc: nat, part: Code, k: nat)
    requires At(code, pc, part) && k < |part|
    ensures pc + k < |code| && code[pc + k] == part[k]
  {
    assert code[pc..pc + |part|][k] == part[k];
  }
}
