// The compiled code of a body behaves as the body: by induction over the body.

module Simulation {
  import opened Terms
  import opened VmCode
  import opened CodeGen
  import opened CodeShapes
  import opened Search
  import opened Machine
  import opened Execution
  import opened Answers
  import opened Composition
  import opened GoalRuns
  import opened Control
  import opened Conditions
  import opened FastConditions
  import opened SoftConditions
  import opened Layout

  /** No `!` runs in the condition of a `*->` after the choice point has been unlinked that it relies on.
      Where the condition of an enclosing `*->` with an else part may succeed (`live`), that choice point is
      unlinked with the first success, so no `!` of the inner condition may run late. */
  predicate NoStaleCut(b: Body, live: bool) {
    match b
    case Conj(l, r) => NoStaleCut(l, live) && NoStaleCut(r, live)
    case Disj(l, r) =>
      NoStaleCut(r, live)
      && (match l
          case IfThen(c, t) => NoStaleCut(c, false) && NoStaleCut(t, live)
          case SoftIfThen(c, t) => !(live && LateCut(c)) && NoStaleCut(c, true) && NoStaleCut(t, live)
          case _ => NoStaleCut(l, live))
    case IfThen(c, t) => NoStaleCut(c, false) && NoStaleCut(t, live)
    case SoftIfThen(c, t) => !(live && LateCut(c)) && NoStaleCut(c, live) && NoStaleCut(t, live)
    case Not(g) => NoStaleCut(g, false)
    case _ => true
  }

  /** Body `b` may run in scope `sc`, with `!` compiled as `cut`, and needs no more than `rest` once it has an
      answer. */
  predicate Allowed(b: Body, cut: CutInfo, sc: Scope, rest: Scope) {
    && NoStaleCut(b, sc.pin.None?) && (CutsIn(b) ==> CutMatches(cut, sc))
    && Rests(sc, rest) && (rest != sc ==> !LateCut(b))
  }

  /** The code of `b`, for code that runs in scope `sc`, is at `pc`. */
  ghost predicate Compiled(vm: Vm, b: Body, depart: bool, cut: CutInfo, used: set<nat>, slots: nat, pc: nat,
        sc: Scope, rest: Scope) {
    Laid(vm, b, depart, cut, used, slots, pc) && Allowed(b, cut, sc, rest) && ScopeBefore(sc, slots)
  }

  lemma CompiledHas(vm: Vm, b: Body, depart: bool, cut: CutInfo, used: set<nat>, slots: nat, pc: nat, sc: Scope,
        rest: Scope)
    requires Compiled(vm, b, depart, cut, used, slots, pc, sc, rest)
    ensures Laid(vm, b, depart, cut, used, slots, pc) && Allowed(b, cut, sc, rest) && ScopeBefore(sc, slots)
            && Rests(sc, rest)
    ensures rest.floor == sc.floor
  {
  }

  lemma CompiledIs(vm: Vm, b: Body, depart: bool, cut: CutInfo, used: set<nat>, slots: nat, pc: nat, sc: Scope,
        rest: Scope, lo: nat)
    requires Laid(vm, b, depart, cut, used, slots, pc) && Allowed(b, cut, sc, rest) && ScopeBefore(sc, lo)
             && lo <= slots
    ensures Compiled(vm, b, depart, cut, used, slots, pc, sc, rest)
  {
  }

  function SlotsOf(b: Body, slots: nat): Own {
    Own(slots, slots + Slots(b))
  }

  lemma {:induction false} Simulates(vm: Vm, b: Body, depart: bool, cut: CutInfo, used: set<nat>, slots: nat,
        pc: nat, sc: Scope, rest: Scope)
    requires Compiled(vm, b, depart, cut, used, slots, pc, sc, rest)
    ensures Behaves(vm, sc, rest, End(vm, b, depart, cut, used, slots, pc), SlotsOf(b, slots), pc, used, b)
    decreases b, 1
  {
    hide *;
    match b {
      case Conj(l, r) => SimulatesConj(vm, l, r, depart, cut, used, slots, pc, sc, rest);
      case Disj(IfThen(c, t), e) => SimulatesIfElse(vm, c, t, e, depart, cut, used, slots, pc, sc, rest);
      case Disj(SoftIfThen(c, t), e) => SimulatesSoftElse(vm, c, t, e, depart, cut, used, slots, pc, sc, rest);
      case Disj(l, r) => SimulatesOr(vm, l, r, depart, cut, used, slots, pc, sc, rest);
      case IfThen(c, t) => SimulatesIfThen(vm, c, t, depart, cut, used, slots, pc, sc, rest);
      case SoftIfThen(c, t) => SimulatesSoftThen(vm, c, t, depart, cut, used, slots, pc, sc, rest);
      case Not(g) => SimulatesNot(vm, g, depart, cut, used, slots, pc, sc, rest);
      case _ => SimulatesSimple(vm, b, depart, cut, used, slots, pc, sc, rest);
    }
  }

  lemma SimulatesSimple(vm: Vm, b: Body, depart: bool, cut: CutInfo, used: set<nat>, slots: nat, pc: nat, sc: Scope,
        rest: Scope)
    requires Compiled(vm, b, depart, cut, used, slots, pc, sc, rest) && (b.Goal? || b.True? || b.Fail? || b.Cut?)
    ensures Behaves(vm, sc, rest, End(vm, b, depart, cut, used, slots, pc), SlotsOf(b, slots), pc, used, b)
  {
    hide Behaves, At, Below, CutMatches, GenGoal;
    assert used + {} == used;
    match b {
      case Goal(f, ts) => GoalBehaves(vm, sc, rest, SlotsOf(b, slots), f, ts, depart, used, pc);
      case True => TrueBehaves(vm, sc, rest, SlotsOf(b, slots), depart, pc, used);
      case Fail => FailBehaves(vm, sc, rest, SlotsOf(b, slots), depart, pc, used);
      case Cut => CutBehaves(vm, sc, rest, SlotsOf(b, slots), cut, depart, pc, used);
    }
  }

  /** Code that continues the answers of what comes before it, on the way to exit `y`. */
  lemma {:induction false} SimulatesNext(vm: Vm, t: Body, depart: bool, cut: CutInfo, used: set<nat>, slots: nat,
        pc: nat, sc: Scope, rest: Scope, y: Exit)
    requires Compiled(vm, t, depart, cut, used, slots, pc, sc, rest) && (AlwaysCuts(t) || Allowed(t, cut, rest, rest))
    requires LeadsTo(vm, End(vm, t, depart, cut, used, slots, pc), y)
    ensures Continues(vm, sc, rest, y, SlotsOf(t, slots), pc, used, t)
    decreases t, 2
  {
    hide *;
    var x, own := End(vm, t, depart, cut, used, slots, pc), SlotsOf(t, slots);
    Simulates(vm, t, depart, cut, used, slots, pc, sc, rest);
    BehavesVia(vm, sc, rest, x, y, own, pc, used, t);
    if !AlwaysCuts(t) {
      LaterCompiled(vm, t, depart, cut, used, slots, pc, sc, rest);
      Simulates(vm, t, depart, cut, used, slots, pc, rest, rest);
      BehavesVia(vm, rest, rest, x, y, own, pc, used, t);
    }
    ContinuesIs(vm, sc, rest, y, own, pc, used, t);
  }

  lemma ContinuesIs(vm: Vm, sc: Scope, rest: Scope, x: Exit, own: Own, pc: nat, used: set<nat>, t: Body)
    requires Behaves(vm, sc, rest, x, own, pc, used, t)
             && (AlwaysCuts(t) || Behaves(vm, rest, rest, x, own, pc, used, t))
    ensures Continues(vm, sc, rest, x, own, pc, used, t)
  {
    hide Behaves, AlwaysCuts;
  }

  lemma LaterCompiled(vm: Vm, t: Body, depart: bool, cut: CutInfo, used: set<nat>, slots: nat, pc: nat, sc: Scope,
        rest: Scope)
    requires Compiled(vm, t, depart, cut, used, slots, pc, sc, rest) && Allowed(t, cut, rest, rest)
    ensures Compiled(vm, t, depart, cut, used, slots, pc, rest, rest)
  {
    hide Laid, NoStaleCut, CutsIn, LateCut, CutMatches;
  }

  lemma LeadsSelf(vm: Vm, x: Exit)
    ensures LeadsTo(vm, x, x)
  {
    hide Reaches;
    forall s: Store, w: World ensures Reaches(vm, Plain(x.pc, vm, x.used, s, w), Plain(x.pc, vm, x.used, s, w)) {
      ReachesSelf(vm, Plain(x.pc, vm, x.used, s, w));
    }
  }

  // ----- conjunction -----

  lemma ConjAllowed(l: Body, r: Body, cut: CutInfo, sc: Scope, rest: Scope)
    requires Allowed(Conj(l, r), cut, sc, rest)
    ensures Allowed(l, cut, sc, Seen(sc, rest, r)) && Allowed(r, cut, sc, rest)
            && (AlwaysCuts(r) || Allowed(r, cut, rest, rest))
  {
    hide CutMatches;
  }

  /** The slots of two parts, one behind the other, of a piece of code. */
  lemma SplitSlots(sc: Scope, lo: nat, n: nat, m: nat, hi: nat)
    requires ScopeBefore(sc, lo) && n + m + lo <= hi
    ensures Apart(sc, Own(lo, lo + n), Own(lo + n, lo + n + m), Own(lo, hi))
  {
  }

  lemma {:induction false} SimulatesConj(vm: Vm, l: Body, r: Body, depart: bool, cut: CutInfo, used: set<nat>,
        slots: nat, pc: nat, sc: Scope, rest: Scope)
    requires Compiled(vm, Conj(l, r), depart, cut, used, slots, pc, sc, rest)
    ensures Behaves(vm, sc, rest, End(vm, Conj(l, r), depart, cut, used, slots, pc), SlotsOf(Conj(l, r), slots), pc,
            used, Conj(l, r))
    decreases Conj(l, r), 0
  {
    hide *;
    CompiledHas(vm, Conj(l, r), depart, cut, used, slots, pc, sc, rest);
    ConjAllowed(l, r, cut, sc, rest);
    ConjLaid(vm, l, r, depart, cut, used, slots, pc);
    var xa, x := End(vm, l, false, cut, used, slots, pc), End(vm, Conj(l, r), depart, cut, used, slots, pc);
    var ol, or, own := SlotsOf(l, slots), SlotsOf(r, slots + Slots(l)), SlotsOf(Conj(l, r), slots);
    CompiledIs(vm, l, false, cut, used, slots, pc, sc, Seen(sc, rest, r), slots);
    Simulates(vm, l, false, cut, used, slots, pc, sc, Seen(sc, rest, r));
    CompiledIs(vm, r, depart, cut, xa.used, slots + Slots(l), xa.pc, sc, rest, slots);
    LeadsSelf(vm, x);
    SimulatesNext(vm, r, depart, cut, xa.used, slots + Slots(l), xa.pc, sc, rest, x);
    SlotsAre(l, slots);
    SlotsAre(r, slots + Slots(l));
    SlotsAre(Conj(l, r), slots);
    SplitSlots(sc, slots, Slots(l), Slots(r), slots + Slots(l) + Slots(r));
    ConjBehaves(vm, sc, rest, xa, x, ol, or, own, pc, used, l, r);
  }

  lemma SlotsAre(b: Body, slots: nat)
    ensures SlotsOf(b, slots) == Own(slots, slots + Slots(b))
  {
  }

  // ----- disjunction -----

  lemma OrAllowed(l: Body, r: Body, cut: CutInfo, sc: Scope, rest: Scope)
    requires Allowed(Disj(l, r), cut, sc, rest) && !l.IfThen? && !l.SoftIfThen?
    ensures Allowed(l, cut, sc, rest) && Allowed(r, cut, sc, rest) && (AlwaysCuts(l) || Allowed(r, cut, rest, rest))
  {
    hide CutMatches;
  }

  lemma {:induction false} SimulatesOr(vm: Vm, l: Body, r: Body, depart: bool, cut: CutInfo, used: set<nat>,
        slots: nat, pc: nat, sc: Scope, rest: Scope)
    requires Compiled(vm, Disj(l, r), depart, cut, used, slots, pc, sc, rest) && !l.IfThen? && !l.SoftIfThen?
    ensures Behaves(vm, sc, rest, End(vm, Disj(l, r), depart, cut, used, slots, pc), SlotsOf(Disj(l, r), slots), pc,
            used, Disj(l, r))
    decreases Disj(l, r), 0
  {
    hide *;
    CompiledHas(vm, Disj(l, r), depart, cut, used, slots, pc, sc, rest);
    OrAllowed(l, r, cut, sc, rest);
    var pr := OrLaid(vm, l, r, depart, cut, used, slots, pc);
    var x, v := End(vm, Disj(l, r), depart, cut, used, slots, pc), slots + Slots(l);
    var ol, or, own := SlotsOf(l, slots), SlotsOf(r, v), SlotsOf(Disj(l, r), slots);
    CompiledIs(vm, l, false, cut, used, slots, pc + 2, sc, rest, slots);
    Simulates(vm, l, false, cut, used, slots, pc + 2, sc, rest);
    BehavesVia(vm, sc, rest, End(vm, l, false, cut, used, slots, pc + 2), x, ol, pc + 2, used, l);
    CompiledIs(vm, r, depart, cut, used, v, pr, sc, rest, slots);
    Simulates(vm, r, depart, cut, used, v, pr, sc, rest);
    BehavesVia(vm, sc, rest, End(vm, r, depart, cut, used, v, pr), x, or, pr, used, r);
    if !AlwaysCuts(l) {
      LaterCompiled(vm, r, depart, cut, used, v, pr, sc, rest);
      Simulates(vm, r, depart, cut, used, v, pr, rest, rest);
      BehavesVia(vm, rest, rest, End(vm, r, depart, cut, used, v, pr), x, or, pr, used, r);
    }
    SlotsAre(l, slots);
    SlotsAre(r, v);
    SlotsAre(Disj(l, r), slots);
    SplitSlots(sc, slots, Slots(l), Slots(r), slots + Slots(l) + Slots(r));
    OrBehaves(vm, sc, rest, x, ol, or, own, pc, pr - pc - 2, used, l, r);
  }

  // ----- if-then-else -----

  /** A condition in the scope that C_IFTHENELSE, C_NOT or C_IFTHEN opens for it. */
  function HardScope(kind: CutKind, floor: nat): Scope {
    Scope(kind, Some(floor), floor)
  }

  lemma IfElseAllowed(c: Body, t: Body, e: Body, cut: CutInfo, sc: Scope, rest: Scope, v: nat, floor: nat)
    requires Allowed(Disj(IfThen(c, t), e), cut, sc, rest)
    ensures var scc := HardScope(Local(v), floor); Allowed(c, LocalCut(C_LCUT, v), scc, scc) && ScopeBefore(scc, v + 1)
    ensures Allowed(t, cut, sc, rest) && Allowed(e, cut, sc, rest)
  {
    assert CutsIn(Disj(IfThen(c, t), e)) == (CutsIn(IfThen(c, t)) || CutsIn(e)) && CutsIn(IfThen(c, t)) == CutsIn(t);
  }

  /** The slots of a conditional: its own, then those of its parts. */
  lemma IfSlots(sc: Scope, v: nat, c: nat, t: nat, e: nat)
    requires ScopeBefore(sc, v)
    ensures var oc, ot, oe := Own(v + 1, v + 1 + c), Own(v + 1 + c, v + 1 + c + t),
            Own(v + 1 + c + t, v + 1 + c + t + e);
            var own := Own(v, v + 1 + c + t + e);
            && own.lo == v < oc.lo <= oc.hi <= ot.lo && oc.hi <= own.hi && v < own.hi
            && Within(ot, own) && Within(oe, own) && Within(Own(v, oc.hi), own) && Apart(sc, Own(v, oc.hi), ot, own)
  {
  }

  lemma GuardedIntro(vm: Vm, x: Exit, own: Own, v: nat, pc: nat, used: set<nat>, c: Body)
    requires forall floor: nat :: Behaves(vm, HardScope(Local(v), floor), HardScope(Local(v), floor), x, own, pc,
             used, c)
    ensures BehavesGuarded(vm, x, own, v, pc, used, c)
  {
    hide Behaves;
    forall floor: nat
      ensures Behaves(vm, Scope(Local(v), Some(floor), floor), Scope(Local(v), Some(floor), floor), x, own, pc, used, c)
    {
      assert HardScope(Local(v), floor) == Scope(Local(v), Some(floor), floor);
    }
  }

  lemma {:induction false} SimulatesIfElse(vm: Vm, c: Body, t: Body, e: Body, depart: bool, cut: CutInfo,
        used: set<nat>, slots: nat, pc: nat, sc: Scope, rest: Scope)
    requires Compiled(vm, Disj(IfThen(c, t), e), depart, cut, used, slots, pc, sc, rest)
    ensures var b := Disj(IfThen(c, t), e);
            Behaves(vm, sc, rest, End(vm, b, depart, cut, used, slots, pc), SlotsOf(b, slots), pc, used, b)
    decreases Disj(IfThen(c, t), e), 0
  {
    hide *;
    var b, v, local := Disj(IfThen(c, t), e), slots, LocalOf(true, slots);
    var x, own := End(vm, b, depart, cut, used, slots, pc), SlotsOf(b, slots);
    CompiledHas(vm, b, depart, cut, used, slots, pc, sc, rest);
    IfParts(c, t, v);
    IfElseAllowed(c, t, e, cut, sc, rest, v, 0);
    var cc, pe := IfElseLaid(vm, true, c, t, e, depart, cut, used, slots, pc);
    var xc, vt, ve := End(vm, c, false, local, used, v + 1, pc + 3), v + 1 + Slots(c), v + 1 + Slots(c) + Slots(t);
    var oc, ot, oe := SlotsOf(c, v + 1), SlotsOf(t, vt), SlotsOf(e, ve);
    IfSlots(sc, v, Slots(c), Slots(t), Slots(e));
    SlotsAre(c, v + 1);
    SlotsAre(t, vt);
    SlotsAre(e, ve);
    SlotsAre(b, v);
    forall floor: nat ensures Behaves(vm, HardScope(Local(v), floor), HardScope(Local(v), floor), xc, oc, pc + 3,
        used, c) {
      var scc := HardScope(Local(v), floor);
      IfElseAllowed(c, t, e, cut, sc, rest, v, floor);
      CompiledIs(vm, c, false, local, used, v + 1, pc + 3, scc, scc, v + 1);
      Simulates(vm, c, false, local, used, v + 1, pc + 3, scc, scc);
    }
    GuardedIntro(vm, xc, oc, v, pc + 3, used, c);
    CompiledIs(vm, t, depart, cut, xc.used, vt, xc.pc + 2, sc, rest, v);
    Simulates(vm, t, depart, cut, xc.used, vt, xc.pc + 2, sc, rest);
    BehavesVia(vm, sc, rest, End(vm, t, depart, cut, xc.used, vt, xc.pc + 2), x, ot, xc.pc + 2, xc.used, t);
    CompiledIs(vm, e, depart, cut, used, ve, pe, sc, rest, v);
    Simulates(vm, e, depart, cut, used, ve, pe, sc, rest);
    BehavesVia(vm, sc, rest, End(vm, e, depart, cut, used, ve, pe), x, oe, pe, used, e);
    IfElseChoice(vm, sc, rest, x, xc, oc, ot, oe, own, v, pe, pc, used, c, t, e, cc);
  }

  /** Either form of an if-then-else: with a choice point or, for tests only, without. */
  lemma IfElseChoice(vm: Vm, sc: Scope, rest: Scope, x: Exit, xc: Exit, oc: Own, ot: Own, oe: Own, own: Own, v: nat,
        pe: nat, pc: nat, used: set<nat>,
                     c: Body, t: Body, e: Body, cc: Code)
    requires ProperBody(c) && cc == Gen(vm.cl, c, false, LocalOf(true, v), used, v + 1)
    requires xc == Exit(pc + 3 + |cc|, used + BodyVars(c), false) && pc + 3 <= pe
    requires At(vm.code, pc, [Ins(IfOp(true, cc)), Num(v), Num(pe - pc - 3)]) && At(vm.code, pc + 3, cc)
    requires At(vm.code, xc.pc, [Ins(CommitOp(true, cc)), Num(v)])
    requires BehavesGuarded(vm, xc, oc, v, pc + 3, used, c)
    requires Behaves(vm, sc, rest, x, ot, xc.pc + 2, xc.used, t) && Behaves(vm, sc, rest, x, oe, pe, used, e)
    requires own.lo == v < oc.lo && oc.hi <= own.hi && v < own.hi && ScopeBefore(sc, v) && Within(ot, own)
             && Within(oe, own)
    ensures Behaves(vm, sc, rest, x, own, pc, used, Disj(IfThen(c, t), e))
  {
    hide Behaves, BehavesGuarded, At, Gen, AllFast, OnlyTests;
    FastMeansTests(vm.cl, c, LocalOf(true, v), used, v + 1);
    if AllFast(cc, 0) {
      TestsBindNothing(c, used);
      FastIfElseBehaves(vm, sc, rest, x, ot, oe, own, v, pe - pc - 3, pc, used, c, t, e, LocalOf(true, v), v + 1);
    } else {
      IfElseBehaves(vm, sc, rest, x, xc, oc, ot, oe, own, v, pe - pc - 3, pc, used, c, t, e);
    }
  }

  // ----- *-> with else -----

  lemma SoftElseAllowed(c: Body, t: Body, e: Body, cut: CutInfo, sc: Scope, rest: Scope, v: nat, floor: nat)
    requires Allowed(Disj(SoftIfThen(c, t), e), cut, sc, rest)
    ensures var scc := SoftScope(c, v, floor);
            Allowed(c, LocalCut(C_LSCUT, v), scc, RestScope(scc, sc.pin.Some?)) && ScopeBefore(scc, v + 1)
    ensures Allowed(t, cut, sc, rest) && Allowed(e, cut, sc, rest) && (AlwaysCuts(t) || Allowed(t, cut, rest, rest))
  {
    assert CutsIn(Disj(SoftIfThen(c, t), e)) == (CutsIn(SoftIfThen(c, t)) || CutsIn(e))
        && CutsIn(SoftIfThen(c, t)) == CutsIn(t);
  }

  lemma SoftIntro(vm: Vm, x: Exit, own: Own, v: nat, pc: nat, used: set<nat>, c: Body, pinned: bool)
    requires forall floor: nat ::
               Behaves(vm, SoftScope(c, v, floor), RestScope(SoftScope(c, v, floor), pinned), x, own, pc, used, c)
    ensures BehavesSoftly(vm, x, own, v, pc, used, c, pinned)
  {
    hide Behaves;
  }

  lemma {:induction false} SimulatesSoftElse(vm: Vm, c: Body, t: Body, e: Body, depart: bool, cut: CutInfo,
        used: set<nat>, slots: nat, pc: nat, sc: Scope, rest: Scope)
    requires Compiled(vm, Disj(SoftIfThen(c, t), e), depart, cut, used, slots, pc, sc, rest)
    ensures var b := Disj(SoftIfThen(c, t), e);
            Behaves(vm, sc, rest, End(vm, b, depart, cut, used, slots, pc), SlotsOf(b, slots), pc, used, b)
    decreases Disj(SoftIfThen(c, t), e), 0
  {
    hide *;
    var b, v, local, pinned := Disj(SoftIfThen(c, t), e), slots, LocalOf(false, slots), sc.pin.Some?;
    var x, own := End(vm, b, depart, cut, used, slots, pc), SlotsOf(b, slots);
    CompiledHas(vm, b, depart, cut, used, slots, pc, sc, rest);
    IfParts(c, t, v);
    SoftElseAllowed(c, t, e, cut, sc, rest, v, 0);
    var cc, pe := IfElseLaid(vm, false, c, t, e, depart, cut, used, slots, pc);
    CommitIs(false, cc);
    var xc, vt, ve := End(vm, c, false, local, used, v + 1, pc + 3), v + 1 + Slots(c), v + 1 + Slots(c) + Slots(t);
    var oc, ot, oe := SlotsOf(c, v + 1), SlotsOf(t, vt), SlotsOf(e, ve);
    IfSlots(sc, v, Slots(c), Slots(t), Slots(e));
    SlotsAre(c, v + 1);
    SlotsAre(t, vt);
    SlotsAre(e, ve);
    SlotsAre(b, v);
    forall floor: nat
      ensures Behaves(vm, SoftScope(c, v, floor), RestScope(SoftScope(c, v, floor), pinned), xc, oc, pc + 3, used, c)
    {
      var scc := SoftScope(c, v, floor);
      SoftElseAllowed(c, t, e, cut, sc, rest, v, floor);
      CompiledIs(vm, c, false, local, used, v + 1, pc + 3, scc, RestScope(scc, pinned), v + 1);
      Simulates(vm, c, false, local, used, v + 1, pc + 3, scc, RestScope(scc, pinned));
    }
    SoftIntro(vm, xc, oc, v, pc + 3, used, c, pinned);
    CompiledIs(vm, t, depart, cut, xc.used, vt, xc.pc + 2, sc, rest, v);
    SimulatesNext(vm, t, depart, cut, xc.used, vt, xc.pc + 2, sc, rest, x);
    CompiledIs(vm, e, depart, cut, used, ve, pe, sc, rest, v);
    Simulates(vm, e, depart, cut, used, ve, pe, sc, rest);
    BehavesVia(vm, sc, rest, End(vm, e, depart, cut, used, ve, pe), x, oe, pe, used, e);
    SoftElseBehaves(vm, sc, rest, x, xc, oc, ot, oe, own, v, pe - pc - 3, pc, used, c, t, e);
  }

  // ----- -> and *-> without else -----

  lemma MarkedIntro(vm: Vm, x: Exit, own: Own, v: nat, pc: nat, used: set<nat>, c: Body)
    requires forall floor: nat :: Behaves(vm, HardScope(IfThenScope(v), floor), HardScope(IfThenScope(v), floor), x,
             own, pc, used, c)
    ensures BehavesMarked(vm, x, own, v, pc, used, c)
  {
    hide Behaves;
    forall floor: nat
      ensures Behaves(vm, Scope(IfThenScope(v), Some(floor), floor), Scope(IfThenScope(v), Some(floor), floor), x,
              own, pc, used, c)
    {
      assert HardScope(IfThenScope(v), floor) == Scope(IfThenScope(v), Some(floor), floor);
    }
  }

  lemma IfThenAllowed(c: Body, t: Body, cut: CutInfo, sc: Scope, rest: Scope, v: nat, floor: nat)
    requires Allowed(IfThen(c, t), cut, sc, rest)
    ensures var scc := HardScope(IfThenScope(v), floor);
            && Allowed(c, LocalCut(C_LCUTIFTHEN, v), scc, scc)
            && ScopeBefore(scc, v + 1)
    ensures Allowed(t, cut, sc, rest)
  {
  }

  lemma {:induction false} SimulatesIfThen(vm: Vm, c: Body, t: Body, depart: bool, cut: CutInfo, used: set<nat>,
        slots: nat, pc: nat, sc: Scope, rest: Scope)
    requires Compiled(vm, IfThen(c, t), depart, cut, used, slots, pc, sc, rest)
    ensures Behaves(vm, sc, rest, End(vm, IfThen(c, t), depart, cut, used, slots, pc), SlotsOf(IfThen(c, t), slots),
            pc, used, IfThen(c, t))
    decreases IfThen(c, t), 0
  {
    hide *;
    var b, v, local := IfThen(c, t), slots, LocalCut(C_LCUTIFTHEN, slots);
    var x, own := End(vm, b, depart, cut, used, slots, pc), SlotsOf(b, slots);
    CompiledHas(vm, b, depart, cut, used, slots, pc, sc, rest);
    IfParts(c, t, v);
    IfThenAllowed(c, t, cut, sc, rest, v, 0);
    ThenLaid(vm, true, c, t, depart, cut, used, v, pc);
    var xc, vt := End(vm, c, false, local, used, v + 1, pc + 2), v + 1 + Slots(c);
    var oc, ot := SlotsOf(c, v + 1), SlotsOf(t, vt);
    IfSlots(sc, v, Slots(c), Slots(t), 0);
    SlotsAre(c, v + 1);
    SlotsAre(t, vt);
    SlotsAre(b, v);
    forall floor: nat
      ensures Behaves(vm, HardScope(IfThenScope(v), floor), HardScope(IfThenScope(v), floor), xc, oc, pc + 2, used, c)
    {
      var scc := HardScope(IfThenScope(v), floor);
      IfThenAllowed(c, t, cut, sc, rest, v, floor);
      CompiledIs(vm, c, false, local, used, v + 1, pc + 2, scc, scc, v + 1);
      Simulates(vm, c, false, local, used, v + 1, pc + 2, scc, scc);
    }
    MarkedIntro(vm, xc, oc, v, pc + 2, used, c);
    CompiledIs(vm, t, depart, cut, xc.used, vt, xc.pc + 2, sc, rest, v);
    Simulates(vm, t, depart, cut, xc.used, vt, xc.pc + 2, sc, rest);
    BehavesVia(vm, sc, rest, End(vm, t, depart, cut, xc.used, vt, xc.pc + 2), x, ot, xc.pc + 2, xc.used, t);
    IfThenBehaves(vm, sc, rest, x, xc, oc, ot, own, v, pc, used, c, t);
  }

  lemma SoftThenAllowed(c: Body, t: Body, cut: CutInfo, sc: Scope, rest: Scope, v: nat, top: nat, floor: nat)
    requires Allowed(SoftIfThen(c, t), cut, sc, rest)
    ensures var scc := MarkedScope(c, v, sc.pin.Some?, top, floor);
            Allowed(c, LocalCut(C_LCUTIFTHEN, v), scc, RestScope(scc, sc.pin.Some?)) && ScopeBefore(scc, v + 1)
    ensures Allowed(t, cut, sc, rest) && (AlwaysCuts(t) || Allowed(t, cut, rest, rest))
  {
  }

  lemma ResumedIntro(vm: Vm, x: Exit, own: Own, v: nat, pc: nat, used: set<nat>, c: Body, pinned: bool)
    requires forall top: nat, floor: nat ::
               Behaves(vm, MarkedScope(c, v, pinned, top, floor),
                   RestScope(MarkedScope(c, v, pinned, top, floor), pinned), x, own, pc, used, c)
    ensures BehavesResumed(vm, x, own, v, pc, used, c, pinned)
  {
    hide Behaves;
  }

  lemma {:induction false} SimulatesSoftThen(vm: Vm, c: Body, t: Body, depart: bool, cut: CutInfo, used: set<nat>,
        slots: nat, pc: nat, sc: Scope, rest: Scope)
    requires Compiled(vm, SoftIfThen(c, t), depart, cut, used, slots, pc, sc, rest)
    ensures var b := SoftIfThen(c, t); Behaves(vm, sc, rest, End(vm, b, depart, cut, used, slots, pc),
            SlotsOf(b, slots), pc, used, b)
    decreases SoftIfThen(c, t), 0
  {
    hide *;
    var b, v, local, pinned := SoftIfThen(c, t), slots, LocalCut(C_LCUTIFTHEN, slots), sc.pin.Some?;
    var x, own := End(vm, b, depart, cut, used, slots, pc), SlotsOf(b, slots);
    CompiledHas(vm, b, depart, cut, used, slots, pc, sc, rest);
    IfParts(c, t, v);
    SoftThenAllowed(c, t, cut, sc, rest, v, 0, 0);
    ThenLaid(vm, false, c, t, depart, cut, used, v, pc);
    var xc, vt := End(vm, c, false, local, used, v + 1, pc + 2), v + 1 + Slots(c);
    var oc, ot := SlotsOf(c, v + 1), SlotsOf(t, vt);
    IfSlots(sc, v, Slots(c), Slots(t), 0);
    SlotsAre(c, v + 1);
    SlotsAre(t, vt);
    SlotsAre(b, v);
    forall top: nat, floor: nat
      ensures Behaves(vm, MarkedScope(c, v, pinned, top, floor),
              RestScope(MarkedScope(c, v, pinned, top, floor), pinned), xc, oc, pc + 2, used, c)
    {
      var scc := MarkedScope(c, v, pinned, top, floor);
      SoftThenAllowed(c, t, cut, sc, rest, v, top, floor);
      CompiledIs(vm, c, false, local, used, v + 1, pc + 2, scc, RestScope(scc, pinned), v + 1);
      Simulates(vm, c, false, local, used, v + 1, pc + 2, scc, RestScope(scc, pinned));
    }
    ResumedIntro(vm, xc, oc, v, pc + 2, used, c, pinned);
    CompiledIs(vm, t, depart, cut, xc.used, vt, xc.pc + 1, sc, rest, v);
    SimulatesNext(vm, t, depart, cut, xc.used, vt, xc.pc + 1, sc, rest, x);
    SoftThenBehaves(vm, sc, rest, x, xc, oc, ot, own, v, pc, used, c, t);
  }

  // ----- \+ -----

  lemma NotAllowed(g: Body, cut: CutInfo, sc: Scope, rest: Scope, v: nat, floor: nat)
    requires Allowed(Not(g), cut, sc, rest)
    ensures var scc := HardScope(Local(v), floor); Allowed(g, LocalCut(C_LCUT, v), scc, scc) && ScopeBefore(scc, v + 1)
  {
  }

  lemma {:induction false} SimulatesNot(vm: Vm, g: Body, depart: bool, cut: CutInfo, used: set<nat>, slots: nat,
        pc: nat, sc: Scope, rest: Scope)
    requires Compiled(vm, Not(g), depart, cut, used, slots, pc, sc, rest)
    ensures Behaves(vm, sc, rest, End(vm, Not(g), depart, cut, used, slots, pc), SlotsOf(Not(g), slots), pc, used,
            Not(g))
    decreases Not(g), 0
  {
    hide *;
    var v, local := slots, LocalCut(C_LCUT, slots);
    var x, own := End(vm, Not(g), depart, cut, used, slots, pc), SlotsOf(Not(g), slots);
    CompiledHas(vm, Not(g), depart, cut, used, slots, pc, sc, rest);
    var dist := NotLaid(vm, g, depart, cut, used, v, pc);
    var xc, oc := End(vm, g, false, local, used, v + 1, pc + 3), SlotsOf(g, v + 1);
    IfSlots(sc, v, Slots(g), 0, 0);
    SlotsAre(g, v + 1);
    SlotsAre(Not(g), v);
    forall floor: nat ensures Behaves(vm, HardScope(Local(v), floor), HardScope(Local(v), floor), xc, oc, pc + 3,
        used, g) {
      var scc := HardScope(Local(v), floor);
      NotAllowed(g, cut, sc, rest, v, floor);
      CompiledIs(vm, g, false, local, used, v + 1, pc + 3, scc, scc, v + 1);
      Simulates(vm, g, false, local, used, v + 1, pc + 3, scc, scc);
    }
    GuardedIntro(vm, xc, oc, v, pc + 3, used, g);
    NotBehaves(vm, sc, rest, x, xc, oc, own, v, dist, pc, used, g);
  }
}
