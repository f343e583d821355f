// What decompilation changes is harmless: nesting conjunctions to the right changes neither the
// answers of a body nor the code it is compiled to, and the term reads back as the body.

module RightNesting {
  import opened Terms
  import opened VmCode
  import opened CodeGen
  import opened CodeShapes
  import opened Search
  import opened Decompiler
  import opened RoundTrip

  // ----- nesting -----

  lemma {:induction false} ConjoinTwo(a: seq<Body>, b: seq<Body>)
    requires a != [] && b != []
    ensures |a| == 1 ==> Conjoin(a + b) == Conj(a[0], Conjoin(b))
    ensures |a| > 1 ==> Conjoin(a + b) == Conj(a[0], Conjoin(a[1..] + b)) && Conjoin(a) == Conj(a[0], Conjoin(a[1..]))
  {
    if |a| == 1 {
      assert (a + b)[1..] == b;
    } else {
      assert (a + b)[1..] == a[1..] + b;
    }
  }

  /** Every other construct keeps its outermost form. */
  lemma OuterForm(b: Body)
    ensures match b
            case Conj(l, r) => RightNested(b) == Conjoin(Flat(l) + Flat(r)) && RightNested(b).Conj?
            case Disj(l, r) => RightNested(b) == Disj(RightNested(l), RightNested(r))
            case IfThen(c, t) => RightNested(b) == IfThen(RightNested(c), RightNested(t))
            case SoftIfThen(c, t) => RightNested(b) == SoftIfThen(RightNested(c), RightNested(t))
            case Not(g) => RightNested(b) == Not(RightNested(g))
            case _ => RightNested(b) == b
  {
    hide RightNested;
    match b
    case Conj(l, r) => ConjoinTwo(Flat(l), Flat(r)); WholeIs(b);
    case _ => WholeIs(b);
  }

  lemma WholeIs(b: Body)
    ensures RightNested(b) == Conjoin(Flat(b))
  {
  }

  // ----- answers -----

  lemma {:induction false} EachOfCut(p: Program, env: nat -> Term, b: Body, stores: seq<Store>)
    ensures SolveEach(p, env, b, stores, true).cut
  {
    hide Solve;
    if stores != [] { EachOfCut(p, env, b, stores[1..]); }
  }

  lemma {:induction false} EachOfJoin(p: Program, env: nat -> Term, b: Body, a: seq<Store>, c: seq<Store>, cut: bool)
    ensures var first, second := SolveEach(p, env, b, a, false), SolveEach(p, env, b, c, cut);
            SolveEach(p, env, b, a + c, cut) ==
            if first.cut then first else Solution(first.answers + second.answers, second.cut)
  {
    hide Solve;
    if a == [] {
      assert a + c == c;
      assert [] + SolveEach(p, env, b, c, cut).answers == SolveEach(p, env, b, c, cut).answers;
    } else {
      assert (a + c)[1..] == a[1..] + c && (a + c)[0] == a[0];
      EachOfJoin(p, env, b, a[1..], c, cut);
      var here, rest, second := Solve(p, env, b, a[0]), SolveEach(p, env, b, a[1..], false),
          SolveEach(p, env, b, c, cut);
      assert here.answers + rest.answers + second.answers == here.answers + (rest.answers + second.answers);
    }
  }

  /** Running one body after another on each store is running their conjunction on each. */
  lemma {:induction false} EachOfConj(p: Program, env: nat -> Term, y: Body, z: Body, stores: seq<Store>, cut: bool)
    ensures var first := SolveEach(p, env, y, stores, cut);
            SolveEach(p, env, z, first.answers, first.cut) == SolveEach(p, env, Conj(y, z), stores, cut)
  {
    hide Solve;
    if stores != [] {
      var here := Solve(p, env, y, stores[0]);
      ConjIs(p, env, y, z, stores[0]);
      if here.cut {
        EachOfCut(p, env, z, here.answers);
      } else {
        var rest := SolveEach(p, env, y, stores[1..], cut);
        EachOfConj(p, env, y, z, stores[1..], cut);
        EachOfJoin(p, env, z, here.answers, rest.answers, rest.cut);
      }
    }
  }

  lemma ConjIs(p: Program, env: nat -> Term, y: Body, z: Body, s: Store)
    ensures var first := Solve(p, env, y, s);
            Solve(p, env, Conj(y, z), s) == SolveEach(p, env, z, first.answers, first.cut)
  {
    hide SolveEach;
  }

  /** Conjunction is associative: same answers, same order, same cut. */
  lemma ConjAssociates(p: Program, env: nat -> Term, x: Body, y: Body, z: Body, s: Store)
    ensures Solve(p, env, Conj(Conj(x, y), z), s) == Solve(p, env, Conj(x, Conj(y, z)), s)
  {
    hide *;
    var first := Solve(p, env, x, s);
    ConjIs(p, env, x, y, s);
    ConjIs(p, env, Conj(x, y), z, s);
    ConjIs(p, env, x, Conj(y, z), s);
    EachOfConj(p, env, y, z, first.answers, first.cut);
  }

  ghost predicate SameAnswers(p: Program, env: nat -> Term, a: Body, b: Body) {
    forall s: Store :: Solve(p, env, a, s) == Solve(p, env, b, s)
  }

  lemma SameAt(p: Program, env: nat -> Term, a: Body, b: Body, s: Store)
    requires SameAnswers(p, env, a, b)
    ensures Solve(p, env, a, s) == Solve(p, env, b, s)
  {
    hide Solve;
  }

  lemma SameAll(p: Program, env: nat -> Term, a: Body, b: Body)
    requires forall s: Store :: Solve(p, env, a, s) == Solve(p, env, b, s)
    ensures SameAnswers(p, env, a, b)
  {
    hide Solve;
  }

  lemma {:induction false} SameEach(p: Program, env: nat -> Term, a: Body, b: Body, stores: seq<Store>, cut: bool)
    requires SameAnswers(p, env, a, b)
    ensures SolveEach(p, env, a, stores, cut) == SolveEach(p, env, b, stores, cut)
  {
    hide Solve, SameAnswers;
    if stores != [] {
      SameAt(p, env, a, b, stores[0]);
      SameEach(p, env, a, b, stores[1..], cut);
    }
  }

  lemma SameConj(p: Program, env: nat -> Term, a: Body, b: Body, c: Body, d: Body)
    requires SameAnswers(p, env, a, b) && SameAnswers(p, env, c, d)
    ensures SameAnswers(p, env, Conj(a, c), Conj(b, d))
  {
    hide *;
    forall s: Store ensures Solve(p, env, Conj(a, c), s) == Solve(p, env, Conj(b, d), s) {
      ConjIs(p, env, a, c, s);
      ConjIs(p, env, b, d, s);
      SameAt(p, env, a, b, s);
      SameEach(p, env, c, d, Solve(p, env, a, s).answers, Solve(p, env, a, s).cut);
    }
    SameAll(p, env, Conj(a, c), Conj(b, d));
  }

  lemma SameTrans(p: Program, env: nat -> Term, a: Body, b: Body, c: Body)
    requires SameAnswers(p, env, a, b) && SameAnswers(p, env, b, c)
    ensures SameAnswers(p, env, a, c)
  {
    hide Solve;
  }

  lemma SameSelf(p: Program, env: nat -> Term, a: Body)
    ensures SameAnswers(p, env, a, a)
  {
    hide Solve;
  }

  lemma {:induction false} ConjoinAnswers(p: Program, env: nat -> Term, a: seq<Body>, b: seq<Body>)
    requires a != [] && b != []
    ensures SameAnswers(p, env, Conjoin(a + b), Conj(Conjoin(a), Conjoin(b)))
    decreases |a|
  {
    hide SameAnswers, Solve, Conjoin;
    ConjoinTwo(a, b);
    if |a| == 1 {
      ConjoinOne(a);
      SameSelf(p, env, Conj(a[0], Conjoin(b)));
    } else {
      var x, y, z := a[0], Conjoin(a[1..]), Conjoin(b);
      ConjoinAnswers(p, env, a[1..], b);
      SameSelf(p, env, x);
      SameConj(p, env, x, x, Conjoin(a[1..] + b), Conj(y, z));
      forall s: Store ensures Solve(p, env, Conj(x, Conj(y, z)), s) == Solve(p, env, Conj(Conj(x, y), z), s) {
        ConjAssociates(p, env, x, y, z, s);
      }
      SameAll(p, env, Conj(x, Conj(y, z)), Conj(Conj(x, y), z));
      SameTrans(p, env, Conjoin(a + b), Conj(x, Conj(y, z)), Conj(Conj(x, y), z));
    }
  }

  lemma ConjoinOne(a: seq<Body>)
    requires |a| == 1
    ensures Conjoin(a) == a[0]
  {
  }

  /** The right-nested body has the same answers. */
  lemma {:induction false} RightNestedAnswers(p: Program, env: nat -> Term, b: Body)
    ensures SameAnswers(p, env, RightNested(b), b)
    decreases b
  {
    hide SameAnswers, Solve, Conjoin, Flat, RightNested;
    OuterForm(b);
    match b {
      case Conj(l, r) =>
        WholeIs(l);
        WholeIs(r);
        RightNestedAnswers(p, env, l);
        RightNestedAnswers(p, env, r);
        ConjoinAnswers(p, env, Flat(l), Flat(r));
        SameConj(p, env, RightNested(l), l, RightNested(r), r);
        SameTrans(p, env, RightNested(b), Conj(RightNested(l), RightNested(r)), b);
      case Disj(IfThen(c, t), e) =>
        OuterForm(IfThen(c, t));
        RightNestedAnswers(p, env, c);
        RightNestedAnswers(p, env, t);
        RightNestedAnswers(p, env, e);
        SameElse(p, env, true, RightNested(c), c, RightNested(t), t, RightNested(e), e);
      case Disj(SoftIfThen(c, t), e) =>
        OuterForm(SoftIfThen(c, t));
        RightNestedAnswers(p, env, c);
        RightNestedAnswers(p, env, t);
        RightNestedAnswers(p, env, e);
        SameElse(p, env, false, RightNested(c), c, RightNested(t), t, RightNested(e), e);
      case Disj(l, r) =>
        OuterForm(l);
        RightNestedAnswers(p, env, l);
        RightNestedAnswers(p, env, r);
        SameOr(p, env, RightNested(l), l, RightNested(r), r);
      case IfThen(c, t) =>
        RightNestedAnswers(p, env, c);
        RightNestedAnswers(p, env, t);
        SameThen(p, env, true, RightNested(c), c, RightNested(t), t);
      case SoftIfThen(c, t) =>
        RightNestedAnswers(p, env, c);
        RightNestedAnswers(p, env, t);
        SameThen(p, env, false, RightNested(c), c, RightNested(t), t);
      case Not(g) =>
        RightNestedAnswers(p, env, g);
        SameNot(p, env, RightNested(g), g);
      case _ => SameSelf(p, env, b);
    }
  }

  lemma SameOr(p: Program, env: nat -> Term, a: Body, b: Body, c: Body, d: Body)
    requires SameAnswers(p, env, a, b) && SameAnswers(p, env, c, d)
    requires !a.IfThen? && !a.SoftIfThen? && !b.IfThen? && !b.SoftIfThen?
    ensures SameAnswers(p, env, Disj(a, c), Disj(b, d))
  {
    forall s: Store ensures Solve(p, env, Disj(a, c), s) == Solve(p, env, Disj(b, d), s) {
      SameAt(p, env, a, b, s);
      SameAt(p, env, c, d, s);
    }
  }

  lemma ThenSolves(p: Program, env: nat -> Term, hard: bool, c: Body, t: Body, s: Store)
    ensures Solve(p, env, IfPart(hard, c, t), s) ==
            var found := Solve(p, env, c, s).answers;
            if !hard then SolveEach(p, env, t, found, false)
            else if found == [] then Solution([], false)
            else Solve(p, env, t, found[0])
  {
    hide SolveEach;
    if hard {
      assert IfPart(hard, c, t) == IfThen(c, t);
    } else {
      assert IfPart(hard, c, t) == SoftIfThen(c, t);
    }
  }

  lemma ElseSolves(p: Program, env: nat -> Term, hard: bool, c: Body, t: Body, e: Body, s: Store)
    ensures Solve(p, env, Disj(IfPart(hard, c, t), e), s) ==
            var found := Solve(p, env, c, s).answers;
            if found == [] then Solve(p, env, e, s)
            else if hard then Solve(p, env, t, found[0])
            else SolveEach(p, env, t, found, false)
  {
    hide SolveEach;
    if hard {
      assert IfPart(hard, c, t) == IfThen(c, t);
    } else {
      assert IfPart(hard, c, t) == SoftIfThen(c, t);
    }
  }

  lemma SameThen(p: Program, env: nat -> Term, hard: bool, c: Body, c1: Body, t: Body, t1: Body)
    requires SameAnswers(p, env, c, c1) && SameAnswers(p, env, t, t1)
    ensures SameAnswers(p, env, IfPart(hard, c, t), IfPart(hard, c1, t1))
  {
    hide *;
    forall s: Store ensures Solve(p, env, IfPart(hard, c, t), s) == Solve(p, env, IfPart(hard, c1, t1), s) {
      ThenSolves(p, env, hard, c, t, s);
      ThenSolves(p, env, hard, c1, t1, s);
      SameAt(p, env, c, c1, s);
      var found := Solve(p, env, c, s).answers;
      if found != [] { SameAt(p, env, t, t1, found[0]); }
      SameEach(p, env, t, t1, found, false);
    }
    SameAll(p, env, IfPart(hard, c, t), IfPart(hard, c1, t1));
  }

  lemma SameElse(p: Program, env: nat -> Term, hard: bool, c: Body, c1: Body, t: Body, t1: Body, e: Body, e1: Body)
    requires SameAnswers(p, env, c, c1) && SameAnswers(p, env, t, t1) && SameAnswers(p, env, e, e1)
    ensures SameAnswers(p, env, Disj(IfPart(hard, c, t), e), Disj(IfPart(hard, c1, t1), e1))
  {
    hide *;
    forall s: Store ensures Solve(p, env, Disj(IfPart(hard, c, t), e), s) ==
        Solve(p, env, Disj(IfPart(hard, c1, t1), e1), s) {
      ElseSolves(p, env, hard, c, t, e, s);
      ElseSolves(p, env, hard, c1, t1, e1, s);
      SameAt(p, env, c, c1, s);
      SameAt(p, env, e, e1, s);
      var found := Solve(p, env, c, s).answers;
      if found != [] { SameAt(p, env, t, t1, found[0]); }
      SameEach(p, env, t, t1, found, false);
    }
    SameAll(p, env, Disj(IfPart(hard, c, t), e), Disj(IfPart(hard, c1, t1), e1));
  }

  lemma SameNot(p: Program, env: nat -> Term, g: Body, g1: Body)
    requires SameAnswers(p, env, g, g1)
    ensures SameAnswers(p, env, Not(g), Not(g1))
  {
    forall s: Store ensures Solve(p, env, Not(g), s) == Solve(p, env, Not(g1), s) { SameAt(p, env, g, g1, s); }
  }

  // ----- code -----

  /** Two bodies that compile alike and use the same variables and slots. */
  ghost predicate SameCode(cl: Clause, a: Body, b: Body) {
    && BodyVars(a) == BodyVars(b) && Slots(a) == Slots(b)
    && forall depart: bool, cut: CutInfo, used: set<nat>, slots: nat ::
         Gen(cl, a, depart, cut, used, slots) == Gen(cl, b, depart, cut, used, slots)
  }

  lemma SameCodeAt(cl: Clause, a: Body, b: Body, depart: bool, cut: CutInfo, used: set<nat>, slots: nat)
    requires SameCode(cl, a, b)
    ensures BodyVars(a) == BodyVars(b) && Slots(a) == Slots(b)
    ensures Gen(cl, a, depart, cut, used, slots) == Gen(cl, b, depart, cut, used, slots)
  {
    hide Gen, BodyVars, Slots;
  }

  lemma SameCodeAll(cl: Clause, a: Body, b: Body)
    requires BodyVars(a) == BodyVars(b) && Slots(a) == Slots(b)
    requires forall depart: bool, cut: CutInfo, used: set<nat>, slots: nat ::
               Gen(cl, a, depart, cut, used, slots) == Gen(cl, b, depart, cut, used, slots)
    ensures SameCode(cl, a, b)
  {
    hide Gen, BodyVars, Slots;
  }

  lemma ConjCode(cl: Clause, l: Body, r: Body, depart: bool, cut: CutInfo, used: set<nat>, slots: nat)
    ensures Gen(cl, Conj(l, r), depart, cut, used, slots) ==
            Gen(cl, l, false, cut, used, slots) + Gen(cl, r, depart, cut, used + BodyVars(l), slots + Slots(l))
    ensures BodyVars(Conj(l, r)) == BodyVars(l) + BodyVars(r) && Slots(Conj(l, r)) == Slots(l) + Slots(r)
  {
    hide *;
    BodyIs(cl, Conj(l, r), depart, cut, used, slots);
  }

  lemma ConjAssociatesCode(cl: Clause, x: Body, y: Body, z: Body)
    ensures SameCode(cl, Conj(x, Conj(y, z)), Conj(Conj(x, y), z))
  {
    hide *;
    forall depart: bool, cut: CutInfo, used: set<nat>, slots: nat
      ensures Gen(cl, Conj(x, Conj(y, z)), depart, cut, used, slots) ==
              Gen(cl, Conj(Conj(x, y), z), depart, cut, used, slots)
    {
      ConjCode(cl, x, y, false, cut, used, slots);
      ConjCode(cl, Conj(x, y), z, depart, cut, used, slots);
      ConjCode(cl, x, Conj(y, z), depart, cut, used, slots);
      ConjCode(cl, y, z, depart, cut, used + BodyVars(x), slots + Slots(x));
      Regroup(used, BodyVars(x), BodyVars(y));
      RegroupCode(Gen(cl, x, false, cut, used, slots), Gen(cl, y, false, cut, used + BodyVars(x), slots + Slots(x)),
                  Gen(cl, z, depart, cut, used + BodyVars(x) + BodyVars(y), slots + Slots(x) + Slots(y)));
    }
    ConjCode(cl, x, y, false, ClauseCut, {}, 0);
    ConjCode(cl, Conj(x, y), z, false, ClauseCut, {}, 0);
    ConjCode(cl, x, Conj(y, z), false, ClauseCut, {}, 0);
    ConjCode(cl, y, z, false, ClauseCut, {}, 0);
    Regroup(BodyVars(x), BodyVars(y), BodyVars(z));
    SameCodeAll(cl, Conj(x, Conj(y, z)), Conj(Conj(x, y), z));
  }

  lemma Regroup(a: set<nat>, b: set<nat>, c: set<nat>)
    ensures a + b + c == a + (b + c)
  {
  }

  lemma RegroupCode(a: Code, b: Code, c: Code)
    ensures a + b + c == a + (b + c)
  {
  }

  lemma SameCodeConj(cl: Clause, a: Body, b: Body, c: Body, d: Body)
    requires SameCode(cl, a, b) && SameCode(cl, c, d)
    ensures SameCode(cl, Conj(a, c), Conj(b, d))
  {
    hide *;
    forall depart: bool, cut: CutInfo, used: set<nat>, slots: nat
      ensures Gen(cl, Conj(a, c), depart, cut, used, slots) == Gen(cl, Conj(b, d), depart, cut, used, slots)
    {
      SameCodeAt(cl, a, b, false, cut, used, slots);
      SameCodeAt(cl, c, d, depart, cut, used + BodyVars(a), slots + Slots(a));
      ConjCode(cl, a, c, depart, cut, used, slots);
      ConjCode(cl, b, d, depart, cut, used, slots);
    }
    SameCodeAt(cl, a, b, false, ClauseCut, {}, 0);
    SameCodeAt(cl, c, d, false, ClauseCut, {}, 0);
    ConjCode(cl, a, c, false, ClauseCut, {}, 0);
    ConjCode(cl, b, d, false, ClauseCut, {}, 0);
    SameCodeAll(cl, Conj(a, c), Conj(b, d));
  }

  lemma SameCodeTrans(cl: Clause, a: Body, b: Body, c: Body)
    requires SameCode(cl, a, b) && SameCode(cl, b, c)
    ensures SameCode(cl, a, c)
  {
    hide Gen, BodyVars, Slots;
  }

  lemma SameCodeSelf(cl: Clause, a: Body)
    ensures SameCode(cl, a, a)
  {
    hide Gen, BodyVars, Slots;
  }

  lemma {:induction false} ConjoinCode(cl: Clause, a: seq<Body>, b: seq<Body>)
    requires a != [] && b != []
    ensures SameCode(cl, Conjoin(a + b), Conj(Conjoin(a), Conjoin(b)))
    decreases |a|
  {
    hide SameCode, Conjoin;
    ConjoinTwo(a, b);
    if |a| == 1 {
      ConjoinOne(a);
      SameCodeSelf(cl, Conj(a[0], Conjoin(b)));
    } else {
      var x, y, z := a[0], Conjoin(a[1..]), Conjoin(b);
      ConjoinCode(cl, a[1..], b);
      SameCodeSelf(cl, x);
      SameCodeConj(cl, x, x, Conjoin(a[1..] + b), Conj(y, z));
      ConjAssociatesCode(cl, x, y, z);
      SameCodeTrans(cl, Conjoin(a + b), Conj(x, Conj(y, z)), Conj(Conj(x, y), z));
    }
  }

  /** The right-nested body compiles to the same code. */
  lemma {:induction false} RightNestedCode(cl: Clause, b: Body)
    ensures SameCode(cl, RightNested(b), b)
    decreases b
  {
    hide SameCode, Conjoin, Flat, RightNested;
    OuterForm(b);
    match b {
      case Conj(l, r) =>
        WholeIs(l);
        WholeIs(r);
        RightNestedCode(cl, l);
        RightNestedCode(cl, r);
        ConjoinCode(cl, Flat(l), Flat(r));
        SameCodeConj(cl, RightNested(l), l, RightNested(r), r);
        SameCodeTrans(cl, RightNested(b), Conj(RightNested(l), RightNested(r)), b);
      case Disj(IfThen(c, t), e) =>
        OuterForm(IfThen(c, t));
        RightNestedCode(cl, c);
        RightNestedCode(cl, t);
        RightNestedCode(cl, e);
        SameCodeElse(cl, true, RightNested(c), c, RightNested(t), t, RightNested(e), e);
      case Disj(SoftIfThen(c, t), e) =>
        OuterForm(SoftIfThen(c, t));
        RightNestedCode(cl, c);
        RightNestedCode(cl, t);
        RightNestedCode(cl, e);
        SameCodeElse(cl, false, RightNested(c), c, RightNested(t), t, RightNested(e), e);
      case Disj(l, r) =>
        OuterForm(l);
        RightNestedCode(cl, l);
        RightNestedCode(cl, r);
        SameCodeOr(cl, RightNested(l), l, RightNested(r), r);
      case IfThen(c, t) =>
        RightNestedCode(cl, c);
        RightNestedCode(cl, t);
        SameCodeThen(cl, true, RightNested(c), c, RightNested(t), t);
      case SoftIfThen(c, t) =>
        RightNestedCode(cl, c);
        RightNestedCode(cl, t);
        SameCodeThen(cl, false, RightNested(c), c, RightNested(t), t);
      case Not(g) =>
        RightNestedCode(cl, g);
        SameCodeNot(cl, RightNested(g), g);
      case _ => SameCodeSelf(cl, b);
    }
  }

  lemma SameCodeOr(cl: Clause, a: Body, b: Body, c: Body, d: Body)
    requires SameCode(cl, a, b) && SameCode(cl, c, d)
    requires !a.IfThen? && !a.SoftIfThen? && !b.IfThen? && !b.SoftIfThen?
    ensures SameCode(cl, Disj(a, c), Disj(b, d))
  {
    hide *;
    forall depart: bool, cut: CutInfo, used: set<nat>, slots: nat
      ensures Gen(cl, Disj(a, c), depart, cut, used, slots) == Gen(cl, Disj(b, d), depart, cut, used, slots)
    {
      OrPieces(cl, a, b, c, d, depart, cut, used, slots);
    }
    OrPieces(cl, a, b, c, d, false, ClauseCut, {}, 0);
    SameCodeAll(cl, Disj(a, c), Disj(b, d));
  }

  lemma OrPieces(cl: Clause, a: Body, b: Body, c: Body, d: Body, depart: bool, cut: CutInfo, used: set<nat>, slots: nat)
    requires SameCode(cl, a, b) && SameCode(cl, c, d)
    requires !a.IfThen? && !a.SoftIfThen? && !b.IfThen? && !b.SoftIfThen?
    ensures Gen(cl, Disj(a, c), depart, cut, used, slots) == Gen(cl, Disj(b, d), depart, cut, used, slots)
    ensures BodyVars(Disj(a, c)) == BodyVars(Disj(b, d)) && Slots(Disj(a, c)) == Slots(Disj(b, d))
  {
    hide *;
    SameCodeAt(cl, a, b, false, cut, used, slots);
    SameCodeAt(cl, c, d, depart, cut, used, slots + Slots(a));
    BodyIs(cl, Disj(a, c), depart, cut, used, slots);
    OrIs(cl, a, c, depart, cut, used, slots);
    BodyIs(cl, Disj(b, d), depart, cut, used, slots);
    OrIs(cl, b, d, depart, cut, used, slots);
  }

  lemma SameCodeElse(cl: Clause, hard: bool, c: Body, c1: Body, t: Body, t1: Body, e: Body, e1: Body)
    requires SameCode(cl, c, c1) && SameCode(cl, t, t1) && SameCode(cl, e, e1)
    ensures SameCode(cl, Disj(IfPart(hard, c, t), e), Disj(IfPart(hard, c1, t1), e1))
  {
    hide *;
    forall depart: bool, cut: CutInfo, used: set<nat>, slots: nat
      ensures Gen(cl, Disj(IfPart(hard, c, t), e), depart, cut, used, slots) ==
              Gen(cl, Disj(IfPart(hard, c1, t1), e1), depart, cut, used, slots)
    {
      ElsePieces(cl, hard, c, c1, t, t1, e, e1, depart, cut, used, slots);
    }
    ElsePieces(cl, hard, c, c1, t, t1, e, e1, false, ClauseCut, {}, 0);
    SameCodeAll(cl, Disj(IfPart(hard, c, t), e), Disj(IfPart(hard, c1, t1), e1));
  }

  lemma ElsePieces(cl: Clause, hard: bool, c: Body, c1: Body, t: Body, t1: Body, e: Body, e1: Body,
                   depart: bool, cut: CutInfo, used: set<nat>, slots: nat)
    requires SameCode(cl, c, c1) && SameCode(cl, t, t1) && SameCode(cl, e, e1)
    ensures var b, b1 := Disj(IfPart(hard, c, t), e), Disj(IfPart(hard, c1, t1), e1);
            && Gen(cl, b, depart, cut, used, slots) == Gen(cl, b1, depart, cut, used, slots)
            && BodyVars(b) == BodyVars(b1) && Slots(b) == Slots(b1)
  {
    hide SameCode, Gen, GenIfThenElse, IfCode, Balance, BodyVars, Slots, BodySize, ProperBody, IfOp, CommitOp;
    var local := LocalCut(if hard then C_LCUT else C_LSCUT, slots);
    SameCodeAt(cl, c, c1, false, local, used, slots + 1);
    SameCodeAt(cl, t, t1, depart, cut, used + BodyVars(c), slots + 1 + Slots(c));
    SameCodeAt(cl, e, e1, depart, cut, used, slots + 1 + Slots(c) + Slots(t));
    BodyIs(cl, Disj(IfPart(hard, c, t), e), depart, cut, used, slots);
    IfIs(cl, hard, c, t, e, depart, cut, used, slots);
    BodyIs(cl, Disj(IfPart(hard, c1, t1), e1), depart, cut, used, slots);
    IfIs(cl, hard, c1, t1, e1, depart, cut, used, slots);
  }

  lemma SameCodeThen(cl: Clause, hard: bool, c: Body, c1: Body, t: Body, t1: Body)
    requires SameCode(cl, c, c1) && SameCode(cl, t, t1)
    ensures SameCode(cl, IfPart(hard, c, t), IfPart(hard, c1, t1))
  {
    hide *;
    forall depart: bool, cut: CutInfo, used: set<nat>, slots: nat
      ensures Gen(cl, IfPart(hard, c, t), depart, cut, used, slots) ==
              Gen(cl, IfPart(hard, c1, t1), depart, cut, used, slots)
    {
      ThenPieces(cl, hard, c, c1, t, t1, depart, cut, used, slots);
    }
    ThenPieces(cl, hard, c, c1, t, t1, false, ClauseCut, {}, 0);
    SameCodeAll(cl, IfPart(hard, c, t), IfPart(hard, c1, t1));
  }

  lemma ThenPieces(cl: Clause, hard: bool, c: Body, c1: Body, t: Body, t1: Body, depart: bool, cut: CutInfo,
        used: set<nat>, slots: nat)
    requires SameCode(cl, c, c1) && SameCode(cl, t, t1)
    ensures var b, b1 := IfPart(hard, c, t), IfPart(hard, c1, t1);
            && Gen(cl, b, depart, cut, used, slots) == Gen(cl, b1, depart, cut, used, slots)
            && BodyVars(b) == BodyVars(b1) && Slots(b) == Slots(b1)
  {
    hide *;
    SameCodeAt(cl, c, c1, false, LocalCut(C_LCUTIFTHEN, slots), used, slots + 1);
    SameCodeAt(cl, t, t1, depart, cut, used + BodyVars(c), slots + 1 + Slots(c));
    ThenIs(cl, hard, c, t, depart, cut, used, slots);
    ThenIs(cl, hard, c1, t1, depart, cut, used, slots);
  }

  lemma SameCodeNot(cl: Clause, g: Body, g1: Body)
    requires SameCode(cl, g, g1)
    ensures SameCode(cl, Not(g), Not(g1))
  {
    hide *;
    forall depart: bool, cut: CutInfo, used: set<nat>, slots: nat
      ensures Gen(cl, Not(g), depart, cut, used, slots) == Gen(cl, Not(g1), depart, cut, used, slots)
    {
      NotPieces(cl, g, g1, depart, cut, used, slots);
    }
    NotPieces(cl, g, g1, false, ClauseCut, {}, 0);
    SameCodeAll(cl, Not(g), Not(g1));
  }

  lemma NotPieces(cl: Clause, g: Body, g1: Body, depart: bool, cut: CutInfo, used: set<nat>, slots: nat)
    requires SameCode(cl, g, g1)
    ensures Gen(cl, Not(g), depart, cut, used, slots) == Gen(cl, Not(g1), depart, cut, used, slots)
    ensures BodyVars(Not(g)) == BodyVars(Not(g1)) && Slots(Not(g)) == Slots(Not(g1))
  {
    hide *;
    SameCodeAt(cl, g, g1, false, LocalCut(C_LCUT, slots), used, slots + 1);
    BodyIs(cl, Not(g), depart, cut, used, slots);
    NotIs(cl, g, used, slots);
    BodyIs(cl, Not(g1), depart, cut, used, slots);
    NotIs(cl, g1, used, slots);
  }

  // ----- reading the term back -----

  /** The body a term denotes: the dispatch on functors the body compiler makes. */
  function FromTerm(t: Term): Option<Body> {
    match t
    case Atom(f) =>
      (match f
       case TrueName => Some(True)
       case FailName => Some(Fail)
       case CutName => Some(Cut)
       case User(_) => Some(Goal(f, []))
       case _ => None)
    case Cmp(f, ts) =>
      if |ts| == 2 && IsConnective(f) then
        var l, r := FromTerm(ts[0]), FromTerm(ts[1]);
        if l.Some? && r.Some? then Some(Connect(f, l.value, r.value)) else None
      else if |ts| == 1 && f == NotProvable then
        var g := FromTerm(ts[0]);
        if g.Some? then Some(Not(g.value)) else None
      else if f.User? || (f.Type? && |ts| == 1) then Some(Goal(f, ts))
      else None
    case _ => None
  }

  predicate IsConnective(f: Name) {
    f.Comma? || f.Semicolon? || f.Arrow? || f.SoftArrow?
  }

  function Connect(f: Name, l: Body, r: Body): Body {
    if f.Comma? then Conj(l, r) else if f.Semicolon? then Disj(l, r) else if f.Arrow? then IfThen(l, r)
        else SoftIfThen(l, r)
  }

  lemma ReadsTwo(f: Name, l: Body, r: Body)
    requires IsConnective(f) && FromTerm(ToTerm(l)) == Some(l) && FromTerm(ToTerm(r)) == Some(r)
    ensures FromTerm(Cmp(f, [ToTerm(l), ToTerm(r)])) == Some(Connect(f, l, r))
  {
    hide ToTerm;
  }

  lemma {:induction false} ReadsBack(b: Body)
    requires ProperBody(b)
    ensures FromTerm(ToTerm(b)) == Some(b)
  {
    match b
    case Conj(l, r) => ReadsBack(l); ReadsBack(r); ReadsTwo(Comma, l, r);
    case Disj(l, r) => ReadsBack(l); ReadsBack(r); ReadsTwo(Semicolon, l, r);
    case IfThen(c, t) => ReadsBack(c); ReadsBack(t); ReadsTwo(Arrow, c, t);
    case SoftIfThen(c, t) => ReadsBack(c); ReadsBack(t); ReadsTwo(SoftArrow, c, t);
    case Not(g) => ReadsBack(g);
    case _ =>
  }

  lemma {:induction false} ConjoinProper(bs: seq<Body>)
    requires bs != [] && forall k :: 0 <= k < |bs| ==> ProperBody(bs[k])
    ensures ProperBody(Conjoin(bs))
  {
    if |bs| > 1 { ConjoinProper(bs[1..]); }
  }

  lemma {:induction false} FlatProper(b: Body)
    requires ProperBody(b)
    ensures forall k :: 0 <= k < |Flat(b)| ==> ProperBody(Flat(b)[k])
    ensures ProperBody(RightNested(b))
  {
    match b
    case Conj(l, r) => FlatProper(l); FlatProper(r); ConjoinProper(Flat(b));
    case Disj(l, r) => FlatProper(l); FlatProper(r);
    case IfThen(c, t) => FlatProper(c); FlatProper(t);
    case SoftIfThen(c, t) => FlatProper(c); FlatProper(t);
    case Not(g) => FlatProper(g);
    case _ =>
  }

  /** Decompiled code denotes a body with the same answers, which compiles to the same code again. */
  lemma DecompiledIsEquivalent(cl: Clause, b: Body, slots: nat, p: Program, env: nat -> Term)
    requires ProperBody(b)
    ensures var t := ReadBody(GenClause(cl, b, slots));
            t.Some? && var b1 := FromTerm(t.value);
            b1.Some? && SameAnswers(p, env, b1.value, b) && GenClause(cl, b1.value, slots) == GenClause(cl, b, slots)
  {
    hide *;
    RoundTrips(cl, b, slots);
    FlatProper(b);
    ReadsBack(RightNested(b));
    RightNestedAnswers(p, env, b);
    RightNestedCode(cl, b);
    ClauseCodeSame(cl, RightNested(b), b, slots);
  }

  lemma ClauseCodeSame(cl: Clause, a: Body, b: Body, slots: nat)
    requires SameCode(cl, a, b)
    ensures GenClause(cl, a, slots) == GenClause(cl, b, slots)
  {
    hide Gen;
    SameCodeAt(cl, a, b, true, ClauseCut, Below(cl.arity), slots);
  }

  lemma NotTrueNested(b: Body)
    requires b != True
    ensures RightNested(b) != True
  {
  }

  /** The same for rules.  The code of a rule without a body is one I_EXIT; it decompiles to a term that reads
      as a body with one answer, the store it was given. */
  lemma RuleDecompiles(cl: Clause, b: Body, slots: nat, p: Program, env: nat -> Term)
    requires ProperBody(b)
    ensures var t := ReadBody(GenRule(cl, b, slots));
            t.Some? && var b1 := FromTerm(t.value);
            && b1.Some? && SameAnswers(p, env, b1.value, b) && GenRule(cl, b1.value, slots) == GenRule(cl, b, slots)
            && (GenRule(cl, b, slots) == [Ins(I_EXIT)] ==> forall s: Store ::
                  Solve(p, env, b1.value, s) == Solution([s], false))
  {
    if b == True {
      ReadsBack(b);
    } else {
      NeverStartsWithExit(cl, b, true, ClauseCut, Below(cl.arity), slots);
      NotTrueNested(b);
      hide Gen, SameAnswers, ReadBody, FromTerm, Solve, ProperBody, RightNested;
      DecompiledIsEquivalent(cl, b, slots, p, env);
      RoundTrips(cl, b, slots);
      FlatProper(b);
      ReadsBack(RightNested(b));
    }
  }
}
