// What a clause body means: the answers it produces, in order.  This is the reference the compiled
// code is measured against and knows nothing about code, frames or choice points.

module Search {
  import opened Terms

  /** The binding store: everything a predicate can see or change. */
  type Store(==, !new)

  /** What predicates do: a call has a finite list of answers, each a new store. */
  datatype Program = Program(
    call: (Functor, seq<Term>, Store) -> seq<Store>,
    holds: (TypeTest, Term, Store) -> bool)
  {
    function Call(f: Functor, args: seq<Term>, s: Store): seq<Store> {
      if f.name.Type? && |args| == 1 then (if holds(f.name.test, args[0], s) then [s] else [])
      else call(f, args, s)
    }
  }

  /** The answers of a body, and whether it cut: after its answers nothing older may be tried. */
  datatype Solution = Solution(answers: seq<Store>, cut: bool)

  /** ISO/IEC 13211-1 section 7.8: cut (7.8.4), conjunction, disjunction (7.8.6), if-then (7.8.7),
      if-then-else (7.8.8).  `!` is local to a condition and to the argument of \+. */
  function Solve(p: Program, env: nat -> Term, b: Body, s: Store): Solution
    decreases b, 0
  {
    match b
    case Goal(f, ts) => Solution(p.Call(Functor(f, |ts|), SubstAll(ts, env), s), false)
    case True => Solution([s], false)
    case Fail => Solution([], false)
    case Cut => Solution([s], true)
    case Conj(l, r) =>
      var first := Solve(p, env, l, s);
      SolveEach(p, env, r, first.answers, first.cut)
    case Disj(IfThen(c, t), e) =>
      var found := Solve(p, env, c, s).answers;
      if found == [] then Solve(p, env, e, s) else Solve(p, env, t, found[0])
    case Disj(SoftIfThen(c, t), e) =>
      var found := Solve(p, env, c, s).answers;
      if found == [] then Solve(p, env, e, s) else SolveEach(p, env, t, found, false)
    case Disj(l, r) =>
      var first := Solve(p, env, l, s);
      if first.cut then first
      else
        var second := Solve(p, env, r, s);
        Solution(first.answers + second.answers, second.cut)
    case IfThen(c, t) =>
      var found := Solve(p, env, c, s).answers;
      if found == [] then Solution([], false) else Solve(p, env, t, found[0])
    case SoftIfThen(c, t) => SolveEach(p, env, t, Solve(p, env, c, s).answers, false)
    case Not(g) => Solution(if Solve(p, env, g, s).answers == [] then [s] else [], false)
  }

  /** Run `b` on each store in turn, until it cuts; `cut` tells how the list itself ended. */
  function SolveEach(p: Program, env: nat -> Term, b: Body, stores: seq<Store>, cut: bool): Solution
    decreases b, 1, |stores|
  {
    if stores == [] then Solution([], cut)
    else
      var here := Solve(p, env, b, stores[0]);
      if here.cut then here
      else
        var rest := SolveEach(p, env, b, stores[1..], cut);
        Solution(here.answers + rest.answers, rest.cut)
  }

  /** `!` occurs in `b` outside every condition and every \+. */
  predicate CutsIn(b: Body) {
    match b
    case Cut => true
    case Conj(l, r) => CutsIn(l) || CutsIn(r)
    case Disj(l, r) => CutsIn(l) || CutsIn(r)
    case IfThen(c, t) => CutsIn(t)
    case SoftIfThen(c, t) => CutsIn(t)
    case _ => false
  }

  /** Every success of `b` has run such a `!`. */
  predicate AlwaysCuts(b: Body) {
    match b
    case Cut => true
    case Conj(l, r) => AlwaysCuts(l) || AlwaysCuts(r)
    case Disj(l, r) => AlwaysCuts(l) && AlwaysCuts(r)
    case IfThen(c, t) => AlwaysCuts(t)
    case SoftIfThen(c, t) => AlwaysCuts(t)
    case _ => false
  }

  /** Such a `!` of `b` may run after `b` has succeeded without one. */
  predicate LateCut(b: Body) {
    match b
    case Conj(l, r) => LateCut(r) || (!AlwaysCuts(r) && (LateCut(l) || CutsIn(r)))
    case Disj(IfThen(c, t), e) => LateCut(t) || LateCut(e)
    case Disj(SoftIfThen(c, t), e) => LateCut(e) || LateCut(t) || (CutsIn(t) && !AlwaysCuts(t))
    case Disj(l, r) => LateCut(l) || LateCut(r) || (CutsIn(r) && !AlwaysCuts(l))
    case IfThen(c, t) => LateCut(t)
    case SoftIfThen(c, t) => LateCut(t) || (CutsIn(t) && !AlwaysCuts(t))
    case _ => false
  }

  /** A body whose every success cuts has cut when it has an answer. */
  lemma {:induction false} CutWithAnswer(p: Program, env: nat -> Term, b: Body, s: Store)
    requires AlwaysCuts(b) && Solve(p, env, b, s).answers != []
    ensures Solve(p, env, b, s).cut
    decreases b, 0
  {
    match b
    case Cut =>
    case Conj(l, r) =>
      var first := Solve(p, env, l, s);
      if AlwaysCuts(r) {
        CutWithAnswerEach(p, env, r, first.answers, first.cut);
      } else {
        CutWithAnswer(p, env, l, s);
        CutStays(p, env, r, first.answers);
      }
    case Disj(l, r) =>
      if l.IfThen? {
        var found := Solve(p, env, l.cond, s).answers;
        if found == [] { CutWithAnswer(p, env, r, s); } else { CutWithAnswer(p, env, l.action, found[0]); }
      } else if l.SoftIfThen? {
        var found := Solve(p, env, l.cond, s).answers;
        if found == [] { CutWithAnswer(p, env, r, s); } else { CutWithAnswerEach(p, env, l.action, found, false); }
      } else if Solve(p, env, l, s).answers != [] {
        CutWithAnswer(p, env, l, s);
      } else if !Solve(p, env, l, s).cut {
        CutWithAnswer(p, env, r, s);
      }
    case IfThen(c, t) =>
      var found := Solve(p, env, c, s).answers;
      CutWithAnswer(p, env, t, found[0]);
    case SoftIfThen(c, t) => CutWithAnswerEach(p, env, t, Solve(p, env, c, s).answers, false);
  }

  lemma {:induction false} CutWithAnswerEach(p: Program, env: nat -> Term, b: Body, stores: seq<Store>, cut: bool)
    requires AlwaysCuts(b) && SolveEach(p, env, b, stores, cut).answers != []
    ensures SolveEach(p, env, b, stores, cut).cut
    decreases b, 1, |stores|
  {
    var here := Solve(p, env, b, stores[0]);
    if !here.cut {
      if here.answers != [] {
        CutWithAnswer(p, env, b, stores[0]);
        assert false;
      } else {
        CutWithAnswerEach(p, env, b, stores[1..], cut);
      }
    }
  }

  lemma {:induction false} CutStays(p: Program, env: nat -> Term, b: Body, stores: seq<Store>)
    ensures SolveEach(p, env, b, stores, true).cut
    decreases |stores|
  {
    if stores != [] { CutStays(p, env, b, stores[1..]); }
  }

  /** A body without such a `!` never cuts. */
  lemma {:induction false} NoCut(p: Program, env: nat -> Term, b: Body, s: Store)
    requires !CutsIn(b)
    ensures !Solve(p, env, b, s).cut
    decreases b, 0
  {
    match b
    case Conj(l, r) => NoCut(p, env, l, s); NoCutEach(p, env, r, Solve(p, env, l, s).answers, Solve(p, env, l, s).cut);
    case Disj(l, r) =>
      NoCut(p, env, r, s);
      if l.IfThen? {
        var found := Solve(p, env, l.cond, s).answers;
        if found != [] { NoCut(p, env, l.action, found[0]); }
      } else if l.SoftIfThen? {
        NoCutEach(p, env, l.action, Solve(p, env, l.cond, s).answers, false);
      } else {
        NoCut(p, env, l, s);
      }
    case IfThen(c, t) =>
      var found := Solve(p, env, c, s).answers;
      if found != [] { NoCut(p, env, t, found[0]); }
    case SoftIfThen(c, t) => NoCutEach(p, env, t, Solve(p, env, c, s).answers, false);
    case _ =>
  }

  lemma {:induction false} NoCutEach(p: Program, env: nat -> Term, b: Body, stores: seq<Store>, cut: bool)
    requires !CutsIn(b) && !cut
    ensures !SolveEach(p, env, b, stores, cut).cut
    decreases b, 1, |stores|
  {
    if stores != [] {
      NoCut(p, env, b, stores[0]);
      NoCutEach(p, env, b, stores[1..], cut);
    }
  }
}
