// Prolog terms and clause bodies, as the clause compiler sees them after variable analysis.

module Terms {

  /** The built-in type tests the compiler knows an instruction for. */
  datatype TypeTest =
    | TInteger | TRational | TFloat | TNumber | TAtomic | TAtom | TString | TCompound | TCallable

  /** Names of functors and atoms.  The reserved ones are those the body compiler dispatches on. */
  datatype Name =
    | User(id: nat)
    | Type(test: TypeTest)
    | Comma | Semicolon | Arrow | SoftArrow | NotProvable
    | TrueName | FailName | CutName
    | Dot

  datatype Functor = Functor(name: Name, arity: nat)

  /** A term whose variables are clause variables (Var) or singletons (Void). */
  datatype Term =
    | Void
    | Var(index: nat)
    | Int(value: int)
    | Atom(name: Name)
    | Nil
    | Cmp(fname: Name, args: seq<Term>)

  /** A clause body, split on the control constructs.  `Disj(IfThen(c, t), e)` is if-then-else. */
  datatype Body =
    | Goal(name: Name, gargs: seq<Term>)
    | True | Fail | Cut
    | Conj(left: Body, right: Body)
    | Disj(left: Body, right: Body)
    | IfThen(cond: Body, action: Body)
    | SoftIfThen(cond: Body, action: Body)
    | Not(body: Body)

  /** Compound arguments have at least one argument. */
  predicate ProperTerm(t: Term)
    decreases t, 1
  {
    t.Cmp? ==> |t.args| > 0 && ProperTerms(t.args)
  }

  predicate ProperTerms(ts: seq<Term>)
    decreases ts, 0
  {
    ts == [] || (ProperTerm(ts[0]) && ProperTerms(ts[1..]))
  }

  /** Goals call user predicates or type tests of one argument. */
  predicate ProperBody(b: Body) {
    match b
    case Goal(f, ts) => (f.User? || (f.Type? && |ts| == 1)) && ProperTerms(ts)
    case True => true
    case Fail => true
    case Cut => true
    case Conj(l, r) => ProperBody(l) && ProperBody(r)
    case Disj(l, r) => ProperBody(l) && ProperBody(r)
    case IfThen(c, t) => ProperBody(c) && ProperBody(t)
    case SoftIfThen(c, t) => ProperBody(c) && ProperBody(t)
    case Not(g) => ProperBody(g)
  }

  /** The clause variables of a term, of a list of terms and of a body. */
  function Vars(t: Term): set<nat>
    decreases t, 1
  {
    match t
    case Var(i) => {i}
    case Cmp(_, ts) => VarsOf(ts)
    case _ => {}
  }

  function VarsOf(ts: seq<Term>): set<nat>
    decreases ts, 0
  {
    if ts == [] then {} else Vars(ts[0]) + VarsOf(ts[1..])
  }

  function BodyVars(b: Body): set<nat> {
    match b
    case Goal(_, ts) => VarsOf(ts)
    case True => {}
    case Fail => {}
    case Cut => {}
    case Conj(l, r) => BodyVars(l) + BodyVars(r)
    case Disj(l, r) => BodyVars(l) + BodyVars(r)
    case IfThen(c, t) => BodyVars(c) + BodyVars(t)
    case SoftIfThen(c, t) => BodyVars(c) + BodyVars(t)
    case Not(g) => BodyVars(g)
  }

  /** The number of goals and control constructs in a body. */
  function BodySize(b: Body): nat {
    match b
    case Conj(l, r) => 1 + BodySize(l) + BodySize(r)
    case Disj(l, r) => 1 + BodySize(l) + BodySize(r)
    case IfThen(c, t) => 1 + BodySize(c) + BodySize(t)
    case SoftIfThen(c, t) => 1 + BodySize(c) + BodySize(t)
    case Not(g) => 1 + BodySize(g)
    case _ => 1
  }

  /** Instantiate clause variables. */
  function Subst(t: Term, env: nat -> Term): Term
    decreases t, 1
  {
    match t
    case Var(i) => env(i)
    case Cmp(f, ts) => Cmp(f, SubstAll(ts, env))
    case _ => t
  }

  function SubstAll(ts: seq<Term>, env: nat -> Term): (r: seq<Term>)
    ensures |r| == |ts|
    decreases ts, 0
  {
    if ts == [] then [] else [Subst(ts[0], env)] + SubstAll(ts[1..], env)
  }

  /** The Prolog term a body was parsed from. */
  function ToTerm(b: Body): Term {
    match b
    case Goal(f, ts) => if ts == [] then Atom(f) else Cmp(f, ts)
    case True => Atom(TrueName)
    case Fail => Atom(FailName)
    case Cut => Atom(CutName)
    case Conj(l, r) => Cmp(Comma, [ToTerm(l), ToTerm(r)])
    case Disj(l, r) => Cmp(Semicolon, [ToTerm(l), ToTerm(r)])
    case IfThen(c, t) => Cmp(Arrow, [ToTerm(c), ToTerm(t)])
    case SoftIfThen(c, t) => Cmp(SoftArrow, [ToTerm(c), ToTerm(t)])
    case Not(g) => Cmp(NotProvable, [ToTerm(g)])
  }
}
