// What it means for code to produce a list of answers on backtracking, whatever older choice points
// there are, and how such pieces compose.

module Answers {
  import opened CodeGen
  import opened Search
  import opened Machine
  import opened Execution
  import opened Chains
  import opened DeadChoices

  /** What `!` refers to: the clause, or a condition with its mark slot (C_LCUT, C_LSCUT, C_LCUTIFTHEN).
      In a spent scope the choice point that the mark leads to is gone. */
  datatype CutKind = ClauseScope | Local(v: nat) | Soft(v: nat) | IfThenScope(v: nat) | Spent(v: nat) | NoScope

  /** The scope code runs in.  The choice points older than the scope have addresses up to `floor`;
      when `pin` is set, the newest of them has that address for as long as the scope lives; when
      `stale` is set, that address was a choice point on top of the older ones and has been unlinked. */
  datatype Scope = Scope(kind: CutKind, pin: Option<nat>, floor: nat, stale: Option<nat> := None)

  /** What surrounds a scope at some moment: the older choice points and the global parts of the world. */
  datatype Around = Around(kc: seq<Choice>, marks: map<nat, int>, dead: map<nat, nat>, next: nat, out: seq<Store>)

  datatype Go = Go(pc: nat, frame: Frame, store: Store)

  /** A place to continue: run forward, or backtrack; above choice points `l` of the scope's own,
      counting on the marks `m` and on no choice point being newer than `next`. */
  datatype Place = Place(go: Option<Go>, l: seq<Choice>, m: map<nat, int>, next: nat)

  /** Where code leaves: at `pc` with exactly `used` initialised, or, for the code of a last goal, at
      the end of the clause. */
  datatype Exit = Exit(pc: nat, used: set<nat>, dep: bool)

  /** One answer delivered: where, and what was left behind. */
  datatype Landing = Landing(pc: nat, frame: Frame, l: seq<Choice>, marks: map<nat, int>, dead: map<nat, nat>,
        next: nat)

  /** The mark slots a piece of code owns: from `lo` up to `hi`. */
  datatype Own = Own(lo: nat, hi: nat)

  predicate Fits(sc: Scope, a: Around) {
    && a.kc != [] && Sorted(a.kc) && Top(a.kc) <= sc.floor < a.next
    && (sc.pin.Some? ==> Top(a.kc) == sc.pin.value)
    && (sc.stale.Some? ==> Unlinked(a, sc.stale.value) && sc.stale.value <= sc.floor)
    && match sc.kind
       case ClauseScope => |a.kc| == 1
       case Local(v) => |a.kc| > 1 && v in a.marks && a.marks[v] == Top(a.kc[..|a.kc| - 1])
       case Soft(v) => v in a.marks && (a.marks[v] == Top(a.kc) || a.marks[v] == 0 - Top(a.kc))
       case IfThenScope(v) => v in a.marks && a.marks[v] == Top(a.kc)
       case Spent(v) => sc.stale.Some? && v in a.marks && a.marks[v] == 0 - sc.stale.value
       case NoScope => true
  }

  /** Choice point `n` stood on top of the older ones and has been unlinked. */
  predicate Unlinked(a: Around, n: nat) {
    n in a.dead && a.dead[n] == Top(a.kc) && Top(a.kc) < n
  }

  /** The scope for code whose `!`, if any, has no more to say. */
  function Loose(sc: Scope): Scope {
    Scope(NoScope, None, sc.floor)
  }

  /** What is remembered about the choice point a stale scope is about. */
  predicate Remembered(sc: Scope, dead: map<nat, nat>, dead1: map<nat, nat>) {
    sc.stale.Some? && sc.stale.value in dead ==>
      sc.stale.value in dead1 && dead1[sc.stale.value] == dead[sc.stale.value]
  }

  predicate ScopeBefore(sc: Scope, lo: nat) {
    match sc.kind
    case Local(v) => v < lo
    case Soft(v) => v < lo
    case IfThenScope(v) => v < lo
    case Spent(v) => v < lo
    case _ => true
  }

  predicate Sound(sc: Scope, p: Place) {
    Above(p.l, sc.floor) && Top(p.l) < p.next && sc.floor < p.next
  }

  predicate Admits(sc: Scope, p: Place, a: Around) {
    Fits(sc, a) && Agree(p.m, a.marks) && p.next <= a.next
  }

  predicate Agree(m: map<nat, int>, marks: map<nat, int>) {
    forall v :: v in m ==> v in marks && marks[v] == m[v]
  }

  /** The marks outside `own` are as they were. */
  ghost predicate SameOutside(own: Own, m: map<nat, int>, n: map<nat, int>) {
    forall v :: !(own.lo <= v < own.hi) ==> (v in m <==> v in n) && (v in m ==> m[v] == n[v])
  }

  function OwnMarks(own: Own, marks: map<nat, int>): map<nat, int> {
    map v | v in marks && own.lo <= v < own.hi :: marks[v]
  }

  function WorldOf(a: Around, l: seq<Choice>): World {
    World(a.kc + l, a.marks, a.dead, a.next, a.out)
  }

  function ConfigOf(p: Place, a: Around): Config {
    if p.go.Some? then Run(p.go.value.pc, p.go.value.frame, NoArgs, p.go.value.store, None, WorldOf(a, p.l))
    else Back(WorldOf(a, p.l))
  }

  ghost predicate Leaves(vm: Vm, x: Exit, pc: nat, frame: Frame) {
    (pc == x.pc && frame == FrameOf(vm.env, x.used)) || (x.dep && pc == ExitPc(vm))
  }

  function LandWorld(a: Around, ld: Landing): World {
    World(a.kc + ld.l, ld.marks, ld.dead, ld.next, a.out)
  }

  /** From place `p` the code arrives at an exit with store `s`. */
  ghost predicate Lands(vm: Vm, sc: Scope, x: Exit, own: Own, p: Place, a: Around, s: Store, ld: Landing) {
    && Reaches(vm, ConfigOf(p, a), Run(ld.pc, ld.frame, NoArgs, s, None, LandWorld(a, ld)))
    && Leaves(vm, x, ld.pc, ld.frame)
    && SameOutside(own, a.marks, ld.marks)
    && Above(ld.l, sc.floor) && Top(ld.l) < ld.next && a.next <= ld.next
  }

  /** From place `p` the code runs out of answers and backtracks into what is left of `j`, or past
      the whole scope when it has cut. */
  ghost predicate Exhausts(vm: Vm, own: Own, j: seq<Choice>, p: Place, a: Around, cut: bool, w: World) {
    && Reaches(vm, ConfigOf(p, a), Back(w))
    && w.chain == (if cut then a.kc else a.kc + j)
    && SameOutside(own, a.marks, w.marks) && w.out == a.out && a.next <= w.next
  }

  /** The place to backtrack to for more answers. */
  function More(own: Own, ld: Landing): Place {
    Place(None, ld.l, OwnMarks(own, ld.marks), ld.next)
  }

  /** From `p`, in every surrounding that fits, the code produces exactly `answers`, one by one on
      backtracking, and then backtracks into `j`, or past the scope if `cut`. */
  ghost predicate Yields(vm: Vm, sc: Scope, x: Exit, own: Own, j: seq<Choice>, p: Place, answers: seq<Store>, cut: bool)
    decreases |answers|, 1
  {
    forall a: Around | Admits(sc, p, a) :: Delivers(vm, sc, x, own, j, p, answers, cut, a)
  }

  ghost predicate Delivers(vm: Vm, sc: Scope, x: Exit, own: Own, j: seq<Choice>, p: Place, answers: seq<Store>,
        cut: bool, a: Around)
    decreases |answers|, 0
  {
    if answers == [] then exists w: World :: Exhausts(vm, own, j, p, a, cut, w)
    else exists ld: Landing ::
      Lands(vm, sc, x, own, p, a, answers[0], ld) && Yields(vm, sc, x, own, j, More(own, ld), answers[1..], cut)
  }

  // ----- elementary facts -----

  lemma YieldsAt(vm: Vm, sc: Scope, x: Exit, own: Own, j: seq<Choice>, p: Place, answers: seq<Store>, cut: bool,
        a: Around)
    requires Yields(vm, sc, x, own, j, p, answers, cut) && Admits(sc, p, a)
    ensures Delivers(vm, sc, x, own, j, p, answers, cut, a)
  {
  }

  lemma YieldsAll(vm: Vm, sc: Scope, x: Exit, own: Own, j: seq<Choice>, p: Place, answers: seq<Store>, cut: bool)
    requires forall a: Around | Admits(sc, p, a) :: Delivers(vm, sc, x, own, j, p, answers, cut, a)
    ensures Yields(vm, sc, x, own, j, p, answers, cut)
  {
  }

  lemma DeliversNone(vm: Vm, sc: Scope, x: Exit, own: Own, j: seq<Choice>, p: Place, cut: bool, a: Around, w: World)
    requires Exhausts(vm, own, j, p, a, cut, w)
    ensures Delivers(vm, sc, x, own, j, p, [], cut, a)
  {
  }

  lemma DeliversFirst(vm: Vm, sc: Scope, x: Exit, own: Own, j: seq<Choice>, p: Place, answers: seq<Store>, cut: bool,
        a: Around, ld: Landing)
    requires answers != [] && Lands(vm, sc, x, own, p, a, answers[0], ld)
    requires Yields(vm, sc, x, own, j, More(own, ld), answers[1..], cut)
    ensures Delivers(vm, sc, x, own, j, p, answers, cut, a)
  {
  }

  lemma NoneDelivered(vm: Vm, sc: Scope, x: Exit, own: Own, j: seq<Choice>, p: Place, cut: bool, a: Around)
        returns (w: World)
    requires Delivers(vm, sc, x, own, j, p, [], cut, a)
    ensures Exhausts(vm, own, j, p, a, cut, w)
  {
    w :| Exhausts(vm, own, j, p, a, cut, w);
  }

  lemma FirstDelivered(vm: Vm, sc: Scope, x: Exit, own: Own, j: seq<Choice>, p: Place, answers: seq<Store>,
        cut: bool, a: Around)
    returns (ld: Landing)
    requires answers != [] && Delivers(vm, sc, x, own, j, p, answers, cut, a)
    ensures Lands(vm, sc, x, own, p, a, answers[0], ld)
    ensures Yields(vm, sc, x, own, j, More(own, ld), answers[1..], cut)
  {
    ld :| Lands(vm, sc, x, own, p, a, answers[0], ld) && Yields(vm, sc, x, own, j, More(own, ld), answers[1..], cut);
  }

  /** What is around after a landing. */
  function After(a: Around, ld: Landing): Around {
    Around(a.kc, ld.marks, ld.dead, ld.next, a.out)
  }

  function AfterBack(a: Around, w: World): Around {
    Around(a.kc, w.marks, w.dead, w.next, a.out)
  }

  predicate MarksIn(o: Own, m: map<nat, int>) {
    forall v :: v in m ==> o.lo <= v < o.hi
  }

  lemma OwnAgree(o: Own, marks: map<nat, int>)
    ensures Agree(OwnMarks(o, marks), marks) && MarksIn(o, OwnMarks(o, marks))
  {
  }

  /** Marks of another owner survive. */
  lemma AgreeSurvives(o: Own, ob: Own, m: map<nat, int>, marks: map<nat, int>, marks1: map<nat, int>)
    requires Agree(m, marks) && MarksIn(o, m) && o.hi <= ob.lo && SameOutside(ob, marks, marks1)
    ensures Agree(m, marks1)
  {
    forall v | v in m ensures v in marks1 && marks1[v] == m[v] {
      assert !(ob.lo <= v < ob.hi);
    }
  }

  lemma AgreePart(o: Own, ob: Own, m: map<nat, int>, n: map<nat, int>, marks: map<nat, int>)
    requires Agree(m + n, marks) && MarksIn(o, n) && MarksIn(ob, m) && o.hi <= ob.lo
    ensures Agree(m, marks) && Agree(n, marks)
  {
    forall v | v in m ensures v in marks && marks[v] == m[v] { assert v in m + n; }
    forall v | v in n ensures v in marks && marks[v] == n[v] { assert v in m + n; }
  }

  lemma FitsStays(sc: Scope, own: Own, a: Around, marks: map<nat, int>, dead: map<nat, nat>, next: nat)
    requires Fits(sc, a) && ScopeBefore(sc, own.lo) && SameOutside(own, a.marks, marks) && a.next <= next
    requires Remembered(sc, a.dead, dead)
    ensures Fits(sc, Around(a.kc, marks, dead, next, a.out))
  {
    match sc.kind
    case Local(v) => assert !(own.lo <= v < own.hi);
    case Soft(v) => assert !(own.lo <= v < own.hi);
    case IfThenScope(v) => assert !(own.lo <= v < own.hi);
    case Spent(v) => assert !(own.lo <= v < own.hi);
    case _ =>
  }

  /** Running on remembers what has been unlinked. */
  lemma StaysUnlinked(vm: Vm, sc: Scope, a: Around, l: seq<Choice>, c: Config, d: Config)
    requires Fits(sc, a) && (sc.stale.Some? ==> Above(l, sc.floor)) && (c.Run? || c.Back?) && c.w == WorldOf(a, l)
    requires Reaches(vm, c, d) && (d.Run? || d.Back?)
    ensures Remembered(sc, a.dead, d.w.dead)
  {
    hide Reaches;
    if sc.stale.Some? {
      var n := sc.stale.value;
      assert forall i :: 0 <= i < |a.kc| - 1 ==> a.kc[i].addr < a.kc[|a.kc| - 1].addr;
      assert Gone(c.w, n, Top(a.kc));
      StaysGone(vm, c, d, n, Top(a.kc));
    }
  }

  lemma SameTrans(o1: Own, o2: Own, o3: Own, m: map<nat, int>, n: map<nat, int>, k: map<nat, int>)
    requires SameOutside(o1, m, n) && SameOutside(o2, n, k)
    requires o3.lo <= o1.lo && o1.hi <= o3.hi && o3.lo <= o2.lo && o2.hi <= o3.hi
    ensures SameOutside(o3, m, k)
  {
    forall v | !(o3.lo <= v < o3.hi) ensures (v in m <==> v in k) && (v in m ==> m[v] == k[v]) {
      assert !(o1.lo <= v < o1.hi) && !(o2.lo <= v < o2.hi);
      assert v in m <==> v in n;
    }
  }

  /** Getting from one place to another before delivering changes nothing but the starting point. */
  lemma DeliversVia(vm: Vm, sc: Scope, x: Exit, o1: Own, o2: Own, j: seq<Choice>, p: Place, a: Around, q: Place,
        b: Around,
                    answers: seq<Store>, cut: bool)
    requires Reaches(vm, ConfigOf(p, a), ConfigOf(q, b))
    requires b.kc == a.kc && b.out == a.out && a.next <= b.next && SameOutside(o1, a.marks, b.marks)
    requires o1.lo <= o2.lo && o2.hi <= o1.hi
    requires Delivers(vm, sc, x, o2, j, q, answers, cut, b)
    ensures Delivers(vm, sc, x, o1, j, p, answers, cut, a)
  {
    if answers == [] {
      var w: World :| Exhausts(vm, o2, j, q, b, cut, w);
      ReachesTrans(vm, ConfigOf(p, a), ConfigOf(q, b), Back(w));
      SameTrans(o1, o2, o1, a.marks, b.marks, w.marks);
      assert Exhausts(vm, o1, j, p, a, cut, w);
    } else {
      var ld: Landing :| Lands(vm, sc, x, o2, q, b, answers[0], ld)
          && Yields(vm, sc, x, o2, j, More(o2, ld), answers[1..], cut);
      ReachesTrans(vm, ConfigOf(p, a), ConfigOf(q, b),
          Run(ld.pc, ld.frame, NoArgs, answers[0], None, LandWorld(b, ld)));
      SameTrans(o1, o2, o1, a.marks, b.marks, ld.marks);
      assert Lands(vm, sc, x, o1, p, a, answers[0], ld);
      Widen(vm, sc, x, o2, o1, j, More(o2, ld), More(o1, ld).m, answers[1..], cut);
    }
  }

  /** A place may count on more marks, and code may be said to own more slots than it uses. */
  lemma {:induction false} Widen(vm: Vm, sc: Scope, x: Exit, o2: Own, o1: Own, j: seq<Choice>, p: Place, m: map<nat,
        int>,
                                 answers: seq<Store>, cut: bool)
    requires o1.lo <= o2.lo && o2.hi <= o1.hi && Agree(p.m, m)
    requires Yields(vm, sc, x, o2, j, p, answers, cut)
    ensures Yields(vm, sc, x, o1, j, p.(m := m), answers, cut)
    decreases |answers|, 1
  {
    var q := p.(m := m);
    forall a: Around | Admits(sc, q, a) ensures Delivers(vm, sc, x, o1, j, q, answers, cut, a) {
      assert Admits(sc, p, a);
      assert Delivers(vm, sc, x, o2, j, p, answers, cut, a);
      if answers == [] {
        var w: World :| Exhausts(vm, o2, j, p, a, cut, w);
        SameTrans(o2, o2, o1, a.marks, a.marks, w.marks);
        assert Exhausts(vm, o1, j, q, a, cut, w);
      } else {
        var ld: Landing :| Lands(vm, sc, x, o2, p, a, answers[0], ld)
            && Yields(vm, sc, x, o2, j, More(o2, ld), answers[1..], cut);
        SameTrans(o2, o2, o1, a.marks, a.marks, ld.marks);
        assert Lands(vm, sc, x, o1, q, a, answers[0], ld);
        Widen(vm, sc, x, o2, o1, j, More(o2, ld), More(o1, ld).m, answers[1..], cut);
      }
    }
  }

  /** Every way out through `x` goes on to a way out through `y`. */
  ghost predicate LeadsTo(vm: Vm, x: Exit, y: Exit) {
    && (x.dep ==> y.dep)
    && forall s: Store, w: World :: Reaches(vm, Plain(x.pc, vm, x.used, s, w), Plain(y.pc, vm, y.used, s, w))
  }

  lemma LeadsOn(vm: Vm, x: Exit, y: Exit, pc: nat, frame: Frame, s: Store, w: World) returns (pc1: nat, frame1: Frame)
    requires LeadsTo(vm, x, y) && Leaves(vm, x, pc, frame)
    ensures Leaves(vm, y, pc1, frame1)
    ensures Reaches(vm, Run(pc, frame, NoArgs, s, None, w), Run(pc1, frame1, NoArgs, s, None, w))
  {
    if x.dep && pc == ExitPc(vm) {
      pc1, frame1 := pc, frame;
      ReachesSelf(vm, Run(pc, frame, NoArgs, s, None, w));
    } else {
      pc1, frame1 := y.pc, FrameOf(vm.env, y.used);
      assert Reaches(vm, Plain(x.pc, vm, x.used, s, w), Plain(y.pc, vm, y.used, s, w));
    }
  }

  lemma {:induction false} ExitVia(vm: Vm, sc: Scope, x: Exit, y: Exit, own: Own, j: seq<Choice>, p: Place,
                                   answers: seq<Store>, cut: bool)
    requires LeadsTo(vm, x, y)
    requires Yields(vm, sc, x, own, j, p, answers, cut)
    ensures Yields(vm, sc, y, own, j, p, answers, cut)
    decreases |answers|, 1
  {
    hide LeadsTo, Leaves;
    forall a: Around | Admits(sc, p, a) ensures Delivers(vm, sc, y, own, j, p, answers, cut, a) {
      ExitDelivers(vm, sc, x, y, own, j, p, answers, cut, a);
    }
  }

  lemma {:induction false} ExitDelivers(vm: Vm, sc: Scope, x: Exit, y: Exit, own: Own, j: seq<Choice>, p: Place,
                                        answers: seq<Store>, cut: bool, a: Around)
    requires LeadsTo(vm, x, y)
    requires Delivers(vm, sc, x, own, j, p, answers, cut, a)
    ensures Delivers(vm, sc, y, own, j, p, answers, cut, a)
    decreases |answers|, 0
  {
    hide LeadsTo, Leaves;
    if answers == [] {
      var w: World :| Exhausts(vm, own, j, p, a, cut, w);
      assert Exhausts(vm, own, j, p, a, cut, w);
    } else {
      var s := answers[0];
      var ld: Landing :| Lands(vm, sc, x, own, p, a, s, ld)
          && Yields(vm, sc, x, own, j, More(own, ld), answers[1..], cut);
      var w := LandWorld(a, ld);
      var pc1, frame1 := LeadsOn(vm, x, y, ld.pc, ld.frame, s, w);
      ReachesTrans(vm, ConfigOf(p, a), Run(ld.pc, ld.frame, NoArgs, s, None, w), Run(pc1, frame1, NoArgs, s, None, w));
      var ld1 := ld.(pc := pc1, frame := frame1);
      assert LandWorld(a, ld1) == w && More(own, ld1) == More(own, ld);
      assert Lands(vm, sc, y, own, p, a, s, ld1);
      ExitVia(vm, sc, x, y, own, j, More(own, ld), answers[1..], cut);
    }
  }

  // ----- narrower scopes, and cuts -----

  /** Whatever fits `narrow` fits `sc`. */
  ghost predicate Narrower(narrow: Scope, sc: Scope) {
    narrow.floor == sc.floor && forall a: Around | Fits(narrow, a) :: Fits(sc, a)
  }

  lemma {:induction false} NarrowYields(vm: Vm, sc: Scope, narrow: Scope, x: Exit, own: Own, j: seq<Choice>, p: Place,
                                        answers: seq<Store>, cut: bool)
    requires Narrower(narrow, sc) && Yields(vm, sc, x, own, j, p, answers, cut)
    ensures Yields(vm, narrow, x, own, j, p, answers, cut)
    decreases |answers|, 1
  {
    hide Fits;
    forall a: Around | Admits(narrow, p, a) ensures Delivers(vm, narrow, x, own, j, p, answers, cut, a) {
      assert Admits(sc, p, a);
      NarrowDelivers(vm, sc, narrow, x, own, j, p, answers, cut, a);
    }
  }

  lemma {:induction false} NarrowDelivers(vm: Vm, sc: Scope, narrow: Scope, x: Exit, own: Own, j: seq<Choice>, p: Place,
                                          answers: seq<Store>, cut: bool, a: Around)
    requires Narrower(narrow, sc) && Delivers(vm, sc, x, own, j, p, answers, cut, a)
    ensures Delivers(vm, narrow, x, own, j, p, answers, cut, a)
    decreases |answers|, 0
  {
    hide Fits, Narrower;
    if answers == [] {
      var w := NoneDelivered(vm, sc, x, own, j, p, cut, a);
      DeliversNone(vm, narrow, x, own, j, p, cut, a, w);
    } else {
      var ld := FirstDelivered(vm, sc, x, own, j, p, answers, cut, a);
      NarrowYields(vm, sc, narrow, x, own, j, More(own, ld), answers[1..], cut);
      NarrowLands(vm, sc, narrow, x, own, p, a, answers[0], ld);
      DeliversFirst(vm, narrow, x, own, j, p, answers, cut, a, ld);
    }
  }

  lemma NarrowLands(vm: Vm, sc: Scope, narrow: Scope, x: Exit, own: Own, p: Place, a: Around, s: Store, ld: Landing)
    requires Narrower(narrow, sc) && Lands(vm, sc, x, own, p, a, s, ld)
    ensures Lands(vm, narrow, x, own, p, a, s, ld)
  {
    hide Fits;
  }

  /** After a cut it does not matter what there was to backtrack into. */
  lemma {:induction false} CutYields(vm: Vm, sc: Scope, x: Exit, own: Own, j: seq<Choice>, j1: seq<Choice>, p: Place,
        answers: seq<Store>)
    requires Yields(vm, sc, x, own, j, p, answers, true)
    ensures Yields(vm, sc, x, own, j1, p, answers, true)
    decreases |answers|, 1
  {
    hide Fits;
    forall a: Around | Admits(sc, p, a) ensures Delivers(vm, sc, x, own, j1, p, answers, true, a) {
      YieldsAt(vm, sc, x, own, j, p, answers, true, a);
      CutJ(vm, sc, x, own, j, j1, p, answers, a);
    }
  }

  lemma {:induction false} CutJ(vm: Vm, sc: Scope, x: Exit, own: Own, j: seq<Choice>, j1: seq<Choice>, p: Place,
        answers: seq<Store>, a: Around)
    requires Delivers(vm, sc, x, own, j, p, answers, true, a)
    ensures Delivers(vm, sc, x, own, j1, p, answers, true, a)
    decreases |answers|, 0
  {
    hide Fits, Lands, Admits;
    if answers == [] {
      var w := NoneDelivered(vm, sc, x, own, j, p, true, a);
      assert Exhausts(vm, own, j1, p, a, true, w);
    } else {
      var ld := FirstDelivered(vm, sc, x, own, j, p, answers, true, a);
      CutYields(vm, sc, x, own, j, j1, More(own, ld), answers[1..]);
      DeliversFirst(vm, sc, x, own, j1, p, answers, true, a, ld);
    }
  }
}
