// Calls, and running one piece of code on every answer of another.

module Composition {
  import opened Terms
  import opened CodeGen
  import opened Search
  import opened Machine
  import opened Execution
  import opened Chains
  import opened Answers

  /** A place that has no more answers of its own. */
  lemma ExhaustedYields(vm: Vm, sc: Scope, x: Exit, own: Own, l: seq<Choice>, m: map<nat, int>, next: nat)
    ensures Yields(vm, sc, x, own, l, Place(None, l, m, next), [], false)
  {
    var p := Place(None, l, m, next);
    forall a: Around | Admits(sc, p, a) ensures Delivers(vm, sc, x, own, l, p, [], false, a) {
      ReachesSelf(vm, ConfigOf(p, a));
      assert Exhausts(vm, own, l, p, a, false, WorldOf(a, l));
    }
  }

  /** The choice point a call leaves gives the call's further answers, one by one. */
  lemma {:induction false} RedoYields(vm: Vm, sc: Scope, x: Exit, own: Own, l: seq<Choice>, addr: nat, pc: nat,
        frame: Frame,
                                      rest: seq<Store>, m: map<nat, int>, next: nat)
    requires rest != [] && Leaves(vm, x, pc, frame)
    requires Above(l + [Choice(addr, Redo(pc, frame, rest))], sc.floor) && addr < next && sc.floor < next
    ensures Yields(vm, sc, x, own, l, Place(None, l + [Choice(addr, Redo(pc, frame, rest))], m, next), rest, false)
    decreases |rest|
  {
    hide Leaves;
    var full := l + [Choice(addr, Redo(pc, frame, rest))];
    var p := Place(None, full, m, next);
    AboveInit(full, sc.floor);
    assert full[..|full| - 1] == l;
    forall a: Around | Admits(sc, p, a) ensures Delivers(vm, sc, x, own, l, p, rest, false, a) {
      var left := if |rest| == 1 then [] else [Choice(addr, Redo(pc, frame, rest[1..]))];
      var c := ConfigOf(p, a);
      assert (a.kc + full)[..|a.kc + full| - 1] == a.kc + l;
      assert a.kc + l + left == a.kc + (l + left);
      assert Step(vm, c) == Run(pc, frame, NoArgs, rest[0], None, WorldOf(a, l + left));
      ReachesStep(vm, c);
      var ld := Landing(pc, frame, l + left, a.marks, a.dead, a.next);
      if |rest| == 1 {
        assert l + left == l && rest[1..] == [];
        ExhaustedYields(vm, sc, x, own, l, OwnMarks(own, a.marks), a.next);
      } else {
        AbovePush(l, sc.floor, addr, Redo(pc, frame, rest[1..]));
        RedoYields(vm, sc, x, own, l, addr, pc, frame, rest[1..], OwnMarks(own, a.marks), a.next);
      }
      assert Lands(vm, sc, x, own, p, a, rest[0], ld);
    }
  }

  /** Reaching a call's continuation delivers the call's answers. */
  lemma AnswerDelivers(vm: Vm, sc: Scope, x: Exit, own: Own, l: seq<Choice>, p: Place, a: Around, pc: nat,
        frame: Frame, answers: seq<Store>)
    requires Above(l, sc.floor) && Top(l) < a.next && sc.floor < a.next && Leaves(vm, x, pc, frame)
    requires Reaches(vm, ConfigOf(p, a), Answer(pc, frame, answers, WorldOf(a, l)))
    ensures Delivers(vm, sc, x, own, l, p, answers, false, a)
  {
    hide Reaches, Leaves, Fits, Yields, Admits;
    if answers == [] {
      assert Exhausts(vm, own, l, p, a, false, WorldOf(a, l));
    } else if |answers| == 1 {
      var ld := Landing(pc, frame, l, a.marks, a.dead, a.next);
      assert answers[1..] == [];
      ExhaustedYields(vm, sc, x, own, l, OwnMarks(own, a.marks), a.next);
      assert Lands(vm, sc, x, own, p, a, answers[0], ld);
    } else {
      var alt := Redo(pc, frame, answers[1..]);
      AbovePush(l, sc.floor, a.next, alt);
      var ld := Landing(pc, frame, l + [Choice(a.next, alt)], a.marks, a.dead, a.next + 1);
      assert a.kc + l + [Choice(a.next, alt)] == a.kc + (l + [Choice(a.next, alt)]);
      RedoYields(vm, sc, x, own, l, a.next, pc, frame, answers[1..], OwnMarks(own, a.marks), a.next + 1);
      assert Lands(vm, sc, x, own, p, a, answers[0], ld);
    }
  }

  function Entry(vm: Vm, pc: nat, used: set<nat>, s: Store, l: seq<Choice>, next: nat): Place {
    Place(Some(Go(pc, FrameOf(vm.env, used), s)), l, map[], next)
  }

  predicate Ready(vm: Vm, sc: Scope, pc: nat, used: set<nat>, s: Store, l: seq<Choice>, next: nat, a: Around) {
    Sound(sc, Entry(vm, pc, used, s, l, next)) && Admits(sc, Entry(vm, pc, used, s, l, next), a)
  }

  /** Delivery from the entry of `b`'s code, in one surrounding. */
  ghost predicate RunsFrom(vm: Vm, sc: Scope, x: Exit, own: Own, pc: nat, used: set<nat>, b: Body,
                           s: Store, l: seq<Choice>, next: nat, a: Around) {
    Delivers(vm, sc, x, own, l, Entry(vm, pc, used, s, l, next),
             Solve(vm.p, vm.env, b, s).answers, Solve(vm.p, vm.env, b, s).cut, a)
  }

  /** Code at `pc`, entered in scope `sc` with exactly `used` initialised, behaves as body `b`, and from its
      first answer on it needs no more than scope `rest`. */
  ghost predicate Behaves(vm: Vm, sc: Scope, rest: Scope, x: Exit, own: Own, pc: nat, used: set<nat>, b: Body) {
    forall s: Store, l: seq<Choice>, next: nat, a: Around | Ready(vm, sc, pc, used, s, l, next, a) ::
      RunsFrom(vm, rest, x, own, pc, used, b, s, l, next, a)
  }

  /** What is left of a scope after the first answer: the scope, or less. */
  predicate Rests(sc: Scope, rest: Scope) {
    rest == sc || (sc.pin.None? && rest == Loose(sc))
  }

  lemma AllRunsBehave(vm: Vm, sc: Scope, rest: Scope, x: Exit, own: Own, pc: nat, used: set<nat>, b: Body)
    requires forall s: Store, l: seq<Choice>, next: nat, a: Around | Ready(vm, sc, pc, used, s, l, next, a) ::
               RunsFrom(vm, rest, x, own, pc, used, b, s, l, next, a)
    ensures Behaves(vm, sc, rest, x, own, pc, used, b)
  {
    hide RunsFrom, Ready;
  }

  lemma ReadyFacts(vm: Vm, sc: Scope, pc: nat, used: set<nat>, s: Store, l: seq<Choice>, next: nat, a: Around)
    requires Ready(vm, sc, pc, used, s, l, next, a)
    ensures Fits(sc, a) && Above(l, sc.floor) && Top(l) < a.next && sc.floor < a.next
    ensures ConfigOf(Entry(vm, pc, used, s, l, next), a) == Plain(pc, vm, used, s, WorldOf(a, l))
  {
  }

  lemma IsReady(vm: Vm, sc: Scope, pc: nat, used: set<nat>, s: Store, l: seq<Choice>, next: nat, a: Around)
    requires Fits(sc, a) && Above(l, sc.floor) && Top(l) < next <= a.next && sc.floor < next
    ensures Ready(vm, sc, pc, used, s, l, next, a)
  {
    hide Fits;
  }

  /** Where a part's code starts, it delivers the part's answers. */
  lemma PartRuns(vm: Vm, sc: Scope, rest: Scope, x: Exit, own: Own, pc: nat, used: set<nat>, b: Body,
                 s: Store, l: seq<Choice>, a: Around)
    requires Behaves(vm, sc, rest, x, own, pc, used, b) && Fits(sc, a) && Above(l, sc.floor) && Top(l) < a.next
    ensures RunsFrom(vm, rest, x, own, pc, used, b, s, l, a.next, a)
    ensures ConfigOf(Entry(vm, pc, used, s, l, a.next), a) == Plain(pc, vm, used, s, WorldOf(a, l))
  {
    hide RunsFrom, Ready, Fits;
    FitsFacts(sc, a);
    IsReady(vm, sc, pc, used, s, l, a.next, a);
  }

  lemma FitsFacts(sc: Scope, a: Around)
    requires Fits(sc, a)
    ensures a.kc != [] && Sorted(a.kc) && Top(a.kc) <= sc.floor < a.next
  {
  }

  lemma RestFits(sc: Scope, rest: Scope, a: Around)
    requires Rests(sc, rest) && Fits(sc, a)
    ensures Fits(rest, a) && rest.floor == sc.floor
  {
  }

  predicate Within(o: Own, own: Own) {
    own.lo <= o.lo && o.hi <= own.hi
  }

  predicate Apart(sc: Scope, oa: Own, ob: Own, own: Own) {
    Within(oa, own) && Within(ob, own) && oa.hi <= ob.lo && ScopeBefore(sc, own.lo) && ScopeBefore(sc, ob.lo)
  }

  lemma RestApart(sc: Scope, rest: Scope, oa: Own, ob: Own, own: Own)
    requires Rests(sc, rest) && Apart(sc, oa, ob, own)
    ensures Apart(rest, oa, ob, own)
  {
  }

  lemma FitsAfter(sc: Scope, o: Own, own: Own, a: Around, a1: Around)
    requires Fits(sc, a) && ScopeBefore(sc, own.lo) && Within(o, own) && SameOutside(o, a.marks, a1.marks)
    requires a.next <= a1.next && a1.kc == a.kc && Remembered(sc, a.dead, a1.dead)
    ensures Fits(sc, Around(a.kc, a1.marks, a1.dead, a1.next, a1.out)) && Fits(sc, a1)
            && SameOutside(own, a.marks, a1.marks)
  {
    SameTrans(o, o, own, a.marks, a.marks, a1.marks);
    FitsStays(sc, own, a, a1.marks, a1.dead, a1.next);
  }

  // ----- one piece of code, then what was waiting below it -----

  /** `b` has run out and backtracks into the code below it. */
  lemma BackTo(vm: Vm, sc: Scope, oa: Own, ob: Own, own: Own, pa: Place, q: Place, a: Around, w: World)
    requires Exhausts(vm, ob, pa.l, q, a, false, w) && pa.go.None? && pa.next <= q.next <= a.next
             && Above(q.l, sc.floor)
    requires Fits(sc, a) && Agree(pa.m, a.marks) && MarksIn(oa, pa.m) && Apart(sc, oa, ob, own)
    ensures var a1 := AfterBack(a, w);
            && Admits(sc, pa, a1) && Fits(sc, a1) && SameOutside(own, a.marks, a1.marks) && a.next <= a1.next
            && Reaches(vm, ConfigOf(q.(m := q.m + pa.m), a), ConfigOf(pa, a1))
  {
    StaysUnlinked(vm, sc, a, q.l, ConfigOf(q, a), Back(w));
    FitsAfter(sc, ob, own, a, AfterBack(a, w));
    AgreeSurvives(oa, ob, pa.m, a.marks, w.marks);
  }

  lemma CutExhausts(vm: Vm, o: Own, own: Own, l: seq<Choice>, j: seq<Choice>, q: Place, q1: Place, a: Around, w: World)
    requires Exhausts(vm, o, l, q, a, true, w) && ConfigOf(q1, a) == ConfigOf(q, a) && Within(o, own)
    ensures Exhausts(vm, own, j, q1, a, true, w)
  {
    SameTrans(o, o, own, a.marks, a.marks, w.marks);
  }

  lemma ExhaustsWider(vm: Vm, o: Own, own: Own, j: seq<Choice>, p: Place, a: Around, cut: bool, w: World)
    requires Exhausts(vm, o, j, p, a, cut, w) && Within(o, own)
    ensures Exhausts(vm, own, j, p, a, cut, w)
  {
    SameTrans(o, o, own, a.marks, a.marks, w.marks);
  }

  lemma LandsWider(vm: Vm, sc: Scope, x: Exit, o: Own, own: Own, q: Place, q1: Place, a: Around, s: Store, ld: Landing)
    requires Lands(vm, sc, x, o, q, a, s, ld) && Within(o, own) && ConfigOf(q1, a) == ConfigOf(q, a)
    ensures Lands(vm, sc, x, own, q1, a, s, ld) && a.next <= More(o, ld).next && Above(ld.l, sc.floor)
    ensures SameOutside(o, a.marks, ld.marks)
  {
    SameTrans(o, o, own, a.marks, a.marks, ld.marks);
  }

  lemma MoreAgrees(oa: Own, ob: Own, own: Own, m: map<nat, int>, marks: map<nat, int>, ld: Landing)
    requires Agree(m, marks) && SameOutside(ob, marks, ld.marks)
    requires MarksIn(oa, m) && oa.hi <= ob.lo && Within(oa, own) && Within(ob, own)
    ensures Agree(More(ob, ld).m + m, OwnMarks(own, ld.marks))
  {
    AgreeSurvives(oa, ob, m, marks, ld.marks);
    var own1 := OwnMarks(own, ld.marks);
    forall v | v in More(ob, ld).m + m ensures v in own1 && own1[v] == (More(ob, ld).m + m)[v] {
    }
  }

  lemma AdmitsFits(sc: Scope, p: Place, a: Around)
    requires Admits(sc, p, a)
    ensures Fits(sc, a) && Agree(p.m, a.marks) && p.next <= a.next
  {
  }

  lemma AdmitsParts(sc: Scope, oa: Own, ob: Own, own: Own, pa: Place, q: Place, a: Around)
    requires Admits(sc, q.(m := q.m + pa.m), a) && MarksIn(oa, pa.m) && MarksIn(ob, q.m) && Apart(sc, oa, ob, own)
    ensures Fits(sc, a) && q.next <= a.next && Admits(sc, q, a) && Agree(pa.m, a.marks)
  {
    AgreePart(oa, ob, q.m, pa.m, a.marks);
  }

  /** The answers `bs` of a piece of code, then the answers `more` that wait at `pa`, unless it cuts. */
  lemma {:induction false} AppendYields(vm: Vm, sc: Scope, x: Exit, oa: Own, ob: Own, own: Own, j: seq<Choice>,
        pa: Place, q: Place,
                                        bs: seq<Store>, bcut: bool, more: seq<Store>, cut: bool)
    requires pa.go.None? && pa.next <= q.next && MarksIn(oa, pa.m) && MarksIn(ob, q.m) && Above(q.l, sc.floor)
    requires Yields(vm, sc, x, own, j, pa, more, cut) && Apart(sc, oa, ob, own)
    requires Yields(vm, sc, x, ob, pa.l, q, bs, bcut)
    ensures Yields(vm, sc, x, own, j, q.(m := q.m + pa.m), if bcut then bs else bs + more, if bcut then true else cut)
    decreases |bs|, 2
  {
    hide *;
    var all, fin := if bcut then bs else bs + more, if bcut then true else cut;
    var q1 := q.(m := q.m + pa.m);
    forall a: Around | Admits(sc, q1, a) ensures Delivers(vm, sc, x, own, j, q1, all, fin, a) {
      AdmitsParts(sc, oa, ob, own, pa, q, a);
      YieldsAt(vm, sc, x, ob, pa.l, q, bs, bcut, a);
      AppendDelivers(vm, sc, x, oa, ob, own, j, pa, q, bs, bcut, more, cut, a);
    }
    YieldsAll(vm, sc, x, own, j, q1, all, fin);
  }

  lemma {:induction false} AppendDelivers(vm: Vm, sc: Scope, x: Exit, oa: Own, ob: Own, own: Own, j: seq<Choice>,
        pa: Place, q: Place,
                                          bs: seq<Store>, bcut: bool, more: seq<Store>, cut: bool, a: Around)
    requires pa.go.None? && pa.next <= q.next <= a.next && MarksIn(oa, pa.m) && Above(q.l, sc.floor)
    requires Yields(vm, sc, x, own, j, pa, more, cut) && Apart(sc, oa, ob, own)
    requires Delivers(vm, sc, x, ob, pa.l, q, bs, bcut, a) && Fits(sc, a) && Agree(pa.m, a.marks)
    ensures Delivers(vm, sc, x, own, j, q.(m := q.m + pa.m), if bcut then bs else bs + more, if bcut then true
            else cut, a)
    decreases |bs|, 1
  {
    hide Fits, Reaches, Yields, Delivers, Lands, Exhausts, SameOutside, Agree, MarksIn, Admits, Above;
    var q1 := q.(m := q.m + pa.m);
    if bs != [] {
      AppendFirst(vm, sc, x, oa, ob, own, j, pa, q, bs, bcut, more, cut, a);
    } else {
      var w := NoneDelivered(vm, sc, x, ob, pa.l, q, bcut, a);
      if bcut {
        CutExhausts(vm, ob, own, pa.l, j, q, q1, a, w);
        DeliversNone(vm, sc, x, own, j, q1, true, a, w);
      } else {
        var a1 := AfterBack(a, w);
        BackTo(vm, sc, oa, ob, own, pa, q, a, w);
        YieldsAt(vm, sc, x, own, j, pa, more, cut, a1);
        DeliversVia(vm, sc, x, own, own, j, q1, a, pa, a1, more, cut);
        assert [] + more == more;
      }
    }
  }

  /** The same, when the piece of code has an answer: only then need what is around fit `sc`. */
  lemma {:induction false} AppendFirst(vm: Vm, sc: Scope, x: Exit, oa: Own, ob: Own, own: Own, j: seq<Choice>,
        pa: Place, q: Place,
                                       bs: seq<Store>, bcut: bool, more: seq<Store>, cut: bool, a: Around)
    requires pa.go.None? && pa.next <= a.next && MarksIn(oa, pa.m) && bs != []
    requires Yields(vm, sc, x, own, j, pa, more, cut) && Apart(sc, oa, ob, own)
    requires Delivers(vm, sc, x, ob, pa.l, q, bs, bcut, a) && Agree(pa.m, a.marks)
    ensures Delivers(vm, sc, x, own, j, q.(m := q.m + pa.m), if bcut then bs else bs + more, if bcut then true
            else cut, a)
    decreases |bs|, 0
  {
    hide Fits, Reaches, Yields, Delivers, Lands, Exhausts, SameOutside, Agree, MarksIn, Above;
    var q1 := q.(m := q.m + pa.m);
    var ld := FirstDelivered(vm, sc, x, ob, pa.l, q, bs, bcut, a);
    OwnAgree(ob, ld.marks);
    LandsWider(vm, sc, x, ob, own, q, q1, a, bs[0], ld);
    AppendYields(vm, sc, x, oa, ob, own, j, pa, More(ob, ld), bs[1..], bcut, more, cut);
    var next := More(ob, ld).(m := More(ob, ld).m + pa.m);
    var all, fin := if bcut then bs else bs + more, if bcut then true else cut;
    assert all[1..] == if bcut then bs[1..] else bs[1..] + more;
    MoreAgrees(oa, ob, own, pa.m, a.marks, ld);
    Widen(vm, sc, x, own, own, j, next, OwnMarks(own, ld.marks), all[1..], fin);
    DeliversFirst(vm, sc, x, own, j, q1, all, fin, a, ld);
  }

  // ----- one piece of code on every answer of another -----

  /** The place where `b` starts on an answer of the first piece of code. */
  lemma EntryAfter(vm: Vm, sc: Scope, xa: Exit, oa: Own, own: Own, p: Place, a: Around, s: Store, ld: Landing)
    requires Lands(vm, sc, xa, oa, p, a, s, ld) && !xa.dep && Fits(sc, a) && ScopeBefore(sc, own.lo) && Within(oa, own)
    requires Above(p.l, sc.floor)
    ensures var q := Entry(vm, xa.pc, xa.used, s, ld.l, ld.next);
            && Above(ld.l, sc.floor) && Top(ld.l) < ld.next && Reaches(vm, ConfigOf(p, a), ConfigOf(q, After(a, ld)))
            && Fits(sc, After(a, ld)) && SameOutside(own, a.marks, ld.marks) && a.next <= ld.next
  {
    var q := Entry(vm, xa.pc, xa.used, s, ld.l, ld.next);
    StaysUnlinked(vm, sc, a, p.l, ConfigOf(p, a), ConfigOf(q, After(a, ld)));
    FitsAfter(sc, oa, own, a, After(a, ld));
  }

  /** Running `b` at `xa` on every answer of the first piece of code. */
  lemma {:induction false} EachYields(vm: Vm, sc: Scope, xa: Exit, x: Exit, oa: Own, ob: Own, own: Own,
        j: seq<Choice>, p: Place,
                                      stores: seq<Store>, cut: bool, b: Body)
    requires Yields(vm, sc, xa, oa, j, p, stores, cut) && !xa.dep && Above(p.l, sc.floor)
    requires Behaves(vm, sc, sc, x, ob, xa.pc, xa.used, b) && Apart(sc, oa, ob, own)
    ensures var sol := SolveEach(vm.p, vm.env, b, stores, cut); Yields(vm, sc, x, own, j, p, sol.answers, sol.cut)
    decreases |stores|, 2
  {
    hide *;
    var sol := SolveEach(vm.p, vm.env, b, stores, cut);
    forall a: Around | Admits(sc, p, a) ensures Delivers(vm, sc, x, own, j, p, sol.answers, sol.cut, a) {
      AdmitsFits(sc, p, a);
      YieldsAt(vm, sc, xa, oa, j, p, stores, cut, a);
      EachDelivers(vm, sc, xa, x, oa, ob, own, j, p, stores, cut, b, a);
    }
    YieldsAll(vm, sc, x, own, j, p, sol.answers, sol.cut);
  }

  lemma {:induction false} EachDelivers(vm: Vm, sc: Scope, xa: Exit, x: Exit, oa: Own, ob: Own, own: Own,
        j: seq<Choice>, p: Place,
                                        stores: seq<Store>, cut: bool, b: Body, a: Around)
    requires Delivers(vm, sc, xa, oa, j, p, stores, cut, a) && !xa.dep && Fits(sc, a) && Above(p.l, sc.floor)
    requires Behaves(vm, sc, sc, x, ob, xa.pc, xa.used, b) && Apart(sc, oa, ob, own)
    ensures var sol := SolveEach(vm.p, vm.env, b, stores, cut); Delivers(vm, sc, x, own, j, p, sol.answers, sol.cut, a)
    decreases |stores|, 1
  {
    hide Fits, Reaches, Yields, Delivers, Lands, Exhausts, SameOutside, Admits, Above, SolveEach, Behaves;
    var sol := SolveEach(vm.p, vm.env, b, stores, cut);
    if stores == [] {
      NoStores(vm, b, cut);
      var w := NoneDelivered(vm, sc, xa, oa, j, p, cut, a);
      ExhaustsWider(vm, oa, own, j, p, a, cut, w);
      DeliversNone(vm, sc, x, own, j, p, cut, a, w);
    } else {
      var s := stores[0];
      var ld := FirstDelivered(vm, sc, xa, oa, j, p, stores, cut, a);
      EntryAfter(vm, sc, xa, oa, own, p, a, s, ld);
      EachFrom(vm, sc, xa, x, oa, ob, own, j, ld, s, stores[1..], cut, b, After(a, ld));
      assert [s] + stores[1..] == stores;
      DeliversVia(vm, sc, x, own, own, j, p, a, EntryMore(vm, xa, oa, s, ld), After(a, ld), sol.answers, sol.cut);
    }
  }

  /** The entry of the second piece of code, on an answer of the first. */
  function EntryMore(vm: Vm, xa: Exit, oa: Own, s: Store, ld: Landing): Place {
    Entry(vm, xa.pc, xa.used, s, ld.l, ld.next).(m := OwnMarks(oa, ld.marks))
  }

  /** The same from the moment the first piece of code has given an answer. */
  lemma {:induction false} EachFrom(vm: Vm, sc: Scope, xa: Exit, x: Exit, oa: Own, ob: Own, own: Own, j: seq<Choice>,
        ld: Landing,
                                    s: Store, stores: seq<Store>, cut: bool, b: Body, a: Around)
    requires Yields(vm, sc, xa, oa, j, More(oa, ld), stores, cut) && !xa.dep && Fits(sc, a)
    requires Above(ld.l, sc.floor) && Top(ld.l) < ld.next == a.next && a.marks == ld.marks
    requires Behaves(vm, sc, sc, x, ob, xa.pc, xa.used, b) && Apart(sc, oa, ob, own)
    ensures var sol := SolveEach(vm.p, vm.env, b, [s] + stores, cut);
            Delivers(vm, sc, x, own, j, EntryMore(vm, xa, oa, s, ld), sol.answers, sol.cut, a)
    decreases |stores|, 3
  {
    hide Fits, Reaches, Yields, Delivers, Lands, Exhausts, SameOutside, Admits, Above, SolveEach, Behaves;
    var q, here := Entry(vm, xa.pc, xa.used, s, ld.l, ld.next), Solve(vm.p, vm.env, b, s);
    var rest := SolveEach(vm.p, vm.env, b, stores, cut);
    PartRuns(vm, sc, sc, x, ob, xa.pc, xa.used, b, s, ld.l, a);
    OwnAgree(oa, ld.marks);
    EachYields(vm, sc, xa, x, oa, ob, own, j, More(oa, ld), stores, cut, b);
    AppendDelivers(vm, sc, x, oa, ob, own, j, More(oa, ld), q, here.answers, here.cut, rest.answers, rest.cut, a);
    assert map[] + OwnMarks(oa, ld.marks) == OwnMarks(oa, ld.marks);
    OneMoreStore(vm, b, s, stores, cut);
  }

  lemma NoStores(vm: Vm, b: Body, cut: bool)
    ensures SolveEach(vm.p, vm.env, b, [], cut) == Solution([], cut)
  {
  }

  lemma OneMoreStore(vm: Vm, b: Body, s: Store, stores: seq<Store>, cut: bool)
    ensures var here, rest := Solve(vm.p, vm.env, b, s), SolveEach(vm.p, vm.env, b, stores, cut);
            SolveEach(vm.p, vm.env, b, [s] + stores, cut) ==
            Solution(if here.cut then here.answers else here.answers + rest.answers, if here.cut then true
                else rest.cut)
  {
    assert ([s] + stores)[1..] == stores;
  }

  /** Running `b`, every success of which cuts, on the answers of the first piece of code: what that code
      would do after an answer of `b` does not matter. */
  lemma {:induction false} EachUntilCut(vm: Vm, sc: Scope, rest: Scope, xa: Exit, x: Exit, oa: Own, ob: Own,
        own: Own, j: seq<Choice>, p: Place,
                                        stores: seq<Store>, cut: bool, b: Body, a: Around)
    requires Delivers(vm, sc, xa, oa, j, p, stores, cut, a) && !xa.dep && Fits(sc, a) && Above(p.l, sc.floor)
             && Rests(sc, rest)
    requires Behaves(vm, sc, rest, x, ob, xa.pc, xa.used, b) && Apart(sc, oa, ob, own) && AlwaysCuts(b)
    ensures var sol := SolveEach(vm.p, vm.env, b, stores, cut);
            Delivers(vm, rest, x, own, j, p, sol.answers, sol.cut, a)
    decreases |stores|
  {
    hide Fits, Reaches, Yields, Delivers, Lands, Exhausts, SameOutside, Admits, Above, SolveEach, Behaves,
        AlwaysCuts, Agree, MarksIn;
    var sol := SolveEach(vm.p, vm.env, b, stores, cut);
    if stores == [] {
      NoStores(vm, b, cut);
      var w := NoneDelivered(vm, sc, xa, oa, j, p, cut, a);
      ExhaustsWider(vm, oa, own, j, p, a, cut, w);
      DeliversNone(vm, rest, x, own, j, p, cut, a, w);
    } else {
      var s := stores[0];
      var ld := FirstDelivered(vm, sc, xa, oa, j, p, stores, cut, a);
      EntryAfter(vm, sc, xa, oa, own, p, a, s, ld);
      var q, q1, a1, pa := Entry(vm, xa.pc, xa.used, s, ld.l, ld.next), EntryMore(vm, xa, oa, s, ld), After(a, ld),
          More(oa, ld);
      var here := Solve(vm.p, vm.env, b, s);
      PartRuns(vm, sc, rest, x, ob, xa.pc, xa.used, b, s, ld.l, a1);
      OneMoreStore(vm, b, s, stores[1..], cut);
      assert [s] + stores[1..] == stores;
      if here.answers != [] {
        CutWithAnswer(vm.p, vm.env, b, s);
        CutJ(vm, rest, x, ob, ld.l, j, q, here.answers, a1);
        DeliversVia(vm, rest, x, own, ob, j, p, a, q, a1, here.answers, true);
      } else {
        var w := NoneDelivered(vm, rest, x, ob, ld.l, q, here.cut, a1);
        if here.cut {
          CutExhausts(vm, ob, own, ld.l, j, q, q, a1, w);
          DeliversNone(vm, rest, x, own, j, q, true, a1, w);
          DeliversVia(vm, rest, x, own, own, j, p, a, q, a1, [], true);
        } else {
          NextStore(vm, sc, xa, oa, ob, own, j, p, q, stores[1..], cut, a, s, ld, w);
          var a2 := AfterBack(a1, w);
          EachUntilCut(vm, sc, rest, xa, x, oa, ob, own, j, pa, stores[1..], cut, b, a2);
          var others := SolveEach(vm.p, vm.env, b, stores[1..], cut);
          assert [] + others.answers == others.answers;
          DeliversVia(vm, rest, x, own, own, j, p, a, pa, a2, sol.answers, sol.cut);
        }
      }
    }
  }

  /** The second piece of code has failed on an answer of the first, which is asked for another. */
  lemma NextStore(vm: Vm, sc: Scope, xa: Exit, oa: Own, ob: Own, own: Own, j: seq<Choice>, p: Place, q: Place,
        stores: seq<Store>, cut: bool,
                  a: Around, s: Store, ld: Landing, w: World)
    requires Lands(vm, sc, xa, oa, p, a, s, ld) && !xa.dep && Fits(sc, a) && Above(p.l, sc.floor)
             && Apart(sc, oa, ob, own)
    requires q == Entry(vm, xa.pc, xa.used, s, ld.l, ld.next) && Exhausts(vm, ob, ld.l, q, After(a, ld), false, w)
    requires Yields(vm, sc, xa, oa, j, More(oa, ld), stores, cut)
    ensures var a2 := AfterBack(After(a, ld), w);
            && Delivers(vm, sc, xa, oa, j, More(oa, ld), stores, cut, a2) && Fits(sc, a2) && Above(ld.l, sc.floor)
            && Reaches(vm, ConfigOf(p, a), ConfigOf(More(oa, ld), a2)) && SameOutside(own, a.marks, a2.marks)
                && a.next <= a2.next
  {
    hide Fits, Reaches, Yields, Delivers, Lands, Exhausts, SameOutside, Admits, Above, Agree, MarksIn;
    var pa, a1 := More(oa, ld), After(a, ld);
    var a2 := AfterBack(a1, w);
    EntryAfter(vm, sc, xa, oa, own, p, a, s, ld);
    OwnAgree(oa, ld.marks);
    BackTo(vm, sc, oa, ob, own, pa, q, a1, w);
    YieldsAt(vm, sc, xa, oa, j, pa, stores, cut, a2);
    assert map[] + pa.m == pa.m;
    SameTrans(own, own, own, a.marks, a1.marks, a2.marks);
    ReachesTrans(vm, ConfigOf(p, a), ConfigOf(q, a1), ConfigOf(pa, a2));
  }
}
