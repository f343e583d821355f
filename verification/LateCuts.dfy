// Exactly when a late `!` goes wrong.  The bodies are
//
//   ( (g, (h ; !)) *-> t ; e ) *-> t2 ; e2
//
// with a plain goal g and a condition h without `!`.  Their `!` may run after the choice point it relies on
// has been unlinked; it then does nothing.

module LateCuts {
  import opened Terms
  import opened VmCode
  import opened CodeGen
  import opened Search
  import opened Machine
  import opened Execution
  import opened Chains
  import opened Answers
  import opened Composition
  import opened ControlSteps
  import opened GoalRuns
  import opened Control
  import opened Conditions
  import opened SoftConditions

  datatype Nest = Nest(f: Name, ts: seq<Term>, h: Body, t: Body, e: Body, t2: Body, e2: Body)

  function Gate(n: Nest, last: Body): Body {
    Conj(Goal(n.f, n.ts), Disj(n.h, last))
  }

  function Inner(n: Nest, last: Body): Body {
    Disj(SoftIfThen(Gate(n, last), n.t), n.e)
  }

  /** The body, with `last` in the place of `!`. */
  function Whole(n: Nest, last: Body): Body {
    Disj(SoftIfThen(Inner(n, last), n.t2), n.e2)
  }

  /** h has no `!`, and is no condition itself. */
  predicate PlainH(n: Nest) {
    !CutsIn(n.h) && !n.h.IfThen? && !n.h.SoftIfThen?
  }

  /** The answers of g. */
  function Found(vm: Vm, n: Nest, s: Store): seq<Store> {
    Solve(vm.p, vm.env, Goal(n.f, n.ts), s).answers
  }

  function Tried(vm: Vm, n: Nest, stores: seq<Store>): Solution {
    SolveEach(vm.p, vm.env, Disj(n.h, True), stores, false)
  }

  /** The `!` runs late: g has a second answer, and t an answer on an answer of h on the first answer of g. */
  predicate Late(vm: Vm, n: Nest, s: Store) {
    var found := Found(vm, n, s);
    |found| > 1 && SolveEach(vm.p, vm.env, n.t, Solve(vm.p, vm.env, n.h, found[0]).answers, false).answers != []
  }

  // ----- the answers the code gives -----

  lemma {:induction false} EachJoin(p: Program, env: nat -> Term, b: Body, xs: seq<Store>, ys: seq<Store>, cut: bool)
    ensures var first, second := SolveEach(p, env, b, xs, false), SolveEach(p, env, b, ys, cut);
            SolveEach(p, env, b, xs + ys, cut) ==
            if first.cut then first else Solution(first.answers + second.answers, second.cut)
    decreases |xs|
  {
    var second := SolveEach(p, env, b, ys, cut);
    if xs == [] {
      assert xs + ys == ys && [] + second.answers == second.answers;
    } else {
      var here, rest := Solve(p, env, b, xs[0]), SolveEach(p, env, b, xs[1..], false);
      assert (xs + ys)[1..] == xs[1..] + ys;
      EachJoin(p, env, b, xs[1..], ys, cut);
      assert here.answers + (rest.answers + second.answers) == here.answers + rest.answers + second.answers;
    }
  }

  lemma EachOne(p: Program, env: nat -> Term, b: Body, s: Store)
    ensures SolveEach(p, env, b, [s], false) == Solve(p, env, b, s)
  {
    var here := Solve(p, env, b, s);
    assert [s][1..] == [] && here.answers + [] == here.answers;
  }

  /** On an answer of g: the answers of h, then the store itself. */
  lemma TryOne(vm: Vm, n: Nest, s: Store, last: Body)
    requires PlainH(n) && (last == True || last == Cut)
    ensures !Solve(vm.p, vm.env, n.h, s).cut
    ensures Solve(vm.p, vm.env, Disj(n.h, last), s) == Solution(Solve(vm.p, vm.env, n.h, s).answers + [s], last.Cut?)
  {
    NoCut(vm.p, vm.env, n.h, s);
    if last == True {
      assert Solve(vm.p, vm.env, True, s) == Solution([s], false);
    } else {
      assert Solve(vm.p, vm.env, Cut, s) == Solution([s], true);
    }
  }

  lemma TryMore(vm: Vm, n: Nest, s: Store, stores: seq<Store>)
    requires PlainH(n)
    ensures Tried(vm, n, [s] + stores) ==
            Solution(Solve(vm.p, vm.env, n.h, s).answers + [s] + Tried(vm, n, stores).answers, false)
    ensures !Tried(vm, n, stores).cut
  {
    hide Solve, SolveEach;
    TryOne(vm, n, s, True);
    OneMoreStore(vm, Disj(n.h, True), s, stores, false);
    assert !CutsIn(Disj(n.h, True));
    NoCutEach(vm.p, vm.env, Disj(n.h, True), stores, false);
  }

  // ----- where the code is -----

  /** Slot and addresses of the inner conditional: the exit of g, the late `!`, the exit of the condition and
      its exit behind C_SOFTCUT, and the slots of the condition. */
  datatype Spot = Spot(v: nat, xg: Exit, pcut: nat, xi: Exit, own: Own)

  function Past(k: Spot): Exit {
    Committed(k.xi, C_SOFTCUT, k.v)
  }

  /** A scope that knows nothing but how old its own choice points are. */
  function Free(floor: nat): Scope {
    Scope(NoScope, None, floor)
  }

  ghost predicate Sits(vm: Vm, n: Nest, k: Spot) {
    && k.v < k.own.lo <= k.own.hi && !k.xi.dep && k.xg.pc + 2 <= k.pcut
    && At(vm.code, k.xg.pc, [Ins(C_OR), Num(k.pcut - k.xg.pc - 2)])
    && At(vm.code, k.pcut, [Ins(C_LSCUT), Num(k.v)])
    && LeadsTo(vm, Exit(k.pcut + 2, k.xg.used, false), k.xi)
    && At(vm.code, k.xi.pc, [Ins(C_SOFTCUT), Num(k.v)])
    && (forall floor: nat :: Behaves(vm, Free(floor), Free(floor), k.xi, k.own, k.xg.pc + 2, k.xg.used, n.h))
  }

  // ----- the late cut -----

  /** The scope of the inner condition when choice point `top`, below its own, has been unlinked. */
  function Spoilt(k: Spot, floor: nat, top: nat): Scope {
    Scope(Spent(k.v), None, floor, Some(top))
  }

  lemma GoneFromChain(a: Around, l: seq<Choice>, floor: nat, top: nat)
    requires Sorted(a.kc) && a.kc != [] && Top(a.kc) < top <= floor && Above(l, floor)
    ensures Sorted(a.kc + l) && Find(a.kc + l, top) == |a.kc + l|
  {
    SortedJoin(a.kc, l, floor);
    assert forall i :: 0 <= i < |a.kc| - 1 ==> a.kc[i].addr < a.kc[|a.kc| - 1].addr;
    NotFound(a.kc + l, top);
  }

  lemma {:induction false} NotFound(chain: seq<Choice>, a: nat)
    requires forall i :: 0 <= i < |chain| ==> chain[i].addr != a
    ensures Find(chain, a) == |chain|
    decreases |chain|
  {
    if chain != [] { NotFound(chain[..|chain| - 1], a); }
  }

  /** A late `!` keeps what a single goal left: it does nothing. */
  lemma StepLateCut(vm: Vm, k: Spot, floor: nat, top: nat, used: set<nat>, s: Store, a: Around, l: seq<Choice>)
    requires Fits(Spoilt(k, floor, top), a) && Above(l, floor) && |l| <= 1
             && At(vm.code, k.pcut, [Ins(C_LSCUT), Num(k.v)])
    ensures Step(vm, Plain(k.pcut, vm, used, s, WorldOf(a, l))) == Plain(k.pcut + 2, vm, used, s, WorldOf(a, l))
  {
    hide Step, At, FrameOf, ParentOf, LocalCutTo, CutTo;
    var w, m := WorldOf(a, l), |a.kc|;
    GoneFromChain(a, l, floor, top);
    ParentOfGone(w, top);
    LateCommit(a, l, floor);
    StepLateIs(vm, k, used, s, w, top, Top(a.kc));
  }

  lemma ParentOfGone(w: World, top: nat)
    requires Find(w.chain, top) == |w.chain| && top in w.dead
    ensures ParentOf(w, top) == w.dead[top]
  {
    hide Find;
  }

  /** Looking for the choice point on top of the older ones finds the only one there is, or none. */
  lemma LateCommit(a: Around, l: seq<Choice>, floor: nat)
    requires Sorted(a.kc) && a.kc != [] && Top(a.kc) <= floor && Above(l, floor) && |l| <= 1
    ensures l == [] ==> LocalCutTo(a.kc + l, Top(a.kc)).None? && Top(a.kc + l) == Top(a.kc)
    ensures l != [] ==> LocalCutTo(a.kc + l, Top(a.kc)) == Some(a.kc + l)
  {
    SortedJoin(a.kc, l, floor);
    if l == [] {
      assert a.kc + l == a.kc;
      NoParent(a.kc, |a.kc|);
      assert a.kc[..|a.kc|] == a.kc;
    } else {
      assert (a.kc + l)[..|a.kc + l| - 1] == a.kc;
      LocalCutKeeps(a.kc + l, |a.kc + l|);
      assert (a.kc + l)[..|a.kc + l|] == a.kc + l;
    }
  }

  /** No choice point has the newest one as its parent. */
  lemma {:induction false} NoParent(chain: seq<Choice>, n: nat)
    requires Sorted(chain) && n <= |chain| && chain != []
    ensures LocalCutTo(chain[..n], Top(chain)).None?
    decreases n
  {
    if n > 0 {
      var init := chain[..n];
      assert init[..|init| - 1] == chain[..n - 1];
      if n > 1 {
        assert chain[n - 2].addr < chain[|chain| - 1].addr;
        assert Top(chain[..n - 1]) == chain[n - 2].addr;
      } else {
        assert Top(chain[..n - 1]) == 0 < Top(chain);
      }
      NoParent(chain, n - 1);
    }
  }

  lemma StepLateIs(vm: Vm, k: Spot, used: set<nat>, s: Store, w: World, top: nat, och: nat)
    requires At(vm.code, k.pcut, [Ins(C_LSCUT), Num(k.v)]) && k.v in w.marks && w.marks[k.v] == 0 - top
             && ParentOf(w, top) == och
    requires LocalCutTo(w.chain, och) == Some(w.chain) || (LocalCutTo(w.chain, och).None? && Top(w.chain) == och)
    ensures Step(vm, Plain(k.pcut, vm, used, s, w)) == Plain(k.pcut + 2, vm, used, s, w)
  {
    hide Step, At, Instr, NumAt, FrameOf, ParentOf, LocalCutTo, StepArg, StepCall, StepMove, StepBranch, StepInit,
        CutTo, SoftCut, Find;
    InstrIs(C_LSCUT, k.v, 0);
    FetchNums(vm, k.pcut, C_LSCUT, [k.v]);
    StepIs(vm, Plain(k.pcut, vm, used, s, w), C_LSCUT);
  }

  // ----- the inner condition, when its `!` is late -----

  lemma HBehaves(vm: Vm, n: Nest, k: Spot, floor: nat)
    requires Sits(vm, n, k)
    ensures Behaves(vm, Free(floor), Free(floor), k.xi, k.own, k.xg.pc + 2, k.xg.used, n.h)
  {
    hide Behaves, At, LeadsTo;
  }

  lemma SpoiltIsFree(k: Spot, floor: nat, top: nat)
    ensures Narrower(Spoilt(k, floor, top), Free(floor)) && Spoilt(k, floor, top).floor == floor == Free(floor).floor
  {
  }

  lemma SpoiltApart(vm: Vm, n: Nest, k: Spot, floor: nat, top: nat)
    requires Sits(vm, n, k)
    ensures ScopeBefore(Spoilt(k, floor, top), k.own.lo) && Apart(Spoilt(k, floor, top), Nothing(k.own), k.own, k.own)
  {
    hide Behaves, At, LeadsTo;
  }

  /** The second alternative of the inner condition gives the store itself, and cuts nothing. */
  lemma LateJump(vm: Vm, n: Nest, k: Spot, floor: nat, top: nat, l: seq<Choice>, ch: Choice, s: Store)
    requires Sits(vm, n, k) && |l| <= 1 && Above(l, floor) && Top(l) < ch.addr && floor < ch.addr
    requires ch.alt == Jump(k.pcut, FrameOf(vm.env, k.xg.used), s)
    ensures Yields(vm, Spoilt(k, floor, top), k.xi, k.own, l, Place(None, l + [ch], map[], ch.addr + 1), [s], false)
  {
    hide Step, Steps, Reaches, FrameOf, Fits, Delivers, At, LeadsTo, Behaves, Spoilt, Above;
    var sc, p, used := Spoilt(k, floor, top), Place(None, l + [ch], map[], ch.addr + 1), k.xg.used;
    SpoiltIsFree(k, floor, top);
    forall a: Around | Admits(sc, p, a) ensures Delivers(vm, sc, k.xi, k.own, l, p, [s], false, a) {
      var w := WorldOf(a, p.l);
      assert w.chain == a.kc + l + [ch];
      var c1, c2, c3 := Plain(k.pcut, vm, used, s, WorldOf(a, l)), Plain(k.pcut + 2, vm, used, s, WorldOf(a, l)),
                        Plain(k.xi.pc, vm, k.xi.used, s, WorldOf(a, l));
      StepBackJump(vm, w, a.kc + l, ch.addr, k.pcut, used, s);
      StepLateCut(vm, k, floor, top, used, s, a, l);
      LeadsApply(vm, Exit(k.pcut + 2, used, false), k.xi, s, WorldOf(a, l));
      ReachesVia(vm, c1, c3);
      ReachesVia(vm, Back(w), c3);
      SameSelf(k.own, a.marks);
      FoundOne(vm, sc, sc, k.xi, k.own, l, p, a, a, s);
    }
    YieldsAll(vm, sc, k.xi, k.own, l, p, [s], false);
  }

  /** On an answer of g, above at most what g left: the answers of h, then the store itself. */
  lemma TryDelivers(vm: Vm, n: Nest, k: Spot, floor: nat, top: nat, s: Store, l: seq<Choice>, a: Around)
    requires Sits(vm, n, k) && |l| <= 1 && Above(l, floor) && Top(l) < a.next && Fits(Spoilt(k, floor, top), a)
    requires !Solve(vm.p, vm.env, n.h, s).cut
    ensures Delivers(vm, Spoilt(k, floor, top), k.xi, k.own, l, Entry(vm, k.xg.pc, k.xg.used, s, l, a.next),
                     Solve(vm.p, vm.env, n.h, s).answers + [s], false, a)
  {
    hide Step, Steps, Reaches, FrameOf, Fits, Delivers, Yields, At, LeadsTo, Behaves, Spoilt, Above, Solve, Narrower,
        Apart;
    var sc, pc, used := Spoilt(k, floor, top), k.xg.pc, k.xg.used;
    SpoiltIsFree(k, floor, top);
    SpoiltApart(vm, n, k, floor, top);
    HBehaves(vm, n, k, floor);
    FitsFacts(sc, a);
    var c, hs := Plain(pc, vm, used, s, WorldOf(a, l)), Solve(vm.p, vm.env, n.h, s).answers;
    var ch := Choice(a.next, Jump(k.pcut, FrameOf(vm.env, used), s));
    var l1, a1 := l + [ch], a.(next := a.next + 1);
    StepOr(vm, pc, used, s, WorldOf(a, l), k.pcut - pc - 2);
    ReachesStep(vm, c);
    assert a.kc + l + [ch] == a.kc + l1;
    AbovePush(l, floor, ch.addr, ch.alt);
    FitsNext(sc, a);
    NarrowFits(sc, Free(floor), a1);
    PartRuns(vm, Free(floor), Free(floor), k.xi, k.own, pc + 2, used, n.h, s, l1, a1);
    var q, pa := Entry(vm, pc + 2, used, s, l1, a1.next), Place(None, l1, map[], ch.addr + 1);
    NarrowDelivers(vm, Free(floor), sc, k.xi, k.own, l1, q, hs, false, a1);
    LateJump(vm, n, k, floor, top, l, ch, s);
    NoMarks(Nothing(k.own), a1.marks);
    AppendDelivers(vm, sc, k.xi, Nothing(k.own), k.own, k.own, l, pa, q, hs, false, [s], false, a1);
    assert map[] + pa.m == q.m;
    SameSelf(k.own, a.marks);
    DeliversVia(vm, sc, k.xi, k.own, k.own, l, Entry(vm, pc, used, s, l, a.next), a, q, a1, hs + [s], false);
  }

  lemma NarrowFits(narrow: Scope, sc: Scope, a: Around)
    requires Narrower(narrow, sc) && Fits(narrow, a)
    ensures Fits(sc, a)
  {
    hide Fits;
  }

  /** What a call leaves for its further answers. */
  function Left(vm: Vm, k: Spot, addr: nat, rest: seq<Store>): seq<Choice> {
    if rest == [] then [] else [Choice(addr, Redo(k.xg.pc, FrameOf(vm.env, k.xg.used), rest))]
  }

  /** The address is newer than the scope and older than what comes next, if it is used. */
  predicate Between(floor: nat, addr: nat, rest: seq<Store>, next: nat) {
    floor < next && (rest != [] ==> floor < addr < next)
  }

  lemma LeftAbove(vm: Vm, k: Spot, addr: nat, rest: seq<Store>, floor: nat, next: nat)
    requires Between(floor, addr, rest, next)
    ensures |Left(vm, k, addr, rest)| <= 1 && Above(Left(vm, k, addr, rest), floor)
            && Top(Left(vm, k, addr, rest)) < next
  {
  }

  /** The further answers of g, each tried without a `!`. */
  lemma {:induction false} TriedYields(vm: Vm, n: Nest, k: Spot, floor: nat, top: nat, addr: nat, rest: seq<Store>,
        next: nat)
    requires Sits(vm, n, k) && Between(floor, addr, rest, next) && PlainH(n)
    ensures Yields(vm, Spoilt(k, floor, top), k.xi, k.own, [], Place(None, Left(vm, k, addr, rest), map[], next),
            Tried(vm, n, rest).answers, false)
    decreases |rest|
  {
    hide Delivers, Fits, Spoilt, Above, Solve, SolveEach, Reaches, FrameOf, Step, Steps, Sits;
    var sc, l := Spoilt(k, floor, top), Left(vm, k, addr, rest);
    var p := Place(None, l, map[], next);
    if rest == [] {
      NoStores(vm, Disj(n.h, True), false);
      ExhaustedYields(vm, sc, k.xi, k.own, [], map[], next);
    } else {
      assert [rest[0]] + rest[1..] == rest;
      TryMore(vm, n, rest[0], rest[1..]);
      forall a: Around | Admits(sc, p, a)
          ensures Delivers(vm, sc, k.xi, k.own, [], p, Tried(vm, n, rest).answers, false, a) {
        TriedDelivers(vm, n, k, floor, top, addr, rest, next, a);
      }
      YieldsAll(vm, sc, k.xi, k.own, [], p, Tried(vm, n, rest).answers, false);
    }
  }

  lemma {:induction false} TriedDelivers(vm: Vm, n: Nest, k: Spot, floor: nat, top: nat, addr: nat, rest: seq<Store>,
        next: nat, a: Around)
    requires Sits(vm, n, k) && Between(floor, addr, rest, next) && PlainH(n) && rest != []
    requires Admits(Spoilt(k, floor, top), Place(None, Left(vm, k, addr, rest), map[], next), a)
    ensures Delivers(vm, Spoilt(k, floor, top), k.xi, k.own, [], Place(None, Left(vm, k, addr, rest), map[], next),
                     Tried(vm, n, rest).answers, false, a)
    decreases |rest|, 0
  {
    hide Delivers, Yields, Fits, Spoilt, Above, Solve, SolveEach, Reaches, FrameOf, Step, Steps, Sits, Left, Apart,
        Tried;
    var sc, l, left := Spoilt(k, floor, top), Left(vm, k, addr, rest), Left(vm, k, addr, rest[1..]);
    var s, p := rest[0], Place(None, l, map[], next);
    SpoiltIsFree(k, floor, top);
    SpoiltApart(vm, n, k, floor, top);
    LeftAbove(vm, k, addr, rest[1..], floor, next);
    AdmitsFits(sc, p, a);
    assert [s] + rest[1..] == rest;
    TryMore(vm, n, s, rest[1..]);
    TryOne(vm, n, s, True);
    RedoStep(vm, k, addr, rest, a);
    TryDelivers(vm, n, k, floor, top, s, left, a);
    TriedYields(vm, n, k, floor, top, addr, rest[1..], a.next);
    var q, pa := Entry(vm, k.xg.pc, k.xg.used, s, left, a.next), Place(None, left, map[], a.next);
    var hs, more := Solve(vm.p, vm.env, n.h, s).answers + [s], Tried(vm, n, rest[1..]).answers;
    NoMarks(Nothing(k.own), a.marks);
    AppendDelivers(vm, sc, k.xi, Nothing(k.own), k.own, k.own, [], pa, q, hs, false, more, false, a);
    assert map[] + pa.m == q.m;
    SameSelf(k.own, a.marks);
    DeliversVia(vm, sc, k.xi, k.own, k.own, [], p, a, q, a, hs + more, false);
  }

  lemma RedoStep(vm: Vm, k: Spot, addr: nat, rest: seq<Store>, a: Around)
    requires rest != []
    ensures Reaches(vm, Back(WorldOf(a, Left(vm, k, addr, rest))),
                    Plain(k.xg.pc, vm, k.xg.used, rest[0], WorldOf(a, Left(vm, k, addr, rest[1..]))))
  {
    hide Reaches, FrameOf;
    var w := WorldOf(a, Left(vm, k, addr, rest));
    assert w.chain[..|w.chain| - 1] == a.kc;
    ReachesStep(vm, Back(w));
    if |rest| == 1 { assert rest[1..] == []; }
  }

  /** While h gives its answers `hs` on the answer `s` of g: these, then `s`, then the further answers of g. */
  lemma LateYields(vm: Vm, n: Nest, k: Spot, floor: nat, top: nat, addr: nat, rest: seq<Store>, ch: Choice, s: Store,
        q: Place, hs: seq<Store>)
    requires Sits(vm, n, k) && Between(floor, addr, rest, ch.addr) && ch.addr < q.next && PlainH(n)
    requires ch.alt == Jump(k.pcut, FrameOf(vm.env, k.xg.used), s) && MarksIn(k.own, q.m) && Above(q.l, floor)
    requires Yields(vm, Free(floor), k.xi, k.own, Left(vm, k, addr, rest) + [ch], q, hs, false)
    ensures Yields(vm, Spoilt(k, floor, top), k.xi, k.own, [], q, hs + ([s] + Tried(vm, n, rest).answers), false)
  {
    hide Yields, Fits, Spoilt, Above, Solve, SolveEach, FrameOf, Sits, Left, Apart, Tried, Narrower;
    var sc, l, more := Spoilt(k, floor, top), Left(vm, k, addr, rest), Tried(vm, n, rest).answers;
    var pl, pa, none := Place(None, l, map[], ch.addr + 1), Place(None, l + [ch], map[], ch.addr + 1), Nothing(k.own);
    SpoiltIsFree(k, floor, top);
    SpoiltApart(vm, n, k, floor, top);
    LeftAbove(vm, k, addr, rest, floor, ch.addr);
    AbovePush(l, floor, ch.addr, ch.alt);
    NoMarks(none, map[]);
    NoMarks(k.own, map[]);
    TriedYields(vm, n, k, floor, top, addr, rest, ch.addr + 1);
    LateJump(vm, n, k, floor, top, l, ch, s);
    AppendYields(vm, sc, k.xi, none, k.own, k.own, [], pl, pa, [s], false, more, false);
    assert pa.m + pl.m == pa.m && q.m + pa.m == q.m;
    NarrowYields(vm, Free(floor), sc, k.xi, k.own, l + [ch], q, hs, false);
    AppendYields(vm, sc, k.xi, none, k.own, k.own, [], pa, q, hs, false, [s] + more, false);
  }

  // ----- from the inner condition to t: the `!` becomes late with the first answer of t -----

  /** The inner conditional at work on the answer `s` of g: the scope around it, whose newest older choice
      point is `top` until t has an answer; the address C_SOFTIF used; what leads on behind t; what g and
      C_OR left for backtracking. */
  datatype Work = Work(sc: Scope, top: nat, floor: nat, x: Exit, ot: Own, own: Own, addr: nat, rest: seq<Store>,
        ch: Choice, s: Store)

  function Taken(k: Spot): Own {
    Own(k.v, k.own.hi)
  }

  ghost predicate Works(vm: Vm, n: Nest, k: Spot, r: Work) {
    && Sits(vm, n, k) && PlainH(n)
    && r.sc.pin.None? && r.sc.stale.None? && !r.sc.kind.Spent? && r.top <= r.sc.floor <= r.floor
        && Between(r.floor, r.addr, r.rest, r.ch.addr)
    && r.ch.alt == Jump(k.pcut, FrameOf(vm.env, k.xg.used), r.s)
    && Behaves(vm, r.sc, r.sc, r.x, r.ot, Past(k).pc, Past(k).used, n.t)
    && Apart(r.sc, Taken(k), r.ot, r.own)
  }

  /** The scope around once t has had an answer. */
  function Once(r: Work): Scope {
    r.sc.(stale := Some(r.top))
  }

  function Waiting(vm: Vm, k: Spot, r: Work): seq<Choice> {
    Left(vm, k, r.addr, r.rest) + [r.ch]
  }

  /** No answer of t yet: the choice point below the inner condition is still there. */
  predicate Alive(k: Spot, r: Work, a: Around) {
    Fits(r.sc, a) && Top(a.kc) == r.top && k.v in a.marks && a.marks[k.v] == 0 - r.top && r.ch.addr < a.next
  }

  /** What comes of the answers `hs` of h, of `s` and of the further answers of g: if t has an answer on `hs`
      the `!` is late. */
  function Switched(vm: Vm, n: Nest, hs: seq<Store>, s: Store, rest: seq<Store>): Solution {
    var first := SolveEach(vm.p, vm.env, n.t, hs, false);
    if first.answers != [] then SolveEach(vm.p, vm.env, n.t, hs + ([s] + Tried(vm, n, rest).answers), false)
    else if first.cut then first
    else Solve(vm.p, vm.env, n.t, s)
  }

  lemma SwitchedNext(vm: Vm, n: Nest, hs: seq<Store>, s: Store, rest: seq<Store>)
    requires hs != []
    ensures var here, others := Solve(vm.p, vm.env, n.t, hs[0]),
            SolveEach(vm.p, vm.env, n.t, hs[1..] + ([s] + Tried(vm, n, rest).answers), false);
            Switched(vm, n, hs, s, rest) ==
            if here.answers != [] then Solution(if here.cut then here.answers else here.answers + others.answers,
                if here.cut then true else others.cut)
            else if here.cut then here
            else Switched(vm, n, hs[1..], s, rest)
  {
    hide Solve, SolveEach, Tried;
    var here, tail := Solve(vm.p, vm.env, n.t, hs[0]), [s] + Tried(vm, n, rest).answers;
    var first, others := SolveEach(vm.p, vm.env, n.t, hs[1..], false),
        SolveEach(vm.p, vm.env, n.t, hs[1..] + tail, false);
    assert [hs[0]] + hs[1..] == hs && [hs[0]] + (hs[1..] + tail) == hs + tail;
    OneMoreStore(vm, n.t, hs[0], hs[1..], false);
    OneMoreStore(vm, n.t, hs[0], hs[1..] + tail, false);
    if here.answers == [] {
      assert [] + first.answers == first.answers && [] + others.answers == others.answers;
      assert here == Solution([], here.cut);
    }
  }

  lemma OnceFacts(vm: Vm, n: Nest, k: Spot, r: Work)
    requires Works(vm, n, k, r)
    ensures Narrower(Once(r), r.sc) && Once(r).floor == r.sc.floor && Apart(Once(r), Taken(k), r.ot, r.own)
            && !Past(k).dep
    ensures Behaves(vm, r.sc, r.sc, r.x, r.ot, Past(k).pc, Past(k).used, n.t) && Apart(r.sc, Taken(k), r.ot, r.own)
    ensures r.sc.floor <= r.floor < r.ch.addr && Between(r.floor, r.addr, r.rest, r.ch.addr)
            && k.v < k.own.lo <= k.own.hi && Sits(vm, n, k) && PlainH(n)
  {
    hide Behaves, Sits;
    assert k.v < k.own.lo <= k.own.hi by { SitsFacts(vm, n, k); }
  }

  lemma SitsFacts(vm: Vm, n: Nest, k: Spot)
    requires Sits(vm, n, k)
    ensures k.v < k.own.lo <= k.own.hi && At(vm.code, k.xi.pc, CommitCode(C_SOFTCUT, k.v)) && !k.xi.dep
  {
    hide Behaves, At, LeadsTo;
  }

  lemma NarrowBehaves(vm: Vm, sc: Scope, narrow: Scope, x: Exit, own: Own, pc: nat, used: set<nat>, b: Body)
    requires Behaves(vm, sc, sc, x, own, pc, used, b) && Narrower(narrow, sc)
    ensures Behaves(vm, narrow, narrow, x, own, pc, used, b)
  {
    hide Delivers, Solve, Narrower, Fits;
    forall s: Store, l: seq<Choice>, next: nat, a: Around | Ready(vm, narrow, pc, used, s, l, next, a)
      ensures RunsFrom(vm, narrow, x, own, pc, used, b, s, l, next, a)
    {
      NarrowReady(vm, sc, narrow, pc, used, s, l, next, a);
      assert RunsFrom(vm, sc, x, own, pc, used, b, s, l, next, a);
      NarrowDelivers(vm, sc, narrow, x, own, l, Entry(vm, pc, used, s, l, next),
                     Solve(vm.p, vm.env, b, s).answers, Solve(vm.p, vm.env, b, s).cut, a);
    }
  }

  lemma NarrowReady(vm: Vm, sc: Scope, narrow: Scope, pc: nat, used: set<nat>, s: Store, l: seq<Choice>, next: nat,
        a: Around)
    requires Ready(vm, narrow, pc, used, s, l, next, a) && Narrower(narrow, sc)
    ensures Ready(vm, sc, pc, used, s, l, next, a)
  {
    hide Fits;
  }

  /** The answers that are left when t has had one, seen from outside the inner conditional. */
  lemma OnceYields(vm: Vm, n: Nest, k: Spot, r: Work, q: Place, hs: seq<Store>)
    requires Works(vm, n, k, r) && r.ch.addr < q.next && MarksIn(k.own, q.m) && Above(q.l, r.floor)
    requires Yields(vm, Free(r.floor), k.xi, k.own, Waiting(vm, k, r), q, hs, false)
    ensures Yields(vm, Once(r), Past(k), Taken(k), [], Over(q, [], k.v, 0 - r.top),
            hs + ([r.s] + Tried(vm, n, r.rest).answers), false)
  {
    hide Yields, Tried, Above, Behaves, Sits, Fits, Rebases, At, Resumes;
    SitsFacts(vm, n, k);
    var all, sp := hs + ([r.s] + Tried(vm, n, r.rest).answers), Spoilt(k, r.floor, r.top);
    LateYields(vm, n, k, r.floor, r.top, r.addr, r.rest, r.ch, r.s, q, hs);
    OnceResumes(vm, n, k, r);
    RebaseYields(vm, Once(r), sp, k.xi, k.own, k.v, 0 - r.top, C_SOFTCUT, [], [], q, all, false);
    UnderNone([], false);
  }

  lemma OnceResumes(vm: Vm, n: Nest, k: Spot, r: Work)
    requires Works(vm, n, k, r)
    ensures Resumes(vm, Once(r), Spoilt(k, r.floor, r.top), k.xi, k.own, k.v, 0 - r.top, C_SOFTCUT, [])
  {
    hide Behaves, Sits;
    SitsFacts(vm, n, k);
    var sc, sp := Once(r), Spoilt(k, r.floor, r.top);
    forall a: Around | Fits(sc, a) && k.v in a.marks && a.marks[k.v] == 0 - r.top && sp.floor < a.next
        ensures Fits(sp, On(a, [])) {
      assert a.kc + [] == a.kc;
    }
  }

  function ActionEntry(vm: Vm, k: Spot, s: Store, ld: Landing): Place {
    Entry(vm, Past(k).pc, Past(k).used, s, ld.l, ld.next)
  }

  /** t on the first of the answers `hs` of h, and what comes after it. */
  lemma {:induction false} ActionDelivers(vm: Vm, n: Nest, k: Spot, r: Work, hs: seq<Store>, ld: Landing, a: Around)
    requires Works(vm, n, k, r) && Alive(k, r, a) && hs != []
    requires Agree(More(k.own, ld).m, a.marks) && a.next == ld.next && Above(ld.l, r.floor) && Top(ld.l) < ld.next
    requires Yields(vm, Free(r.floor), k.xi, k.own, Waiting(vm, k, r), More(k.own, ld), hs[1..], false)
    ensures var z := Switched(vm, n, hs, r.s, r.rest);
            Delivers(vm, Once(r), r.x, r.own, [], ActionEntry(vm, k, hs[0], ld), z.answers, z.cut, a)
    decreases |hs|, 0
  {
    hide *;
    var here, q := Solve(vm.p, vm.env, n.t, hs[0]), ActionEntry(vm, k, hs[0], ld);
    OnceFacts(vm, n, k, r);
    AliveFacts(k, r, a);
    AboveLower(ld.l, r.floor, r.sc.floor);
    PartRuns(vm, r.sc, r.sc, r.x, r.ot, Past(k).pc, Past(k).used, n.t, hs[0], ld.l, a);
    ActionRuns(vm, k, r, n.t, hs[0], ld, a);
    NarrowDelivers(vm, r.sc, Once(r), r.x, r.ot, ld.l, q, here.answers, here.cut, a);
    SwitchedNext(vm, n, hs, r.s, r.rest);
    if here.answers != [] {
      ActionFirst(vm, n, k, r, hs, ld, a);
    } else {
      var w := NoneDelivered(vm, Once(r), r.x, r.ot, ld.l, q, here.cut, a);
      if here.cut {
        ApartFacts(r.sc, Taken(k), r.ot, r.own);
        CutExhausts(vm, r.ot, r.own, ld.l, [], q, q, a, w);
        DeliversNone(vm, Once(r), r.x, r.own, [], q, true, a, w);
      } else {
        var a1, z := AfterBack(a, w), Switched(vm, n, hs[1..], r.s, r.rest);
        ActionBack(vm, n, k, r, hs, ld, a, w);
        SwitchDelivers(vm, n, k, r, More(k.own, ld), hs[1..], a1);
        DeliversVia(vm, Once(r), r.x, r.own, r.own, [], q, a, More(k.own, ld), a1, z.answers, z.cut);
      }
    }
  }

  lemma AliveFacts(k: Spot, r: Work, a: Around)
    requires Alive(k, r, a)
    ensures Fits(r.sc, a) && Top(a.kc) == r.top && k.v in a.marks && a.marks[k.v] == 0 - r.top && r.ch.addr < a.next
  {
  }

  lemma AboveLower(l: seq<Choice>, floor: nat, lower: nat)
    requires Above(l, floor) && lower <= floor
    ensures Above(l, lower)
  {
  }

  lemma ActionRuns(vm: Vm, k: Spot, r: Work, t: Body, s: Store, ld: Landing, a: Around)
    requires RunsFrom(vm, r.sc, r.x, r.ot, Past(k).pc, Past(k).used, t, s, ld.l, a.next, a) && a.next == ld.next
    ensures Delivers(vm, r.sc, r.x, r.ot, ld.l, ActionEntry(vm, k, s, ld), Solve(vm.p, vm.env, t, s).answers,
            Solve(vm.p, vm.env, t, s).cut, a)
  {
    hide Delivers, Solve;
  }

  /** t has an answer: from now on the `!` is late. */
  lemma ActionFirst(vm: Vm, n: Nest, k: Spot, r: Work, hs: seq<Store>, ld: Landing, a: Around)
    requires Works(vm, n, k, r) && Alive(k, r, a) && hs != []
    requires Agree(More(k.own, ld).m, a.marks) && a.next == ld.next && Above(ld.l, r.floor)
    requires Yields(vm, Free(r.floor), k.xi, k.own, Waiting(vm, k, r), More(k.own, ld), hs[1..], false)
    requires var here := Solve(vm.p, vm.env, n.t, hs[0]);
             here.answers != [] && Delivers(vm, Once(r), r.x, r.ot, ld.l, ActionEntry(vm, k, hs[0], ld),
                 here.answers, here.cut, a)
    ensures var z := Switched(vm, n, hs, r.s, r.rest);
            Delivers(vm, Once(r), r.x, r.own, [], ActionEntry(vm, k, hs[0], ld), z.answers, z.cut, a)
  {
    hide *;
    var here, q := Solve(vm.p, vm.env, n.t, hs[0]), ActionEntry(vm, k, hs[0], ld);
    var all := hs[1..] + ([r.s] + Tried(vm, n, r.rest).answers);
    var others := SolveEach(vm.p, vm.env, n.t, all, false);
    OnceFacts(vm, n, k, r);
    AliveFacts(k, r, a);
    AboveLower(ld.l, r.floor, r.sc.floor);
    OwnAgree(k.own, ld.marks);
    MoreIs(k.own, ld);
    OnceYields(vm, n, k, r, More(k.own, ld), hs[1..]);
    var pa := OverMore(k, r, ld, a);
    NarrowBehaves(vm, r.sc, Once(r), r.x, r.ot, Past(k).pc, Past(k).used, n.t);
    EachYields(vm, Once(r), Past(k), r.x, Taken(k), r.ot, r.own, [], pa, all, false, n.t);
    AppendFirst(vm, Once(r), r.x, Taken(k), r.ot, r.own, [], pa, q, here.answers, here.cut, others.answers,
        others.cut, a);
    SwitchedNext(vm, n, hs, r.s, r.rest);
    var z := Switched(vm, n, hs, r.s, r.rest);
    SameConfigs(q, pa.m, a);
    ReachesSelf(vm, ConfigOf(q, a));
    SameSelf(r.own, a.marks);
    DeliversVia(vm, Once(r), r.x, r.own, r.own, [], q, a, q.(m := q.m + pa.m), a, z.answers, z.cut);
  }

  lemma SameConfigs(q: Place, m: map<nat, int>, a: Around)
    ensures ConfigOf(q.(m := q.m + m), a) == ConfigOf(q, a)
  {
  }

  lemma MoreIs(own: Own, ld: Landing)
    ensures More(own, ld) == Place(None, ld.l, OwnMarks(own, ld.marks), ld.next)
  {
  }

  lemma OverMore(k: Spot, r: Work, ld: Landing, a: Around) returns (pa: Place)
    requires Agree(More(k.own, ld).m, a.marks) && k.v in a.marks && a.marks[k.v] == 0 - r.top
             && k.v < k.own.lo <= k.own.hi
    ensures pa == Over(More(k.own, ld), [], k.v, 0 - r.top)
    ensures pa.go.None? && pa.l == ld.l && pa.next == ld.next && MarksIn(Taken(k), pa.m) && Agree(pa.m, a.marks)
  {
    pa := Over(More(k.own, ld), [], k.v, 0 - r.top);
    assert [] + ld.l == ld.l;
  }

  /** t has failed; backtracking goes into h, and nothing has been unlinked. */
  lemma ActionBack(vm: Vm, n: Nest, k: Spot, r: Work, hs: seq<Store>, ld: Landing, a: Around, w: World)
    requires Works(vm, n, k, r) && Alive(k, r, a) && hs != []
    requires Agree(More(k.own, ld).m, a.marks) && a.next == ld.next && Above(ld.l, r.floor)
    requires Yields(vm, Free(r.floor), k.xi, k.own, Waiting(vm, k, r), More(k.own, ld), hs[1..], false)
    requires Exhausts(vm, r.ot, ld.l, ActionEntry(vm, k, hs[0], ld), a, false, w)
    ensures var a1 := AfterBack(a, w);
            && Alive(k, r, a1) && Delivers(vm, Free(r.floor), k.xi, k.own, Waiting(vm, k, r), More(k.own, ld),
                hs[1..], false, a1)
            && Reaches(vm, ConfigOf(ActionEntry(vm, k, hs[0], ld), a), ConfigOf(More(k.own, ld), a1))
            && a1.kc == a.kc && a1.out == a.out && a.next <= a1.next && SameOutside(r.own, a.marks, a1.marks)
            && Above(More(k.own, ld).l, r.floor)
  {
    hide Yields, Delivers, Behaves, Sits, Reaches, At, LeadsTo, Tried, Waiting;
    OnceFacts(vm, n, k, r);
    var a1, q := AfterBack(a, w), ActionEntry(vm, k, hs[0], ld);
    BackAlive(k, r, a, a1);
    OwnAgree(k.own, ld.marks);
    AgreeSurvives(k.own, r.ot, More(k.own, ld).m, a.marks, a1.marks);
    YieldsAt(vm, Free(r.floor), k.xi, k.own, Waiting(vm, k, r), More(k.own, ld), hs[1..], false, a1);
  }

  lemma BackAlive(k: Spot, r: Work, a: Around, a1: Around)
    requires Alive(k, r, a) && a1.kc == a.kc && a1.out == a.out && a.next <= a1.next
             && SameOutside(r.ot, a.marks, a1.marks)
    requires r.sc.stale.None? && r.sc.floor <= r.floor < r.ch.addr && Apart(r.sc, Taken(k), r.ot, r.own)
             && k.v < k.own.hi
    ensures Alive(k, r, a1) && Fits(Free(r.floor), a1) && SameOutside(r.own, a.marks, a1.marks)
  {
    FitsAfter(r.sc, r.ot, r.own, a, a1);
    assert !(r.ot.lo <= k.v < r.ot.hi);
  }

  /** While h has the answers `hs` left, on the answer `r.s` of g, and t has not had one. */
  lemma {:induction false} SwitchDelivers(vm: Vm, n: Nest, k: Spot, r: Work, q: Place, hs: seq<Store>, a: Around)
    requires Works(vm, n, k, r) && Alive(k, r, a) && Above(q.l, r.floor)
    requires Delivers(vm, Free(r.floor), k.xi, k.own, Waiting(vm, k, r), q, hs, false, a)
    ensures var z := Switched(vm, n, hs, r.s, r.rest); Delivers(vm, Once(r), r.x, r.own, [], q, z.answers, z.cut, a)
    decreases |hs|, 1
  {
    hide *;
    var z := Switched(vm, n, hs, r.s, r.rest);
    if hs == [] {
      var w := NoneDelivered(vm, Free(r.floor), k.xi, k.own, Waiting(vm, k, r), q, false, a);
      TimelyCut(vm, n, k, r, q, a, w);
    } else {
      var ld := FirstDelivered(vm, Free(r.floor), k.xi, k.own, Waiting(vm, k, r), q, hs, false, a);
      CommitAgain(vm, n, k, r, q, hs[0], ld, a);
      ActionDelivers(vm, n, k, r, hs, ld, After(a, ld));
      DeliversVia(vm, Once(r), r.x, r.own, r.own, [], q, a, ActionEntry(vm, k, hs[0], ld), After(a, ld), z.answers,
          z.cut);
    }
  }

  /** An answer of h passes C_SOFTCUT, which has nothing more to do. */
  lemma CommitAgain(vm: Vm, n: Nest, k: Spot, r: Work, q: Place, s: Store, ld: Landing, a: Around)
    requires Works(vm, n, k, r) && Alive(k, r, a) && Lands(vm, Free(r.floor), k.xi, k.own, q, a, s, ld)
    ensures var a1 := After(a, ld);
            && Alive(k, r, a1) && Agree(More(k.own, ld).m, a1.marks) && Above(ld.l, r.floor) && Top(ld.l) < ld.next
            && Reaches(vm, ConfigOf(q, a), ConfigOf(ActionEntry(vm, k, s, ld), a1))
            && a1.kc == a.kc && a1.out == a.out && a.next <= a1.next == ld.next && SameOutside(r.own, a.marks, a1.marks)
  {
    hide Behaves, Sits, Reaches, At, LeadsTo, Step, Steps, FrameOf, Above;
    OnceFacts(vm, n, k, r);
    SitsFacts(vm, n, k);
    LandedFacts(vm, Free(r.floor), k.xi, k.own, q, a, s, ld);
    var a1 := After(a, ld);
    LandAlive(k, r, a, a1);
    OwnAgree(k.own, ld.marks);
    var w := WorldOf(a1, ld.l);
    StepAgain(vm, C_SOFTCUT, k.v, k.xi.pc, k.xi.used, s, w);
    var c := Plain(k.xi.pc, vm, k.xi.used, s, w);
    ReachesStep(vm, c);
    ReachesTrans(vm, ConfigOf(q, a), c, Step(vm, c));
  }

  lemma LandAlive(k: Spot, r: Work, a: Around, a1: Around)
    requires Alive(k, r, a) && a1.kc == a.kc && a1.out == a.out && a.next <= a1.next
             && SameOutside(k.own, a.marks, a1.marks)
    requires r.sc.stale.None? && Apart(r.sc, Taken(k), r.ot, r.own) && k.v < k.own.lo <= k.own.hi
    ensures Alive(k, r, a1) && SameOutside(r.own, a.marks, a1.marks)
  {
    FitsAfter(r.sc, k.own, r.own, a, a1);
    assert !(k.own.lo <= k.v < k.own.hi);
  }

  /** h has run out before t had an answer: the `!` cuts, and t runs on the answer of g. */
  lemma TimelyCut(vm: Vm, n: Nest, k: Spot, r: Work, q: Place, a: Around, w: World)
    requires Works(vm, n, k, r) && Alive(k, r, a) && Exhausts(vm, k.own, Waiting(vm, k, r), q, a, false, w)
    ensures var z := Switched(vm, n, [], r.s, r.rest); Delivers(vm, Once(r), r.x, r.own, [], q, z.answers, z.cut, a)
  {
    hide Behaves, Sits, Reaches, At, LeadsTo, Step, Steps, FrameOf, Above, Delivers, Solve, SolveEach, Tried, Left,
        Fits, Works;
    var a1, s := AfterBack(a, w), r.s;
    OnceFacts(vm, n, k, r);
    SitsFacts(vm, n, k);
    LandSits(vm, n, k, r, a, a1);
    TimelyReaches(vm, n, k, r, a1, w);
    var c := Plain(Past(k).pc, vm, Past(k).used, s, WorldOf(a1, []));
    ReachesTrans(vm, ConfigOf(q, a), Back(w), c);
    EmptyAbove(r.sc.floor);
    AliveFacts(k, r, a1);
    ApartFacts(r.sc, Taken(k), r.ot, r.own);
    RunsVia(vm, r.sc, r.sc, r.x, r.ot, r.own, q, a, Past(k).pc, Past(k).used, n.t, s, [], a1, r.own);
    NarrowDelivers(vm, r.sc, Once(r), r.x, r.own, [], q, Solve(vm.p, vm.env, n.t, s).answers,
        Solve(vm.p, vm.env, n.t, s).cut, a);
    NoStores(vm, n.t, false);
  }

  lemma EmptyAbove(floor: nat)
    ensures Above([], floor)
  {
  }

  lemma LandSits(vm: Vm, n: Nest, k: Spot, r: Work, a: Around, a1: Around)
    requires Works(vm, n, k, r) && Alive(k, r, a) && a1.kc == a.kc && a1.out == a.out && a.next <= a1.next
             && SameOutside(k.own, a.marks, a1.marks)
    ensures Alive(k, r, a1) && SameOutside(r.own, a.marks, a1.marks)
  {
    hide Behaves, Sits;
    SitsFacts(vm, n, k);
    LandAlive(k, r, a, a1);
  }

  /** The choice point of C_OR, the `!`, which drops what g left, and C_SOFTCUT, which does nothing. */
  lemma TimelyReaches(vm: Vm, n: Nest, k: Spot, r: Work, a: Around, w: World)
    requires Works(vm, n, k, r) && Alive(k, r, a) && w == WorldOf(a, Waiting(vm, k, r))
    ensures Reaches(vm, Back(w), Plain(Past(k).pc, vm, Past(k).used, r.s, WorldOf(a, [])))
  {
    hide Behaves, Reaches, At, LeadsTo, Step, Steps, FrameOf, Left, Fits, Above;
    OnceFacts(vm, n, k, r);
    SitsFacts(vm, n, k);
    var l, s, used := Left(vm, k, r.addr, r.rest), r.s, k.xg.used;
    assert w.chain == a.kc + l + [r.ch];
    StepBackJump(vm, w, a.kc + l, r.ch.addr, k.pcut, used, s);
    LeftAbove(vm, k, r.addr, r.rest, r.floor, r.ch.addr);
    TimelyFits(k, r, a);
    StepCutInstr(vm, LocalCut(C_LSCUT, k.v), Scope(Soft(k.v), None, r.floor), k.pcut, used, s, a, l);
    var w1 := WorldOf(a, []);
    var end := Plain(Past(k).pc, vm, Past(k).used, s, w1);
    LeadsApply(vm, Exit(k.pcut + 2, used, false), k.xi, s, w1);
    StepAgain(vm, C_SOFTCUT, k.v, k.xi.pc, k.xi.used, s, w1);
    ReachesStep(vm, Plain(k.xi.pc, vm, k.xi.used, s, w1));
    ReachesTrans(vm, Plain(k.pcut + 2, vm, used, s, w1), Plain(k.xi.pc, vm, k.xi.used, s, w1), end);
    ReachesVia(vm, Plain(k.pcut, vm, used, s, WorldOf(a, l)), end);
    ReachesVia(vm, Back(w), end);
  }

  lemma TimelyFits(k: Spot, r: Work, a: Around)
    requires Alive(k, r, a) && r.sc.floor <= r.floor < r.ch.addr
    ensures Fits(Scope(Soft(k.v), None, r.floor), a)
  {
  }

  // ----- the inner conditional -----

  /** What stands for the `!` in the body whose answers the code gives. */
  function Acting(vm: Vm, n: Nest, s: Store): Body {
    if Late(vm, n, s) then True else Cut
  }

  lemma GateSolves(vm: Vm, n: Nest, s: Store, last: Body)
    requires PlainH(n) && (last == True || last == Cut)
    ensures var found := Found(vm, n, s);
            Solve(vm.p, vm.env, Gate(n, last), s).answers ==
            if found == [] then []
            else if last == True then Tried(vm, n, found).answers
            else Solve(vm.p, vm.env, n.h, found[0]).answers + [found[0]]
  {
    hide Tried;
    var found, b := Found(vm, n, s), Disj(n.h, last);
    assert Solve(vm.p, vm.env, Gate(n, last), s) == SolveEach(vm.p, vm.env, b, found, false);
    hide Solve, SolveEach;
    if found == [] {
      NoStores(vm, b, false);
    } else if last == Cut {
      assert [found[0]] + found[1..] == found;
      TryOne(vm, n, found[0], last);
      OneMoreStore(vm, b, found[0], found[1..], false);
    } else {
      TriedIs(vm, n, found);
    }
  }

  lemma TriedIs(vm: Vm, n: Nest, stores: seq<Store>)
    ensures Tried(vm, n, stores) == SolveEach(vm.p, vm.env, Disj(n.h, True), stores, false)
  {
  }

  lemma InnerSolves(vm: Vm, n: Nest, s: Store)
    requires PlainH(n)
    ensures var found := Found(vm, n, s);
            Solve(vm.p, vm.env, Inner(n, Acting(vm, n, s)), s) ==
            if found == [] then Solve(vm.p, vm.env, n.e, s)
            else Switched(vm, n, Solve(vm.p, vm.env, n.h, found[0]).answers, found[0], found[1..])
  {
    var found, last := Found(vm, n, s), Acting(vm, n, s);
    GateSolves(vm, n, s, last);
    SoftElseSolves(vm, Gate(n, last), n.t, n.e, s);
    hide Solve, SolveEach, Tried;
    if found != [] {
      var g := found[0];
      var hs, more := Solve(vm.p, vm.env, n.h, g).answers, Tried(vm, n, found[1..]).answers;
      EachOne(vm.p, vm.env, n.t, g);
      assert [g] + found[1..] == found;
      TryMore(vm, n, g, found[1..]);
      assert hs + [g] + more == hs + ([g] + more);
      EachJoin(vm.p, vm.env, n.t, hs, [g], false);
      NothingMore(vm, n, hs, g, found);
    }
  }

  /** With a single answer of g it does not matter what the `!` does. */
  lemma NothingMore(vm: Vm, n: Nest, hs: seq<Store>, g: Store, found: seq<Store>)
    requires found != [] && g == found[0]
    ensures |found| == 1 ==> hs + ([g] + Tried(vm, n, found[1..]).answers) == hs + [g]
    ensures var first := SolveEach(vm.p, vm.env, n.t, hs, false);
            first.answers == [] && !first.cut ==>
            first.answers + Solve(vm.p, vm.env, n.t, g).answers == Solve(vm.p, vm.env, n.t, g).answers
  {
    hide Solve, SolveEach;
    if |found| == 1 {
      assert found[1..] == [];
      NoStores(vm, Disj(n.h, True), false);
      TriedIs(vm, n, []);
      assert [g] + [] == [g];
    }
  }

  /** Where the inner conditional starts, where its parts go on, and in which scope. */
  datatype Door = Door(pc: nat, pe: nat, used: set<nat>, sc: Scope, x: Exit, ot: Own, oe: Own, own: Own)

  ghost predicate Stands(vm: Vm, n: Nest, k: Spot, z: Door) {
    && Sits(vm, n, k) && PlainH(n) && z.pc + 3 <= z.pe
    && At(vm.code, z.pc, [Ins(C_SOFTIF), Num(k.v), Num(z.pe - z.pc - 3)])
    && ProperTerms(n.ts) && Below(vm.cl.arity) <= z.used
        && At(vm.code, z.pc + 3, GenGoal(vm.cl, n.f, n.ts, false, z.used))
    && k.xg == Exit(z.pc + 3 + |GenGoal(vm.cl, n.f, n.ts, false, z.used)|, z.used + VarsOf(n.ts), false)
    && z.sc.pin.None? && z.sc.stale.None? && !z.sc.kind.Spent?
    && Behaves(vm, z.sc, z.sc, z.x, z.ot, Past(k).pc, Past(k).used, n.t)
    && Behaves(vm, z.sc, z.sc, z.x, z.oe, z.pe, z.used, n.e)
    && Apart(z.sc, Taken(k), z.ot, z.own) && Within(z.oe, z.own)
  }

  /** The world in the inner condition. */
  function Opened(vm: Vm, k: Spot, z: Door, s: Store, a: Around): Around {
    Around(a.kc + [Choice(a.next, Jump(z.pe, FrameOf(vm.env, z.used), s))], a.marks[k.v := a.next], a.dead, a.next
        + 1, a.out)
  }

  lemma OpenReaches(vm: Vm, n: Nest, k: Spot, z: Door, s: Store, a: Around)
    requires Stands(vm, n, k, z)
    ensures Reaches(vm, Plain(z.pc, vm, z.used, s, WorldOf(a, [])),
                    Answer(k.xg.pc, FrameOf(vm.env, k.xg.used), Found(vm, n, s), WorldOf(Opened(vm, k, z, s, a), [])))
  {
    hide Behaves, Sits, Reaches, At, LeadsTo, Step, Steps, FrameOf, GenGoal, Solve, Answer, ProperTerms;
    var c, w := Plain(z.pc, vm, z.used, s, WorldOf(a, [])), WorldOf(Opened(vm, k, z, s, a), []);
    StepIfElse(vm, C_SOFTIF, z.pc, z.used, s, WorldOf(a, []), k.v, z.pe - z.pc - 3);
    assert a.kc + [] + [Choice(a.next, Jump(z.pe, FrameOf(vm.env, z.used), s))] == Opened(vm, k, z, s, a).kc + [];
    assert Step(vm, c) == Plain(z.pc + 3, vm, z.used, s, w);
    GoalReaches(vm, n.f, n.ts, z.used, z.pc + 3, s, w);
    ReachesVia(vm, c, Answer(k.xg.pc, FrameOf(vm.env, k.xg.used), Found(vm, n, s), w));
  }

  /** The world when g has given its answers `found` and C_OR has been passed. */
  function Passed(vm: Vm, k: Spot, z: Door, s: Store, a: Around, found: seq<Store>): Around
    requires found != []
  {
    Opened(vm, k, z, s, a).(next := a.next + if |found| == 1 then 2 else 3)
  }

  function WorkOf(vm: Vm, k: Spot, z: Door, a: Around, found: seq<Store>): Work
    requires found != []
  {
    Work(z.sc, Top(a.kc), a.next, z.x, z.ot, z.own, a.next + 1, found[1..],
         Choice(a.next + if |found| == 1 then 1 else 2, Jump(k.pcut, FrameOf(vm.env, k.xg.used), found[0])), found[0])
  }

  lemma StandsWorks(vm: Vm, n: Nest, k: Spot, z: Door, a: Around, found: seq<Store>)
    requires Stands(vm, n, k, z) && Fits(z.sc, a) && found != []
    ensures Works(vm, n, k, WorkOf(vm, k, z, a, found))
  {
    hide Behaves, Sits, FrameOf;
  }

  lemma AnswerIs(vm: Vm, n: Nest, k: Spot, z: Door, s: Store, a: Around, found: seq<Store>)
    requires found != []
    ensures var r := WorkOf(vm, k, z, a, found);
            Answer(k.xg.pc, FrameOf(vm.env, k.xg.used), found, WorldOf(Opened(vm, k, z, s, a), [])) ==
            Plain(k.xg.pc, vm, k.xg.used, found[0], WorldOf(Opened(vm, k, z, s, a).(next := r.ch.addr),
                Left(vm, k, r.addr, r.rest)))
  {
    hide FrameOf;
    var o := Opened(vm, k, z, s, a);
    assert o.kc + [] == o.kc;
  }

  function Tries(vm: Vm, n: Nest, k: Spot, r: Work, next: nat): Place {
    Entry(vm, k.xg.pc + 2, k.xg.used, r.s, Waiting(vm, k, r), next)
  }

  /** From the start of the inner conditional to h, on the first answer of g. */
  lemma HStarts(vm: Vm, n: Nest, k: Spot, z: Door, s: Store, a: Around, found: seq<Store>)
    requires Stands(vm, n, k, z) && Fits(z.sc, a) && found == Found(vm, n, s) && found != []
    ensures var ai, r := Passed(vm, k, z, s, a, found), WorkOf(vm, k, z, a, found);
            && Reaches(vm, Plain(z.pc, vm, z.used, s, WorldOf(a, [])), ConfigOf(Tries(vm, n, k, r, ai.next), ai))
            && Delivers(vm, Free(a.next), k.xi, k.own, Waiting(vm, k, r), Tries(vm, n, k, r, ai.next),
                Solve(vm.p, vm.env, n.h, r.s).answers, false, ai)
            && Above(Waiting(vm, k, r), a.next) && Sorted(ai.kc) && Top(ai.kc) == a.next && a.kc != []
                && Top(a.kc) < a.next
  {
    hide Behaves, Sits, Reaches, At, LeadsTo, Step, Steps, FrameOf, Solve, Answer, Delivers, Fits, Above, Sorted,
        Left, Works, Stands;
    var ai, r := Passed(vm, k, z, s, a, found), WorkOf(vm, k, z, a, found);
    StandsWorks(vm, n, k, z, a, found);
    OnceFacts(vm, n, k, r);
    OpenReaches(vm, n, k, z, s, a);
    AnswerIs(vm, n, k, z, s, a, found);
    FitsFacts(z.sc, a);
    var l, g, o := Left(vm, k, r.addr, r.rest), found[0], Opened(vm, k, z, s, a).(next := r.ch.addr);
    LeftAbove(vm, k, r.addr, r.rest, a.next, r.ch.addr);
    AbovePush(l, a.next, r.ch.addr, r.ch.alt);
    OpenedFits(a, ai, ai.kc[|a.kc|]);
    var c := Plain(k.xg.pc, vm, k.xg.used, g, WorldOf(o, l));
    SitsOr(vm, n, k);
    StepOr(vm, k.xg.pc, k.xg.used, g, WorldOf(o, l), k.pcut - k.xg.pc - 2);
    assert o.kc + l + [r.ch] == ai.kc + (l + [r.ch]);
    assert Step(vm, c) == Plain(k.xg.pc + 2, vm, k.xg.used, g, WorldOf(ai, Waiting(vm, k, r)));
    ReachesStep(vm, c);
    ReachesTrans(vm, Plain(z.pc, vm, z.used, s, WorldOf(a, [])), c, Step(vm, c));
    HBehaves(vm, n, k, a.next);
    PartRuns(vm, Free(a.next), Free(a.next), k.xi, k.own, k.xg.pc + 2, k.xg.used, n.h, g, Waiting(vm, k, r), ai);
    TryOne(vm, n, g, True);
  }

  lemma SitsOr(vm: Vm, n: Nest, k: Spot)
    requires Sits(vm, n, k)
    ensures k.xg.pc + 2 <= k.pcut && At(vm.code, k.xg.pc, [Ins(C_OR), Num(k.pcut - k.xg.pc - 2)])
  {
    hide Behaves, At, LeadsTo;
  }

  lemma OpenedFits(a: Around, ai: Around, ch: Choice)
    requires Sorted(a.kc) && a.kc != [] && Top(a.kc) < a.next && ai.kc == a.kc + [ch] && ch.addr == a.next < ai.next
    ensures Fits(Free(a.next), ai) && Sorted(ai.kc) && Top(ai.kc) == a.next
  {
    assert forall i :: 0 <= i < |a.kc| - 1 ==> a.kc[i].addr < a.kc[|a.kc| - 1].addr;
  }

  /** What the first C_SOFTCUT leaves. */
  function Cleared(k: Spot, a: Around, ld: Landing): Around {
    Around(a.kc, ld.marks[k.v := 0 - Top(a.kc)], ld.dead[a.next := Top(a.kc)], ld.next, a.out)
  }

  /** The first answer of the inner condition passes C_SOFTCUT, which unlinks its choice point. */
  lemma FirstCommit(vm: Vm, n: Nest, k: Spot, a: Around, ai: Around, ch: Choice, s: Store, ld: Landing)
    requires Sits(vm, n, k) && ai.kc == a.kc + [ch] && ch.addr == a.next && Sorted(ai.kc) && a.kc != []
    requires Above(ld.l, a.next) && k.v in ld.marks && ld.marks[k.v] == a.next && ai.out == a.out
    ensures Reaches(vm, Plain(k.xi.pc, vm, k.xi.used, s, LandWorld(ai, ld)),
                    Plain(Past(k).pc, vm, Past(k).used, s, WorldOf(Cleared(k, a, ld), ld.l)))
  {
    hide Behaves, Sits, Reaches, At, LeadsTo, Step, Steps, FrameOf;
    SitsFacts(vm, n, k);
    var w := LandWorld(ai, ld);
    assert ai.kc[|a.kc|] == ch && ai.kc[..|a.kc|] == a.kc;
    SortedJoin(ai.kc, ld.l, a.next);
    assert w.chain == a.kc + [ch] + ld.l;
    StepUnlink(vm, k.v, k.xi.pc, k.xi.used, s, w, a.kc, ch, ld.l);
    ReachesStep(vm, Plain(k.xi.pc, vm, k.xi.used, s, w));
  }

  lemma ClearedFits(sc: Scope, k: Spot, ot: Own, own: Own, a: Around, ld: Landing, m: int)
    requires Fits(sc, a) && sc.stale.None? && Apart(sc, Taken(k), ot, own) && k.v < k.own.lo <= k.own.hi
    requires SameOutside(k.own, a.marks[k.v := a.next], ld.marks) && a.next < ld.next
    ensures var a1 := Around(a.kc, ld.marks[k.v := m], ld.dead[a.next := Top(a.kc)], ld.next, a.out);
            Fits(sc, a1) && SameOutside(own, a.marks, a1.marks) && SameOutside(Taken(k), a.marks, a1.marks)
    ensures k.v in ld.marks && ld.marks[k.v] == a.next && Agree(More(k.own, ld).m, ld.marks[k.v := m])
  {
    hide Fits;
    UnlinkMarks(k.own, k.v, a.marks, a.next, ld.marks, m);
    assert !(k.own.lo <= k.v < k.own.hi) && k.v in a.marks[k.v := a.next];
    var a1 := Around(a.kc, ld.marks[k.v := m], ld.dead[a.next := Top(a.kc)], ld.next, a.out);
    FitsAfter(sc, Taken(k), own, a, a1);
  }

  /** The inner conditional, entered with nothing of its scope above `a`, with the answers of the body in which
      `Acting` stands for the `!`; after the first answer the choice point below it has been unlinked. */
  lemma InnerDelivers(vm: Vm, n: Nest, k: Spot, z: Door, s: Store, a: Around)
    requires Stands(vm, n, k, z) && Fits(z.sc, a)
    ensures var sol := Solve(vm.p, vm.env, Inner(n, Acting(vm, n, s)), s);
            Delivers(vm, z.sc.(stale := Some(Top(a.kc))), z.x, z.own, [], Entry(vm, z.pc, z.used, s, [], a.next),
                sol.answers, sol.cut, a)
  {
    hide *;
    var found, p, later := Found(vm, n, s), Entry(vm, z.pc, z.used, s, [], a.next), z.sc.(stale := Some(Top(a.kc)));
    StandsFacts(vm, n, k, z);
    InnerSolves(vm, n, s);
    EntryIs(vm, z.pc, z.used, s, [], a);
    if found == [] {
      ElseDelivers(vm, n, k, z, s, a);
    } else {
      var r, ai := WorkOf(vm, k, z, a, found), Passed(vm, k, z, s, a, found);
      var q, hs := Tries(vm, n, k, r, ai.next), Solve(vm.p, vm.env, n.h, r.s).answers;
      WorkIs(vm, k, z, a, found);
      HStarts(vm, n, k, z, s, a, found);
      if hs == [] {
        var w := NoneDelivered(vm, Free(a.next), k.xi, k.own, Waiting(vm, k, r), q, false, ai);
        NoHDelivers(vm, n, k, z, s, a, found, w);
      } else {
        var ld := FirstDelivered(vm, Free(a.next), k.xi, k.own, Waiting(vm, k, r), q, hs, false, ai);
        SomeHDelivers(vm, n, k, z, s, a, found, hs, ld);
      }
    }
  }

  lemma EntryIs(vm: Vm, pc: nat, used: set<nat>, s: Store, l: seq<Choice>, a: Around)
    ensures ConfigOf(Entry(vm, pc, used, s, l, a.next), a) == Plain(pc, vm, used, s, WorldOf(a, l))
  {
  }

  lemma WorkIs(vm: Vm, k: Spot, z: Door, a: Around, found: seq<Store>)
    requires found != []
    ensures var r := WorkOf(vm, k, z, a, found);
            r.s == found[0] && r.rest == found[1..] && r.sc == z.sc && r.floor == a.next && Once(r) ==
                z.sc.(stale := Some(Top(a.kc)))
  {
    hide FrameOf;
  }

  lemma StandsFacts(vm: Vm, n: Nest, k: Spot, z: Door)
    requires Stands(vm, n, k, z)
    ensures PlainH(n) && Sits(vm, n, k) && z.sc.stale.None? && Apart(z.sc, Taken(k), z.ot, z.own) && Within(z.oe, z.own)
    ensures forall top: nat :: Narrower(z.sc.(stale := Some(top)), z.sc)
    ensures Behaves(vm, z.sc, z.sc, z.x, z.ot, Past(k).pc, Past(k).used, n.t)
    ensures Behaves(vm, z.sc, z.sc, z.x, z.oe, z.pe, z.used, n.e)
    ensures k.v < k.own.lo <= k.own.hi
  {
    hide Behaves, Sits, At;
    SitsFacts(vm, n, k);
  }

  /** g has no answer: the other branch. */
  lemma ElseDelivers(vm: Vm, n: Nest, k: Spot, z: Door, s: Store, a: Around)
    requires Stands(vm, n, k, z) && Fits(z.sc, a) && Found(vm, n, s) == []
    ensures var sol := Solve(vm.p, vm.env, n.e, s);
            Delivers(vm, z.sc.(stale := Some(Top(a.kc))), z.x, z.own, [], Entry(vm, z.pc, z.used, s, [], a.next),
                sol.answers, sol.cut, a)
  {
    hide Behaves, Sits, Reaches, At, LeadsTo, Step, Steps, FrameOf, Solve, Delivers, Fits, Stands, Apart, Narrower,
        SameOutside, Found;
    StandsFacts(vm, n, k, z);
    var p, c := Entry(vm, z.pc, z.used, s, [], a.next), Plain(z.pc, vm, z.used, s, WorldOf(a, []));
    var a1 := Around(a.kc, a.marks[k.v := a.next], a.dead, a.next + 1, a.out);
    var w, ch := WorldOf(Opened(vm, k, z, s, a), []), Choice(a.next, Jump(z.pe, FrameOf(vm.env, z.used), s));
    OpenReaches(vm, n, k, z, s, a);
    assert w.chain == a.kc + [ch] && a.kc + [] == a.kc;
    StepBackJump(vm, w, a.kc, a.next, z.pe, z.used, s);
    ReachesStep(vm, Back(w));
    ReachesTrans(vm, c, Back(w), Plain(z.pe, vm, z.used, s, WorldOf(a1, [])));
    OpenFits(z.sc, k, z.ot, z.own, a);
    EmptyAbove(z.sc.floor);
    ApartFacts(z.sc, Taken(k), z.ot, z.own);
    RunsVia(vm, z.sc, z.sc, z.x, z.oe, z.own, p, a, z.pe, z.used, n.e, s, [], a1, Taken(k));
    NarrowDelivers(vm, z.sc, z.sc.(stale := Some(Top(a.kc))), z.x, z.own, [], p, Solve(vm.p, vm.env, n.e, s).answers,
        Solve(vm.p, vm.env, n.e, s).cut, a);
  }

  lemma OpenFits(sc: Scope, k: Spot, ot: Own, own: Own, a: Around)
    requires Fits(sc, a) && sc.stale.None? && Apart(sc, Taken(k), ot, own) && k.v < k.own.lo <= k.own.hi
    ensures var a1 := Around(a.kc, a.marks[k.v := a.next], a.dead, a.next + 1, a.out);
            Fits(sc, a1) && SameOutside(Taken(k), a.marks, a1.marks) && Top([]) < a1.next
  {
    hide Fits;
    var a1 := Around(a.kc, a.marks[k.v := a.next], a.dead, a.next + 1, a.out);
    FitsAfter(sc, Taken(k), own, a, a1);
  }

  /** h has no answer on the first answer of g: the `!` runs in time, and t runs on that answer. */
  lemma NoHDelivers(vm: Vm, n: Nest, k: Spot, z: Door, s: Store, a: Around, found: seq<Store>, w: World)
    requires Stands(vm, n, k, z) && Fits(z.sc, a) && found == Found(vm, n, s) && found != []
    requires var ai, r := Passed(vm, k, z, s, a, found), WorkOf(vm, k, z, a, found);
             && Exhausts(vm, k.own, Waiting(vm, k, r), Tries(vm, n, k, r, ai.next), ai, false, w)
             && Reaches(vm, Plain(z.pc, vm, z.used, s, WorldOf(a, [])), ConfigOf(Tries(vm, n, k, r, ai.next), ai))
             && Sorted(ai.kc) && a.kc != []
    ensures var sol := Switched(vm, n, [], found[0], found[1..]);
            Delivers(vm, z.sc.(stale := Some(Top(a.kc))), z.x, z.own, [], Entry(vm, z.pc, z.used, s, [], a.next),
                sol.answers, sol.cut, a)
  {
    hide Behaves, Sits, Reaches, At, LeadsTo, Step, Steps, FrameOf, Solve, SolveEach, Delivers, Fits, Stands, Apart,
        Narrower, SameOutside,
         Found, Tried, Left, Sorted, Works, Above;
    StandsFacts(vm, n, k, z);
    var ai, r, g := Passed(vm, k, z, s, a, found), WorkOf(vm, k, z, a, found), found[0];
    var ch, p := ai.kc[|a.kc|], Entry(vm, z.pc, z.used, s, [], a.next);
    var ld := Landing(k.xi.pc, FrameOf(vm.env, k.xi.used), [], w.marks, w.dead, w.next);
    ClearedFits(z.sc, k, z.ot, z.own, a, ld, 0 - Top(a.kc));
    FirstCutReaches(vm, n, k, z, a, ai, found, w);
    EmptyAbove(a.next);
    EmptyAbove(z.sc.floor);
    FirstCommit(vm, n, k, a, ai, ch, g, ld);
    var a1 := Cleared(k, a, ld);
    var c0, c1, c2 := Plain(z.pc, vm, z.used, s, WorldOf(a, [])), Back(w),
        Plain(Past(k).pc, vm, Past(k).used, g, WorldOf(a1, []));
    ReachesTrans(vm, Back(w), Plain(k.xi.pc, vm, k.xi.used, g, LandWorld(ai, ld)), c2);
    ReachesTrans(vm, c0, ConfigOf(Tries(vm, n, k, r, ai.next), ai), Back(w));
    ReachesTrans(vm, c0, Back(w), c2);
    ApartFacts(z.sc, Taken(k), z.ot, z.own);
    RunsVia(vm, z.sc, z.sc, z.x, z.ot, z.own, p, a, Past(k).pc, Past(k).used, n.t, g, [], a1, Taken(k));
    NarrowDelivers(vm, z.sc, z.sc.(stale := Some(Top(a.kc))), z.x, z.own, [], p, Solve(vm.p, vm.env, n.t, g).answers,
        Solve(vm.p, vm.env, n.t, g).cut, a);
    NoStores(vm, n.t, false);
  }

  /** The choice point of C_OR and the `!`, before anything has been unlinked. */
  lemma FirstCutReaches(vm: Vm, n: Nest, k: Spot, z: Door, a: Around, ai: Around, found: seq<Store>, w: World)
    requires Stands(vm, n, k, z) && Fits(z.sc, a) && found != [] && k.v < k.own.lo
    requires Sorted(ai.kc) && |ai.kc| == |a.kc| + 1 && Top(ai.kc) == a.next && ai.marks == a.marks[k.v := a.next]
             && a.next < ai.next
    requires var r := WorkOf(vm, k, z, a, found); w.chain == ai.kc + Waiting(vm, k, r)
    requires SameOutside(k.own, ai.marks, w.marks) && ai.next <= w.next && w.out == ai.out
    ensures Reaches(vm, Back(w), Plain(k.xi.pc, vm, k.xi.used, found[0],
            World(ai.kc + [], w.marks, w.dead, w.next, ai.out)))
  {
    hide Behaves, Sits, Reaches, At, LeadsTo, Step, Steps, FrameOf, Left, Stands, Works, Fits, Above;
    var r, g, ai1, used := WorkOf(vm, k, z, a, found), found[0], AfterBack(ai, w), k.xg.used;
    StandsWorks(vm, n, k, z, a, found);
    OnceFacts(vm, n, k, r);
    SitsCut(vm, n, k);
    var l := Left(vm, k, r.addr, r.rest);
    LeftAbove(vm, k, r.addr, r.rest, a.next, r.ch.addr);
    assert w.chain == ai.kc + l + [r.ch];
    StepBackJump(vm, w, ai.kc + l, r.ch.addr, k.pcut, used, g);
    assert w.(chain := ai.kc + l) == WorldOf(ai1, l);
    SoftHolds(k, ai, ai1, a.next);
    StepCutInstr(vm, LocalCut(C_LSCUT, k.v), Scope(Soft(k.v), None, a.next), k.pcut, used, g, ai1, l);
    var end := Plain(k.xi.pc, vm, k.xi.used, g, WorldOf(ai1, []));
    LeadsApply(vm, Exit(k.pcut + 2, used, false), k.xi, g, WorldOf(ai1, []));
    ReachesVia(vm, Plain(k.pcut, vm, used, g, WorldOf(ai1, l)), end);
    ReachesVia(vm, Back(w), end);
  }

  lemma SoftHolds(k: Spot, ai: Around, ai1: Around, floor: nat)
    requires Sorted(ai.kc) && ai.kc != [] && Top(ai.kc) == floor < ai.next <= ai1.next && ai1.kc == ai.kc
    requires k.v in ai.marks && ai.marks[k.v] == floor && SameOutside(k.own, ai.marks, ai1.marks) && k.v < k.own.lo
    ensures Fits(Scope(Soft(k.v), None, floor), ai1)
  {
    assert !(k.own.lo <= k.v < k.own.hi);
  }

  lemma SitsCut(vm: Vm, n: Nest, k: Spot)
    requires Sits(vm, n, k)
    ensures At(vm.code, k.pcut, [Ins(C_LSCUT), Num(k.v)]) && LeadsTo(vm, Exit(k.pcut + 2, k.xg.used, false), k.xi)
  {
    hide Behaves, At, LeadsTo;
  }

  /** h has an answer on the first answer of g. */
  lemma SomeHDelivers(vm: Vm, n: Nest, k: Spot, z: Door, s: Store, a: Around, found: seq<Store>, hs: seq<Store>,
        ld: Landing)
    requires Stands(vm, n, k, z) && Fits(z.sc, a) && found == Found(vm, n, s) && found != [] && hs != []
    requires var ai, r := Passed(vm, k, z, s, a, found), WorkOf(vm, k, z, a, found);
             && Lands(vm, Free(a.next), k.xi, k.own, Tries(vm, n, k, r, ai.next), ai, hs[0], ld)
             && Yields(vm, Free(a.next), k.xi, k.own, Waiting(vm, k, r), More(k.own, ld), hs[1..], false)
             && Reaches(vm, Plain(z.pc, vm, z.used, s, WorldOf(a, [])), ConfigOf(Tries(vm, n, k, r, ai.next), ai))
             && Sorted(ai.kc) && a.kc != []
    ensures var sol := Switched(vm, n, hs, found[0], found[1..]);
            Delivers(vm, z.sc.(stale := Some(Top(a.kc))), z.x, z.own, [], Entry(vm, z.pc, z.used, s, [], a.next),
                sol.answers, sol.cut, a)
  {
    hide Behaves, Sits, Reaches, At, LeadsTo, Step, Steps, FrameOf, Solve, SolveEach, Delivers, Yields, Fits, Stands,
        Apart, Narrower, SameOutside,
         Found, Tried, Left, Sorted, Works, Above, Switched;
    StandsFacts(vm, n, k, z);
    StandsWorks(vm, n, k, z, a, found);
    SitsFacts(vm, n, k);
    var ai, r := Passed(vm, k, z, s, a, found), WorkOf(vm, k, z, a, found);
    var ch, p, q := ai.kc[|a.kc|], Entry(vm, z.pc, z.used, s, [], a.next), Tries(vm, n, k, r, ai.next);
    LandedFacts(vm, Free(a.next), k.xi, k.own, q, ai, hs[0], ld);
    ClearedFits(z.sc, k, z.ot, z.own, a, ld, 0 - Top(a.kc));
    FirstCommit(vm, n, k, a, ai, ch, hs[0], ld);
    var a1, q1 := Cleared(k, a, ld), ActionEntry(vm, k, hs[0], ld);
    var c0, c1, c2 := Plain(z.pc, vm, z.used, s, WorldOf(a, [])),
        Plain(k.xi.pc, vm, k.xi.used, hs[0], LandWorld(ai, ld)), ConfigOf(q1, a1);
    ReachesTrans(vm, c0, ConfigOf(q, ai), c1);
    ReachesTrans(vm, c0, c1, c2);
    ActionDelivers(vm, n, k, r, hs, ld, a1);
    var sol := Switched(vm, n, hs, found[0], found[1..]);
    DeliversVia(vm, Once(r), z.x, z.own, z.own, [], p, a, q1, a1, sol.answers, sol.cut);
  }
}
