// The marking tour: which cells were visited, and what the marks say about it.

module TermTour {
  import opened TermHeap

  predicate KeysOk(h0: Heap, t: Tour) {
    t.via.Keys == t.rank.Keys && forall f :: f in t.via ==> f < |h0| && h0[f].Fun? && t.rank[f] < |t.rank|
  }

  predicate OwnersOk(h0: Heap, t: Tour) {
    forall id :: id in t.owner ==> id < |h0| && !h0[id].Fun? && t.owner[id] in t.via && Child(h0, t.owner[id], id)
  }

  /** Every visit due is made or to do. */
  ghost predicate VisitsOk(h0: Heap, t: Tour, todo: set<nat>) {
    t.done !! todo && forall id: nat :: id in t.done || id in todo <==> id == |h0| || id in t.owner
  }

  /** A compound was first met at the root or in an argument of a compound met before. */
  ghost predicate FirstMet(h0: Heap, depth: seq<nat>, start: nat, t: Tour, f: nat)
    requires StartOk(h0, depth, start) && f in t.via && f in t.rank
  {
    var id := t.via[f];
    && Meets(h0, depth, start, id, f) && id in t.done
    && (id == |h0| || (id in t.owner && t.owner[id] in t.rank && t.rank[t.owner[id]] < t.rank[f]))
  }

  ghost predicate ViaOk(h0: Heap, depth: seq<nat>, start: nat, t: Tour)
    requires StartOk(h0, depth, start)
  {
    && t.via.Keys == t.rank.Keys
    && (forall f :: f in t.via ==> FirstMet(h0, depth, start, t, f))
    && (forall v :: v in t.varVia ==>
      v < |h0| && h0[v].Var? && t.varVia[v] in t.done && MeetsVar(h0, depth, start, t.varVia[v], v))
  }

  /** What a visit met is known. */
  ghost predicate Known(h0: Heap, depth: seq<nat>, start: nat, t: Tour, id: nat)
    requires StartOk(h0, depth, start)
  {
    IdOk(h0, id) &&
    var e := Goal(h0, depth, start, id);
    match h0[e]
    case Str(f) => f in t.via
    case Var(_) => e in t.varVia
    case _ => true
  }

  ghost predicate DoneOk(h0: Heap, depth: seq<nat>, start: nat, t: Tour)
    requires StartOk(h0, depth, start)
  {
    forall id :: id in t.done ==> Known(h0, depth, start, t, id)
  }

  ghost predicate TourOk(h0: Heap, depth: seq<nat>, start: nat, t: Tour, todo: set<nat>) {
    && StartOk(h0, depth, start) && KeysOk(h0, t) && OwnersOk(h0, t) && VisitsOk(h0, t, todo)
    && ViaOk(h0, depth, start, t) && DoneOk(h0, depth, start, t)
  }

  /** The arguments of every compound met are due. */
  ghost predicate Complete(h0: Heap, t: Tour) {
    forall f: nat, a: nat :: f in t.via && Child(h0, f, a) ==> a in t.owner
  }

  /** The mark of cell `a`: none if it was not met; `Once` only if a single visit met it. */
  ghost predicate MarkOk(h0: Heap, depth: seq<nat>, start: nat, h: Heap, t: Tour, a: nat)
    requires StartOk(h0, depth, start) && a < |h0| <= |h|
  {
    if a in t.via then
      && h0[a].Fun? && h[a].Fun? && h[a] == h0[a].(fmark := h[a].fmark) && h[a].fmark != Virgin
      && (h[a].fmark == Once ==> forall id :: id in t.done && Meets(h0, depth, start, id, a) ==> id == t.via[a])
    else if a in t.varVia then
      && h0[a].Var? && h[a].Var? && h[a].mark != Virgin
      && (h[a].mark == Once ==> forall id :: id in t.done && MeetsVar(h0, depth, start, id, a) ==> id == t.varVia[a])
    else h[a] == h0[a]
  }

  ghost predicate MarksOk(h0: Heap, depth: seq<nat>, start: nat, h: Heap, t: Tour) {
    StartOk(h0, depth, start) && |h0| <= |h| && forall a :: 0 <= a < |h0| ==> MarkOk(h0, depth, start, h, t, a)
  }

  /** A compound stays first met where it was when the tour goes on. */
  lemma StaysMet(h0: Heap, depth: seq<nat>, start: nat, t: Tour, t1: Tour, f: nat)
    requires StartOk(h0, depth, start) && f in t.via && f in t.rank && FirstMet(h0, depth, start, t, f)
    requires f in t1.via && f in t1.rank && t1.via[f] == t.via[f] && t.done <= t1.done
    requires forall g :: g in t.rank ==> g in t1.rank && t1.rank[g] == t.rank[g]
    requires forall a :: a in t.owner ==> a in t1.owner && t1.owner[a] == t.owner[a]
    ensures FirstMet(h0, depth, start, t1, f)
  {
    hide Meets;
  }

  lemma StaysKnown(h0: Heap, depth: seq<nat>, start: nat, t: Tour, t1: Tour, id: nat)
    requires StartOk(h0, depth, start) && Known(h0, depth, start, t, id)
    requires forall g :: g in t.via ==> g in t1.via
    requires forall v :: v in t.varVia ==> v in t1.varVia
    ensures Known(h0, depth, start, t1, id)
  {
    hide Goal;
  }

  // ----- the steps of the tour -----

  predicate NoDup(ids: seq<nat>) {
    forall i, j :: 0 <= i < j < |ids| ==> ids[i] != ids[j]
  }

  function SetOf(ids: seq<nat>): (s: set<nat>)
    ensures forall x :: x in s <==> x in ids
  {
    set x | x in ids
  }

  lemma TakeFirst(ids: seq<nat>)
    requires ids != [] && NoDup(ids)
    ensures NoDup(ids[1..]) && ids[0] in SetOf(ids) && SetOf(ids[1..]) == SetOf(ids) - {ids[0]}
  {
    assert ids == [ids[0]] + ids[1..];
  }

  /** A visit to something that needs no record, or is recorded already. */
  lemma VisitKnown(h0: Heap, depth: seq<nat>, start: nat, t: Tour, todo: set<nat>, id: nat)
    requires TourOk(h0, depth, start, t, todo) && id in todo && Known(h0, depth, start, t, id)
    ensures TourOk(h0, depth, start, t.(done := t.done + {id}), todo - {id})
  {
    hide VisitsOk, KeysOk, OwnersOk, FirstMet, Goal;
    var t1 := t.(done := t.done + {id});
    MoreDone(h0, t, t1, todo, id);
    forall f | f in t1.via ensures FirstMet(h0, depth, start, t1, f) { StaysMet(h0, depth, start, t, t1, f); }
    forall i | i in t1.done ensures Known(h0, depth, start, t1, i) {
      if i != id { StaysKnown(h0, depth, start, t, t1, i); }
    }
  }

  /** A variable met for the first time. */
  lemma VisitNewVar(h0: Heap, depth: seq<nat>, start: nat, t: Tour, todo: set<nat>, id: nat, v: nat)
    requires TourOk(h0, depth, start, t, todo) && id in todo && MeetsVar(h0, depth, start, id, v) && h0[v].Var?
             && v !in t.varVia
    ensures TourOk(h0, depth, start, t.(done := t.done + {id}, varVia := t.varVia[v := id]), todo - {id})
  {
    hide VisitsOk, KeysOk, OwnersOk, FirstMet, Goal;
    var t1 := t.(done := t.done + {id}, varVia := t.varVia[v := id]);
    MoreDone(h0, t, t1, todo, id);
    forall f | f in t1.via ensures FirstMet(h0, depth, start, t1, f) { StaysMet(h0, depth, start, t, t1, f); }
    forall i | i in t1.done ensures Known(h0, depth, start, t1, i) {
      if i != id { StaysKnown(h0, depth, start, t, t1, i); }
    }
  }

  lemma MoreDone(h0: Heap, t: Tour, t1: Tour, todo: set<nat>, id: nat)
    requires VisitsOk(h0, t, todo) && KeysOk(h0, t) && OwnersOk(h0, t) && id in todo
    requires t1.done == t.done + {id} && t1.owner == t.owner && t1.via == t.via && t1.rank == t.rank
    ensures VisitsOk(h0, t1, todo - {id}) && KeysOk(h0, t1) && OwnersOk(h0, t1)
  {
  }

  function NewFun(h0: Heap, t: Tour, id: nat, f: nat): Tour
    requires Fits(h0, f)
  {
    t.(done := t.done + {id}, via := t.via[f := id], rank := t.rank[f := |t.rank|],
       owner := t.owner + map a | a in Args(h0, f) :: f)
  }

  predicate Fits(h0: Heap, f: nat) {
    f < |h0| && h0[f].Fun?
  }

  function Args(h0: Heap, f: nat): (s: set<nat>)
    requires Fits(h0, f)
    ensures forall a :: a in s <==> Child(h0, f, a)
  {
    SetOf(Range(f + 1, h0[f].arity))
  }

  /** A compound met for the first time: its arguments become due. */
  lemma VisitNewFun(h0: Heap, depth: seq<nat>, start: nat, t: Tour, todo: set<nat>, id: nat, f: nat)
    requires TourOk(h0, depth, start, t, todo) && id in todo && Meets(h0, depth, start, id, f) && f !in t.via
             && Fits(h0, f)
    ensures TourOk(h0, depth, start, NewFun(h0, t, id, f), todo - {id} + Args(h0, f)) && Args(h0, f) !! todo
  {
    hide VisitsOk, KeysOk, OwnersOk, ViaOk, DoneOk;
    ArgsFresh(h0, depth, t, f);
    NewFunVisits(h0, t, todo, id, f);
    NewFunOwners(h0, depth, t, id, f);
    TodoOwned(h0, t, todo, id, f);
    NewFunVia(h0, depth, start, t, todo, id, f);
    NewFunDone(h0, depth, start, t, id, f);
  }

  lemma TodoOwned(h0: Heap, t: Tour, todo: set<nat>, id: nat, f: nat)
    requires VisitsOk(h0, t, todo) && OwnersOk(h0, t) && id in todo && Fits(h0, f)
    requires forall a :: a in Args(h0, f) ==> a !in t.owner && a < |h0|
    ensures (id in t.owner ==> t.owner[id] in t.via) && id !in Args(h0, f)
  {
    hide Args;
  }

  lemma NewFunVisits(h0: Heap, t: Tour, todo: set<nat>, id: nat, f: nat)
    requires VisitsOk(h0, t, todo) && id in todo && Fits(h0, f) && KeysOk(h0, t) && f !in t.via
    requires forall a :: a in Args(h0, f) ==> a !in t.owner && a < |h0|
    ensures VisitsOk(h0, NewFun(h0, t, id, f), todo - {id} + Args(h0, f)) && Args(h0, f) !! todo
    ensures KeysOk(h0, NewFun(h0, t, id, f))
  {
    var t1, due := NewFun(h0, t, id, f), Args(h0, f);
    hide Args;
    assert |t1.rank| == |t.rank| + 1;
    NewFunKeys(h0, t, id, f);
    hide KeysOk;
    forall a | a in due ensures a !in todo && a !in t.done { assert a !in t.owner && a != |h0|; }
    forall i: nat ensures i in t1.done || i in todo - {id} + due <==> i == |h0| || i in t1.owner {
      assert i in t.done || i in todo <==> i == |h0| || i in t.owner;
    }
  }

  lemma NewFunKeys(h0: Heap, t: Tour, id: nat, f: nat)
    requires KeysOk(h0, t) && Fits(h0, f) && f !in t.via
    ensures KeysOk(h0, NewFun(h0, t, id, f))
  {
    assert f !in t.rank;
    assert |t.rank[f := |t.rank|]| == |t.rank| + 1;
  }

  lemma NewFunOwners(h0: Heap, depth: seq<nat>, t: Tour, id: nat, f: nat)
    requires HeapOk(h0, depth) && OwnersOk(h0, t) && Fits(h0, f)
    ensures OwnersOk(h0, NewFun(h0, t, id, f))
  {
    hide HeapOk;
    forall a | a in Args(h0, f) ensures a < |h0| && !h0[a].Fun? { ChildOf(h0, depth, f, a); }
  }

  lemma NewFunVia(h0: Heap, depth: seq<nat>, start: nat, t: Tour, todo: set<nat>, id: nat, f: nat)
    requires StartOk(h0, depth, start) && ViaOk(h0, depth, start, t) && KeysOk(h0, t) && VisitsOk(h0, t, todo)
    requires id in todo && Meets(h0, depth, start, id, f) && f !in t.via && Fits(h0, f)
    requires (id in t.owner ==> t.owner[id] in t.via) && id !in Args(h0, f)
    requires forall a :: a in Args(h0, f) ==> a !in t.owner
    ensures ViaOk(h0, depth, start, NewFun(h0, t, id, f))
  {
    hide Goal, Meets, MeetsVar, Args, Child, FirstMet, OwnersOk, VisitsOk, KeysOk;
    var t1 := NewFun(h0, t, id, f);
    forall g | g in t1.via ensures FirstMet(h0, depth, start, t1, g) {
      if g == f { NewFunMet(h0, depth, start, t, todo, id, f); } else { StaysMet(h0, depth, start, t, t1, g); }
    }
  }

  lemma NewFunMet(h0: Heap, depth: seq<nat>, start: nat, t: Tour, todo: set<nat>, id: nat, f: nat)
    requires StartOk(h0, depth, start) && KeysOk(h0, t) && VisitsOk(h0, t, todo) && Fits(h0, f)
    requires id in todo && Meets(h0, depth, start, id, f) && (id in t.owner ==> t.owner[id] in t.via)
             && id !in Args(h0, f)
    requires f !in t.via
    ensures FirstMet(h0, depth, start, NewFun(h0, t, id, f), f)
  {
    hide Args, Meets;
  }

  lemma NewFunDone(h0: Heap, depth: seq<nat>, start: nat, t: Tour, id: nat, f: nat)
    requires StartOk(h0, depth, start) && DoneOk(h0, depth, start, t) && Meets(h0, depth, start, id, f) && Fits(h0, f)
    ensures DoneOk(h0, depth, start, NewFun(h0, t, id, f))
  {
    hide Args, Child, Goal;
    var t1 := NewFun(h0, t, id, f);
    forall i | i in t1.done ensures Known(h0, depth, start, t1, i) {
        assert i in t.done ==> Known(h0, depth, start, t, i); }
  }

  lemma ArgsFresh(h0: Heap, depth: seq<nat>, t: Tour, f: nat)
    requires HeapOk(h0, depth) && OwnersOk(h0, t) && f !in t.via && Fits(h0, f)
    ensures forall a :: a in Args(h0, f) ==> a !in t.owner && a < |h0|
  {
    forall a | a in Args(h0, f) ensures a !in t.owner && a < |h0| {
      ChildOf(h0, depth, f, a);
      if a in t.owner { OneOwner(h0, depth, f, t.owner[a], a); }
    }
  }

  // ----- marks -----

  /** The state of the tour: what was visited, what is due, and the marks so far. */
  ghost predicate Touring(h0: Heap, depth: seq<nat>, start: nat, h: Heap, t: Tour, todo: set<nat>) {
    TourOk(h0, depth, start, t, todo) && MarksOk(h0, depth, start, h, t)
  }

  /** Marks of cells the visit did not meet. */
  lemma StaysMarked(h0: Heap, depth: seq<nat>, start: nat, h: Heap, h1: Heap, t: Tour, t1: Tour, id: nat, a: nat)
    requires StartOk(h0, depth, start) && a < |h0| <= |h| && |h1| == |h| && h1[a] == h[a]
             && MarkOk(h0, depth, start, h, t, a)
    requires t1.done == t.done + {id} && !Meets(h0, depth, start, id, a) && !MeetsVar(h0, depth, start, id, a)
    requires (a in t.via <==> a in t1.via) && (a in t.via ==> t1.via[a] == t.via[a])
    requires (a in t.varVia <==> a in t1.varVia) && (a in t.varVia ==> t1.varVia[a] == t.varVia[a])
    ensures MarkOk(h0, depth, start, h1, t1, a)
  {
    hide Meets, MeetsVar;
  }

  /** A visit meets one thing. */
  lemma MeetsOne(h0: Heap, depth: seq<nat>, start: nat, id: nat, a: nat)
    requires StartOk(h0, depth, start) && IdOk(h0, id)
    ensures var e := Goal(h0, depth, start, id);
            && (Meets(h0, depth, start, id, a) <==> h0[e] == Str(a)) && (MeetsVar(h0, depth, start, id, a) <==> e == a)
  {
  }

  lemma TodoOk(h0: Heap, depth: seq<nat>, start: nat, t: Tour, todo: set<nat>, id: nat)
    requires TourOk(h0, depth, start, t, todo) && id in todo
    ensures IdOk(h0, id) && id !in t.done
  {
    hide ViaOk, DoneOk, KeysOk;
  }

  lemma DoneKnown(h0: Heap, depth: seq<nat>, start: nat, t: Tour, id: nat)
    requires StartOk(h0, depth, start) && DoneOk(h0, depth, start, t) && id in t.done
    ensures Known(h0, depth, start, t, id)
  {
  }

  /** A visit to a constant. */
  lemma TourConstant(h0: Heap, depth: seq<nat>, start: nat, h: Heap, t: Tour, todo: set<nat>, id: nat)
    requires Touring(h0, depth, start, h, t, todo) && id in todo
    requires IdOk(h0, id) && h0[Goal(h0, depth, start, id)].Con?
    ensures Touring(h0, depth, start, h, t.(done := t.done + {id}), todo - {id})
  {
    hide TourOk, MarkOk, Goal;
    TourStart(h0, depth, start, t, todo);
    VisitKnown(h0, depth, start, t, todo, id);
    var t1 := t.(done := t.done + {id});
    forall a | 0 <= a < |h0| ensures MarkOk(h0, depth, start, h, t1, a) {
      MeetsOne(h0, depth, start, id, a);
      ConstantUnmarked(h0, depth, start, h, t, id, a);
    }
  }

  lemma TourStart(h0: Heap, depth: seq<nat>, start: nat, t: Tour, todo: set<nat>)
    requires TourOk(h0, depth, start, t, todo)
    ensures StartOk(h0, depth, start)
  {
  }

  lemma ConstantUnmarked(h0: Heap, depth: seq<nat>, start: nat, h: Heap, t: Tour, id: nat, a: nat)
    requires MarksOk(h0, depth, start, h, t) && a < |h0| && IdOk(h0, id) && h0[Goal(h0, depth, start, id)].Con?
    ensures MarkOk(h0, depth, start, h, t.(done := t.done + {id}), a)
  {
    hide Goal;
    assert MarkOk(h0, depth, start, h, t, a);
    MeetsOne(h0, depth, start, id, a);
  }

  /** A variable met for the first time is marked `Once`. */
  lemma TourNewVar(h0: Heap, depth: seq<nat>, start: nat, h: Heap, t: Tour, todo: set<nat>, id: nat, v: nat)
    requires Touring(h0, depth, start, h, t, todo) && id in todo && v < |h0| && h[v] == Var(Virgin)
    requires IdOk(h0, id) && Goal(h0, depth, start, id) == v
    ensures v !in t.varVia && h0[v].Var?
    ensures Touring(h0, depth, start, h[v := Var(Once)], t.(done := t.done + {id}, varVia := t.varVia[v := id]),
            todo - {id})
  {
    hide TourOk, Goal;
    TourStart(h0, depth, start, t, todo);
    assert MarkOk(h0, depth, start, h, t, v);
    var t1, h1 := t.(done := t.done + {id}, varVia := t.varVia[v := id]), h[v := Var(Once)];
    assert MeetsVar(h0, depth, start, id, v);
    VisitNewVar(h0, depth, start, t, todo, id, v);
    NeverMetVar(h0, depth, start, t, todo, v);
    hide MarkOk;
    forall a | 0 <= a < |h0| ensures MarkOk(h0, depth, start, h1, t1, a) {
      MeetsOne(h0, depth, start, id, a);
      assert MarkOk(h0, depth, start, h, t, a);
      if a == v {
        NewVarMark(h0, depth, start, h1, t, id, v);
      } else {
        StaysMarked(h0, depth, start, h, h1, t, t1, id, a);
      }
    }
  }

  lemma NewVarMark(h0: Heap, depth: seq<nat>, start: nat, h1: Heap, t: Tour, id: nat, v: nat)
    requires StartOk(h0, depth, start) && v < |h0| <= |h1| && h1[v] == Var(Once) && h0[v].Var? && v !in t.via
    requires forall i :: i in t.done ==> !MeetsVar(h0, depth, start, i, v)
    ensures MarkOk(h0, depth, start, h1, t.(done := t.done + {id}, varVia := t.varVia[v := id]), v)
  {
    hide MeetsVar;
  }

  lemma NeverMetVar(h0: Heap, depth: seq<nat>, start: nat, t: Tour, todo: set<nat>, v: nat)
    requires TourOk(h0, depth, start, t, todo) && v !in t.varVia && v < |h0| && h0[v].Var?
    ensures v !in t.via && forall i :: i in t.done ==> !MeetsVar(h0, depth, start, i, v)
  {
    hide ViaOk, VisitsOk, OwnersOk, Goal;
    forall i | i in t.done ensures !MeetsVar(h0, depth, start, i, v) { DoneKnown(h0, depth, start, t, i); }
  }

  lemma NeverMetFun(h0: Heap, depth: seq<nat>, start: nat, t: Tour, todo: set<nat>, f: nat)
    requires TourOk(h0, depth, start, t, todo) && f !in t.via
    ensures forall i :: i in t.done ==> !Meets(h0, depth, start, i, f)
  {
    hide ViaOk, VisitsOk, OwnersOk, Goal, KeysOk;
    forall i | i in t.done ensures !Meets(h0, depth, start, i, f) { DoneKnown(h0, depth, start, t, i); }
  }

  /** A variable met again is marked `Twice`. */
  lemma TourOldVar(h0: Heap, depth: seq<nat>, start: nat, h: Heap, t: Tour, todo: set<nat>, id: nat, v: nat)
    requires Touring(h0, depth, start, h, t, todo) && id in todo && v < |h0| && h[v].Var? && h[v].mark != Virgin
    requires IdOk(h0, id) && Goal(h0, depth, start, id) == v
    ensures Touring(h0, depth, start, h[v := Var(Twice)], t.(done := t.done + {id}), todo - {id})
  {
    hide TourOk, Goal;
    TourStart(h0, depth, start, t, todo);
    MarkedVar(h0, depth, start, h, t, todo, v);
    var t1, h1 := t.(done := t.done + {id}), h[v := Var(Twice)];
    VisitKnown(h0, depth, start, t, todo, id);
    hide MarkOk;
    forall a | 0 <= a < |h0| ensures MarkOk(h0, depth, start, h1, t1, a) {
      MeetsOne(h0, depth, start, id, a);
      assert MarkOk(h0, depth, start, h, t, a);
      if a == v {
        OldMark(h0, depth, start, h, h1, t, id, v);
      } else {
        StaysMarked(h0, depth, start, h, h1, t, t1, id, a);
      }
    }
  }

  lemma MarkedVar(h0: Heap, depth: seq<nat>, start: nat, h: Heap, t: Tour, todo: set<nat>, v: nat)
    requires Touring(h0, depth, start, h, t, todo) && v < |h0| && h[v].Var? && h[v].mark != Virgin
    ensures v in t.varVia && h0[v].Var? && v !in t.via
  {
    hide ViaOk, VisitsOk, OwnersOk, DoneOk;
    assert MarkOk(h0, depth, start, h, t, v);
    assert CellOk(h0, depth, v);
  }

  lemma OldMark(h0: Heap, depth: seq<nat>, start: nat, h: Heap, h1: Heap, t: Tour, id: nat, a: nat)
    requires StartOk(h0, depth, start) && a < |h0| <= |h| && |h1| == |h| && MarkOk(h0, depth, start, h, t, a)
    requires (a in t.via && h[a].Fun? && h1[a] == h[a].(fmark := Twice))
             || (a !in t.via && a in t.varVia && h1[a] == Var(Twice))
    ensures MarkOk(h0, depth, start, h1, t.(done := t.done + {id}), a)
  {
  }

  /** A compound met again is marked `Twice`. */
  lemma TourOldFun(h0: Heap, depth: seq<nat>, start: nat, h: Heap, t: Tour, todo: set<nat>, id: nat, f: nat)
    requires Touring(h0, depth, start, h, t, todo) && id in todo && f < |h0| && h[f].Fun? && h[f].fmark != Virgin
    requires IdOk(h0, id) && h0[Goal(h0, depth, start, id)] == Str(f)
    ensures Touring(h0, depth, start, h[f := h[f].(fmark := Twice)], t.(done := t.done + {id}), todo - {id})
  {
    hide TourOk, Goal;
    TourStart(h0, depth, start, t, todo);
    MarkedFun(h0, depth, start, h, t, todo, f);
    var t1, h1 := t.(done := t.done + {id}), h[f := h[f].(fmark := Twice)];
    VisitKnown(h0, depth, start, t, todo, id);
    hide MarkOk;
    forall a | 0 <= a < |h0| ensures MarkOk(h0, depth, start, h1, t1, a) {
      MeetsOne(h0, depth, start, id, a);
      assert MarkOk(h0, depth, start, h, t, a);
      if a == f {
        OldMark(h0, depth, start, h, h1, t, id, f);
      } else {
        MeetsFunOnly(h0, depth, start, h, t, todo, id, f, a);
        StaysOrOther(h0, depth, start, h, h1, t, t1, id, a);
      }
    }
  }

  lemma MarkedFun(h0: Heap, depth: seq<nat>, start: nat, h: Heap, t: Tour, todo: set<nat>, f: nat)
    requires Touring(h0, depth, start, h, t, todo) && f < |h0| && h[f].Fun? && h[f].fmark != Virgin
    ensures f in t.via && h0[f].Fun?
  {
    hide ViaOk, VisitsOk, OwnersOk, DoneOk;
    assert MarkOk(h0, depth, start, h, t, f);
    assert CellOk(h0, depth, f);
  }

  /** A visit that meets a compound meets no variable, and no other compound. */
  lemma MeetsFunOnly(h0: Heap, depth: seq<nat>, start: nat, h: Heap, t: Tour, todo: set<nat>, id: nat, f: nat, a: nat)
    requires Touring(h0, depth, start, h, t, todo) && IdOk(h0, id) && h0[Goal(h0, depth, start, id)] == Str(f)
             && a != f && a < |h0|
    ensures !Meets(h0, depth, start, id, a) && (MeetsVar(h0, depth, start, id, a) ==>
              h0[a].Str? && a !in t.via && a !in t.varVia)
  {
    hide VisitsOk, OwnersOk, DoneOk, Goal;
    MeetsOne(h0, depth, start, id, a);
    assert MarkOk(h0, depth, start, h, t, a);
  }

  lemma StaysOrOther(h0: Heap, depth: seq<nat>, start: nat, h: Heap, h1: Heap, t: Tour, t1: Tour, id: nat, a: nat)
    requires StartOk(h0, depth, start) && a < |h0| <= |h| && |h1| == |h| && h1[a] == h[a]
             && MarkOk(h0, depth, start, h, t, a)
    requires t1.done == t.done + {id} && !Meets(h0, depth, start, id, a)
    requires MeetsVar(h0, depth, start, id, a) ==> a !in t.via && a !in t.varVia
    requires (a in t.via <==> a in t1.via) && (a in t.via ==> t1.via[a] == t.via[a])
    requires (a in t.varVia <==> a in t1.varVia) && (a in t.varVia ==> t1.varVia[a] == t.varVia[a])
    ensures MarkOk(h0, depth, start, h1, t1, a)
  {
    hide Meets, MeetsVar;
  }

  /** A compound met for the first time is marked `Once`, and its arguments become due. */
  lemma TourNewFun(h0: Heap, depth: seq<nat>, start: nat, h: Heap, t: Tour, todo: set<nat>, id: nat, f: nat)
    requires Touring(h0, depth, start, h, t, todo) && id in todo && f < |h0| && h[f].Fun? && h[f].fmark == Virgin
    requires IdOk(h0, id) && h0[Goal(h0, depth, start, id)] == Str(f)
    ensures Fits(h0, f) && f !in t.via && Args(h0, f) !! todo
    ensures Touring(h0, depth, start, h[f := h[f].(fmark := Once)], NewFun(h0, t, id, f), todo - {id} + Args(h0, f))
  {
    hide TourOk, Goal, Args, NewFun;
    TourStart(h0, depth, start, t, todo);
    UnmarkedFun(h0, depth, start, h, t, todo, f);
    var t1, h1 := NewFun(h0, t, id, f), h[f := h[f].(fmark := Once)];
    assert Meets(h0, depth, start, id, f);
    VisitNewFun(h0, depth, start, t, todo, id, f);
    NeverMetFun(h0, depth, start, t, todo, f);
    NewFunIs(h0, t, id, f);
    hide MarkOk;
    forall a | 0 <= a < |h0| ensures MarkOk(h0, depth, start, h1, t1, a) {
      assert MarkOk(h0, depth, start, h, t, a);
      if a == f {
        NewFunMark(h0, depth, start, h1, t, t1, id, f);
      } else {
        MeetsFunOnly(h0, depth, start, h, t, todo, id, f, a);
        StaysOrOther(h0, depth, start, h, h1, t, t1, id, a);
      }
    }
  }

  lemma NewFunIs(h0: Heap, t: Tour, id: nat, f: nat)
    requires Fits(h0, f)
    ensures var t1 := NewFun(h0, t, id, f);
            && t1.done == t.done + {id} && t1.via == t.via[f := id] && t1.varVia == t.varVia
            && (forall a :: a in t1.owner <==> a in t.owner || a in Args(h0, f))
  {
    hide Args;
  }

  lemma UnmarkedFun(h0: Heap, depth: seq<nat>, start: nat, h: Heap, t: Tour, todo: set<nat>, f: nat)
    requires Touring(h0, depth, start, h, t, todo) && f < |h0| && h[f].Fun? && h[f].fmark == Virgin
    ensures f !in t.via && Fits(h0, f) && h[f] == h0[f]
  {
    hide ViaOk, VisitsOk, OwnersOk, DoneOk, KeysOk;
    assert MarkOk(h0, depth, start, h, t, f);
  }

  lemma NewFunMark(h0: Heap, depth: seq<nat>, start: nat, h1: Heap, t: Tour, t1: Tour, id: nat, f: nat)
    requires StartOk(h0, depth, start) && f < |h0| <= |h1| && h0[f].Fun? && h1[f] == h0[f].(fmark := Once)
    requires t1.done == t.done + {id} && f in t1.via && t1.via[f] == id
    requires forall i :: i in t.done ==> !Meets(h0, depth, start, i, f)
    ensures MarkOk(h0, depth, start, h1, t1, f)
  {
    hide Meets;
  }

  lemma CompleteMore(h0: Heap, t: Tour, id: nat, f: nat)
    requires Complete(h0, t) && Fits(h0, f)
    ensures Complete(h0, NewFun(h0, t, id, f))
  {
    hide NewFun;
    NewFunIs(h0, t, id, f);
  }
}
