// duplicate_term/2: marking, copying and restoring, in place on the global stack.

module TermCopier {
  import opened TermHeap
  import opened TermTour
  import opened TermCopyState
  import opened TermCopySteps
  import opened TermRestore
  import opened TermUnmark
  import opened TermIsomorphism
  import opened TermCopySpace
  import opened TermReach

  /** The compounds of a heap. */
  function Compounds(h: Heap, n: nat): (s: set<nat>)
    requires n <= |h|
    ensures forall a: nat :: a in s <==> a < n && h[a].Fun?
  {
    if n == 0 then {} else Compounds(h, n - 1) + (if h[n - 1].Fun? then {n - 1} else {})
  }

  /** The addresses still to visit, with the visits they stand for. */
  ghost predicate Agenda(h0: Heap, start: nat, work: seq<nat>, ids: seq<nat>) {
    |work| == |ids| && NoDup(ids) && forall k :: 0 <= k < |ids| ==> work[k] == Addr(h0, start, ids[k])
  }

  lemma AgendaSize(h0: Heap, start: nat, work: seq<nat>, ids: seq<nat>)
    requires Agenda(h0, start, work, ids)
    ensures |work| == |ids| && (work == [] ==> SetOf(ids) == {})
  {
  }

  lemma AgendaNext(h0: Heap, start: nat, work: seq<nat>, ids: seq<nat>)
    requires Agenda(h0, start, work, ids) && work != []
    ensures Agenda(h0, start, work[1..], ids[1..]) && SetOf(ids[1..]) == SetOf(ids) - {ids[0]} && ids[0] in SetOf(ids)
    ensures work[0] == Addr(h0, start, ids[0])
  {
    TakeFirst(ids);
  }

  lemma AgendaPush(h0: Heap, start: nat, work: seq<nat>, ids: seq<nat>, f: nat)
    requires Agenda(h0, start, work, ids) && Fits(h0, f) && Args(h0, f) !! SetOf(ids) && f + h0[f].arity < |h0|
    ensures var args := Range(f + 1, h0[f].arity);
            Agenda(h0, start, args + work, args + ids) && SetOf(args + ids) == SetOf(ids) + Args(h0, f)
  {
    var args := Range(f + 1, h0[f].arity);
    var all := args + ids;
    forall i, j | 0 <= i < j < |all| ensures all[i] != all[j] {
      if i < |args| && j >= |args| { assert all[i] in Args(h0, f) && all[j] in SetOf(ids); }
    }
  }

  lemma AgendaFits(h0: Heap, depth: seq<nat>, start: nat, h: Heap, t: Tour, todo: set<nat>, work: seq<nat>,
        ids: seq<nat>)
    requires Touring(h0, depth, start, h, t, todo) && Agenda(h0, start, work, ids) && SetOf(ids) == todo
    ensures |work| <= |h0| + 1
  {
    hide TourOk, MarksOk;
    TourEnough(h0, depth, start, t, todo, ids);
  }

  lemma AgendaRoom(h0: Heap, depth: seq<nat>, start: nat, h: Heap, t: Tour, todo: set<nat>, work: seq<nat>,
        ids: seq<nat>, id: nat)
    requires Touring(h0, depth, start, h, t, todo) && Agenda(h0, start, work, ids) && SetOf(ids) == todo
    requires Owned(h0, t) && id in t.done
    ensures StartOk(h0, depth, start) && |work| <= Arities(h0, Reachable(h0, depth, start))
  {
    hide TourOk, MarksOk, Owned, Reachable, Arities;
    TourRoom(h0, depth, start, t, todo, ids, id);
  }

  lemma OwnedSame(h0: Heap, t: Tour, t1: Tour)
    requires Owned(h0, t) && t1.via == t.via && t1.owner == t.owner
    ensures Owned(h0, t1)
  {
    hide Arities;
  }

  lemma OwnedNew(h0: Heap, depth: seq<nat>, start: nat, h: Heap, t: Tour, todo: set<nat>, id: nat, f: nat)
    requires Touring(h0, depth, start, h, t, todo) && Owned(h0, t) && f !in t.via && Fits(h0, f)
    ensures Owned(h0, NewFun(h0, t, id, f)) && id in NewFun(h0, t, id, f).done
  {
    hide MarksOk, Owned, VisitsOk, ViaOk, DoneOk, KeysOk;
    OwnedMore(h0, depth, t, id, f);
    NewFunIs(h0, t, id, f);
  }

  lemma OwnedNone(h0: Heap)
    ensures Owned(h0, Tour(map[], map[], map[], map[], {}))
  {
    NoArities(h0, |h0|);
    var none := Tour(map[], map[], map[], map[], {});
    assert none.via.Keys == {};
  }

  /** Marks leave references and pointers as they are. */
  lemma MarksKeep(h0: Heap, depth: seq<nat>, start: nat, h: Heap, t: Tour, a: nat)
    requires MarksOk(h0, depth, start, h, t) && a < |h0|
    ensures Erase(h[a]) == h0[a] && (h[a].Ref? <==> h0[a].Ref?) && (!h[a].Fun? && !h[a].Var? ==> h[a] == h0[a])
  {
    assert MarkOk(h0, depth, start, h, t, a) && CellOk(h0, depth, a);
  }

  class Stack {
    var cells: Heap
    var trail: seq<nat>

    constructor (h: Heap)
      ensures cells == h && trail == []
    {
      cells, trail := h, [];
    }

    /** Follow references. */
    method Deref(a: nat, ghost h0: Heap, ghost depth: seq<nat>) returns (e: nat)
      requires HeapOk(h0, depth) && a < |h0| <= |cells| && !h0[a].Fun?
      requires forall x :: 0 <= x < |h0| && (cells[x].Ref? || h0[x].Ref?) ==> cells[x] == h0[x]
      ensures e == End(h0, depth, a)
    {
      e := a;
      while cells[e].Ref?
        invariant e < |h0| && !h0[e].Fun? && End(h0, depth, e) == End(h0, depth, a)
        decreases depth[e]
      {
        assert CellOk(h0, depth, e);
        e := cells[e].to;
      }
    }

    /** Mark variables and compounds as met once or more often.  Fails when the agenda cannot hold the
        arguments of a compound. */
    method MarkForDuplicate(start: nat, slots: nat, ghost h0: Heap, ghost depth: seq<nat>)
          returns (ok: bool, ghost t: Tour, ghost todo: set<nat>)
      requires StartOk(h0, depth, start) && |h0| <= |cells| && cells[..|h0|] == h0
      modifies this`cells
      ensures |cells| == |old(cells)| && cells[|h0|..] == old(cells)[|h0|..]
      ensures Touring(h0, depth, start, cells, t, todo)
      ensures if ok then todo == {} && Complete(h0, t)
              else slots <= |h0| && slots < Arities(h0, Reachable(h0, depth, start))
    {
      hide *;
      var work := [start];
      ghost var ids: seq<nat> := [|h0|];
      t := Tour(map[], map[], map[], map[], {});
      ghost var rest := cells[|h0|..];
      TourBegins(h0, depth, start, cells);
      OwnedNone(h0);
      while work != []
        invariant Agenda(h0, start, work, ids) && Touring(h0, depth, start, cells, t, SetOf(ids)) && Complete(h0, t)
        invariant |cells| == |old(cells)| && cells[|h0|..] == rest && Owned(h0, t)
        decreases Compounds(h0, |h0|) - t.via.Keys, |work|
      {
        AgendaSize(h0, start, work, ids);
        ghost var id := ids[0];
        todo := SetOf(ids);
        AgendaNext(h0, start, work, ids);
        TouringFacts(h0, depth, start, cells, t, todo, id);
        var p := work[0];
        work, ids := work[1..], ids[1..];
        p := Deref(p, h0, depth);
        GoalIs(h0, depth, start, id);
        MarkedCell(h0, depth, start, cells, t, todo, p);
        match cells[p] {
          case Var(m) =>
            if m == Virgin {
              TourNewVar(h0, depth, start, cells, t, todo, id, p);
              cells := cells[p := Var(Once)];
              CompleteSame(h0, t, t.(done := t.done + {id}, varVia := t.varVia[p := id]));
              OwnedSame(h0, t, t.(done := t.done + {id}, varVia := t.varVia[p := id]));
              t := t.(done := t.done + {id}, varVia := t.varVia[p := id]);
            } else {
              TourOldVar(h0, depth, start, cells, t, todo, id, p);
              cells := cells[p := Var(Twice)];
              CompleteSame(h0, t, t.(done := t.done + {id}));
              OwnedSame(h0, t, t.(done := t.done + {id}));
              t := t.(done := t.done + {id});
            }
          case Str(f) =>
            PointsToFun(h0, depth, start, cells, t, todo, p, f);
            if cells[f].fmark == Virgin {
              TourNewFun(h0, depth, start, cells, t, todo, id, f);
              var arity := cells[f].arity;
              CompleteMore(h0, t, id, f);
              OwnedNew(h0, depth, start, cells, t, todo, id, f);
              NewFunIs(h0, t, id, f);
              LessToMeet(h0, t, f);
              cells := cells[f := cells[f].(fmark := Once)];
              t := NewFun(h0, t, id, f);
              todo := todo - {id} + Args(h0, f);
              AgendaPush(h0, start, work, ids, f);
              AgendaFits(h0, depth, start, cells, t, todo, Range(f + 1, arity) + work, Range(f + 1, arity) + ids);
              AgendaRoom(h0, depth, start, cells, t, todo, Range(f + 1, arity) + work, Range(f + 1, arity) + ids, id);
              if |work| + arity > slots { return false, t, todo; }
              work, ids := Range(f + 1, arity) + work, Range(f + 1, arity) + ids;
              assert SetOf(ids) == todo;
            } else {
              TourOldFun(h0, depth, start, cells, t, todo, id, f);
              cells := cells[f := cells[f].(fmark := Twice)];
              CompleteSame(h0, t, t.(done := t.done + {id}));
              OwnedSame(h0, t, t.(done := t.done + {id}));
              t := t.(done := t.done + {id});
            }
          case _ =>
            TourConstant(h0, depth, start, cells, t, todo, id);
            CompleteSame(h0, t, t.(done := t.done + {id}));
            OwnedSame(h0, t, t.(done := t.done + {id}));
            t := t.(done := t.done + {id});
        }
      }
      AgendaSize(h0, start, work, ids);
      return true, t, {};
    }

    /** Follow references, but not the one that leads to the copy of a variable. */
    method FollowToCopy(a: nat, ghost s: Setting, ghost c: Copy, ghost todo: set<nat>, ghost id: nat)
          returns (from: nat)
      requires Copying(s, c, cells, todo) && id in todo && a < |s.h0| == |s.depth| && !s.h0[a].Fun?
               && HeapOk(s.h0, s.depth)
      requires StartOk(s.h0, s.depth, s.start) && IdOk(s.h0, id) && End(s.h0, s.depth, a) ==
               Goal(s.h0, s.depth, s.start, id)
      ensures from < |s.h0| && from < |cells| && !s.h0[from].Fun? && End(s.h0, s.depth, from) ==
              Goal(s.h0, s.depth, s.start, id)
      ensures cells[from].Ref? ==> cells[from].to < |cells| && cells[cells[from].to] == Marker
    {
      hide *;
      from := a;
      SourceCell(s, c, cells, todo, from);
      ghost var h := cells;
      while cells[from].Ref? && cells[cells[from].to] != Marker
        invariant cells == h && from < |s.h0| && from < |cells| && !s.h0[from].Fun? && HeapOk(s.h0, s.depth)
        invariant End(s.h0, s.depth, from) == Goal(s.h0, s.depth, s.start, id)
        invariant |s.depth| == |s.h0| && (cells[from].Ref? ==> cells[from].to < |cells|)
        decreases s.depth[from]
      {
        FollowsSource(s, c, cells, todo, from);
        from := cells[from].to;
        SourceCell(s, c, cells, todo, from);
      }
    }

    /** The cells for the copy of a compound; if it is shared it refers to them from now on. */
    method CopyBlock(f: nat, to: nat, ghost s: Setting, ghost c: Copy, ghost id: nat)
      requires id in c.img && c.img[id] == to < |cells| && Fits(s.h0, f) && f < |s.hm| && f < |cells| && cells[f].Fun?
      requires cells[f].name == s.h0[f].name && cells[f].arity == s.h0[f].arity && s.h0[f].fmark == Virgin
      requires cells[f].fmark == Twice <==> Shared(s.hm[f])
      modifies this
      ensures cells == WithFun(s, c, old(cells), id, f)
      ensures trail == if Shared(s.hm[f]) then old(trail) + [f] else old(trail)
    {
      hide *;
      WithFunBuilds(s, c, cells, id, f);
      var shared, arity, at := cells[f].fmark == Twice, cells[f].arity, |cells|;
      cells := cells + [Fun(cells[f].name, arity, Virgin)] + seq(arity, _ => Var(Virgin));
      if shared {
        cells := cells[f := Ref(at)];
        trail := trail + [f];
      }
      cells := cells[to := Str(at)];
    }

    /** Copy what the tour marked.  Shared compounds and variables of the source are made to refer to
        their copies, and their addresses are kept on the trail.  Fails when the stack has no room for a
        compound or the agenda has none for its arguments. */
    method CopyTerm(start: nat, limit: nat, slots: nat, ghost s: Setting)
          returns (ok: bool, ghost c: Copy, ghost todo: set<nat>)
      requires Sound(s) && s.start == start && |cells| == |s.h0| + 1 && trail == []
      requires forall a :: 0 <= a < |s.h0| ==> cells[a] == s.hm[a]
      modifies this
      ensures Copying(s, c, cells, todo) && TrailOk(s, c, trail) && Covered(s, c, cells)
      ensures StartOk(s.h0, s.depth, start)
      ensures if ok then todo == {} else limit <= 2 * |s.h0| || slots <= |s.h0|
      ensures ok ==> |cells| == |s.h0| + 1 + CopySize(s.h0, s.depth, start)
      ensures ok && Reachable(s.h0, s.depth, start) != {} ==> |cells| <= limit
      ensures !ok && Arities(s.h0, Reachable(s.h0, s.depth, start)) <= slots ==>
                limit < |s.h0| + 1 + CopySize(s.h0, s.depth, start)
    {
      hide *;
      var work: seq<(nat, nat)> := [(start, |cells| - 1)];
      ghost var ids: seq<nat> := [|s.h0|];
      c := Copy(map[], map[], map[|s.h0| := |s.h0|], {});
      CopyStarts(s, cells);
      RoomStarts(s, c, cells, limit);
      while work != []
        invariant Pairs(s, c, work, ids) && Copying(s, c, cells, SetOf(ids)) && TrailOk(s, c, trail)
                  && Room(s, c, cells, limit)
        decreases s.t.via.Keys - c.phi.Keys, |work|
      {
        PairsSize(s, c, work, ids);
        ghost var id := ids[0];
        todo := SetOf(ids);
        PairsNext(s, c, work, ids);
        VisitFacts(s, c, cells, todo, id);
        var (from, to) := work[0];
        work, ids := work[1..], ids[1..];
        GoalIs(s.h0, s.depth, s.start, id);
        from := FollowToCopy(from, s, c, todo, id);
        GoalCell(s, c, cells, todo, id, from);
        if cells[from].Ref? {
          CopyVarAgain(s, c, cells, todo, id, from);
          SameBlocks(s, c, cells, cells[to := Ref(cells[from].to)], id, trail, work, ids, limit);
          cells := cells[to := Ref(cells[from].to)];
          c := c.(done := c.done + {id});
        } else if cells[from].Var? {
          var shared := cells[from].mark == Twice;
          NewVarFacts(s, c, cells, todo, id, from);
          CopyNewVar(s, c, cells, todo, id, from);
          TrailVar(s, c, cells, todo, trail, id, from);
          ghost var c1 := c.(done := c.done + {id}, psi := c.psi[from := id]);
          PairsSame(s, c, c1, work, ids);
          WithVarIs(s, c, cells, id, from);
          RoomSame(s, c, c1, cells, WithVar(s, c, cells, id, from), limit);
          if shared {
            cells := cells[to := Marker][from := Ref(to)];
            trail := trail + [from];
          } else {
            cells := cells[to := Var(Virgin)];
          }
          c := c1;
        } else if cells[from].Str? {
          var f := cells[from].f;
          FunCell(s, c, cells, todo, id, from, f);
          if cells[f].Ref? {
            CopyAgain(s, c, cells, todo, id, f);
            SameBlocks(s, c, cells, cells[to := Str(cells[f].to)], id, trail, work, ids, limit);
            cells := cells[to := Str(cells[f].to)];
            c := c.(done := c.done + {id});
          } else {
            var arity, at := cells[f].arity, |cells|;
            NewBlock(s, c, cells, todo, id, f, trail, work, ids, limit);
            if at + 1 + arity > limit { return false, c, todo; }
            ghost var c1 := WithBlock(s, c, cells, id, f);
            CopyBlock(f, to, s, c, id);
            c := c1;
            todo := todo - {id} + Args(s.h0, f);
            if |work| + arity > slots { return false, c, todo; }
            work, ids := PairRange(f + 1, at + 1, arity) + work, Range(f + 1, arity) + ids;
          }
        } else {
          ConstantCell(s, c, cells, todo, id, from);
          CopyConstant(s, c, cells, todo, id);
          SameBlocks(s, c, cells, cells[to := cells[from]], id, trail, work, ids, limit);
          cells := cells[to := cells[from]];
          c := c.(done := c.done + {id});
        }
      }
      PairsSize(s, c, work, ids);
      RoomHas(s, c, cells, limit);
      CopyTakes(s, c, cells);
      AllCopied(s, c, cells);
      return true, c, {};
    }

    /** Undo the trail: shared compounds get their functor back, with a mark for the second tour, and
        shared variables are variables again, in the source and in the copy. */
    method ExitCyclicCopy(ghost s: Setting, ghost c: Copy, ghost todo: set<nat>)
      requires Copying(s, c, cells, todo) && TrailOk(s, c, trail)
      modifies this
      ensures trail == [] && SourceUndone(s, c, cells, []) && CopyUndone(s, c, old(cells), cells, [])
    {
      hide *;
      ghost var h, all := cells, trail;
      UndoBegins(s, c, cells, todo, trail);
      while trail != []
        invariant trail <= all && SourceUndone(s, c, cells, trail) && CopyUndone(s, c, h, cells, trail)
        decreases |trail|
      {
        var p := trail[|trail| - 1];
        if p in c.phi { UndoFun(s, c, h, cells, todo, all, trail); } else { UndoVar(s, c, h, cells, todo, all, trail); }
        LastLeft(all, trail, s, c);
        var p2 := cells[p].to;
        trail := trail[..|trail| - 1];
        if cells[p2] == Marker {
          cells := cells[p2 := Var(Virgin)];
          cells := cells[p := Var(Virgin)];
        } else {
          cells := cells[p := cells[p2].(fmark := Once)];
        }
      }
    }

    /** Take the marks away. */
    method CpUnmark(start: nat, ghost h0: Heap, ghost depth: seq<nat>, ghost t: Tour, ghost todo: set<nat>)
      requires Unmarking(h0, depth, start, cells, t, todo, [|h0|]) && Due(h0, start, [start], [|h0|])
      modifies this`cells
      ensures |h0| <= |cells| == |old(cells)| && cells[..|h0|] == h0
      ensures forall x: nat :: |h0| <= x < |cells| ==> cells[x] == old(cells)[x]
    {
      hide *;
      var work := [start];
      ghost var ids: seq<nat> := [|h0|];
      ghost var h := cells;
      UnmarkingHas(h0, depth, start, cells, t, todo, ids);
      while work != []
        invariant Due(h0, start, work, ids) && Unmarking(h0, depth, start, cells, t, todo, ids) && |h0| <= |cells| ==
                  |h|
        invariant forall x: nat :: |h0| <= x < |cells| ==> cells[x] == h[x]
        decreases MarkedCompounds(cells, |h0|), |work|
      {
        UnmarkingHas(h0, depth, start, cells, t, todo, ids);
        DueNext(h0, depth, start, work, ids);
        var p := Deref(work[0], h0, depth);
        GoalIs(h0, depth, start, ids[0]);
        AboutCell(h0, depth, start, cells, ids[0]);
        ghost var g := About(h0, depth, start, ids[0]);
        EraseIs(cells[g]);
        work := work[1..];
        if cells[p].Str? && cells[cells[p].f].fmark != Virgin {
          var f := cells[p].f;
          ghost var args := Range(f + 1, cells[f].arity);
          ArgsInRange(h0, f);
          UnmarkStep(h0, depth, start, cells, t, todo, ids, args);
          UnmarkFewer(cells, |h0|, f);
          DueMore(h0, depth, start, work, ids[1..], f);
          cells := cells[f := cells[f].(fmark := Virgin)];
          work := Range(f + 1, cells[f].arity) + work;
          ids := args + ids[1..];
        } else {
          UnmarkStep(h0, depth, start, cells, t, todo, ids, []);
          UnmarkSame(cells, |h0|, g);
          assert [] + ids[1..] == ids[1..];
          assert cells[p].Var? || cells[g := Erase(cells[g])] == cells;
          if cells[p].Var? {
            cells := cells[p := Var(Virgin)];
          }
          ids := ids[1..];
        }
      }
      DueDone(h0, start, ids);
      UnmarkEnds(h0, depth, start, cells, t, todo);
    }

    /** Copy the term at `a` to the last cell.  Fails only when space runs out; whether it fails or not,
        the source is what it was. */
    method DoCopyTerm(a: nat, limit: nat, slots: nat, ghost depth: seq<nat>)
          returns (ok: bool, ghost phi: map<nat, nat>, ghost vars: map<nat, nat>)
      requires trail == [] && cells != [] && HeapOk(cells[..|cells| - 1], depth)
      requires a < |cells| - 1 && !cells[a].Fun? && cells[|cells| - 1] == Var(Virgin)
      modifies this
      ensures trail == [] && |old(cells)| <= |cells|
      ensures cells[..|old(cells)| - 1] == old(cells[..|cells| - 1])
      ensures ok ==> IsCopy(old(cells[..|cells| - 1]), depth, a, cells, phi, vars)
      ensures ok ==> HeapOk(cells, DepthWith(depth, cells))
      ensures !ok ==> limit < 2 * |old(cells)| - 1 || slots < |old(cells)|
      ensures var h0 := old(cells[..|cells| - 1]);
              && StartOk(h0, depth, a)
              && (!h0[Walk(h0, depth, a, [])].Str? ==> ok && |cells| == |old(cells)|)
              && (ok ==> |cells| == |old(cells)| + CopySize(h0, depth, a))
              && (h0[Walk(h0, depth, a, [])].Str? && Arities(h0, Reachable(h0, depth, a)) <= slots ==>
                    (ok <==> |old(cells)| + CopySize(h0, depth, a) <= limit))
    {
      hide *;
      var to := |cells| - 1;
      ghost var h0 := cells[..to];
      phi, vars := map[], map[];
      StartFacts(h0, depth, a, cells);
      var p := Deref(a, h0, depth);
      EndFacts(h0, depth, a, p);
      RootFacts(h0, depth, a, p);
      if cells[p].Var? {
        CopyOfVar(h0, depth, a, cells, p);
        return true, map[], map[p := to];
      } else if cells[p].Str? {
        ghost var t, todo;
        ok, t, todo := MarkForDuplicate(p, slots, h0, depth);
        if !ok {
          MarkedUnmarking(h0, depth, p, cells, t, todo);
          CpUnmark(p, h0, depth, t, todo);
          return false, phi, vars;
        }
        ghost var s := Setting(h0, depth, p, cells, t);
        ghost var c: Copy;
        SettingSound(s);
        ok, c, todo := CopyTerm(p, limit, slots, s);
        ghost var h := cells;
        ghost var trailed := trail;
        ExitCyclicCopy(s, c, todo);
        ghost var h1 := cells;
        SameLength(s, c, h, h1);
        CopyingHas(s, c, h, todo);
        HeapLong(s, c, h);
        UndoneUnmarking(s, c, h, cells, todo);
        CpUnmark(p, h0, depth, t, {});
        if ok {
          CopyIsMade(s, c, h, h1, trailed);
          CopyStaysMade(s, c, h, h1, cells);
          MadeIsCopy(s, c, cells, a);
          CopyHeapOk(s, c, cells);
          phi, vars := c.phi, VarsOf(c);
        }
        return ok, phi, vars;
      } else {
        CopyOfConstant(h0, depth, a, cells, p);
        cells := cells[to := cells[p]];
        return true, map[], map[];
      }
    }
  }

  lemma TourBegins(h0: Heap, depth: seq<nat>, start: nat, h: Heap)
    requires StartOk(h0, depth, start) && |h0| <= |h| && h[..|h0|] == h0
    ensures var t := Tour(map[], map[], map[], map[], {});
            Touring(h0, depth, start, h, t, SetOf([|h0|])) && Complete(h0, t) && Agenda(h0, start, [start], [|h0|])
  {
    var t := Tour(map[], map[], map[], map[], {});
    forall a | 0 <= a < |h0| ensures MarkOk(h0, depth, start, h, t, a) { assert h[a] == h[..|h0|][a]; }
  }

  lemma CompleteSame(h0: Heap, t: Tour, t1: Tour)
    requires Complete(h0, t) && t1.via == t.via && t1.owner == t.owner
    ensures Complete(h0, t1)
  {
  }

  lemma TouringFacts(h0: Heap, depth: seq<nat>, start: nat, h: Heap, t: Tour, todo: set<nat>, id: nat)
    requires Touring(h0, depth, start, h, t, todo) && id in todo
    ensures StartOk(h0, depth, start) && HeapOk(h0, depth) && |h0| <= |h| && IdOk(h0, id)
    ensures Addr(h0, start, id) < |h0| && !h0[Addr(h0, start, id)].Fun?
    ensures forall x :: 0 <= x < |h0| && (h[x].Ref? || h0[x].Ref?) ==> h[x] == h0[x]
  {
    hide TourOk, MarkOk;
    TourStart(h0, depth, start, t, todo);
    TodoOk(h0, depth, start, t, todo, id);
    forall x | 0 <= x < |h0| && (h[x].Ref? || h0[x].Ref?)
        ensures h[x] == h0[x] { MarksKeep(h0, depth, start, h, t, x); }
  }

  lemma MarkedCell(h0: Heap, depth: seq<nat>, start: nat, h: Heap, t: Tour, todo: set<nat>, a: nat)
    requires Touring(h0, depth, start, h, t, todo) && a < |h0| && !h0[a].Ref? && !h0[a].Fun?
    ensures a < |h| && (h[a].Con? ==> h0[a] == h[a]) && (h[a].Str? ==> h0[a] == h[a]) && !h[a].Ref? && !h[a].Marker?
            && !h[a].Fun?
  {
    hide TourOk, MarkOk;
    TourStart(h0, depth, start, t, todo);
    assert CellOk(h0, depth, a);
    MarksKeep(h0, depth, start, h, t, a);
  }

  lemma PointsToFun(h0: Heap, depth: seq<nat>, start: nat, h: Heap, t: Tour, todo: set<nat>, a: nat, f: nat)
    requires Touring(h0, depth, start, h, t, todo) && a < |h0| && h0[a] == Str(f)
    ensures f < |h0| && h0[f].Fun? && f < |h| && h[f].Fun? && h[f].arity == h0[f].arity && f + h0[f].arity < |h0|
  {
    hide TourOk, MarkOk;
    TourStart(h0, depth, start, t, todo);
    assert CellOk(h0, depth, a) && CellOk(h0, depth, f);
    MarksKeep(h0, depth, start, h, t, f);
  }

  lemma LessToMeet(h0: Heap, t: Tour, f: nat)
    requires f < |h0| && h0[f].Fun? && f !in t.via
    ensures Compounds(h0, |h0|) - (t.via.Keys + {f}) < Compounds(h0, |h0|) - t.via.Keys
  {
    assert f in Compounds(h0, |h0|) - t.via.Keys;
  }

  // ----- the copy loop -----

  /** The cells still to copy and where to, with the visits they stand for. */
  ghost predicate Pairs(s: Setting, c: Copy, work: seq<(nat, nat)>, ids: seq<nat>) {
    && |work| == |ids| && NoDup(ids)
    && forall k :: 0 <= k < |ids| ==> ids[k] in c.img && work[k] == (Addr(s.h0, s.start, ids[k]), c.img[ids[k]])
  }

  lemma PairsSize(s: Setting, c: Copy, work: seq<(nat, nat)>, ids: seq<nat>)
    requires Pairs(s, c, work, ids)
    ensures |work| == |ids| && (work == [] ==> SetOf(ids) == {})
  {
  }

  lemma PairsNext(s: Setting, c: Copy, work: seq<(nat, nat)>, ids: seq<nat>)
    requires Pairs(s, c, work, ids) && work != []
    ensures Pairs(s, c, work[1..], ids[1..]) && SetOf(ids[1..]) == SetOf(ids) - {ids[0]} && ids[0] in SetOf(ids)
    ensures ids[0] in c.img && work[0] == (Addr(s.h0, s.start, ids[0]), c.img[ids[0]])
  {
    TakeFirst(ids);
  }

  lemma PairsSame(s: Setting, c: Copy, c1: Copy, work: seq<(nat, nat)>, ids: seq<nat>)
    requires Pairs(s, c, work, ids) && c1.img == c.img
    ensures Pairs(s, c1, work, ids)
  {
  }

  function PairRange(from: nat, to: nat, n: nat): (r: seq<(nat, nat)>)
    ensures |r| == n && forall k :: 0 <= k < n ==> r[k] == (from + k, to + k)
    decreases n
  {
    if n == 0 then [] else [(from, to)] + PairRange(from + 1, to + 1, n - 1)
  }

  lemma PairsPush(s: Setting, c: Copy, h: Heap, todo: set<nat>, id: nat, f: nat, work: seq<(nat, nat)>, ids: seq<nat>)
    requires Pairs(s, c, work, ids) && SetOf(ids) == todo - {id} && Fits(s.h0, f) && f < |s.h0| && s.h0[f].Fun?
             && Args(s.h0, f) !! todo
    requires Sound(s) && StartOk(s.h0, s.depth, s.start) && ImgOk(s, c, todo) && f in s.t.via && f !in c.phi
    ensures var arity := s.h0[f].arity;
            && Pairs(s, WithBlock(s, c, h, id, f), PairRange(f + 1, |h| + 1, arity) + work, Range(f + 1, arity) + ids)
            && SetOf(Range(f + 1, arity) + ids) == todo - {id} + Args(s.h0, f)
  {
    hide *;
    var arity := s.h0[f].arity;
    var args, pairs, c1 := Range(f + 1, arity), PairRange(f + 1, |h| + 1, arity), WithBlock(s, c, h, id, f);
    ArgsAre(s.h0, f, ids);
    ArgsUnplaced(s, c, todo, f);
    WithBlockIs(s, c, h, id, f);
    PairsKept(s, c, c1, work, ids, Args(s.h0, f));
    forall k | 0 <= k < |args| ensures args[k] in c1.img && pairs[k] ==
        (Addr(s.h0, s.start, args[k]), c1.img[args[k]]) {
      assert args[k] in args && args[k] in Args(s.h0, f);
      ArgPlace(s.h0, s.start, args[k]);
    }
    PairsJoin(s, c1, pairs, args, work, ids);
  }

  lemma ArgPlace(h0: Heap, start: nat, a: nat)
    requires a < |h0|
    ensures Addr(h0, start, a) == a
  {
  }

  lemma PairsKept(s: Setting, c: Copy, c1: Copy, work: seq<(nat, nat)>, ids: seq<nat>, due: set<nat>)
    requires Pairs(s, c, work, ids) && forall a :: a in c.img && a !in due ==> a in c1.img && c1.img[a] == c.img[a]
    requires forall a :: a in due ==> a !in c.img
    ensures Pairs(s, c1, work, ids)
  {
  }

  lemma PairsJoin(s: Setting, c1: Copy, pairs: seq<(nat, nat)>, args: seq<nat>, work: seq<(nat, nat)>, ids: seq<nat>)
    requires Pairs(s, c1, work, ids) && |pairs| == |args| && (forall a :: a in args ==> a !in ids)
    requires forall i, j :: 0 <= i < j < |args| ==> args[i] != args[j]
    requires forall k :: 0 <= k < |args| ==>
               args[k] in c1.img && pairs[k] == (Addr(s.h0, s.start, args[k]), c1.img[args[k]])
    ensures Pairs(s, c1, pairs + work, args + ids)
  {
    hide Addr;
    var all := args + ids;
    forall i, j | 0 <= i < j < |all| ensures all[i] != all[j] {
      if i < |args| && j >= |args| { assert all[i] in args && all[j] in ids; }
    }
  }

  lemma PairsFit(s: Setting, c: Copy, h: Heap, todo: set<nat>, work: seq<(nat, nat)>, ids: seq<nat>, id: nat,
        limit: nat)
    requires Copying(s, c, h, todo) && Pairs(s, c, work, ids) && SetOf(ids) == todo
    requires Room(s, c, h, limit) && id in c.done
    ensures |work| <= |s.h0| + 1 && Covered(s, c, h)
    ensures StartOk(s.h0, s.depth, s.start) && |work| <= Arities(s.h0, Reachable(s.h0, s.depth, s.start))
  {
    hide Sound, ImgOk, FullOk, PhiOk, PsiOk, SourceOk, CopiesOk, Room, Reachable, Arities, Covered;
    CopyingHas(s, c, h, todo);
    RoomHas(s, c, h, limit);
    AgendaEnough(s, c, todo, ids);
    CopyRoom(s, c, h, todo, ids, id);
  }

  /** A visit that makes a block, if there is room. */
  lemma NewBlock(s: Setting, c: Copy, h: Heap, todo: set<nat>, id: nat, f: nat, trail: seq<nat>,
        work: seq<(nat, nat)>, ids: seq<nat>, limit: nat)
    requires Pairs(s, c, work, ids) && Copying(s, c, h, todo) && TrailOk(s, c, trail) && Room(s, c, h, limit)
    requires id in todo && IdOk(s.h0, id) && SetOf(ids) == todo - {id} && StartOk(s.h0, s.depth, s.start)
    requires s.h0[Goal(s.h0, s.depth, s.start, id)] == Str(f) && Fits(s.h0, f) && f < |s.h0| && s.h0[f].Fun?
    requires f in s.t.via && f !in c.phi && f < |s.hm| && f < |h|
    requires h[f].Fun? && h[f].name == s.h0[f].name && h[f].arity == s.h0[f].arity
    ensures id in c.img && c.img[id] < |h| && Covered(s, c, h)
    ensures var arity := h[f].arity;
            var c1, h1, todo1 := WithBlock(s, c, h, id, f), WithFun(s, c, h, id, f), todo - {id} + Args(s.h0, f);
            var work1, ids1 := PairRange(f + 1, |h| + 1, arity) + work, Range(f + 1, arity) + ids;
            && s.t.via.Keys - c1.phi.Keys < s.t.via.Keys - c.phi.Keys
            && |h| + 1 + arity <= 2 * |s.h0| + 1 && |h| + 1 + arity <= |s.h0| + 1 + CopySize(s.h0, s.depth, s.start)
            && (|h| + 1 + arity <= limit ==>
                  Pairs(s, c1, work1, ids1) && SetOf(ids1) == todo1 && Copying(s, c1, h1, todo1)
                      && Room(s, c1, h1, limit)
                  && TrailOk(s, c1, if Shared(s.hm[f]) then trail + [f] else trail) && Covered(s, c1, h1)
                  && |work1| <= |s.h0| + 1 && |work1| <= Arities(s.h0, Reachable(s.h0, s.depth, s.start)))
  {
    hide *;
    CopyingHas(s, c, h, todo);
    CopyNewFun(s, c, h, todo, id, f);
    TrailFun(s, c, h, todo, trail, id, f);
    LessToCopy(s, c, h, id, f);
    RoomMore(s, c, h, todo, id, f, limit);
    RoomHas(s, c, h, limit);
    PairsPush(s, c, h, todo, id, f, work, ids);
    var arity := h[f].arity;
    if |h| + 1 + arity <= limit {
      PairsFit(s, WithBlock(s, c, h, id, f), WithFun(s, c, h, id, f), todo - {id} + Args(s.h0, f),
               PairRange(f + 1, |h| + 1, arity) + work, Range(f + 1, arity) + ids, id, limit);
    }
  }

  /** A visit that makes no block. */
  lemma SameBlocks(s: Setting, c: Copy, h: Heap, h1: Heap, id: nat, trail: seq<nat>, work: seq<(nat, nat)>,
        ids: seq<nat>, limit: nat)
    requires Pairs(s, c, work, ids) && TrailOk(s, c, trail) && Room(s, c, h, limit) && |h1| == |h|
    ensures var c1 := c.(done := c.done + {id});
            Pairs(s, c1, work, ids) && TrailOk(s, c1, trail) && Room(s, c1, h1, limit)
  {
    hide *;
    var c1 := c.(done := c.done + {id});
    PairsSame(s, c, c1, work, ids);
    TrailSame(s, c, c1, trail);
    RoomSame(s, c, c1, h, h1, limit);
  }

  /** The copy so far takes the space it should, and no more than there is. */
  ghost predicate Room(s: Setting, c: Copy, h: Heap, limit: nat) {
    Covered(s, c, h) && Sized(s, c, h) && Counted(s, c) && (c.phi.Keys != {} ==> |h| <= limit)
  }

  lemma RoomHas(s: Setting, c: Copy, h: Heap, limit: nat)
    requires Room(s, c, h, limit)
    ensures Covered(s, c, h) && Sized(s, c, h) && Counted(s, c) && (c.phi.Keys != {} ==> |h| <= limit)
  {
    hide Covered, Counted;
  }

  lemma RoomStarts(s: Setting, c: Copy, h: Heap, limit: nat)
    requires c == Copy(map[], map[], map[|s.h0| := |s.h0|], {}) && Covered(s, c, h) && Sized(s, c, h)
    ensures Room(s, c, h, limit)
  {
    NoArities(s.h0, |s.h0|);
    assert c.phi.Keys == {};
    assert |c.img| == 1;
  }

  lemma RoomSame(s: Setting, c: Copy, c1: Copy, h: Heap, h1: Heap, limit: nat)
    requires Room(s, c, h, limit) && c1.phi == c.phi && c1.img == c.img && |h1| == |h|
    ensures Room(s, c1, h1, limit)
  {
    hide Covered, Arities;
    CoveredSame(s, c, c1, h, h1);
  }

  /** The space and the agenda entries after a compound was added, whether they are there or not. */
  lemma RoomMore(s: Setting, c: Copy, h: Heap, todo: set<nat>, id: nat, f: nat, limit: nat)
    requires Room(s, c, h, limit) && Copying(s, c, h, todo) && Fits(s.h0, f) && f in s.t.via && f !in c.phi
    requires f < |s.hm| && f < |h| && id in c.img && c.img[id] < |h|
    requires Copying(s, WithBlock(s, c, h, id, f), WithFun(s, c, h, id, f), todo - {id} + Args(s.h0, f))
    ensures StartOk(s.h0, s.depth, s.start) && id in WithBlock(s, c, h, id, f).done
    ensures var size := |h| + 1 + s.h0[f].arity;
            && size <= 2 * |s.h0| + 1 && size <= |s.h0| + 1 + CopySize(s.h0, s.depth, s.start)
            && (size <= limit ==> Room(s, WithBlock(s, c, h, id, f), WithFun(s, c, h, id, f), limit))
  {
    hide *;
    var c1, h1, todo1 := WithBlock(s, c, h, id, f), WithFun(s, c, h, id, f), todo - {id} + Args(s.h0, f);
    RoomHas(s, c, h, limit);
    ArgsNew(s, c, h, todo, f);
    SizedMore(s, c, h, h1, id, f);
    CountedMore(s, c, h, id, f);
    CoveredMore(s, c, h, h1, id, f);
    SpaceEnough(s, c1, h1, todo1);
    CopyFits(s, c1, h1, todo1);
    WithBlockIs(s, c, h, id, f);
    if |h1| <= limit { RoomIs(s, c1, h1, limit); }
  }

  lemma RoomIs(s: Setting, c: Copy, h: Heap, limit: nat)
    requires Covered(s, c, h) && Sized(s, c, h) && Counted(s, c) && |h| <= limit
    ensures Room(s, c, h, limit)
  {
    hide Covered, Sized, Counted;
  }

  lemma ArgsNew(s: Setting, c: Copy, h: Heap, todo: set<nat>, f: nat)
    requires Copying(s, c, h, todo) && f in s.t.via && f !in c.phi && Fits(s.h0, f)
    ensures forall a :: a in Args(s.h0, f) ==> a !in c.img
  {
    hide *;
    CopyingHas(s, c, h, todo);
    ArgsUnplaced(s, c, todo, f);
  }

  lemma ArgsAre(h0: Heap, f: nat, ids: seq<nat>)
    requires Fits(h0, f)
    ensures SetOf(Range(f + 1, h0[f].arity) + ids) == Args(h0, f) + SetOf(ids)
    ensures forall a :: a in Range(f + 1, h0[f].arity) <==> a in Args(h0, f)
    ensures forall a :: a in Args(h0, f) ==> f < a
    ensures forall a :: a in SetOf(ids) <==> a in ids
  {
  }

  lemma CopyStarts(s: Setting, h: Heap)
    requires Sound(s) && |h| == |s.h0| + 1 && forall a :: 0 <= a < |s.h0| ==> h[a] == s.hm[a]
    ensures var c := Copy(map[], map[], map[|s.h0| := |s.h0|], {});
            Copying(s, c, h, SetOf([|s.h0|])) && TrailOk(s, c, []) && Covered(s, c, h) && Sized(s, c, h)
                && Pairs(s, c, [(s.start, |h| - 1)], [|s.h0|])
  {
    SoundStart(s);
    HmLong(s);
    var c := Copy(map[], map[], map[|s.h0| := |s.h0|], {});
    StartState(s, c, h);
    hide *;
    CopyingIs(s, c, h, SetOf([|s.h0|]));
  }

  lemma StartState(s: Setting, c: Copy, h: Heap)
    requires StartOk(s.h0, s.depth, s.start) && |h| == |s.h0| + 1 && |s.h0| <= |s.hm| && forall a ::
             0 <= a < |s.h0| ==> h[a] == s.hm[a]
    requires c == Copy(map[], map[], map[|s.h0| := |s.h0|], {})
    ensures ImgOk(s, c, SetOf([|s.h0|])) && FullOk(s, c) && PhiOk(s, c, h) && PsiOk(s, c) && SourceOk(s, c, h)
            && CopiesOk(s, c, h)
    ensures TrailOk(s, c, []) && Covered(s, c, h) && Sized(s, c, h) && Pairs(s, c, [(s.start, |h| - 1)], [|s.h0|])
  {
    hide StartOk, BlockOk, Goal, CopiedAt, PsiAt;
    assert forall id :: id in c.img ==> Placed(s, c, id);
    assert |c.img| == 1;
  }

  lemma TrailSame(s: Setting, c: Copy, c1: Copy, trail: seq<nat>)
    requires TrailOk(s, c, trail) && c1.phi == c.phi && c1.psi == c.psi
    ensures TrailOk(s, c1, trail)
  {
  }

  lemma TrailMore(s: Setting, c: Copy, c1: Copy, trail: seq<nat>, a: nat)
    requires TrailOk(s, c, trail) && a < |s.h0| && a !in c.phi && a !in c.psi
    requires (c1.phi == c.phi[a := if a in c1.phi then c1.phi[a] else 0] && c1.psi == c.psi)
             || (c1.phi == c.phi && a in c1.psi && c1.psi == c.psi[a := c1.psi[a]])
    ensures TrailOk(s, c1, if Shared(s.hm[a]) then trail + [a] else trail)
  {
    assert a !in trail;
  }

  lemma TrailVar(s: Setting, c: Copy, h: Heap, todo: set<nat>, trail: seq<nat>, id: nat, v: nat)
    requires TrailOk(s, c, trail) && Copying(s, c, h, todo) && v < |s.h0| && s.h0[v].Var? && v !in c.psi
    ensures v < |s.hm| && TrailOk(s, c.(done := c.done + {id}, psi := c.psi[v := id]), if Shared(s.hm[v])
            then trail + [v] else trail)
  {
    hide TrailOk;
    CopyingHas(s, c, h, todo);
    VarNoBlock(s, c, h, v);
    HmLong(s);
    TrailMore(s, c, c.(done := c.done + {id}, psi := c.psi[v := id]), trail, v);
  }

  lemma TrailFun(s: Setting, c: Copy, h: Heap, todo: set<nat>, trail: seq<nat>, id: nat, f: nat)
    requires TrailOk(s, c, trail) && Copying(s, c, h, todo) && Fits(s.h0, f) && f !in c.phi
    ensures f < |s.hm| && TrailOk(s, WithBlock(s, c, h, id, f), if Shared(s.hm[f]) then trail + [f] else trail)
  {
    hide TrailOk, WithBlock;
    CopyingHas(s, c, h, todo);
    FunNoVar(s, c, f);
    HmLong(s);
    WithBlockIs(s, c, h, id, f);
    TrailMore(s, c, WithBlock(s, c, h, id, f), trail, f);
  }

  lemma VisitFacts(s: Setting, c: Copy, h: Heap, todo: set<nat>, id: nat)
    requires Copying(s, c, h, todo) && id in todo
    ensures Sound(s) && StartOk(s.h0, s.depth, s.start) && HeapOk(s.h0, s.depth) && |s.depth| == |s.h0|
            && IdOk(s.h0, id) && |s.h0| < |h|
    ensures Addr(s.h0, s.start, id) < |s.h0| && !s.h0[Addr(s.h0, s.start, id)].Fun?
    ensures id in c.img && |s.h0| <= c.img[id] < |h| && ImgOk(s, c, todo)
  {
    hide Sound, ImgOk, FullOk, PhiOk, PsiOk, CopiesOk;
    CopyingHas(s, c, h, todo);
    PlaceFacts(s, c, h, todo, id);
    SameVisits(s, c, todo, id);
  }

  /** A source cell during the copy is the original one, but for marks and references to copies. */
  lemma SourceCell(s: Setting, c: Copy, h: Heap, todo: set<nat>, a: nat)
    requires Copying(s, c, h, todo) && a < |s.h0| && !s.h0[a].Fun?
    ensures a < |h| && h[a] == Now(s, c, a) && !h[a].Marker?
    ensures h[a].Ref? ==> h[a].to < |h|
    ensures h[a].Ref? && s.h0[a].Ref? ==> h[a] == s.h0[a]
    ensures s.h0[a].Ref? ==> h[a].Ref?
    ensures h[a].Ref? && !s.h0[a].Ref? ==>
              s.h0[a].Var? && a in c.psi && Shared(s.hm[a]) && c.psi[a] in c.img && h[a].to == c.img[c.psi[a]]
  {
    hide Sound, ImgOk, FullOk, PhiOk, PsiOk, CopiesOk;
    CopyingHas(s, c, h, todo);
    SourceMark(s, a);
    NoBlockHere(s, c, h, a);
    if a in c.psi {
      PsiPlace(s, c, h, todo, a);
    }
  }

  lemma SourceMark(s: Setting, a: nat)
    requires Sound(s) && a < |s.h0|
    ensures a < |s.hm| && Erase(s.hm[a]) == s.h0[a] && (s.hm[a].Ref? <==> s.h0[a].Ref?)
            && (s.h0[a].Ref? ==> s.hm[a] == s.h0[a] && s.h0[a].to < |s.h0|)
    ensures !s.hm[a].Marker? && (s.hm[a].Fun? <==> s.h0[a].Fun?) && (s.hm[a].Var? <==> s.h0[a].Var?)
    ensures !s.hm[a].Fun? && !s.hm[a].Var? ==> s.hm[a] == s.h0[a]
  {
    hide TourOk, MarkOk;
    TourStart(s.h0, s.depth, s.start, s.t, {});
    MarksKeep(s.h0, s.depth, s.start, s.hm, s.t, a);
    assert CellOk(s.h0, s.depth, a);
  }

  lemma NoBlockHere(s: Setting, c: Copy, h: Heap, a: nat)
    requires PhiOk(s, c, h) && a < |s.h0| && !s.h0[a].Fun?
    ensures a !in c.phi
  {
  }

  lemma PsiPlace(s: Setting, c: Copy, h: Heap, todo: set<nat>, v: nat)
    requires Copying(s, c, h, todo) && v in c.psi
    ensures c.psi[v] in c.done && c.psi[v] in c.img && |s.h0| <= c.img[c.psi[v]] < |h|
    ensures v < |s.h0| && IdOk(s.h0, c.psi[v]) && Goal(s.h0, s.depth, s.start, c.psi[v]) == v
  {
    hide Sound, ImgOk, FullOk, PhiOk, CopiesOk, Goal;
    CopyingHas(s, c, h, todo);
    assert PsiAt(s, c, v);
    PlaceIn(s, c, h, todo, c.psi[v]);
  }

  /** A reference that does not lead to the copy of a variable is one of the source. */
  lemma FollowsSource(s: Setting, c: Copy, h: Heap, todo: set<nat>, a: nat)
    requires Copying(s, c, h, todo) && a < |s.h0| && !s.h0[a].Fun? && a < |h| && h[a].Ref? && h[a].to < |h|
             && h[h[a].to] != Marker && HeapOk(s.h0, s.depth)
    ensures s.h0[a].Ref? && h[a] == s.h0[a] && h[a].to < |s.h0| && !s.h0[h[a].to].Fun? && s.depth[h[a].to] < s.depth[a]
    ensures End(s.h0, s.depth, a) == End(s.h0, s.depth, h[a].to)
  {
    SourceCell(s, c, h, todo, a);
    assert CellOk(s.h0, s.depth, a);
    if !s.h0[a].Ref? { MarkerAt(s, c, h, todo, a); }
    hide Copying;
  }

  /** The first copy of a shared variable is the marker. */
  lemma MarkerAt(s: Setting, c: Copy, h: Heap, todo: set<nat>, v: nat)
    requires Copying(s, c, h, todo) && v in c.psi && v < |s.hm| && Shared(s.hm[v]) && v < |s.h0| && s.h0[v].Var?
    ensures c.psi[v] in c.img && c.img[c.psi[v]] < |h| && h[c.img[c.psi[v]]] == Marker
  {
    hide Sound, ImgOk, FullOk, PhiOk, PsiOk, SourceOk, Goal;
    CopyingHas(s, c, h, todo);
    PsiPlace(s, c, h, todo, v);
    assert CopiedAt(s, c, h, c.psi[v]);
  }

  /** Where following references stops: at what the visit meets, or at a variable already copied. */
  lemma GoalCell(s: Setting, c: Copy, h: Heap, todo: set<nat>, id: nat, from: nat)
    requires Copying(s, c, h, todo) && id in todo && from < |s.h0| && !s.h0[from].Fun? && HeapOk(s.h0, s.depth)
             && StartOk(s.h0, s.depth, s.start) && IdOk(s.h0, id)
    requires End(s.h0, s.depth, from) == Goal(s.h0, s.depth, s.start, id) && from < |h|
    requires h[from].Ref? ==> h[from].to < |h| && h[h[from].to] == Marker
    ensures Goal(s.h0, s.depth, s.start, id) == from && !s.h0[from].Ref? && from < |s.hm|
    ensures h[from].Ref? ==>
              s.h0[from].Var? && from in c.psi && Shared(s.hm[from]) && c.psi[from] in c.img && h[from].to ==
              c.img[c.psi[from]]
    ensures !h[from].Ref? ==> h[from] == s.hm[from] && !h[from].Marker? && !h[from].Fun?
    ensures !h[from].Ref? && h[from].Var? ==> s.h0[from].Var? && !(from in c.psi && Shared(s.hm[from]))
    ensures !h[from].Ref? && !h[from].Var? ==> h[from] == s.h0[from] && (h[from].Con? || h[from].Str?)
  {
    SourceCell(s, c, h, todo, from);
    if s.h0[from].Ref? {
      RefTarget(s, c, h, todo, from);
    }
    CopyingHas(s, c, h, todo);
    hide Sound, ImgOk, FullOk, PhiOk, PsiOk, SourceOk, CopiesOk, Copying, Goal;
    SourceMark(s, from);
    if from in c.psi { PsiPlaced(s, c, h, todo, from); }
  }

  lemma PsiPlaced(s: Setting, c: Copy, h: Heap, todo: set<nat>, v: nat)
    requires Copying(s, c, h, todo) && v in c.psi
    ensures c.psi[v] in c.img
  {
    hide Copying;
    PsiPlace(s, c, h, todo, v);
  }

  lemma RefTarget(s: Setting, c: Copy, h: Heap, todo: set<nat>, a: nat)
    requires Copying(s, c, h, todo) && a < |s.h0| && s.h0[a].Ref?
    ensures a < |h| && h[a] == s.h0[a] && h[a].to < |h| && h[h[a].to] != Marker
  {
    CopyingHas(s, c, h, todo);
    assert CellOk(s.h0, s.depth, a);
    SourceCell(s, c, h, todo, a);
    SourceCell(s, c, h, todo, s.h0[a].to);
  }

  /** A variable or compound that a visit met carries a mark. */
  lemma VisitMarked(s: Setting, c: Copy, todo: set<nat>, id: nat, a: nat)
    requires Sound(s) && StartOk(s.h0, s.depth, s.start) && ImgOk(s, c, todo) && id in todo && IdOk(s.h0, id)
             && a < |s.h0| <= |s.hm|
    requires s.h0[Goal(s.h0, s.depth, s.start, id)] == Str(a) || (Goal(s.h0, s.depth, s.start, id) == a && s.h0[a].Var?)
    ensures IsOnce(s.hm[a]) || Shared(s.hm[a])
  {
    hide Goal, TourOk;
    TodoPlaced(s, c, todo, id);
    SameVisits(s, c, todo, id);
    hide ImgOk;
    assert MarkOk(s.h0, s.depth, s.start, s.hm, s.t, a);
    assert CellOk(s.h0, s.depth, a);
  }

  lemma NewVarFacts(s: Setting, c: Copy, h: Heap, todo: set<nat>, id: nat, v: nat)
    requires Copying(s, c, h, todo) && id in todo && StartOk(s.h0, s.depth, s.start) && IdOk(s.h0, id) && v < |s.h0|
             && v < |s.hm|
    requires Goal(s.h0, s.depth, s.start, id) == v && s.h0[v].Var? && !(v in c.psi && Shared(s.hm[v]))
    ensures v !in c.psi && v < |s.h0| <= |s.hm| && |s.h0| < |h| && s.hm[v].Var?
            && (s.hm[v].mark == Twice <==> Shared(s.hm[v]))
  {
    hide Copying, Goal;
    CopyingHas(s, c, h, todo);
    hide Sound, ImgOk, FullOk, PhiOk, PsiOk, CopiesOk;
    HmLong(s);
    SourceMark(s, v);
    VisitMarked(s, c, todo, id, v);
    if IsOnce(s.hm[v]) { OnceFreshVar(s, c, h, todo, id, v); }
  }

  lemma WithVarIs(s: Setting, c: Copy, h: Heap, id: nat, v: nat)
    requires id in c.img && c.img[id] < |h| && v < |s.hm| && v < |h|
    ensures WithVar(s, c, h, id, v) == if Shared(s.hm[v]) then h[c.img[id] := Marker][v := Ref(c.img[id])]
            else h[c.img[id] := Var(Virgin)]
  {
  }

  /** The functor cell of a compound met: it refers to the copy, or holds its mark. */
  lemma FunCell(s: Setting, c: Copy, h: Heap, todo: set<nat>, id: nat, from: nat, f: nat)
    requires Copying(s, c, h, todo) && id in todo && StartOk(s.h0, s.depth, s.start) && IdOk(s.h0, id) && from < |s.h0|
    requires Goal(s.h0, s.depth, s.start, id) == from && s.h0[from] == Str(f)
    ensures Fits(s.h0, f) && f < |s.h0| && s.h0[f].Fun? && s.h0[f].fmark == Virgin && f < |s.hm| && f < |h|
            && |s.h0| <= |s.hm|
    ensures f in s.t.via
    ensures h[f].Ref? ==> f in c.phi && h[f].to == c.phi[f]
    ensures !h[f].Ref? ==>
              f !in c.phi && h[f].Fun? && h[f].name == s.h0[f].name && h[f].arity == s.h0[f].arity
              && (h[f].fmark == Twice <==> Shared(s.hm[f]))
  {
    hide Copying, Goal;
    CopyingHas(s, c, h, todo);
    hide Sound, ImgOk, FullOk, PhiOk, PsiOk, CopiesOk;
    HmLong(s);
    StrFits(s, from, f);
    NewFunFacts(s, c, h, todo, id, f);
    SourceMark(s, f);
    FunNoVar(s, c, f);
    VisitMarked(s, c, todo, id, f);
    assert h[f] == Now(s, c, f);
    if IsOnce(s.hm[f]) {
      assert Meets(s.h0, s.depth, s.start, id, f);
      OnceFresh(s, c, h, todo, id, f);
    }
  }

  lemma StrFits(s: Setting, from: nat, f: nat)
    requires StartOk(s.h0, s.depth, s.start) && from < |s.h0| && s.h0[from] == Str(f)
    ensures Fits(s.h0, f) && s.h0[f].fmark == Virgin
  {
    assert CellOk(s.h0, s.depth, from) && CellOk(s.h0, s.depth, f);
  }

  /** What the method writes for a new compound. */
  lemma WithFunBuilds(s: Setting, c: Copy, h: Heap, id: nat, f: nat)
    requires id in c.img && c.img[id] < |h| && Fits(s.h0, f) && f < |s.hm| && f < |h| && h[f].Fun?
    requires h[f].name == s.h0[f].name && h[f].arity == s.h0[f].arity && s.h0[f].fmark == Virgin
    ensures var arity := h[f].arity;
            var big := h + [Fun(h[f].name, arity, Virgin)] + seq(arity, _ => Var(Virgin));
            WithFun(s, c, h, id, f) == (if Shared(s.hm[f]) then big[f := Ref(|h|)] else big)[c.img[id] := Str(|h|)]
  {
    var arity := h[f].arity;
    assert h + [Fun(h[f].name, arity, Virgin)] + seq(arity, _ => Var(Virgin)) == h + Block(s.h0, f);
  }

  lemma LessToCopy(s: Setting, c: Copy, h: Heap, id: nat, f: nat)
    requires Fits(s.h0, f) && f !in c.phi && f in s.t.via
    ensures s.t.via.Keys - WithBlock(s, c, h, id, f).phi.Keys < s.t.via.Keys - c.phi.Keys
  {
    assert f in s.t.via.Keys - c.phi.Keys;
  }

  lemma ConstantCell(s: Setting, c: Copy, h: Heap, todo: set<nat>, id: nat, from: nat)
    requires StartOk(s.h0, s.depth, s.start) && IdOk(s.h0, id) && from < |s.h0| && from < |h|
             && Goal(s.h0, s.depth, s.start, id) == from
    requires h[from] == s.h0[from] && !h[from].Str? && !h[from].Var? && !h[from].Ref?
    ensures s.h0[Goal(s.h0, s.depth, s.start, id)].Con?
  {
    hide Goal;
    assert CellOk(s.h0, s.depth, from);
  }

  // ----- taking the marks away -----

  lemma UnmarkingHas(h0: Heap, depth: seq<nat>, start: nat, h: Heap, t: Tour, todo: set<nat>, ids: seq<nat>)
    requires Unmarking(h0, depth, start, h, t, todo, ids)
    ensures StartOk(h0, depth, start) && HeapOk(h0, depth) && UpToMarks(h0, h) && |h0| <= |h|
    ensures forall x :: 0 <= x < |h0| && (h[x].Ref? || h0[x].Ref?) ==> h[x] == h0[x]
  {
    hide TourOk;
    TourStart(h0, depth, start, t, todo);
    RefsAgree(h0, h);
  }

  lemma EraseIs(c: Cell)
    ensures c.Var? ==> Erase(c) == Var(Virgin)
    ensures c.Fun? ==> Erase(c) == c.(fmark := Virgin) && (Marked(c) <==> c.fmark != Virgin)
  {
  }

  lemma ArgsInRange(h0: Heap, f: nat)
    requires f < |h0| && h0[f].Fun?
    ensures Fits(h0, f) && forall a: nat :: Child(h0, f, a) ==> a in Range(f + 1, h0[f].arity)
  {
  }

  lemma DueDone(h0: Heap, start: nat, ids: seq<nat>)
    requires Due(h0, start, [], ids)
    ensures ids == []
  {
  }

  // ----- before and after -----

  lemma StartFacts(h0: Heap, depth: seq<nat>, a: nat, h: Heap)
    requires HeapOk(h0, depth) && a < |h0| < |h| && h[..|h0|] == h0 && !h[a].Fun?
    ensures StartOk(h0, depth, a) && |depth| == |h0| && !h0[a].Fun?
    ensures forall x :: 0 <= x < |h0| ==> h[x] == h0[x]
  {
    assert forall x :: 0 <= x < |h0| ==> h[..|h0|][x] == h[x];
  }

  lemma EndFacts(h0: Heap, depth: seq<nat>, a: nat, p: nat)
    requires StartOk(h0, depth, a) && p == End(h0, depth, a)
    ensures p < |h0| && !h0[p].Ref? && !h0[p].Fun? && StartOk(h0, depth, p) && End(h0, depth, p) == p
  {
  }

  /** What the root leads to is what the cell it refers to leads to. */
  lemma RootFacts(h0: Heap, depth: seq<nat>, a: nat, p: nat)
    requires StartOk(h0, depth, a) && p == End(h0, depth, a) && StartOk(h0, depth, p)
    ensures Walk(h0, depth, a, []) == p && Reachable(h0, depth, p) == Reachable(h0, depth, a)
    ensures CopySize(h0, depth, p) == CopySize(h0, depth, a)
    ensures if h0[p].Str? then Reachable(h0, depth, a) != {} else CopySize(h0, depth, a) == 0
  {
    hide Reachable, Arities;
    SameWalk(h0, depth, a);
    RootReached(h0, depth, a);
    NoArities(h0, |h0|);
  }

  lemma CopyOfVar(h0: Heap, depth: seq<nat>, a: nat, h: Heap, p: nat)
    requires StartOk(h0, depth, a) && p == End(h0, depth, a) && |h| == |h0| + 1 && h[..|h0|] == h0 && h[|h0|] ==
             Var(Virgin) && h0[p].Var?
    ensures IsCopy(h0, depth, a, h, map[], map[p := |h0|]) && |depth| <= |h| && HeapOk(h, DepthWith(depth, h))
  {
    OneMoreCell(h0, depth, h);
  }

  lemma CopyOfConstant(h0: Heap, depth: seq<nat>, a: nat, h: Heap, p: nat)
    requires StartOk(h0, depth, a) && p == End(h0, depth, a) && |h| == |h0| + 1 && h[..|h0|] == h0 && h[p] == h0[p]
             && !h0[p].Var? && !h0[p].Str?
    ensures var h1 := h[|h0| := h[p]];
            && h1[..|h0|] == h0 && IsCopy(h0, depth, a, h1, map[], map[]) && |depth| <= |h1|
                && HeapOk(h1, DepthWith(depth, h1))
  {
    var h1 := h[|h0| := h[p]];
    assert CellOk(h0, depth, p);
    assert h1[..|h0|] == h0;
    OneMoreCell(h0, depth, h1);
  }

  lemma OneMoreCell(h0: Heap, depth: seq<nat>, h: Heap)
    requires HeapOk(h0, depth) && |h| == |h0| + 1 && h[..|h0|] == h0 && (h[|h0|] == Var(Virgin) || h[|h0|].Con?)
    ensures |depth| == |h0| && HeapOk(h, DepthWith(depth, h))
  {
    forall x: nat | x < |h| ensures CellOk(h, DepthWith(depth, h), x) {
      if x < |h0| { OldCellOk(h0, depth, h, x); }
    }
  }

  lemma SettingSound(s: Setting)
    requires Touring(s.h0, s.depth, s.start, s.hm, s.t, {}) && Complete(s.h0, s.t)
    ensures Sound(s)
  {
    hide TourOk;
  }

  /** After a tour that could not be finished. */
  lemma MarkedUnmarking(h0: Heap, depth: seq<nat>, start: nat, h: Heap, t: Tour, todo: set<nat>)
    requires Touring(h0, depth, start, h, t, todo)
    ensures Unmarking(h0, depth, start, h, t, todo, [|h0|]) && Due(h0, start, [start], [|h0|])
  {
    TourStart(h0, depth, start, t, todo);
    hide TourOk, Due, Unmarking;
    forall a | 0 <= a < |h0| ensures Erase(h[a]) == h0[a] && (Marked(h[a]) ==> a in t.via || a in t.varVia) {
      MarksKeep(h0, depth, start, h, t, a);
      assert MarkOk(h0, depth, start, h, t, a) && CellOk(h0, depth, a);
    }
    ViaMarked(h0, depth, start, h, t, todo);
    UnmarkBegins(h0, depth, start, h, t, todo);
  }

  lemma ViaMarked(h0: Heap, depth: seq<nat>, start: nat, h: Heap, t: Tour, todo: set<nat>)
    requires Touring(h0, depth, start, h, t, todo)
    ensures forall f :: f in t.via ==> f < |h0| <= |h| && h[f].Fun? && Marked(h[f])
  {
    hide ViaOk, DoneOk, VisitsOk, OwnersOk;
    forall f | f in t.via ensures f < |h0| <= |h| && h[f].Fun? && Marked(h[f]) {
        assert MarkOk(h0, depth, start, h, t, f); }
  }

  /** After the trail was undone. */
  lemma UndoneUnmarking(s: Setting, c: Copy, h: Heap, h1: Heap, todo: set<nat>)
    requires Copying(s, c, h, todo) && SourceUndone(s, c, h1, [])
    ensures Unmarking(s.h0, s.depth, s.start, h1, s.t, {}, [|s.h0|]) && Due(s.h0, s.start, [s.start], [|s.h0|])
  {
    CopyingHas(s, c, h, todo);
    SoundTour(s);
    hide TourOk, Due, Unmarking, Sound, ImgOk, FullOk, PhiOk, PsiOk, SourceOk, CopiesOk, Copying, Undone, Marked;
    forall a: nat | a < |s.h0|
      ensures Erase(h1[a]) == s.h0[a] && (Marked(h1[a]) ==> a in s.t.via || a in s.t.varVia)
              && (a in s.t.via ==> h1[a].Fun? && Marked(h1[a]))
    {
      UndoneCell(s, c, h, todo, a);
    }
    TourKeys(s);
    UnmarkBegins(s.h0, s.depth, s.start, h1, s.t, {});
  }

  lemma TourKeys(s: Setting)
    requires Sound(s)
    ensures forall f :: f in s.t.via ==> f < |s.h0|
  {
    hide ViaOk, DoneOk, VisitsOk, OwnersOk, MarksOk;
  }

  lemma SoundTour(s: Setting)
    requires Sound(s)
    ensures TourOk(s.h0, s.depth, s.start, s.t, {})
  {
    hide TourOk, MarksOk;
  }

  lemma UndoneCell(s: Setting, c: Copy, h: Heap, todo: set<nat>, a: nat)
    requires Copying(s, c, h, todo) && a < |s.h0| <= |s.hm|
    ensures var x := Undone(s, c, a);
            Erase(x) == s.h0[a] && (Marked(x) ==> a in s.t.via || a in s.t.varVia)
                && (a in s.t.via ==> x.Fun? && Marked(x))
  {
    hide Sound, StartOk, ImgOk, FullOk, PhiOk, PsiOk, SourceOk, CopiesOk, Copying;
    CopyingHas(s, c, h, todo);
    SourceMark(s, a);
    MarkSays(s, a);
    if a in c.phi { PhiBlock(s, c, h, a); PhiTour(s, c, h, a); }
    if a in c.psi { VarMade(s, c, a); }
    UnmarkedSource(s, a);
  }

  lemma PhiTour(s: Setting, c: Copy, h: Heap, f: nat)
    requires PhiOk(s, c, h) && f in c.phi
    ensures f in s.t.via
  {
    assert BlockOk(s, c, h, f);
  }

  lemma UnmarkedSource(s: Setting, a: nat)
    requires Sound(s) && StartOk(s.h0, s.depth, s.start) && a < |s.h0|
    ensures s.h0[a].Var? ==> s.h0[a].mark == Virgin
    ensures s.h0[a].Fun? ==> s.h0[a].fmark == Virgin
  {
    hide Sound;
    assert CellOk(s.h0, s.depth, a);
  }

  lemma MarkSays(s: Setting, a: nat)
    requires Sound(s) && StartOk(s.h0, s.depth, s.start) && a < |s.h0|
    ensures a < |s.hm| && (Marked(s.hm[a]) ==> a in s.t.via || a in s.t.varVia)
            && (a in s.t.via ==> s.hm[a].Fun? && Marked(s.hm[a]))
  {
    hide TourOk;
    UnmarkedSource(s, a);
    assert MarkOk(s.h0, s.depth, s.start, s.hm, s.t, a);
  }

  /** Unmarking the source does not touch the copy. */
  lemma CopyStaysMade(s: Setting, c: Copy, h: Heap, h1: Heap, h2: Heap)
    requires CopyMade(s, c, h1) && |h2| == |h1| && forall x: nat :: |s.h0| <= x < |h1| ==> h2[x] == h1[x]
    requires Covered(s, c, h) && |h| == |h1|
    ensures CopyMade(s, c, h2) && Covered(s, c, h2)
  {
    hide *;
    MadeHas(s, c, h1);
    CoveredSame(s, c, c, h, h2);
    BlocksStay(s, c, h1, h2);
    FinishedStays(s, c, h1, h2);
    MadeIs(s, c, h2);
  }

  lemma BlocksStay(s: Setting, c: Copy, h1: Heap, h2: Heap)
    requires BlocksMade(s, c, h1) && |h2| == |h1| && forall x: nat :: |s.h0| <= x < |h1| ==> h2[x] == h1[x]
    ensures BlocksMade(s, c, h2)
  {
    forall f | f in c.phi ensures BlockMade(s, c, h2, f) { assert BlockMade(s, c, h1, f); }
  }

  lemma FinishedStays(s: Setting, c: Copy, h1: Heap, h2: Heap)
    requires CopyMade(s, c, h1) && StartOk(s.h0, s.depth, s.start) && |h2| == |h1| && forall x: nat ::
             |s.h0| <= x < |h1| ==> h2[x] == h1[x]
    ensures AllFinished(s, c, h2)
  {
    hide Goal, Sound, RootMade, BlocksMade, ArgsMade, VarsMade, ImgHigh, StartOk;
    forall id | id in c.done ensures Finished(s, c, h2, id) && c.img[id] >= |s.h0| { assert Finished(s, c, h1, id); }
  }
}
