// The second tour, which takes the marks away: nothing marked is missed.

module TermUnmark {
  import opened TermHeap
  import opened TermTour
  import opened TermRestore

  function MarkedCompounds(h: Heap, n: nat): (s: set<nat>)
    requires n <= |h|
    ensures forall a: nat :: a in s <==> a < n && h[a].Fun? && h[a].fmark != Virgin
  {
    if n == 0 then {} else MarkedCompounds(h, n - 1) + (if h[n - 1].Fun? && h[n - 1].fmark != Virgin then {n - 1}
        else {})
  }

  /** The addresses still to visit, with the visits they stand for. */
  ghost predicate Due(h0: Heap, start: nat, work: seq<nat>, ids: seq<nat>) {
    |work| == |ids| && forall k :: 0 <= k < |ids| ==> work[k] == Addr(h0, start, ids[k]) && IdOk(h0, ids[k])
  }

  /** A visit is due, or will be when the compound it belongs to is unmarked. */
  predicate StillDue(h: Heap, t: Tour, ids: seq<nat>, id: nat) {
    id in ids || (id in t.owner && t.owner[id] < |h| && h[t.owner[id]].Fun? && Marked(h[t.owner[id]]))
  }

  predicate ToUnmark(h: Heap, t: Tour, ids: seq<nat>, a: nat) {
    (a in t.via && StillDue(h, t, ids, t.via[a])) || (a in t.varVia && StillDue(h, t, ids, t.varVia[a]))
  }

  /** The source is as it was but for marks, and the first visit to each marked cell is still due. */
  ghost predicate Unmarking(h0: Heap, depth: seq<nat>, start: nat, h: Heap, t: Tour, todo: set<nat>, ids: seq<nat>) {
    && TourOk(h0, depth, start, t, todo) && UpToMarks(h0, h)
    && forall a: nat :: a < |h0| && Marked(h[a]) ==> ToUnmark(h, t, ids, a)
  }

  lemma DueNext(h0: Heap, depth: seq<nat>, start: nat, work: seq<nat>, ids: seq<nat>)
    requires StartOk(h0, depth, start) && Due(h0, start, work, ids) && work != []
    ensures ids != [] && IdOk(h0, ids[0]) && work[0] == Addr(h0, start, ids[0]) && work[0] < |h0| && !h0[work[0]].Fun?
    ensures Due(h0, start, work[1..], ids[1..])
  {
  }

  lemma DueMore(h0: Heap, depth: seq<nat>, start: nat, work: seq<nat>, ids: seq<nat>, f: nat)
    requires StartOk(h0, depth, start) && Due(h0, start, work, ids) && Fits(h0, f)
    ensures Due(h0, start, Range(f + 1, h0[f].arity) + work, Range(f + 1, h0[f].arity) + ids)
  {
    var args := Range(f + 1, h0[f].arity);
    forall k | 0 <= k < |args| ensures args[k] == Addr(h0, start, args[k]) && IdOk(h0, args[k]) {
      ChildOf(h0, depth, f, args[k]);
    }
  }

  /** What the marks are on when the tour begins. */
  lemma UnmarkBegins(h0: Heap, depth: seq<nat>, start: nat, h: Heap, t: Tour, todo: set<nat>)
    requires TourOk(h0, depth, start, t, todo) && UpToMarks(h0, h)
    requires forall f :: f in t.via ==> f < |h| && h[f].Fun? && Marked(h[f])
    requires forall a: nat :: a < |h0| && Marked(h[a]) ==> a in t.via || a in t.varVia
    ensures Unmarking(h0, depth, start, h, t, todo, [|h0|]) && Due(h0, start, [start], [|h0|])
  {
    hide KeysOk, DoneOk, Goal, Meets, MeetsVar, Marked;
    forall a: nat | a < |h0| && Marked(h[a]) ensures ToUnmark(h, t, [|h0|], a) {
      if a in t.via { assert FirstMet(h0, depth, start, t, a); OwnerMarked(h0, h, t, todo, t.via[a]); }
      if a in t.varVia { OwnerMarked(h0, h, t, todo, t.varVia[a]); }
    }
  }

  lemma OwnerMarked(h0: Heap, h: Heap, t: Tour, todo: set<nat>, id: nat)
    requires VisitsOk(h0, t, todo) && OwnersOk(h0, t) && id in t.done
    requires forall f :: f in t.via ==> f < |h| && h[f].Fun? && Marked(h[f])
    ensures StillDue(h, t, [|h0|], id)
  {
  }

  /** What a visit is about: the variable or constant it leads to, or the functor of the compound. */
  ghost function About(h0: Heap, depth: seq<nat>, start: nat, id: nat): (g: nat)
    requires StartOk(h0, depth, start) && IdOk(h0, id)
    ensures g < |h0|
  {
    var e := Goal(h0, depth, start, id);
    assert CellOk(h0, depth, e);
    if h0[e].Str? then h0[e].f else e
  }

  /** The marks a visit is the first of are on what it is about. */
  lemma FirstAbout(h0: Heap, depth: seq<nat>, start: nat, t: Tour, todo: set<nat>, a: nat)
    requires TourOk(h0, depth, start, t, todo)
    ensures a in t.via ==> IdOk(h0, t.via[a]) && About(h0, depth, start, t.via[a]) == a
    ensures a in t.varVia ==> IdOk(h0, t.varVia[a]) && About(h0, depth, start, t.varVia[a]) == a
  {
    hide KeysOk, DoneOk, OwnersOk, VisitsOk, Goal;
    if a in t.via { assert FirstMet(h0, depth, start, t, a); }
  }

  lemma UnmarkStep(h0: Heap, depth: seq<nat>, start: nat, h: Heap, t: Tour, todo: set<nat>, ids: seq<nat>,
        more: seq<nat>)
    requires Unmarking(h0, depth, start, h, t, todo, ids) && ids != [] && StartOk(h0, depth, start) && IdOk(h0, ids[0])
    requires var g := About(h0, depth, start, ids[0]);
             g < |h| && (h[g].Fun? && Marked(h[g]) ==> forall a: nat :: Child(h0, g, a) ==> a in more)
    ensures var g := About(h0, depth, start, ids[0]);
            Unmarking(h0, depth, start, h[g := Erase(h[g])], t, todo, more + ids[1..])
  {
    var g := About(h0, depth, start, ids[0]);
    var h1, ids1 := h[g := Erase(h[g])], more + ids[1..];
    hide TourOk, About;
    forall a: nat | a < |h0| && Marked(h1[a]) ensures ToUnmark(h1, t, ids1, a) {
      assert a != g && h1[a] == h[a];
      FirstAbout(h0, depth, start, t, todo, a);
      if a in t.via && StillDue(h, t, ids, t.via[a]) {
        DueStays(h0, depth, start, h, t, todo, ids, more, g, t.via[a]);
      } else {
        DueStays(h0, depth, start, h, t, todo, ids, more, g, t.varVia[a]);
      }
    }
  }

  lemma DueStays(h0: Heap, depth: seq<nat>, start: nat, h: Heap, t: Tour, todo: set<nat>, ids: seq<nat>,
        more: seq<nat>, g: nat, id: nat)
    requires TourOk(h0, depth, start, t, todo) && |h0| <= |h| && ids != [] && g < |h| && StillDue(h, t, ids, id)
             && id != ids[0]
    requires h[g].Fun? && Marked(h[g]) ==> forall a: nat :: Child(h0, g, a) ==> a in more
    ensures StillDue(h[g := Erase(h[g])], t, more + ids[1..], id)
  {
    hide KeysOk, DoneOk, VisitsOk, ViaOk, Child;
  }

  /** When nothing is due, no mark is left. */
  lemma NoneMarked(h0: Heap, depth: seq<nat>, start: nat, h: Heap, t: Tour, todo: set<nat>, f: nat)
    requires Unmarking(h0, depth, start, h, t, todo, []) && f in t.via && f in t.rank && f < |h0|
    ensures !Marked(h[f])
    decreases t.rank[f]
  {
    hide KeysOk, DoneOk, VisitsOk, Goal, Meets, MeetsVar, Marked;
    if Marked(h[f]) {
      assert ToUnmark(h, t, [], f);
      assert FirstMet(h0, depth, start, t, f);
      if f in t.varVia { NotBoth(h0, depth, start, t, todo, f); }
      var g := t.owner[t.via[f]];
      OwnerIn(h0, t, t.via[f]);
      NoneMarked(h0, depth, start, h, t, todo, g);
    }
  }

  lemma NotBoth(h0: Heap, depth: seq<nat>, start: nat, t: Tour, todo: set<nat>, f: nat)
    requires TourOk(h0, depth, start, t, todo)
    ensures !(f in t.via && f in t.varVia)
  {
    hide DoneOk, VisitsOk, OwnersOk;
  }

  lemma OwnerIn(h0: Heap, t: Tour, id: nat)
    requires OwnersOk(h0, t) && id in t.owner
    ensures t.owner[id] in t.via && t.owner[id] < |h0|
  {
  }

  lemma UnmarkEnds(h0: Heap, depth: seq<nat>, start: nat, h: Heap, t: Tour, todo: set<nat>)
    requires Unmarking(h0, depth, start, h, t, todo, [])
    ensures |h0| <= |h| && h[..|h0|] == h0
  {
    hide KeysOk, DoneOk, VisitsOk, Goal, Marked, FirstMet;
    forall a: nat | a < |h0| ensures h[a] == h0[a] {
      if Marked(h[a]) {
        assert ToUnmark(h, t, [], a);
        if a in t.via {
          NoneMarked(h0, depth, start, h, t, todo, a);
        } else {
          OwnerIn(h0, t, t.varVia[a]);
          NoneMarked(h0, depth, start, h, t, todo, t.owner[t.varVia[a]]);
        }
      } else {
        UnmarkedIs(h[a]);
      }
    }
  }

  lemma UnmarkedIs(c: Cell)
    requires !Marked(c)
    ensures Erase(c) == c
  {
  }

  // ----- what the tour may follow -----

  /** The cell a visit leads to, in the marked heap. */
  lemma AboutCell(h0: Heap, depth: seq<nat>, start: nat, h: Heap, id: nat)
    requires StartOk(h0, depth, start) && IdOk(h0, id) && UpToMarks(h0, h)
    ensures var e, g := Goal(h0, depth, start, id), About(h0, depth, start, id);
            && e < |h0| <= |h| && g < |h0|
            && (h[e].Var? ==> g == e) && (h[e].Str? ==>
              g == h[e].f && h[g].Fun? && h0[g].Fun? && h0[g].arity == h[g].arity)
            && (!h[e].Var? && !h[e].Str? ==> g == e && Erase(h[e]) == h[e])
  {
    hide Goal;
    var e := Goal(h0, depth, start, id);
    assert Erase(h[e]) == h0[e];
    assert CellOk(h0, depth, e);
    if h[e].Str? { assert Erase(h[h[e].f]) == h0[h[e].f]; }
  }

  lemma RefsAgree(h0: Heap, h: Heap)
    requires UpToMarks(h0, h)
    ensures forall x :: 0 <= x < |h0| && (h[x].Ref? || h0[x].Ref?) ==> h[x] == h0[x]
  {
    forall x | 0 <= x < |h0| && (h[x].Ref? || h0[x].Ref?) ensures h[x] == h0[x] { assert Erase(h[x]) == h0[x]; }
  }

  lemma UnmarkFewer(h: Heap, n: nat, g: nat)
    requires n <= |h| && g < n && h[g].Fun? && Marked(h[g])
    ensures MarkedCompounds(h[g := Erase(h[g])], n) < MarkedCompounds(h, n)
  {
    assert g in MarkedCompounds(h, n);
  }

  lemma UnmarkSame(h: Heap, n: nat, g: nat)
    requires n <= |h| && g < |h| && !(h[g].Fun? && Marked(h[g]))
    ensures MarkedCompounds(h[g := Erase(h[g])], n) == MarkedCompounds(h, n)
  {
    var h1 := h[g := Erase(h[g])];
    forall a: nat ensures a in MarkedCompounds(h1, n) <==> a in MarkedCompounds(h, n) {
      if a < n && a != g { assert h1[a] == h[a]; }
    }
  }
}
