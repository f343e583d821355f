// What a term consists of: the compounds some path leads to, and the space a copy of them takes.

module TermReach {
  import opened TermHeap
  import opened TermTour
  import opened TermCopyState
  import opened TermCopySteps
  import opened TermIsomorphism
  import opened TermCopySpace

  /** Following `path` from `a` ends at the compound at `f`. */
  ghost predicate LeadsTo(h: Heap, depth: seq<nat>, a: nat, path: seq<nat>, f: nat)
    requires StartOk(h, depth, a)
  {
    var e := Walk(h, depth, a, path); e != -1 && h[e] == Str(f)
  }

  ghost predicate Reached(h: Heap, depth: seq<nat>, a: nat, f: nat)
    requires StartOk(h, depth, a)
  {
    exists path: seq<nat> :: LeadsTo(h, depth, a, path, f)
  }

  /** The compounds that can be reached from `a`. */
  ghost function Reachable(h: Heap, depth: seq<nat>, a: nat): (fs: set<nat>)
    requires StartOk(h, depth, a)
  {
    set f: nat | f < |h| && Reached(h, depth, a, f)
  }

  /** The number of arguments the compounds in `fs` have together. */
  function Arities(h: Heap, fs: set<nat>, n: nat := |h|): nat
    requires n <= |h|
  {
    if n == 0 then 0
    else Arities(h, fs, n - 1) + if n - 1 in fs && h[n - 1].Fun? then h[n - 1].arity else 0
  }

  lemma {:induction false} AritiesMore(h: Heap, fs: set<nat>, f: nat, n: nat)
    requires f !in fs && f < |h| && h[f].Fun? && n <= |h|
    ensures Arities(h, fs + {f}, n) == Arities(h, fs, n) + if f < n then h[f].arity else 0
  {
    if n > 0 { AritiesMore(h, fs, f, n - 1); }
  }

  lemma {:induction false} AritiesMono(h: Heap, fs: set<nat>, gs: set<nat>, n: nat)
    requires fs <= gs && n <= |h|
    ensures Arities(h, fs, n) <= Arities(h, gs, n)
  {
    if n > 0 { AritiesMono(h, fs, gs, n - 1); }
  }

  lemma {:induction false} NoArities(h: Heap, n: nat)
    requires n <= |h|
    ensures Arities(h, {}, n) == 0
  {
    if n > 0 { NoArities(h, n - 1); }
  }

  // ----- paths -----

  /** A path that ends at a compound can be extended to its arguments. */
  lemma {:induction false} WalkOn(h: Heap, depth: seq<nat>, a: nat, path: seq<nat>, f: nat, b: nat)
    requires StartOk(h, depth, a) && LeadsTo(h, depth, a, path, f) && Child(h, f, b)
    ensures b < |h| && !h[b].Fun? && Walk(h, depth, a, path + [b - f]) == End(h, depth, b)
    decreases |path|
  {
    ChildOf(h, depth, f, b);
    var p, more := End(h, depth, a), path + [b - f];
    if path == [] {
      WalkStep(h, depth, a, more, f);
      assert more[1..] == [];
    } else {
      var g := h[p].f;
      WalkStep(h, depth, a, path, g);
      WalkStep(h, depth, a, more, g);
      assert more[1..] == path[1..] + [b - f];
      WalkOn(h, depth, g + path[0], path[1..], f, b);
    }
  }

  /** Where references end the same terms begin. */
  lemma SameWalk(h: Heap, depth: seq<nat>, a: nat)
    requires StartOk(h, depth, a)
    ensures StartOk(h, depth, End(h, depth, a))
    ensures Reachable(h, depth, End(h, depth, a)) == Reachable(h, depth, a)
  {
    var p := End(h, depth, a);
    assert End(h, depth, p) == p;
    forall path: seq<nat> ensures Walk(h, depth, p, path) == Walk(h, depth, a, path) {}
    forall f, path: seq<nat> ensures LeadsTo(h, depth, p, path, f) <==> LeadsTo(h, depth, a, path, f) {
      assert Walk(h, depth, p, path) == Walk(h, depth, a, path);
    }
  }

  /** Nothing is reached from a variable or a constant; from a compound, that compound is. */
  lemma RootReached(h: Heap, depth: seq<nat>, a: nat)
    requires StartOk(h, depth, a)
    ensures var e := End(h, depth, a);
            if h[e].Str? then h[e].f in Reachable(h, depth, a) else Reachable(h, depth, a) == {}
  {
    var e := End(h, depth, a);
    if h[e].Str? {
      assert CellOk(h, depth, e);
      assert LeadsTo(h, depth, a, [], h[e].f);
    } else {
      forall f, path: seq<nat> ensures !LeadsTo(h, depth, a, path, f) {}
    }
  }

  // ----- what the tour meets can be reached -----

  lemma {:induction false} MetReached(h0: Heap, depth: seq<nat>, start: nat, t: Tour, f: nat) returns (path: seq<nat>)
    requires StartOk(h0, depth, start) && KeysOk(h0, t) && OwnersOk(h0, t) && ViaOk(h0, depth, start, t) && f in t.via
    ensures LeadsTo(h0, depth, start, path, f)
    decreases t.rank[f]
  {
    assert FirstMet(h0, depth, start, t, f);
    var id := t.via[f];
    if id == |h0| {
      path := [];
    } else {
      var g := t.owner[id];
      var before := MetReached(h0, depth, start, t, g);
      WalkOn(h0, depth, start, before, g, id);
      path := before + [id - g];
    }
  }

  lemma AllMetReached(h0: Heap, depth: seq<nat>, start: nat, t: Tour, todo: set<nat>)
    requires TourOk(h0, depth, start, t, todo)
    ensures StartOk(h0, depth, start) && t.via.Keys <= Reachable(h0, depth, start)
  {
    hide LeadsTo, ViaOk, VisitsOk, DoneOk, OwnersOk;
    forall f | f in t.via ensures f in Reachable(h0, depth, start) {
      var path := MetReached(h0, depth, start, t, f);
      assert LeadsTo(h0, depth, start, path, f);
    }
  }

  /** The tour has as many arguments due or visited as the compounds met have. */
  predicate Owned(h0: Heap, t: Tour) {
    |t.owner| == Arities(h0, t.via.Keys)
  }

  lemma OwnedMore(h0: Heap, depth: seq<nat>, t: Tour, id: nat, f: nat)
    requires HeapOk(h0, depth) && OwnersOk(h0, t) && Owned(h0, t) && f !in t.via && Fits(h0, f)
    ensures Owned(h0, NewFun(h0, t, id, f))
  {
    hide *;
    ArgsFresh(h0, depth, t, f);
    ArgsSize(h0, f);
    NewFunIs(h0, t, id, f);
    OwnedGrows(h0, t, NewFun(h0, t, id, f), id, f);
  }

  lemma OwnedGrows(h0: Heap, t: Tour, t1: Tour, id: nat, f: nat)
    requires Owned(h0, t) && f !in t.via && Fits(h0, f) && t1.via == t.via[f := id] && |Args(h0, f)| == h0[f].arity
    requires forall a :: a in t1.owner <==> a in t.owner || a in Args(h0, f)
    requires forall a :: a in Args(h0, f) ==> a !in t.owner
    ensures Owned(h0, t1)
  {
    hide Args, Arities;
    MapGrows(t.owner, t1.owner, Args(h0, f));
    AritiesMore(h0, t.via.Keys, f, |h0|);
    assert t1.via.Keys == t.via.Keys + {f};
  }

  /** The agenda of the tour never has more entries than the compounds of the term have arguments. */
  lemma TourRoom(h0: Heap, depth: seq<nat>, start: nat, t: Tour, todo: set<nat>, ids: seq<nat>, id: nat)
    requires TourOk(h0, depth, start, t, todo) && Owned(h0, t) && NoDup(ids) && SetOf(ids) == todo && id in t.done
    ensures StartOk(h0, depth, start) && |ids| <= Arities(h0, Reachable(h0, depth, start))
  {
    AllMetReached(h0, depth, start, t, todo);
    AritiesMono(h0, t.via.Keys, Reachable(h0, depth, start), |h0|);
    SetSize(ids);
    VisitCount(h0, t, todo, id);
    hide TourOk, Reachable, Arities;
  }

  lemma VisitCount(h0: Heap, t: Tour, todo: set<nat>, id: nat)
    requires VisitsOk(h0, t, todo) && id in t.done
    ensures |todo| <= |t.owner|
  {
    var all := t.owner.Keys + {|h0|};
    forall x | x in todo ensures x in all - {id} {}
    SubsetSize(todo, all - {id});
    assert id in all;
    assert |t.owner| == |t.owner.Keys|;
  }

  // ----- what can be reached is copied -----

  /** The places made: one for the root, one for each argument of a compound copied. */
  predicate Counted(s: Setting, c: Copy) {
    |c.img| == 1 + Arities(s.h0, c.phi.Keys)
  }

  lemma CountedMore(s: Setting, c: Copy, h: Heap, id: nat, f: nat)
    requires Counted(s, c) && Fits(s.h0, f) && f !in c.phi && forall a :: a in Args(s.h0, f) ==> a !in c.img
    ensures Counted(s, WithBlock(s, c, h, id, f))
  {
    var c1 := WithBlock(s, c, h, id, f);
    WithBlockIs(s, c, h, id, f);
    hide WithBlock, Args, Arities;
    ArgsSize(s.h0, f);
    MapGrows(c.img, c1.img, Args(s.h0, f));
    AritiesMore(s.h0, c.phi.Keys, f, |s.h0|);
    assert c1.phi.Keys == c.phi.Keys + {f};
  }

  /** The space a copy of the term at `a` takes. */
  ghost function CopySize(h: Heap, depth: seq<nat>, a: nat): nat
    requires StartOk(h, depth, a)
  {
    |Reachable(h, depth, a)| + Arities(h, Reachable(h, depth, a))
  }

  /** No more is copied than can be reached. */
  lemma CopiedReached(s: Setting, c: Copy, h: Heap, todo: set<nat>)
    requires Copying(s, c, h, todo)
    ensures StartOk(s.h0, s.depth, s.start) && c.phi.Keys <= Reachable(s.h0, s.depth, s.start)
  {
    CopyingHas(s, c, h, todo);
    hide Copying, Reachable, ImgOk, FullOk, PsiOk, SourceOk, CopiesOk, TourOk, MarksOk;
    AllMetReached(s.h0, s.depth, s.start, s.t, {});
    forall f | f in c.phi ensures f in s.t.via { assert BlockOk(s, c, h, f); }
  }

  lemma CopyFits(s: Setting, c: Copy, h: Heap, todo: set<nat>)
    requires Copying(s, c, h, todo) && Sized(s, c, h) && Counted(s, c)
    ensures StartOk(s.h0, s.depth, s.start) && |h| <= |s.h0| + 1 + CopySize(s.h0, s.depth, s.start)
  {
    CopiedReached(s, c, h, todo);
    hide Copying, Reachable, Arities;
    AritiesMono(s.h0, c.phi.Keys, Reachable(s.h0, s.depth, s.start), |s.h0|);
    SubsetSize(c.phi.Keys, Reachable(s.h0, s.depth, s.start));
    assert |c.phi| == |c.phi.Keys|;
  }

  /** The agenda of the copy never has more entries than the compounds of the term have arguments. */
  lemma CopyRoom(s: Setting, c: Copy, h: Heap, todo: set<nat>, ids: seq<nat>, id: nat)
    requires Copying(s, c, h, todo) && Counted(s, c) && NoDup(ids) && SetOf(ids) == todo && id in c.done
    ensures StartOk(s.h0, s.depth, s.start) && |ids| <= Arities(s.h0, Reachable(s.h0, s.depth, s.start))
  {
    CopyingHas(s, c, h, todo);
    CopiedReached(s, c, h, todo);
    SetSize(ids);
    PlaceCount(s, c, todo, id);
    hide Copying, Reachable, Arities, ImgOk;
    AritiesMono(s.h0, c.phi.Keys, Reachable(s.h0, s.depth, s.start), |s.h0|);
  }

  lemma PlaceCount(s: Setting, c: Copy, todo: set<nat>, id: nat)
    requires ImgOk(s, c, todo) && id in c.done
    ensures |todo| + 1 <= |c.img|
  {
    forall x | x in todo ensures x in c.img.Keys - {id} {}
    SubsetSize(todo, c.img.Keys - {id});
    assert id in c.img.Keys;
    assert |c.img| == |c.img.Keys|;
  }

  /** When every visit is made, each compound a path leads to is copied. */
  lemma {:induction false} PathCopied(s: Setting, c: Copy, h: Heap, id: nat, a: nat, path: seq<nat>, f: nat)
    requires StartOk(s.h0, s.depth, s.start) && ImgOk(s, c, {}) && FullOk(s, c) && CopiesOk(s, c, h) && id in c.done
    requires IdOk(s.h0, id) && a == Addr(s.h0, s.start, id) && StartOk(s.h0, s.depth, a)
    requires LeadsTo(s.h0, s.depth, a, path, f)
    ensures f in c.phi
    decreases |path|
  {
    hide *;
    GoalIs(s.h0, s.depth, s.start, id);
    if path == [] {
      PathEnds(s.h0, s.depth, a, f);
      MetCopied(s, c, h, id, f);
    } else {
      var g, b := PathStarts(s.h0, s.depth, a, path, f);
      MetCopied(s, c, h, id, g);
      VisitDone(s, c, g, b);
      ArgPlaced(s.h0, s.depth, s.start, g, b);
      PathCopied(s, c, h, b, b, path[1..], f);
    }
  }

  lemma PathEnds(h: Heap, depth: seq<nat>, a: nat, f: nat)
    requires StartOk(h, depth, a) && LeadsTo(h, depth, a, [], f)
    ensures h[End(h, depth, a)] == Str(f)
  {
  }

  /** The first step of a path that leads somewhere goes to an argument of the compound it starts from. */
  lemma PathStarts(h: Heap, depth: seq<nat>, a: nat, path: seq<nat>, f: nat) returns (g: nat, b: nat)
    requires StartOk(h, depth, a) && path != [] && LeadsTo(h, depth, a, path, f)
    ensures h[End(h, depth, a)] == Str(g) && Child(h, g, b)
    ensures StartOk(h, depth, b) && LeadsTo(h, depth, b, path[1..], f)
  {
    g := h[End(h, depth, a)].f;
    WalkStep(h, depth, a, path, g);
    b := g + path[0];
  }

  lemma ArgPlaced(h: Heap, depth: seq<nat>, start: nat, g: nat, b: nat)
    requires HeapOk(h, depth) && Child(h, g, b) && b < |h|
    ensures IdOk(h, b) && b == Addr(h, start, b)
  {
    ChildOf(h, depth, g, b);
  }

  lemma MetCopied(s: Setting, c: Copy, h: Heap, id: nat, f: nat)
    requires StartOk(s.h0, s.depth, s.start) && CopiesOk(s, c, h) && id in c.done && IdOk(s.h0, id)
    requires s.h0[Goal(s.h0, s.depth, s.start, id)] == Str(f)
    ensures f in c.phi
  {
    hide Goal;
    assert CopiedAt(s, c, h, id);
  }

  lemma VisitDone(s: Setting, c: Copy, g: nat, b: nat)
    requires ImgOk(s, c, {}) && FullOk(s, c) && g in c.phi && Child(s.h0, g, b)
    ensures b in c.done
  {
  }

  lemma AllCopied(s: Setting, c: Copy, h: Heap)
    requires Copying(s, c, h, {})
    ensures StartOk(s.h0, s.depth, s.start) && c.phi.Keys == Reachable(s.h0, s.depth, s.start)
  {
    hide *;
    CopyingHas(s, c, h, {});
    RootPlace(s, c, {});
    RootIs(s, c);
    GoalIs(s.h0, s.depth, s.start, |s.h0|);
    CopiedReached(s, c, h, {});
    var fs := Reachable(s.h0, s.depth, s.start);
    forall f | f in fs ensures f in c.phi {
      var path := PathTo(s.h0, s.depth, s.start, f);
      PathCopied(s, c, h, |s.h0|, s.start, path, f);
    }
  }

  lemma PathTo(h: Heap, depth: seq<nat>, a: nat, f: nat) returns (path: seq<nat>)
    requires StartOk(h, depth, a) && f in Reachable(h, depth, a)
    ensures LeadsTo(h, depth, a, path, f)
  {
    path :| LeadsTo(h, depth, a, path, f);
  }

  /** A finished copy has taken exactly the space of what can be reached. */
  lemma CopyTakes(s: Setting, c: Copy, h: Heap)
    requires Copying(s, c, h, {}) && Sized(s, c, h) && Counted(s, c)
    ensures StartOk(s.h0, s.depth, s.start) && |h| == |s.h0| + 1 + CopySize(s.h0, s.depth, s.start)
  {
    AllCopied(s, c, h);
    hide Copying, Reachable, Arities;
    assert |c.phi| == |c.phi.Keys|;
  }
}
