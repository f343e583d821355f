// Undoing the copy: the trail gives shared cells their values back, and a second tour takes the marks away.

module TermRestore {
  import opened TermHeap
  import opened TermTour
  import opened TermCopyState
  import opened TermCopySteps

  predicate Marked(c: Cell) {
    (c.Fun? && c.fmark != Virgin) || (c.Var? && c.mark != Virgin)
  }

  // ----- the trail -----

  /** The trail holds each source cell that was changed, once. */
  ghost predicate TrailOk(s: Setting, c: Copy, trail: seq<nat>) {
    NoDup(trail) && |s.h0| <= |s.hm|
    && forall a: nat :: a in trail <==> a < |s.h0| && Shared(s.hm[a]) && (a in c.phi || a in c.psi)
  }

  /** A source cell whose change was undone: compounds keep a mark, so that the second tour finds them. */
  function Undone(s: Setting, c: Copy, a: nat): Cell
    requires a < |s.h0| <= |s.hm|
  {
    if Shared(s.hm[a]) && a in c.phi then (if s.h0[a].Fun? then s.h0[a].(fmark := Once) else s.h0[a])
    else if Shared(s.hm[a]) && a in c.psi then s.h0[a]
    else s.hm[a]
  }

  /** The source while the trail is undone: `left` is still to do. */
  ghost predicate SourceUndone(s: Setting, c: Copy, h: Heap, left: seq<nat>) {
    |s.h0| < |h| && |s.h0| <= |s.hm| && forall a: nat :: a < |s.h0| ==> h[a] == if a in left then Now(s, c, a)
        else Undone(s, c, a)
  }

  /** The copy while the trail is undone: variables take the place of markers. */
  ghost predicate CopyUndone(s: Setting, c: Copy, h0: Heap, h: Heap, left: seq<nat>) {
    && |h| == |h0| && (forall x: nat :: |s.h0| <= x < |h| ==> h[x] == h0[x] || (h0[x] == Marker && h[x] == Var(Virgin)))
    && (forall v: nat :: v in c.psi && v < |s.hm| && Shared(s.hm[v]) && c.psi[v] in c.img && c.img[c.psi[v]] < |h| ==>
          h[c.img[c.psi[v]]] == if v in left then Marker else Var(Virgin))
  }

  lemma UndoBegins(s: Setting, c: Copy, h: Heap, todo: set<nat>, trail: seq<nat>)
    requires Copying(s, c, h, todo) && TrailOk(s, c, trail)
    ensures SourceUndone(s, c, h, trail) && CopyUndone(s, c, h, h, trail)
  {
    hide *;
    CopyingHas(s, c, h, todo);
    SourceBegins(s, c, h, trail);
    forall v: nat | v in c.psi && v < |s.hm| && Shared(s.hm[v]) && c.psi[v] in c.img && c.img[c.psi[v]] < |h|
      ensures h[c.img[c.psi[v]]] == Marker && v in trail
    {
      PsiVar(s, c, v);
      MarkerPlace(s, c, h, todo, v);
      InTrail(s, c, trail, v);
    }
    CopyBegins(s, c, h, trail);
  }

  lemma CopyBegins(s: Setting, c: Copy, h: Heap, trail: seq<nat>)
    requires forall v: nat ::
             v in c.psi && v < |s.hm| && Shared(s.hm[v]) && c.psi[v] in c.img && c.img[c.psi[v]] < |h| ==>
             h[c.img[c.psi[v]]] == Marker && v in trail
    ensures CopyUndone(s, c, h, h, trail)
  {
    hide Shared;
  }

  lemma SourceBegins(s: Setting, c: Copy, h: Heap, trail: seq<nat>)
    requires SourceOk(s, c, h) && TrailOk(s, c, trail)
    ensures SourceUndone(s, c, h, trail)
  {
    hide Shared, NoDup;
    forall a: nat | a < |s.h0| ensures h[a] == if a in trail then Now(s, c, a) else Undone(s, c, a) {
        assert h[a] == Now(s, c, a); }
  }

  lemma InTrail(s: Setting, c: Copy, trail: seq<nat>, a: nat)
    requires TrailOk(s, c, trail)
    ensures a in trail <==> a < |s.h0| && Shared(s.hm[a]) && (a in c.phi || a in c.psi)
  {
  }

  lemma PsiVar(s: Setting, c: Copy, v: nat)
    requires Sound(s) && StartOk(s.h0, s.depth, s.start) && PsiOk(s, c) && v in c.psi && v < |s.hm| && Shared(s.hm[v])
    ensures v < |s.h0| && s.h0[v].Var?
  {
    hide ViaOk, VisitsOk, OwnersOk, DoneOk;
    assert PsiAt(s, c, v);
    assert s.t.varVia.Keys == s.t.varVia.Keys;
    PsiBound(s, v);
  }

  lemma PsiBound(s: Setting, v: nat)
    requires Sound(s) && v in s.t.varVia
    ensures v < |s.h0| && s.h0[v].Var?
  {
    hide MarksOk;
  }

  lemma MarkerPlace(s: Setting, c: Copy, h: Heap, todo: set<nat>, v: nat)
    requires Copying(s, c, h, todo) && v in c.psi && v < |s.hm| && Shared(s.hm[v]) && v < |s.h0| && s.h0[v].Var?
    ensures c.psi[v] in c.done && c.psi[v] in c.img && |s.h0| <= c.img[c.psi[v]] < |h| && h[c.img[c.psi[v]]] == Marker
    ensures Goal(s.h0, s.depth, s.start, c.psi[v]) == v
  {
    hide Sound, ImgOk, FullOk, PhiOk, SourceOk, Goal;
    CopyingHas(s, c, h, todo);
    assert PsiAt(s, c, v);
    assert CopiedAt(s, c, h, c.psi[v]);
    HeapLong(s, c, h);
    PlaceIn(s, c, h, todo, c.psi[v]);
  }

  lemma HeapLong(s: Setting, c: Copy, h: Heap)
    requires SourceOk(s, c, h)
    ensures |s.h0| < |h| && |s.h0| <= |s.hm|
  {
  }

  /** The last entry of the trail is a shared compound, which refers to its copy... */
  lemma UndoFun(s: Setting, c: Copy, h: Heap, h1: Heap, todo: set<nat>, trail: seq<nat>, left: seq<nat>)
    requires Copying(s, c, h, todo) && TrailOk(s, c, trail) && left != [] && left <= trail
    requires SourceUndone(s, c, h1, left) && CopyUndone(s, c, h, h1, left) && left[|left| - 1] in c.phi
    ensures var p := left[|left| - 1];
            && p < |s.h0| < |h1| && h1[p] == Ref(c.phi[p]) && c.phi[p] < |h1| && h1[c.phi[p]].Fun?
            && SourceUndone(s, c, h1[p := h1[c.phi[p]].(fmark := Once)], left[..|left| - 1])
            && CopyUndone(s, c, h, h1[p := h1[c.phi[p]].(fmark := Once)], left[..|left| - 1])
  {
    hide *;
    var p := left[|left| - 1];
    CopyingHas(s, c, h, todo);
    HeapLong(s, c, h);
    LastLeft(trail, left, s, c);
    InTrail(s, c, trail, p);
    PhiBlock(s, c, h, p);
    UndoneFun(s, c, p);
    PlacesHigh(s, c, h, todo);
    SourceMore(s, c, h1, left);
    ChangedCell(s, c, h1, left, p);
    SamePlace(s, c, h, h1, left, c.phi[p]);
    PhiNotVar(s, c, h, p);
    UndoSource(s, c, h1, left, p, h1[c.phi[p]].(fmark := Once));
    UndoCopyKeeps(s, c, h, h1, left, p, h1[c.phi[p]].(fmark := Once));
  }

  lemma LastLeft(trail: seq<nat>, left: seq<nat>, s: Setting, c: Copy)
    requires TrailOk(s, c, trail) && left != [] && left <= trail
    ensures left[|left| - 1] in trail && left[|left| - 1] in left && left[|left| - 1] !in left[..|left| - 1]
    ensures forall a :: a in left <==> a in left[..|left| - 1] || a == left[|left| - 1]
    ensures left[..|left| - 1] <= trail
  {
    var k := |left| - 1;
    assert left == left[..k] + [left[k]];
    assert trail[k] == left[k];
  }

  lemma PhiBlock(s: Setting, c: Copy, h: Heap, f: nat)
    requires PhiOk(s, c, h) && f in c.phi && |s.h0| <= |s.hm|
    ensures Fits(s.h0, f) && f < |s.h0| && s.h0[f].Fun? && |s.h0| < c.phi[f] < |h| && h[c.phi[f]] == s.h0[f]
  {
    assert BlockOk(s, c, h, f);
  }

  lemma PhiNotVar(s: Setting, c: Copy, h: Heap, f: nat)
    requires StartOk(s.h0, s.depth, s.start) && PhiOk(s, c, h) && PsiOk(s, c) && f in c.phi && Fits(s.h0, f)
    ensures f !in c.psi
  {
    FunNoVar(s, c, f);
  }

  lemma ChangedCell(s: Setting, c: Copy, h1: Heap, left: seq<nat>, p: nat)
    requires SourceUndone(s, c, h1, left) && p in left && p < |s.h0| && Shared(s.hm[p])
    ensures p < |h1| && p in c.phi ==> h1[p] == Ref(c.phi[p])
    ensures p < |h1| && p !in c.phi && p in c.psi && c.psi[p] in c.img ==> h1[p] == Ref(c.img[c.psi[p]])
  {
  }

  lemma SamePlace(s: Setting, c: Copy, h: Heap, h1: Heap, left: seq<nat>, x: nat)
    requires CopyUndone(s, c, h, h1, left) && |s.h0| <= x < |h| && h[x] != Marker
    ensures x < |h1| && h1[x] == h[x]
  {
  }

  lemma UndoSource(s: Setting, c: Copy, h1: Heap, left: seq<nat>, p: nat, x: Cell)
    requires SourceUndone(s, c, h1, left) && left != [] && p == left[|left| - 1] && p < |s.h0| && p < |h1| && x ==
             Undone(s, c, p)
    requires p !in left[..|left| - 1] && forall a :: a in left <==> a in left[..|left| - 1] || a == p
    ensures SourceUndone(s, c, h1[p := x], left[..|left| - 1])
  {
    hide Now, Undone;
  }

  /** Writing a source cell does not change the copy. */
  lemma UndoCopyKeeps(s: Setting, c: Copy, h: Heap, h1: Heap, left: seq<nat>, p: nat, x: Cell)
    requires CopyUndone(s, c, h, h1, left) && left != [] && p < |s.h0| && p < |h1| && p !in c.psi && ImgHigh(s, c)
    requires forall a :: a in left <==> a in left[..|left| - 1] || a == p
    ensures CopyUndone(s, c, h, h1[p := x], left[..|left| - 1])
  {
    hide Shared;
  }

  /** Variables were copied to the new part of the heap. */
  ghost predicate ImgHigh(s: Setting, c: Copy) {
    forall v :: v in c.psi && c.psi[v] in c.img ==> c.img[c.psi[v]] >= |s.h0|
  }

  lemma PlacesHigh(s: Setting, c: Copy, h: Heap, todo: set<nat>)
    requires Sound(s) && ImgOk(s, c, todo) && PhiOk(s, c, h) && |s.h0| < |h|
    ensures ImgHigh(s, c)
  {
    hide *;
    HighIf(s, c);
    forall id: nat | id in c.img ensures c.img[id] >= |s.h0| { PlaceIn(s, c, h, todo, id); }
  }

  lemma HighIf(s: Setting, c: Copy)
    ensures (forall id: nat :: id in c.img ==> c.img[id] >= |s.h0|) ==> ImgHigh(s, c)
  {
  }

  lemma UndoneFun(s: Setting, c: Copy, p: nat)
    requires p < |s.h0| <= |s.hm| && Shared(s.hm[p]) && p in c.phi && s.h0[p].Fun?
    ensures Undone(s, c, p) == s.h0[p].(fmark := Once)
  {
  }

  lemma UndoneVar(s: Setting, c: Copy, p: nat)
    requires p < |s.h0| <= |s.hm| && Shared(s.hm[p]) && p !in c.phi && p in c.psi
    ensures Undone(s, c, p) == s.h0[p]
  {
  }

  lemma SourceMore(s: Setting, c: Copy, h1: Heap, left: seq<nat>)
    requires SourceUndone(s, c, h1, left)
    ensures |s.h0| < |h1|
  {
  }

  /** ... or a shared variable, which refers to the marker in its place. */
  lemma UndoVar(s: Setting, c: Copy, h: Heap, h1: Heap, todo: set<nat>, trail: seq<nat>, left: seq<nat>)
    requires Copying(s, c, h, todo) && TrailOk(s, c, trail) && left != [] && left <= trail
    requires SourceUndone(s, c, h1, left) && CopyUndone(s, c, h, h1, left) && left[|left| - 1] !in c.phi
    ensures var p := left[|left| - 1];
            && p < |s.h0| < |h1| && p in c.psi && c.psi[p] in c.img && h1[p] == Ref(c.img[c.psi[p]])
                && c.img[c.psi[p]] < |h1|
            && h1[c.img[c.psi[p]]] == Marker && |h1| == |h|
            && SourceUndone(s, c, h1[c.img[c.psi[p]] := Var(Virgin)][p := Var(Virgin)], left[..|left| - 1])
            && CopyUndone(s, c, h, h1[c.img[c.psi[p]] := Var(Virgin)][p := Var(Virgin)], left[..|left| - 1])
  {
    hide *;
    var p := left[|left| - 1];
    CopyingHas(s, c, h, todo);
    HeapLong(s, c, h);
    LastLeft(trail, left, s, c);
    InTrail(s, c, trail, p);
    PsiVar(s, c, p);
    UnmarkedVar(s, p);
    MarkerPlace(s, c, h, todo, p);
    UndoneVar(s, c, p);
    PlacesHigh(s, c, h, todo);
    SourceMore(s, c, h1, left);
    var q := c.img[c.psi[p]];
    PlaceOfVar(s, c, h, h1, left, p);
    ChangedCell(s, c, h1, left, p);
    AboveSource(s, c, h1, left, q);
    UndoSource(s, c, h1[q := Var(Virgin)], left, p, Var(Virgin));
    forall v: nat | v in c.psi && v != p && c.psi[v] in c.img ensures c.img[c.psi[v]] != q {
      VarsApart(s, c, h, todo, v, p);
    }
    UndoCopyVar(s, c, h, h1, left, p, q);
  }

  lemma UnmarkedVar(s: Setting, p: nat)
    requires Sound(s) && StartOk(s.h0, s.depth, s.start) && p < |s.h0| && s.h0[p].Var?
    ensures s.h0[p] == Var(Virgin)
  {
    hide Sound;
    assert CellOk(s.h0, s.depth, p);
  }

  lemma PlaceOfVar(s: Setting, c: Copy, h: Heap, h1: Heap, left: seq<nat>, p: nat)
    requires CopyUndone(s, c, h, h1, left) && p in c.psi && p < |s.hm| && Shared(s.hm[p]) && c.psi[p] in c.img
             && c.img[c.psi[p]] < |h| && p in left
    requires |s.h0| <= |s.hm| && h[c.img[c.psi[p]]] == Marker
    ensures |h1| == |h| && h1[c.img[c.psi[p]]] == Marker
  {
  }

  lemma AboveSource(s: Setting, c: Copy, h1: Heap, left: seq<nat>, q: nat)
    requires SourceUndone(s, c, h1, left) && |s.h0| <= q < |h1|
    ensures SourceUndone(s, c, h1[q := Var(Virgin)], left)
  {
    hide Now, Undone;
  }

  lemma VarsApart(s: Setting, c: Copy, h: Heap, todo: set<nat>, v: nat, u: nat)
    requires Copying(s, c, h, todo) && v in c.psi && u in c.psi && v != u && c.psi[v] in c.img && c.psi[u] in c.img
    ensures c.img[c.psi[v]] != c.img[c.psi[u]]
  {
    hide *;
    CopyingHas(s, c, h, todo);
    HeapLong(s, c, h);
    VarGoal(s, c, v);
    VarGoal(s, c, u);
    PlacesDiffer(s, c, h, todo, c.psi[v], c.psi[u]);
  }

  lemma VarGoal(s: Setting, c: Copy, v: nat)
    requires StartOk(s.h0, s.depth, s.start) && PsiOk(s, c) && v in c.psi
    ensures IdOk(s.h0, c.psi[v]) && Goal(s.h0, s.depth, s.start, c.psi[v]) == v
  {
    hide Goal;
    assert PsiAt(s, c, v);
  }

  lemma UndoCopyVar(s: Setting, c: Copy, h: Heap, h1: Heap, left: seq<nat>, p: nat, q: nat)
    requires CopyUndone(s, c, h, h1, left) && left != [] && p < |s.h0| <= q < |h1| && ImgHigh(s, c)
    requires p in c.psi && c.psi[p] in c.img && c.img[c.psi[p]] == q && h1[q] == Marker
    requires forall v: nat :: v in c.psi && v != p && c.psi[v] in c.img ==> c.img[c.psi[v]] != q
    requires forall a :: a in left <==> a in left[..|left| - 1] || a == p
    requires p !in left[..|left| - 1]
    ensures CopyUndone(s, c, h, h1[q := Var(Virgin)][p := Var(Virgin)], left[..|left| - 1])
  {
    hide Shared;
  }

  /** When the trail is undone, the copy has variables for markers. */
  ghost predicate Finished(s: Setting, c: Copy, h: Heap, id: nat)
    requires StartOk(s.h0, s.depth, s.start)
  {
    && IdOk(s.h0, id) && id in c.img && c.img[id] < |h|
    && var e := Goal(s.h0, s.depth, s.start, id);
       var x := h[c.img[id]];
       match s.h0[e]
       case Con(k) => x == Con(k)
       case Str(f) => f in c.phi && x == Str(c.phi[f])
       case Var(_) => e in c.psi && c.psi[e] in c.img
           && (if c.psi[e] == id then x == Var(Virgin) else x == Ref(c.img[c.psi[e]]))
       case _ => false
  }

  lemma UndoneCopy(s: Setting, c: Copy, h: Heap, h1: Heap, todo: set<nat>, trail: seq<nat>, id: nat)
    requires Copying(s, c, h, todo) && StartOk(s.h0, s.depth, s.start) && CopyUndone(s, c, h, h1, [])
             && TrailOk(s, c, trail) && id in c.done
    ensures Finished(s, c, h1, id)
  {
    hide *;
    CopyingHas(s, c, h, todo);
    HeapLong(s, c, h);
    DoneCopied(s, c, h, id);
    CopiedIn(s, c, h, id);
    PlaceIn(s, c, h, todo, id);
    CopyUndoneAt(s, c, h, h1, id);
    GoalOwn(s, c, h1, id);
    FinishedFrom(s, c, h, h1, id);
  }

  lemma DoneCopied(s: Setting, c: Copy, h: Heap, id: nat)
    requires StartOk(s.h0, s.depth, s.start) && CopiesOk(s, c, h) && id in c.done
    ensures CopiedAt(s, c, h, id) && IdOk(s.h0, id)
  {
    hide Goal, StartOk;
    assert CopiedAt(s, c, h, id);
  }

  /** A cell that was not a marker is what it was; a marker has become a variable. */
  lemma FinishedFrom(s: Setting, c: Copy, h: Heap, h1: Heap, id: nat)
    requires StartOk(s.h0, s.depth, s.start) && CopiedAt(s, c, h, id) && id in c.img && c.img[id] < |h1| == |h|
    requires h[c.img[id]] != Marker ==> h1[c.img[id]] == h[c.img[id]]
    requires forall v: nat :: v in c.psi && c.psi[v] == id && v < |s.hm| && Shared(s.hm[v]) ==>
               h1[c.img[id]] == Var(Virgin)
    ensures Finished(s, c, h1, id)
  {
    hide Goal, StartOk, Shared;
  }

  lemma GoalOwn(s: Setting, c: Copy, h1: Heap, id: nat)
    requires StartOk(s.h0, s.depth, s.start) && IdOk(s.h0, id)
    ensures Goal(s.h0, s.depth, s.start, id) < |s.h0|
  {
  }

  lemma CopyUndoneAt(s: Setting, c: Copy, h: Heap, h1: Heap, id: nat)
    requires CopyUndone(s, c, h, h1, []) && id in c.img && |s.h0| <= c.img[id] < |h|
    ensures |h1| == |h| && (h[c.img[id]] != Marker ==> h1[c.img[id]] == h[c.img[id]])
    ensures forall v: nat :: v in c.psi && c.psi[v] == id && v < |s.hm| && Shared(s.hm[v]) ==>
              h1[c.img[id]] == Var(Virgin)
  {
  }

  /** The blocks of the copy keep their functors. */
  lemma UndoneBlock(s: Setting, c: Copy, h: Heap, h1: Heap, f: nat)
    requires PhiOk(s, c, h) && StartOk(s.h0, s.depth, s.start) && CopyUndone(s, c, h, h1, []) && f in c.phi
             && |s.h0| <= |s.hm|
    ensures |h1| == |h| && Fits(s.h0, f) && |s.h0| < c.phi[f] && c.phi[f] + s.h0[f].arity < |h1| && h1[c.phi[f]] ==
            s.h0[f]
  {
    assert BlockOk(s, c, h, f);
    SamePlace(s, c, h, h1, [], c.phi[f]);
  }
}
