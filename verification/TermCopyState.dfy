// The state of a copy in progress: what was copied where, and what the source looks like meanwhile.

module TermCopyState {
  import opened TermHeap
  import opened TermTour

  /** What the copy starts from: the unmarked source, the tour that marked it, and the marks. */
  datatype Setting = Setting(h0: Heap, depth: seq<nat>, start: nat, hm: Heap, t: Tour)

  ghost predicate Sound(s: Setting) {
    Touring(s.h0, s.depth, s.start, s.hm, s.t, {}) && Complete(s.h0, s.t) && |s.hm| >= |s.h0|
  }

  /** Where compounds went; which visit copied each variable; where each visit's cell goes; the visits made. */
  datatype Copy = Copy(phi: map<nat, nat>, psi: map<nat, nat>, img: map<nat, nat>, done: set<nat>)

  predicate Shared(c: Cell) {
    (c.Fun? && c.fmark == Twice) || (c.Var? && c.mark == Twice)
  }

  predicate IsOnce(c: Cell) {
    (c.Fun? && c.fmark == Once) || (c.Var? && c.mark == Once)
  }

  /** Visit `id` has the place its compound's copy gives it; the root has the cell after the source. */
  predicate Placed(s: Setting, c: Copy, id: nat)
    requires id in c.img
  {
    if id == |s.h0| then c.img[id] == |s.h0|
    else id in s.t.owner && s.t.owner[id] in c.phi && c.img[id] == c.phi[s.t.owner[id]] + (id - s.t.owner[id])
  }

  ghost predicate ImgOk(s: Setting, c: Copy, todo: set<nat>) {
    && c.done !! todo && |s.h0| in c.img
    && (forall id :: id in c.img <==> id in c.done || id in todo)
    && (forall id :: id in c.img ==> Placed(s, c, id))
  }

  ghost predicate FullOk(s: Setting, c: Copy) {
    forall f: nat, a: nat :: f in c.phi && Child(s.h0, f, a) ==> a in c.img
  }

  /** The block of a copied compound. */
  predicate BlockOk(s: Setting, c: Copy, h: Heap, f: nat)
    requires f in c.phi
  {
    && f in s.t.via && Fits(s.h0, f) && c.phi[f] > |s.h0| && c.phi[f] + s.h0[f].arity < |h| && h[c.phi[f]] == s.h0[f]
    && (f < |s.hm| && IsOnce(s.hm[f]) ==> s.t.via[f] in c.done)
  }

  predicate BlocksApart(s: Setting, c: Copy, f: nat, g: nat)
    requires f in c.phi && g in c.phi && Fits(s.h0, f) && Fits(s.h0, g)
  {
    c.phi[f] + s.h0[f].arity < c.phi[g] || c.phi[g] + s.h0[g].arity < c.phi[f]
  }

  ghost predicate PhiOk(s: Setting, c: Copy, h: Heap) {
    && (forall f :: f in c.phi ==> BlockOk(s, c, h, f))
    && (forall f, g :: f in c.phi && g in c.phi && f != g ==> BlocksApart(s, c, f, g))
  }

  ghost predicate PsiAt(s: Setting, c: Copy, v: nat)
    requires StartOk(s.h0, s.depth, s.start) && v in c.psi
  {
    v in s.t.varVia && c.psi[v] in c.done && c.psi[v] in c.img && MeetsVar(s.h0, s.depth, s.start, c.psi[v], v)
  }

  ghost predicate PsiOk(s: Setting, c: Copy)
    requires StartOk(s.h0, s.depth, s.start)
  {
    forall v :: v in c.psi ==> PsiAt(s, c, v)
  }

  /** What a source cell holds during the copy: shared compounds and variables refer to their copies. */
  function Now(s: Setting, c: Copy, a: nat): Cell
    requires a < |s.hm|
  {
    if Shared(s.hm[a]) && a in c.phi then Ref(c.phi[a])
    else if Shared(s.hm[a]) && a in c.psi && c.psi[a] in c.img then Ref(c.img[c.psi[a]])
    else s.hm[a]
  }

  ghost predicate SourceOk(s: Setting, c: Copy, h: Heap) {
    |s.h0| < |h| && |s.h0| <= |s.hm| && forall a :: 0 <= a < |s.h0| ==> h[a] == Now(s, c, a)
  }

  /** The cell made for visit `id` copies what the visit met. */
  ghost predicate CopiedAt(s: Setting, c: Copy, h: Heap, id: nat)
    requires StartOk(s.h0, s.depth, s.start)
  {
    && IdOk(s.h0, id) && id in c.img && c.img[id] < |h| && |s.h0| <= |s.hm|
    && var e := Goal(s.h0, s.depth, s.start, id);
       var x := h[c.img[id]];
       match s.h0[e]
       case Con(k) => x == Con(k)
       case Str(f) => f in c.phi && x == Str(c.phi[f])
       case Var(_) =>
         && e in c.psi && c.psi[e] in c.img
         && (if c.psi[e] == id then x == (if Shared(s.hm[e]) then Marker else Var(Virgin))
             else Shared(s.hm[e]) && x == Ref(c.img[c.psi[e]]))
       case _ => false
  }

  ghost predicate CopiesOk(s: Setting, c: Copy, h: Heap)
    requires StartOk(s.h0, s.depth, s.start)
  {
    forall id :: id in c.done ==> CopiedAt(s, c, h, id)
  }

  ghost predicate Copying(s: Setting, c: Copy, h: Heap, todo: set<nat>) {
    Sound(s) && StartOk(s.h0, s.depth, s.start) && ImgOk(s, c, todo) && FullOk(s, c) && PhiOk(s, c, h) && PsiOk(s, c)
        && SourceOk(s, c, h) && CopiesOk(s, c, h)
  }

  // ----- places -----

  lemma SoundStart(s: Setting)
    requires Sound(s)
    ensures StartOk(s.h0, s.depth, s.start)
  {
    TourStart(s.h0, s.depth, s.start, s.t, {});
  }

  /** A place lies in the new part of the heap, away from functor cells. */
  lemma PlaceIn(s: Setting, c: Copy, h: Heap, todo: set<nat>, id: nat)
    requires Sound(s) && ImgOk(s, c, todo) && PhiOk(s, c, h) && id in c.img && |s.h0| < |h|
    ensures |s.h0| <= c.img[id] < |h| && forall f :: f in c.phi ==> c.img[id] != c.phi[f]
  {
    assert Placed(s, c, id);
    if id != |s.h0| {
      var g := s.t.owner[id];
      OwnerChild(s, id);
      assert BlockOk(s, c, h, g);
      forall f | f in c.phi ensures c.img[id] != c.phi[f] {
        assert BlockOk(s, c, h, f);
        if f != g { assert BlocksApart(s, c, f, g); }
      }
    } else {
      forall f | f in c.phi ensures c.img[id] != c.phi[f] { assert BlockOk(s, c, h, f); }
    }
  }

  lemma OwnerChild(s: Setting, id: nat)
    requires Sound(s) && id in s.t.owner
    ensures Child(s.h0, s.t.owner[id], id) && id < |s.h0| && !s.h0[id].Fun?
  {
    hide ViaOk, DoneOk, VisitsOk, MarksOk, KeysOk;
  }

  /** Different visits have different places. */
  lemma PlacesDiffer(s: Setting, c: Copy, h: Heap, todo: set<nat>, i: nat, j: nat)
    requires Sound(s) && ImgOk(s, c, todo) && PhiOk(s, c, h) && i in c.img && j in c.img && i != j && |s.h0| < |h|
    ensures c.img[i] != c.img[j]
  {
    hide Sound;
    assert Placed(s, c, i) && Placed(s, c, j);
    if i == |s.h0| {
      OwnerChild(s, j);
      assert BlockOk(s, c, h, s.t.owner[j]);
    } else if j == |s.h0| {
      OwnerChild(s, i);
      assert BlockOk(s, c, h, s.t.owner[i]);
    } else {
      var f, g := s.t.owner[i], s.t.owner[j];
      OwnerChild(s, i);
      OwnerChild(s, j);
      assert BlockOk(s, c, h, f) && BlockOk(s, c, h, g);
      if f != g { assert BlocksApart(s, c, f, g); }
    }
  }

  /** A visit of the copy is a visit of the tour. */
  lemma SameVisits(s: Setting, c: Copy, todo: set<nat>, id: nat)
    requires Sound(s) && ImgOk(s, c, todo) && id in c.img
    ensures id in s.t.done && IdOk(s.h0, id) && Known(s.h0, s.depth, s.start, s.t, id)
  {
    hide ViaOk, MarksOk, KeysOk, Known, Goal;
    assert Placed(s, c, id);
    if id != |s.h0| { OwnerChild(s, id); }
    assert id in s.t.done || id in {} <==> id == |s.h0| || id in s.t.owner;
    DoneKnown(s.h0, s.depth, s.start, s.t, id);
  }

  lemma PhiVia(s: Setting, c: Copy, h: Heap, f: nat)
    requires PhiOk(s, c, h) && f in c.phi && f < |s.hm| && IsOnce(s.hm[f])
    ensures f in s.t.via && s.t.via[f] in c.done
  {
    assert BlockOk(s, c, h, f);
  }

  lemma OnceVia(s: Setting, id: nat, f: nat)
    requires Sound(s) && StartOk(s.h0, s.depth, s.start) && id in s.t.done && Meets(s.h0, s.depth, s.start, id, f)
    requires f < |s.h0| && IsOnce(s.hm[f]) && Known(s.h0, s.depth, s.start, s.t, id)
    ensures f in s.t.via && s.t.via[f] == id
  {
    hide ViaOk, DoneOk, VisitsOk, OwnersOk;
    assert MarkOk(s.h0, s.depth, s.start, s.hm, s.t, f);
  }

  lemma OnceVarVia(s: Setting, id: nat, v: nat)
    requires Sound(s) && StartOk(s.h0, s.depth, s.start) && id in s.t.done && MeetsVar(s.h0, s.depth, s.start, id, v)
    requires v < |s.h0| && IsOnce(s.hm[v]) && s.h0[v].Var? && Known(s.h0, s.depth, s.start, s.t, id)
    ensures v in s.t.varVia && s.t.varVia[v] == id
  {
    hide ViaOk, DoneOk, VisitsOk, OwnersOk;
    assert MarkOk(s.h0, s.depth, s.start, s.hm, s.t, v);
  }

  /** A compound met once has not been copied before its one visit. */
  lemma OnceFresh(s: Setting, c: Copy, h: Heap, todo: set<nat>, id: nat, f: nat)
    requires Copying(s, c, h, todo) && id in todo && Meets(s.h0, s.depth, s.start, id, f) && f < |s.h0|
             && IsOnce(s.hm[f])
    ensures f !in c.phi
  {
    hide CopiesOk, SourceOk, FullOk, PsiOk, PhiOk, Sound;
    TodoPlaced(s, c, todo, id);
    SameVisits(s, c, todo, id);
    OnceVia(s, id, f);
    HmLong(s);
    if f in c.phi { PhiVia(s, c, h, f); }
  }

  lemma HmLong(s: Setting)
    requires Sound(s)
    ensures |s.hm| >= |s.h0|
  {
    hide Touring;
  }

  lemma TodoPlaced(s: Setting, c: Copy, todo: set<nat>, id: nat)
    requires ImgOk(s, c, todo) && id in todo
    ensures id in c.img && id !in c.done
  {
  }

  lemma PsiVia(s: Setting, c: Copy, todo: set<nat>, v: nat)
    requires Sound(s) && StartOk(s.h0, s.depth, s.start) && ImgOk(s, c, todo) && PsiOk(s, c) && v in c.psi
             && v < |s.h0| && IsOnce(s.hm[v]) && s.h0[v].Var?
    ensures v in s.t.varVia && s.t.varVia[v] == c.psi[v] && c.psi[v] in c.done
  {
    hide Sound, ImgOk;
    assert PsiAt(s, c, v);
    SameVisits(s, c, todo, c.psi[v]);
    OnceVarVia(s, c.psi[v], v);
  }

  lemma OnceFreshVar(s: Setting, c: Copy, h: Heap, todo: set<nat>, id: nat, v: nat)
    requires Copying(s, c, h, todo) && id in todo && MeetsVar(s.h0, s.depth, s.start, id, v) && v < |s.h0|
             && IsOnce(s.hm[v]) && s.h0[v].Var?
    ensures v !in c.psi
  {
    hide CopiesOk, SourceOk, FullOk, PhiOk, PsiOk, Sound, ImgOk;
    TodoPlaced(s, c, todo, id);
    SameVisits(s, c, todo, id);
    OnceVarVia(s, id, v);
    if v in c.psi { PsiVia(s, c, todo, v); }
  }
}
