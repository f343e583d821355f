// How much space a copy needs.

module TermCopySpace {
  import opened TermHeap
  import opened TermTour
  import opened TermCopyState
  import opened TermCopySteps

  lemma SubsetSize(a: set<nat>, b: set<nat>)
    requires a <= b
    ensures |a| <= |b|
  {
    if a != {} {
      var x :| x in a;
      SubsetSize(a - {x}, b - {x});
    }
  }

  lemma SetSize(ids: seq<nat>)
    requires NoDup(ids)
    ensures |SetOf(ids)| == |ids|
  {
    if ids != [] {
      TakeFirst(ids);
      SetSize(ids[1..]);
    } else {
      assert SetOf(ids) == {};
    }
  }

  lemma BelowSize(a: set<nat>, n: nat)
    requires forall x :: x in a ==> x < n
    ensures |a| <= n
  {
    SetSize(Range(0, n));
    SubsetSize(a, SetOf(Range(0, n)));
  }

  lemma FewIds(ids: seq<nat>, n: nat)
    requires NoDup(ids) && forall x :: x in SetOf(ids) ==> x <= n
    ensures |ids| <= n + 1
  {
    SetSize(ids);
    BelowSize(SetOf(ids), n + 1);
  }

  lemma ArgsSize(h0: Heap, f: nat)
    requires Fits(h0, f)
    ensures |Args(h0, f)| == h0[f].arity
  {
    SetSize(Range(f + 1, h0[f].arity));
  }

  /** The cells made: one for each visit and one for each functor. */
  predicate Sized(s: Setting, c: Copy, h: Heap) {
    |h| == |s.h0| + |c.img| + |c.phi|
  }

  lemma SizedMore(s: Setting, c: Copy, h: Heap, h1: Heap, id: nat, f: nat)
    requires Sized(s, c, h) && Fits(s.h0, f) && f !in c.phi && |h1| == |h| + 1 + s.h0[f].arity
    requires forall a :: a in Args(s.h0, f) ==> a !in c.img
    ensures Sized(s, WithBlock(s, c, h, id, f), h1)
  {
    var c1 := WithBlock(s, c, h, id, f);
    WithBlockIs(s, c, h, id, f);
    hide WithBlock, Args;
    ArgsSize(s.h0, f);
    MapGrows(c.img, c1.img, Args(s.h0, f));
    assert |c1.phi| == |c.phi| + 1;
  }

  lemma MapGrows(m: map<nat, nat>, m1: map<nat, nat>, more: set<nat>)
    requires (forall a :: a in m1 <==> a in m || a in more) && forall a :: a in more ==> a !in m
    ensures |m1| == |m| + |more|
  {
    assert m1.Keys == m.Keys + more && m.Keys !! more;
    assert |m1| == |m1.Keys| && |m| == |m.Keys|;
  }

  /** A copy never needs more cells than the source has. */
  lemma SpaceEnough(s: Setting, c: Copy, h: Heap, todo: set<nat>)
    requires Copying(s, c, h, todo) && Sized(s, c, h)
    ensures |h| <= 2 * |s.h0| + 1
  {
    CopyingHas(s, c, h, todo);
    hide Copying, Sound, StartOk, ImgOk, FullOk, PsiOk, SourceOk, CopiesOk, BlockOk;
    forall x | x in c.img.Keys + c.phi.Keys ensures x < |s.h0| + 1 && (x in c.img.Keys ==> x !in c.phi.Keys) {
      if x in c.img { SameVisits(s, c, todo, x); }
      if x in c.phi { assert BlockOk(s, c, h, x); FunBlock(s, c, h, x); }
    }
    BelowSize(c.img.Keys + c.phi.Keys, |s.h0| + 1);
    assert c.img.Keys !! c.phi.Keys;
    assert |c.img| == |c.img.Keys| && |c.phi| == |c.phi.Keys|;
  }

  lemma FunBlock(s: Setting, c: Copy, h: Heap, f: nat)
    requires f in c.phi && BlockOk(s, c, h, f)
    ensures f < |s.h0| && s.h0[f].Fun?
  {
  }

  /** No more visits are due than the source has cells, and the root. */
  lemma AgendaEnough(s: Setting, c: Copy, todo: set<nat>, ids: seq<nat>)
    requires Sound(s) && ImgOk(s, c, todo) && NoDup(ids) && SetOf(ids) <= todo
    ensures |ids| <= |s.h0| + 1
  {
    hide Sound;
    forall x | x in SetOf(ids) ensures x <= |s.h0| {
      TodoPlaced(s, c, todo, x);
      SameVisits(s, c, todo, x);
    }
    hide ImgOk;
    FewIds(ids, |s.h0|);
  }

  lemma TourEnough(h0: Heap, depth: seq<nat>, start: nat, t: Tour, todo: set<nat>, ids: seq<nat>)
    requires TourOk(h0, depth, start, t, todo) && NoDup(ids) && SetOf(ids) <= todo
    ensures |ids| <= |h0| + 1
  {
    hide TourOk;
    forall x | x in SetOf(ids) ensures x <= |h0| { TodoOk(h0, depth, start, t, todo, x); }
    FewIds(ids, |h0|);
  }
}
