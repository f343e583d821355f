// The steps of the copy keep its state in order.

module TermCopySteps {
  import opened TermHeap
  import opened TermTour
  import opened TermCopyState

  /** What was copied stays copied when a cell that is nobody's place is written. */
  lemma StaysCopied(s: Setting, c: Copy, c1: Copy, h: Heap, h1: Heap, id: nat)
    requires StartOk(s.h0, s.depth, s.start) && CopiedAt(s, c, h, id)
    requires |h| <= |h1| && h1[c.img[id]] == h[c.img[id]] && id in c1.img && c1.img[id] == c.img[id]
    requires forall f :: f in c.phi ==> f in c1.phi && c1.phi[f] == c.phi[f]
    requires forall v :: v in c.psi ==> v in c1.psi && c1.psi[v] == c.psi[v]
    requires forall i :: i in c.img ==> i in c1.img && c1.img[i] == c.img[i]
    ensures CopiedAt(s, c1, h1, id)
  {
    hide Goal;
  }

  /** Writing the cell of a visit. */
  lemma CopyWrite(s: Setting, c: Copy, h: Heap, todo: set<nat>, id: nat, x: Cell)
    requires Copying(s, c, h, todo) && id in todo && id in c.img && c.img[id] < |h|
    requires CopiedAt(s, c.(done := c.done + {id}), h[c.img[id] := x], id)
    ensures Copying(s, c.(done := c.done + {id}), h[c.img[id] := x], todo - {id})
  {
    hide Sound, BlockOk, PsiAt, CopiedAt, Placed;
    var c1, h1 := c.(done := c.done + {id}), h[c.img[id] := x];
    PlaceIn(s, c, h, todo, id);
    VisitMade(s, c, todo, id);
    forall f | f in c1.phi ensures BlockOk(s, c1, h1, f) {
      assert BlockOk(s, c, h, f);
      BlockStays(s, c, c1, h, h1, f);
    }
    forall v | v in c1.psi ensures PsiAt(s, c1, v) {
      assert PsiAt(s, c, v);
      PsiIn(s, c, v);
      PsiStays(s, c, c1, v);
    }
    forall i | i in c1.done ensures CopiedAt(s, c1, h1, i) {
      if i != id {
        assert CopiedAt(s, c, h, i);
        CopiedIn(s, c, h, i);
        PlacesDiffer(s, c, h, todo, i, id);
        StaysCopied(s, c, c1, h, h1, i);
      }
    }
  }

  lemma CopiedIn(s: Setting, c: Copy, h: Heap, id: nat)
    requires StartOk(s.h0, s.depth, s.start) && CopiedAt(s, c, h, id)
    ensures id in c.img && c.img[id] < |h|
  {
    hide Goal;
  }

  lemma VisitMade(s: Setting, c: Copy, todo: set<nat>, id: nat)
    requires ImgOk(s, c, todo) && id in todo
    ensures ImgOk(s, c.(done := c.done + {id}), todo - {id})
  {
    var c1 := c.(done := c.done + {id});
    forall i | i in c1.img ensures Placed(s, c1, i) { assert Placed(s, c, i); }
  }

  lemma BlockStays(s: Setting, c: Copy, c1: Copy, h: Heap, h1: Heap, f: nat)
    requires f in c.phi && BlockOk(s, c, h, f) && f in c1.phi && c1.phi[f] == c.phi[f] && c.done <= c1.done
    requires |h| <= |h1| && (c.phi[f] < |h| ==> h1[c.phi[f]] == h[c.phi[f]])
    ensures BlockOk(s, c1, h1, f)
  {
  }

  lemma PsiStays(s: Setting, c: Copy, c1: Copy, v: nat)
    requires StartOk(s.h0, s.depth, s.start) && v in c.psi && PsiAt(s, c, v) && v in c1.psi && c1.psi[v] == c.psi[v]
    requires c.done <= c1.done && c.psi[v] in c1.img
    ensures PsiAt(s, c1, v)
  {
    hide MeetsVar;
  }

  // ----- constants, variables met again, compounds met again -----

  lemma CopyConstant(s: Setting, c: Copy, h: Heap, todo: set<nat>, id: nat)
    requires Copying(s, c, h, todo) && id in todo && IdOk(s.h0, id) && s.h0[Goal(s.h0, s.depth, s.start, id)].Con?
    ensures id in c.img && c.img[id] < |h|
    ensures Copying(s, c.(done := c.done + {id}), h[c.img[id] := s.h0[Goal(s.h0, s.depth, s.start, id)]], todo - {id})
  {
    hide Copying, Goal;
    PlaceFacts(s, c, h, todo, id);
    CopyWrite(s, c, h, todo, id, s.h0[Goal(s.h0, s.depth, s.start, id)]);
  }

  lemma PlaceFacts(s: Setting, c: Copy, h: Heap, todo: set<nat>, id: nat)
    requires Copying(s, c, h, todo) && id in todo
    ensures StartOk(s.h0, s.depth, s.start) && id in c.img && id !in c.done && |s.h0| <= c.img[id] < |h|
            && |s.h0| <= |s.hm|
  {
    hide CopiesOk, PsiOk, FullOk, Sound;
    PlaceIn(s, c, h, todo, id);
  }

  lemma CopyAgain(s: Setting, c: Copy, h: Heap, todo: set<nat>, id: nat, f: nat)
    requires Copying(s, c, h, todo) && id in todo && IdOk(s.h0, id) && s.h0[Goal(s.h0, s.depth, s.start, id)] ==
             Str(f) && f in c.phi
    ensures id in c.img && c.img[id] < |h|
    ensures Copying(s, c.(done := c.done + {id}), h[c.img[id] := Str(c.phi[f])], todo - {id})
  {
    hide Copying, Goal;
    PlaceFacts(s, c, h, todo, id);
    CopyWrite(s, c, h, todo, id, Str(c.phi[f]));
  }

  lemma CopyVarAgain(s: Setting, c: Copy, h: Heap, todo: set<nat>, id: nat, v: nat)
    requires Copying(s, c, h, todo) && id in todo && IdOk(s.h0, id) && Goal(s.h0, s.depth, s.start, id) == v
             && s.h0[v].Var?
    requires v < |s.hm| && Shared(s.hm[v]) && v in c.psi && c.psi[v] in c.img
    ensures id in c.img && c.img[id] < |h|
    ensures Copying(s, c.(done := c.done + {id}), h[c.img[id] := Ref(c.img[c.psi[v]])], todo - {id})
  {
    hide Copying, Goal;
    PlaceFacts(s, c, h, todo, id);
    PsiKnown(s, c, h, todo, v);
    CopyWrite(s, c, h, todo, id, Ref(c.img[c.psi[v]]));
  }

  lemma PsiKnown(s: Setting, c: Copy, h: Heap, todo: set<nat>, v: nat)
    requires Copying(s, c, h, todo) && v in c.psi
    ensures c.psi[v] in c.done
  {
    hide Sound, ImgOk, FullOk, PhiOk, SourceOk, CopiesOk;
    assert PsiAt(s, c, v);
  }

  // ----- a variable met for the first time -----

  function WithVar(s: Setting, c: Copy, h: Heap, id: nat, v: nat): Heap
    requires id in c.img && c.img[id] < |h| && v < |s.hm| && v < |h|
  {
    if Shared(s.hm[v]) then h[c.img[id] := Marker][v := Ref(c.img[id])] else h[c.img[id] := Var(Virgin)]
  }

  lemma CopyNewVar(s: Setting, c: Copy, h: Heap, todo: set<nat>, id: nat, v: nat)
    requires Copying(s, c, h, todo) && id in todo && IdOk(s.h0, id) && Goal(s.h0, s.depth, s.start, id) == v
             && s.h0[v].Var?
    requires v !in c.psi && v < |s.h0| <= |s.hm| && |s.h0| < |h|
    ensures id in c.img && c.img[id] < |h|
    ensures Copying(s, c.(done := c.done + {id}, psi := c.psi[v := id]), WithVar(s, c, h, id, v), todo - {id})
  {
    hide Sound, BlockOk, PsiAt, CopiedAt, Placed, Goal;
    PlaceFacts(s, c, h, todo, id);
    var c1, h1 := c.(done := c.done + {id}, psi := c.psi[v := id]), WithVar(s, c, h, id, v);
    PlaceIn(s, c, h, todo, id);
    VisitMade(s, c, todo, id);
    ImgSame(s, c.(done := c.done + {id}), c1, todo - {id});
    NewVarKnown(s, c, todo, id, v);
    forall f | f in c1.phi ensures BlockOk(s, c1, h1, f) {
      assert BlockOk(s, c, h, f);
      BlockAbove(s, c, h, f);
      BlockStays(s, c, c1, h, h1, f);
    }
    forall u | u in c1.psi ensures PsiAt(s, c1, u) {
      if u == v {
        NewPsi(s, c1, id, v);
      } else {
        assert PsiAt(s, c, u);
        PsiIn(s, c, u);
        PsiStays(s, c, c1, u);
      }
    }
    VarNoBlock(s, c, h, v);
    NewVarSource(s, c, h, id, v);
    forall i | i in c1.done ensures CopiedAt(s, c1, h1, i) {
      if i == id {
        NewVarCopied(s, c, c1, h, id, v);
      } else {
        assert CopiedAt(s, c, h, i);
        CopiedIn(s, c, h, i);
        PlacesDiffer(s, c, h, todo, i, id);
        PlaceIn(s, c, h, todo, i);
        StaysCopied(s, c, c1, h, h1, i);
      }
    }
  }

  lemma ImgSame(s: Setting, c: Copy, c1: Copy, todo: set<nat>)
    requires ImgOk(s, c, todo) && c1.done == c.done && c1.img == c.img && c1.phi == c.phi
    ensures ImgOk(s, c1, todo)
  {
    forall i | i in c1.img ensures Placed(s, c1, i) { assert Placed(s, c, i); }
  }

  lemma BlockAbove(s: Setting, c: Copy, h: Heap, f: nat)
    requires f in c.phi && BlockOk(s, c, h, f)
    ensures |s.h0| < c.phi[f] < |h|
  {
  }

  lemma PsiIn(s: Setting, c: Copy, v: nat)
    requires StartOk(s.h0, s.depth, s.start) && v in c.psi && PsiAt(s, c, v)
    ensures c.psi[v] in c.img
  {
  }

  lemma NewVarKnown(s: Setting, c: Copy, todo: set<nat>, id: nat, v: nat)
    requires Sound(s) && StartOk(s.h0, s.depth, s.start) && ImgOk(s, c, todo) && id in todo && IdOk(s.h0, id)
    requires Goal(s.h0, s.depth, s.start, id) == v && s.h0[v].Var?
    ensures v in s.t.varVia
  {
    hide Sound, Goal;
    SameVisits(s, c, todo, id);
  }

  lemma NewPsi(s: Setting, c1: Copy, id: nat, v: nat)
    requires StartOk(s.h0, s.depth, s.start) && IdOk(s.h0, id) && Goal(s.h0, s.depth, s.start, id) == v
             && v in s.t.varVia
    requires v in c1.psi && c1.psi[v] == id && id in c1.done && id in c1.img
    ensures PsiAt(s, c1, v)
  {
    hide Goal;
  }

  lemma VarNoBlock(s: Setting, c: Copy, h: Heap, v: nat)
    requires PhiOk(s, c, h) && v < |s.h0| && s.h0[v].Var?
    ensures v !in c.phi
  {
  }

  lemma NewVarSource(s: Setting, c: Copy, h: Heap, id: nat, v: nat)
    requires SourceOk(s, c, h) && id in c.img && |s.h0| <= c.img[id] < |h| && v < |s.h0| && v !in c.psi
    requires v in c.phi ==> !Shared(s.hm[v])
    ensures SourceOk(s, c.(done := c.done + {id}, psi := c.psi[v := id]), WithVar(s, c, h, id, v))
  {
  }

  lemma NewVarCopied(s: Setting, c: Copy, c1: Copy, h: Heap, id: nat, v: nat)
    requires StartOk(s.h0, s.depth, s.start) && IdOk(s.h0, id) && Goal(s.h0, s.depth, s.start, id) == v
             && s.h0[v].Var? && |s.h0| <= |s.hm|
    requires id in c.img && |s.h0| <= c.img[id] < |h| && c1.img == c.img && c1.psi == c.psi[v := id]
    ensures CopiedAt(s, c1, WithVar(s, c, h, id, v), id)
  {
    hide Goal;
  }

  // ----- a compound met for the first time -----

  /** The block for the copy of a compound: its functor and cells still to fill. */
  function Block(h0: Heap, f: nat): (b: Heap)
    requires Fits(h0, f)
    ensures |b| == 1 + h0[f].arity && b[0] == h0[f]
  {
    [h0[f]] + seq(h0[f].arity, _ => Var(Virgin))
  }

  function WithFun(s: Setting, c: Copy, h: Heap, id: nat, f: nat): (h1: Heap)
    requires id in c.img && c.img[id] < |h| && Fits(s.h0, f) && f < |s.hm| && f < |h|
    ensures |h1| == |h| + 1 + s.h0[f].arity
  {
    var big := h + Block(s.h0, f);
    var fwd := if Shared(s.hm[f]) then big[f := Ref(|h|)] else big;
    fwd[c.img[id] := Str(|h|)]
  }

  function WithBlock(s: Setting, c: Copy, h: Heap, id: nat, f: nat): Copy
    requires Fits(s.h0, f)
  {
    c.(done := c.done + {id}, phi := c.phi[f := |h|], img := c.img + (map a | a in Args(s.h0, f) :: |h| + if a > f
        then a - f else 0))
  }

  lemma WithFunIs(s: Setting, c: Copy, h: Heap, id: nat, f: nat)
    requires id in c.img && |s.h0| <= c.img[id] < |h| && Fits(s.h0, f) && f < |s.hm|
    ensures var h1 := WithFun(s, c, h, id, f);
            && h1[c.img[id]] == Str(|h|) && h1[|h|] == s.h0[f] && h1[f] == (if Shared(s.hm[f]) then Ref(|h|) else h[f])
            && forall a :: 0 <= a < |h| && a != f && a != c.img[id] ==> h1[a] == h[a]
  {
    hide Block;
  }

  lemma WithBlockIs(s: Setting, c: Copy, h: Heap, id: nat, f: nat)
    requires Fits(s.h0, f)
    ensures var c1 := WithBlock(s, c, h, id, f);
            && c1.done == c.done + {id} && c1.phi == c.phi[f := |h|] && c1.psi == c.psi
            && (forall a :: a in c1.img <==> a in c.img || a in Args(s.h0, f))
            && (forall a :: a in Args(s.h0, f) ==> c1.img[a] == |h| + (a - f))
            && (forall a :: a in c.img && a !in Args(s.h0, f) ==> c1.img[a] == c.img[a])
  {
    hide Args;
  }

  /** The arguments of a compound that has not been copied have no places yet. */
  lemma ArgsUnplaced(s: Setting, c: Copy, todo: set<nat>, f: nat)
    requires Sound(s) && StartOk(s.h0, s.depth, s.start) && ImgOk(s, c, todo) && f in s.t.via && f !in c.phi
             && Fits(s.h0, f)
    ensures forall a :: a in Args(s.h0, f) ==> a < |s.h0| && a !in c.img && a in s.t.owner && s.t.owner[a] == f
  {
    hide Sound, Args;
    forall a | a in Args(s.h0, f) ensures a < |s.h0| && a !in c.img && a in s.t.owner && s.t.owner[a] == f {
      ChildOf(s.h0, s.depth, f, a);
      ArgOwned(s, f, a);
      OwnerChild(s, a);
      OneOwner(s.h0, s.depth, f, s.t.owner[a], a);
      UnplacedArg(s, c, todo, a);
    }
  }

  lemma UnplacedArg(s: Setting, c: Copy, todo: set<nat>, a: nat)
    requires ImgOk(s, c, todo) && a < |s.h0| && a in s.t.owner && s.t.owner[a] !in c.phi
    ensures a !in c.img
  {
  }

  lemma ArgOwned(s: Setting, f: nat, a: nat)
    requires Sound(s) && f in s.t.via && Child(s.h0, f, a)
    ensures a in s.t.owner
  {
    hide Touring;
  }

  lemma CopyNewFun(s: Setting, c: Copy, h: Heap, todo: set<nat>, id: nat, f: nat)
    requires Copying(s, c, h, todo) && id in todo && IdOk(s.h0, id) && s.h0[Goal(s.h0, s.depth, s.start, id)] == Str(f)
    requires f !in c.phi && f < |s.h0| && Fits(s.h0, f) && f < |s.hm| && f < |h|
    ensures id in c.img && c.img[id] < |h| && Args(s.h0, f) !! todo
    ensures Copying(s, WithBlock(s, c, h, id, f), WithFun(s, c, h, id, f), todo - {id} + Args(s.h0, f))
  {
    hide *;
    NewFunFacts(s, c, h, todo, id, f);
    WithFunIs(s, c, h, id, f);
    WithBlockIs(s, c, h, id, f);
    ArgsUnplaced(s, c, todo, f);
    NewFunImg(s, c, h, todo, id, f);
    NewFunPhi(s, c, h, todo, id, f);
    NewFunPsi(s, c, h, todo, id, f);
    FunNoVar(s, c, f);
    NewFunSource(s, c, h, todo, id, f);
    NewFunCopies(s, c, h, todo, id, f);
    CopyingIs(s, WithBlock(s, c, h, id, f), WithFun(s, c, h, id, f), todo - {id} + Args(s.h0, f));
  }

  lemma CopyingIs(s: Setting, c: Copy, h: Heap, todo: set<nat>)
    requires Sound(s) && StartOk(s.h0, s.depth, s.start) && ImgOk(s, c, todo) && FullOk(s, c) && PhiOk(s, c, h)
             && PsiOk(s, c) && SourceOk(s, c, h) && CopiesOk(s, c, h)
    ensures Copying(s, c, h, todo)
  {
    hide Sound, StartOk, ImgOk, FullOk, PhiOk, PsiOk, SourceOk, CopiesOk;
  }

  lemma CopyingHas(s: Setting, c: Copy, h: Heap, todo: set<nat>)
    requires Copying(s, c, h, todo)
    ensures Sound(s) && StartOk(s.h0, s.depth, s.start) && ImgOk(s, c, todo) && FullOk(s, c) && PhiOk(s, c, h)
            && PsiOk(s, c) && SourceOk(s, c, h) && CopiesOk(s, c, h)
  {
    hide Sound, StartOk, ImgOk, FullOk, PhiOk, PsiOk, SourceOk, CopiesOk;
  }

  lemma NewFunFacts(s: Setting, c: Copy, h: Heap, todo: set<nat>, id: nat, f: nat)
    requires Copying(s, c, h, todo) && id in todo && IdOk(s.h0, id) && s.h0[Goal(s.h0, s.depth, s.start, id)] == Str(f)
    ensures Sound(s) && StartOk(s.h0, s.depth, s.start) && ImgOk(s, c, todo) && FullOk(s, c) && PhiOk(s, c, h)
            && PsiOk(s, c) && SourceOk(s, c, h) && CopiesOk(s, c, h)
    ensures id in c.img && id !in c.done && |s.h0| <= c.img[id] < |h| && |s.h0| <= |s.hm|
    ensures f in s.t.via && id in s.t.done && Meets(s.h0, s.depth, s.start, id, f)
            && Known(s.h0, s.depth, s.start, s.t, id)
  {
    hide *;
    CopyingHas(s, c, h, todo);
    PlaceFacts(s, c, h, todo, id);
    SameVisits(s, c, todo, id);
    KnownFun(s.h0, s.depth, s.start, s.t, id, f);
  }

  lemma KnownFun(h0: Heap, depth: seq<nat>, start: nat, t: Tour, id: nat, f: nat)
    requires StartOk(h0, depth, start) && Known(h0, depth, start, t, id) && IdOk(h0, id)
             && h0[Goal(h0, depth, start, id)] == Str(f)
    ensures f in t.via && Meets(h0, depth, start, id, f)
  {
    hide Goal;
  }

  lemma NewFunImg(s: Setting, c: Copy, h: Heap, todo: set<nat>, id: nat, f: nat)
    requires ImgOk(s, c, todo) && FullOk(s, c) && id in todo && Fits(s.h0, f) && f !in c.phi
    requires forall a :: a in Args(s.h0, f) ==> a < |s.h0| && a !in c.img && a in s.t.owner && s.t.owner[a] == f
    ensures ImgOk(s, WithBlock(s, c, h, id, f), todo - {id} + Args(s.h0, f)) && Args(s.h0, f) !! todo
    ensures FullOk(s, WithBlock(s, c, h, id, f))
  {
    var c1, due := WithBlock(s, c, h, id, f), Args(s.h0, f);
    WithBlockIs(s, c, h, id, f);
    forall g: nat, a: nat | g in c1.phi && Child(s.h0, g, a) ensures a in c1.img { if g == f { assert a in due; } }
    hide Args, WithBlock, FullOk, Child;
    forall i | i in c1.img ensures Placed(s, c1, i) {
      if i !in due { assert Placed(s, c, i); }
    }
    forall a | a in due ensures a !in todo && a !in c.done { }
  }

  lemma NewFunPhi(s: Setting, c: Copy, h: Heap, todo: set<nat>, id: nat, f: nat)
    requires Sound(s) && StartOk(s.h0, s.depth, s.start) && PhiOk(s, c, h) && id in c.img
             && |s.h0| <= c.img[id] < |h| && |s.h0| < |h|
    requires ImgOk(s, c, todo) && f in s.t.via && f < |s.h0| <= |s.hm| && Fits(s.h0, f) && f !in c.phi
    requires id in s.t.done && Meets(s.h0, s.depth, s.start, id, f) && Known(s.h0, s.depth, s.start, s.t, id)
    ensures PhiOk(s, WithBlock(s, c, h, id, f), WithFun(s, c, h, id, f))
  {
    hide Sound, WithFun, WithBlock, Args, Meets, Known, ImgOk;
    var c1, h1 := WithBlock(s, c, h, id, f), WithFun(s, c, h, id, f);
    WithFunIs(s, c, h, id, f);
    WithBlockIs(s, c, h, id, f);
    if IsOnce(s.hm[f]) { OnceVia(s, id, f); }
    PlaceIn(s, c, h, todo, id);
    hide IsOnce;
    forall g | g in c1.phi ensures BlockOk(s, c1, h1, g) {
      if g != f { assert BlockOk(s, c, h, g); }
    }
    forall g, k | g in c1.phi && k in c1.phi && g != k ensures BlocksApart(s, c1, g, k) {
      if g != f { assert BlockOk(s, c, h, g); }
      if k != f { assert BlockOk(s, c, h, k); }
      if g != f && k != f { assert BlocksApart(s, c, g, k); }
    }
  }

  lemma NewFunPsi(s: Setting, c: Copy, h: Heap, todo: set<nat>, id: nat, f: nat)
    requires StartOk(s.h0, s.depth, s.start) && PsiOk(s, c) && Fits(s.h0, f)
    ensures PsiOk(s, WithBlock(s, c, h, id, f))
  {
    hide WithBlock, Args, MeetsVar, PsiAt;
    var c1 := WithBlock(s, c, h, id, f);
    WithBlockIs(s, c, h, id, f);
    forall v | v in c1.psi ensures PsiAt(s, c1, v) {
      assert PsiAt(s, c, v);
      PsiIn(s, c, v);
      PsiStays(s, c, c1, v);
    }
  }

  lemma FunNoVar(s: Setting, c: Copy, f: nat)
    requires StartOk(s.h0, s.depth, s.start) && PsiOk(s, c) && Fits(s.h0, f)
    ensures f !in c.psi
  {
    if f in c.psi { PsiGoal(s, c, f); }
  }

  lemma PsiGoal(s: Setting, c: Copy, v: nat)
    requires StartOk(s.h0, s.depth, s.start) && v in c.psi && PsiOk(s, c)
    ensures v < |s.h0| && !s.h0[v].Fun?
  {
    assert PsiAt(s, c, v);
  }

  lemma NewFunSource(s: Setting, c: Copy, h: Heap, todo: set<nat>, id: nat, f: nat)
    requires StartOk(s.h0, s.depth, s.start) && SourceOk(s, c, h) && PsiOk(s, c) && id in c.img
             && |s.h0| <= c.img[id] < |h|
    requires f < |s.h0| <= |s.hm| && Fits(s.h0, f) && f !in c.phi && f !in c.psi
    requires forall a :: a in Args(s.h0, f) ==> a !in c.img
    ensures SourceOk(s, WithBlock(s, c, h, id, f), WithFun(s, c, h, id, f))
  {
    hide WithBlock, WithFun, Args, Shared, PsiAt;
    var c1, h1 := WithBlock(s, c, h, id, f), WithFun(s, c, h, id, f);
    WithFunIs(s, c, h, id, f);
    WithBlockIs(s, c, h, id, f);
    forall a | 0 <= a < |s.h0| ensures h1[a] == Now(s, c1, a) {
      if a in c.psi {
        assert PsiAt(s, c, a);
        PsiIn(s, c, a);
      }
      assert h[a] == Now(s, c, a);
    }
  }

  lemma NewFunCopies(s: Setting, c: Copy, h: Heap, todo: set<nat>, id: nat, f: nat)
    requires Sound(s) && StartOk(s.h0, s.depth, s.start) && CopiesOk(s, c, h) && PhiOk(s, c, h) && ImgOk(s, c, todo)
             && id in todo
    requires id in c.img && |s.h0| <= c.img[id] < |h| && f < |s.h0| <= |s.hm| && Fits(s.h0, f) && f !in c.phi
    requires IdOk(s.h0, id) && s.h0[Goal(s.h0, s.depth, s.start, id)] == Str(f)
    requires forall a :: a in Args(s.h0, f) ==> a !in c.img
    ensures CopiesOk(s, WithBlock(s, c, h, id, f), WithFun(s, c, h, id, f))
  {
    hide Sound, WithBlock, WithFun, Args, Shared, CopiedAt, PhiOk, Goal;
    var c1, h1 := WithBlock(s, c, h, id, f), WithFun(s, c, h, id, f);
    WithFunIs(s, c, h, id, f);
    WithBlockIs(s, c, h, id, f);
    forall i | i in c1.done ensures CopiedAt(s, c1, h1, i) {
      if i == id {
        FunCopied(s, c1, h1, id, f);
      } else {
        assert CopiedAt(s, c, h, i);
        CopiedIn(s, c, h, i);
        PlacesDiffer(s, c, h, todo, i, id);
        PlaceIn(s, c, h, todo, i);
        StaysCopied(s, c, c1, h, h1, i);
      }
    }
  }

  lemma FunCopied(s: Setting, c1: Copy, h1: Heap, id: nat, f: nat)
    requires StartOk(s.h0, s.depth, s.start) && IdOk(s.h0, id) && s.h0[Goal(s.h0, s.depth, s.start, id)] == Str(f)
             && |s.h0| <= |s.hm|
    requires id in c1.img && c1.img[id] < |h1| && f in c1.phi && h1[c1.img[id]] == Str(c1.phi[f])
    ensures CopiedAt(s, c1, h1, id)
  {
    hide Goal;
  }
}
