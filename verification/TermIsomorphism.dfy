// What a copy is: the same graph in fresh cells.

module TermIsomorphism {
  import opened TermHeap
  import opened TermTour
  import opened TermCopyState
  import opened TermCopySteps
  import opened TermRestore

  /** The term at `a` in the source and the cell `x` of the copy start with the same thing: compounds
      correspond by `phi`, variables by `vars`. */
  ghost predicate Same(h0: Heap, depth: seq<nat>, h: Heap, phi: map<nat, nat>, vars: map<nat, nat>, a: nat, x: nat)
    requires HeapOk(h0, depth)
  {
    && a < |h0| && !h0[a].Fun? && x < |h|
    && var e := End(h0, depth, a);
       match h0[e]
       case Con(k) => h[x] == Con(k)
       case Str(f) => f in phi && h[x] == Str(phi[f])
       case Var(_) => e in vars && vars[e] < |h| && h[vars[e]] == Var(Virgin) && (x == vars[e] || h[x] == Ref(vars[e]))
       case _ => false
  }

  /** A compound and its copy: the same functor, in cells after the source, and the same arguments. */
  ghost predicate SameCompound(h0: Heap, depth: seq<nat>, h: Heap, phi: map<nat, nat>, vars: map<nat, nat>, f: nat)
    requires HeapOk(h0, depth) && f in phi
  {
    && Fits(h0, f) && |h0| < phi[f] < |h| && h[phi[f]] == h0[f]
    && forall b: nat :: Child(h0, f, b) ==> Same(h0, depth, h, phi, vars, b, phi[f] + (b - f))
  }

  /** The cell after the source holds a copy of the term at `a`: the graph reached from `a`, with
      different compounds and variables going to different places. */
  ghost predicate IsCopy(h0: Heap, depth: seq<nat>, a: nat, h: Heap, phi: map<nat, nat>, vars: map<nat, nat>)
    requires HeapOk(h0, depth)
  {
    && |h0| < |h| && Same(h0, depth, h, phi, vars, a, |h0|)
    && (forall f :: f in phi ==> SameCompound(h0, depth, h, phi, vars, f))
    && (forall f, g :: f in phi && g in phi && f != g ==> phi[f] != phi[g])
    && (forall v :: v in vars ==> vars[v] >= |h0|)
    && (forall v, u :: v in vars && u in vars && v != u ==> vars[v] != vars[u])
  }

  // ----- isomorphism, path by path -----

  /** The place reached from `a` by going to the given argument at each compound, or none. */
  ghost function Walk(h: Heap, depth: seq<nat>, a: nat, path: seq<nat>): (e: int)
    requires HeapOk(h, depth) && a < |h| && !h[a].Fun?
    ensures e == -1 || (0 <= e < |h| && !h[e].Ref? && !h[e].Fun?)
    decreases |path|
  {
    var p := End(h, depth, a);
    if path == [] then p
    else if h[p].Str? && (assert CellOk(h, depth, p); 0 < path[0] <= h[h[p].f].arity) then
      (ChildOf(h, depth, h[p].f, h[p].f + path[0]); Walk(h, depth, h[p].f + path[0], path[1..]))
    else -1
  }

  /** Where a step of a path leads, and what it needs. */
  lemma WalkStep(h: Heap, depth: seq<nat>, a: nat, path: seq<nat>, f: nat)
    requires HeapOk(h, depth) && a < |h| && !h[a].Fun? && path != [] && h[End(h, depth, a)] == Str(f)
    ensures f < |h| && h[f].Fun?
    ensures 0 < path[0] <= h[f].arity ==>
              f + path[0] < |h| && !h[f + path[0]].Fun? && Walk(h, depth, a, path) ==
              Walk(h, depth, f + path[0], path[1..])
    ensures !(0 < path[0] <= h[f].arity) ==> Walk(h, depth, a, path) == -1
  {
    assert CellOk(h, depth, End(h, depth, a));
    if 0 < path[0] <= h[f].arity { ChildOf(h, depth, f, f + path[0]); }
  }

  /** The compound or variable found at a place; constants have no identity. */
  function Node(h: Heap, e: int): (n: int)
    requires e == -1 || 0 <= e < |h|
  {
    if e == -1 then -1 else if h[e].Str? then h[e].f else if h[e].Var? then e else -1
  }

  /** What is found at the end of a path in the source, and at the end of the same path in the copy. */
  ghost predicate Corresponds(h0: Heap, h: Heap, phi: map<nat, nat>, vars: map<nat, nat>, e: int, x: int) {
    if e == -1 then x == -1
    else
      && 0 <= e < |h0| && 0 <= x < |h|
      && match h0[e]
         case Con(k) => h[x] == Con(k)
         case Str(f) => f in phi && h[x] == Str(phi[f])
         case Var(_) => e in vars && x == vars[e] && h[x] == Var(Virgin)
         case _ => false
  }

  lemma EndSame(h0: Heap, depth: seq<nat>, h: Heap, depth1: seq<nat>, phi: map<nat, nat>, vars: map<nat, nat>,
        a: nat, x: nat)
    requires HeapOk(h0, depth) && HeapOk(h, depth1) && Same(h0, depth, h, phi, vars, a, x)
    ensures !h[x].Fun? && Corresponds(h0, h, phi, vars, End(h0, depth, a), End(h, depth1, x))
  {
    if h[x].Ref? {
      assert CellOk(h, depth1, x);
      assert End(h, depth1, h[x].to) == h[x].to;
    }
  }

  lemma {:induction false} WalkSame(h0: Heap, depth: seq<nat>, h: Heap, depth1: seq<nat>, phi: map<nat, nat>,
        vars: map<nat, nat>, a: nat, x: nat, path: seq<nat>)
    requires HeapOk(h0, depth) && HeapOk(h, depth1) && Same(h0, depth, h, phi, vars, a, x)
    requires forall f :: f in phi ==> SameCompound(h0, depth, h, phi, vars, f)
    ensures !h[x].Fun? && Corresponds(h0, h, phi, vars, Walk(h0, depth, a, path), Walk(h, depth1, x, path))
    decreases |path|
  {
    EndSame(h0, depth, h, depth1, phi, vars, a, x);
    hide Same, HeapOk, End;
    var e := End(h0, depth, a);
    if path != [] && h0[e].Str? {
      var f := h0[e].f;
      assert SameCompound(h0, depth, h, phi, vars, f);
      WalkStep(h0, depth, a, path, f);
      WalkStep(h, depth1, x, path, phi[f]);
      if 0 < path[0] <= h0[f].arity {
        assert Child(h0, f, f + path[0]);
        WalkSame(h0, depth, h, depth1, phi, vars, f + path[0], phi[f] + path[0], path[1..]);
      }
    }
  }

  /** A copy is isomorphic to its source: every path leads to the same functor, constant or a variable,
      or nowhere, in both; two paths lead to one compound, or to one variable, in the copy exactly if
      they do so in the source; and nothing found in the copy lies in the source. */
  lemma CopyIsomorphic(h0: Heap, depth: seq<nat>, a: nat, h: Heap, depth1: seq<nat>, phi: map<nat, nat>,
        vars: map<nat, nat>, p: seq<nat>, q: seq<nat>)
    requires HeapOk(h0, depth) && HeapOk(h, depth1) && IsCopy(h0, depth, a, h, phi, vars)
    ensures a < |h0| && !h0[a].Fun? && |h0| < |h| && !h[|h0|].Fun?
    ensures var e, x := Walk(h0, depth, a, p), Walk(h, depth1, |h0|, p);
            && (e == -1 <==> x == -1)
            && (e != -1 && h0[e].Con? ==> h[x] == h0[e])
            && (e != -1 && h0[e].Var? ==> h[x].Var? && x >= |h0|)
            && (e != -1 && h0[e].Str? ==>
              h[x].Str? && h0[e].f < |h0| < h[x].f < |h| && h0[h0[e].f].Fun? && h[h[x].f] == h0[h0[e].f])
    ensures Node(h, Walk(h, depth1, |h0|, p)) == Node(h, Walk(h, depth1, |h0|, q)) <==>
            Node(h0, Walk(h0, depth, a, p)) == Node(h0, Walk(h0, depth, a, q))
  {
    WalkSame(h0, depth, h, depth1, phi, vars, a, |h0|, p);
    WalkSame(h0, depth, h, depth1, phi, vars, a, |h0|, q);
    NodeSame(h0, depth, a, h, phi, vars, Walk(h0, depth, a, p), Walk(h, depth1, |h0|, p));
    NodesSame(h0, depth, a, h, phi, vars, Walk(h0, depth, a, p), Walk(h, depth1, |h0|, p), Walk(h0, depth, a, q),
        Walk(h, depth1, |h0|, q));
  }

  lemma NodeSame(h0: Heap, depth: seq<nat>, a: nat, h: Heap, phi: map<nat, nat>, vars: map<nat, nat>, e: int, x: int)
    requires HeapOk(h0, depth) && IsCopy(h0, depth, a, h, phi, vars) && Corresponds(h0, h, phi, vars, e, x)
    ensures e == -1 <==> x == -1
    ensures e != -1 && h0[e].Con? ==> h[x] == h0[e]
    ensures e != -1 && h0[e].Var? ==> h[x].Var? && x >= |h0|
    ensures e != -1 && h0[e].Str? ==>
              h[x].Str? && h0[e].f < |h0| < h[x].f < |h| && h0[h0[e].f].Fun? && h[h[x].f] == h0[h0[e].f]
  {
    hide HeapOk, Same;
    if e != -1 && h0[e].Str? { assert SameCompound(h0, depth, h, phi, vars, h0[e].f); }
  }

  lemma NodesSame(h0: Heap, depth: seq<nat>, a: nat, h: Heap, phi: map<nat, nat>, vars: map<nat, nat>, e: int,
        x: int, e1: int, x1: int)
    requires HeapOk(h0, depth) && IsCopy(h0, depth, a, h, phi, vars) && Corresponds(h0, h, phi, vars, e, x)
             && Corresponds(h0, h, phi, vars, e1, x1)
    ensures Node(h, x) == Node(h, x1) <==> Node(h0, e) == Node(h0, e1)
  {
    hide HeapOk, Same;
    if e != -1 && h0[e].Str? { assert SameCompound(h0, depth, h, phi, vars, h0[e].f); }
    if e1 != -1 && h0[e1].Str? { assert SameCompound(h0, depth, h, phi, vars, h0[e1].f); }
  }

  // ----- the copy made is one -----

  /** Every cell made belongs to the copy of a compound. */
  ghost predicate Covered(s: Setting, c: Copy, h: Heap) {
    forall x: nat :: |s.h0| < x < |h| ==> InBlock(s, c, x)
  }

  ghost predicate InBlock(s: Setting, c: Copy, x: nat) {
    exists f :: f in c.phi && Fits(s.h0, f) && c.phi[f] <= x <= c.phi[f] + s.h0[f].arity
  }

  lemma CoveredSame(s: Setting, c: Copy, c1: Copy, h: Heap, h1: Heap)
    requires Covered(s, c, h) && c1.phi == c.phi && |h1| == |h|
    ensures Covered(s, c1, h1)
  {
    forall x: nat | |s.h0| < x < |h1| ensures InBlock(s, c1, x) { assert InBlock(s, c, x); }
  }

  lemma CoveredMore(s: Setting, c: Copy, h: Heap, h1: Heap, id: nat, f: nat)
    requires Covered(s, c, h) && Fits(s.h0, f) && f !in c.phi && |h1| == |h| + 1 + s.h0[f].arity
    ensures Covered(s, WithBlock(s, c, h, id, f), h1)
  {
    var c1 := WithBlock(s, c, h, id, f);
    WithBlockIs(s, c, h, id, f);
    hide WithBlock;
    forall x: nat | |s.h0| < x < |h1| ensures InBlock(s, c1, x) {
      if x < |h| {
        assert InBlock(s, c, x);
      } else {
        assert c1.phi[f] <= x <= c1.phi[f] + s.h0[f].arity;
      }
    }
  }

  /** Where each variable went. */
  function VarsOf(c: Copy): map<nat, nat> {
    map v | v in c.psi && c.psi[v] in c.img :: c.img[c.psi[v]]
  }

  ghost predicate RootMade(s: Setting, c: Copy) {
    |s.h0| in c.done && |s.h0| in c.img && c.img[|s.h0|] == |s.h0|
  }

  ghost predicate AllFinished(s: Setting, c: Copy, h: Heap)
    requires StartOk(s.h0, s.depth, s.start)
  {
    forall id :: id in c.done ==> Finished(s, c, h, id) && c.img[id] >= |s.h0|
  }

  predicate BlockMade(s: Setting, c: Copy, h: Heap, f: nat)
    requires f in c.phi
  {
    Fits(s.h0, f) && |s.h0| < c.phi[f] && c.phi[f] + s.h0[f].arity < |h| && h[c.phi[f]] == s.h0[f]
  }

  ghost predicate BlocksMade(s: Setting, c: Copy, h: Heap) {
    && (forall f :: f in c.phi ==> BlockMade(s, c, h, f))
    && (forall f, g :: f in c.phi && g in c.phi && f != g ==> c.phi[f] != c.phi[g])
  }

  ghost predicate ArgsMade(s: Setting, c: Copy) {
    forall f: nat, b: nat :: f in c.phi && Child(s.h0, f, b) ==>
      b in c.done && b in c.img && c.img[b] == c.phi[f] + (b - f)
  }

  ghost predicate VarsMade(s: Setting, c: Copy)
    requires StartOk(s.h0, s.depth, s.start)
  {
    && (forall v :: v in c.psi ==>
      c.psi[v] in c.done && c.psi[v] in c.img && IdOk(s.h0, c.psi[v]) && Goal(s.h0, s.depth, s.start, c.psi[v]) == v
      && v < |s.h0| && s.h0[v].Var?)
    && (forall v, u :: v in c.psi && u in c.psi && v != u && c.psi[v] in c.img && c.psi[u] in c.img ==>
        c.img[c.psi[v]] != c.img[c.psi[u]])
  }

  /** The copy after the trail was undone. */
  ghost predicate CopyMade(s: Setting, c: Copy, h: Heap) {
    && Sound(s) && StartOk(s.h0, s.depth, s.start) && |s.h0| < |h|
    && RootMade(s, c) && AllFinished(s, c, h) && BlocksMade(s, c, h) && ArgsMade(s, c) && VarsMade(s, c)
        && ImgHigh(s, c)
  }

  lemma CopyIsMade(s: Setting, c: Copy, h: Heap, h1: Heap, trail: seq<nat>)
    requires Copying(s, c, h, {}) && TrailOk(s, c, trail) && CopyUndone(s, c, h, h1, [])
    ensures CopyMade(s, c, h1)
  {
    hide *;
    CopyingHas(s, c, h, {});
    HeapLong(s, c, h);
    SameLength(s, c, h, h1);
    PlacesHigh(s, c, h, {});
    RootPlace(s, c, {});
    FinishedAll(s, c, h, h1, trail);
    BlocksAll(s, c, h, h1);
    ArgsAll(s, c, h);
    VarsAll(s, c, h);
    MadeIs(s, c, h1);
  }

  lemma MadeIs(s: Setting, c: Copy, h: Heap)
    requires Sound(s) && StartOk(s.h0, s.depth, s.start) && |s.h0| < |h|
    requires RootMade(s, c) && AllFinished(s, c, h) && BlocksMade(s, c, h) && ArgsMade(s, c) && VarsMade(s, c)
             && ImgHigh(s, c)
    ensures CopyMade(s, c, h)
  {
    hide Sound, StartOk, RootMade, AllFinished, BlocksMade, ArgsMade, VarsMade, ImgHigh;
  }

  lemma MadeHas(s: Setting, c: Copy, h: Heap)
    requires CopyMade(s, c, h)
    ensures Sound(s) && StartOk(s.h0, s.depth, s.start) && |s.h0| < |h|
    ensures RootMade(s, c) && AllFinished(s, c, h) && BlocksMade(s, c, h) && ArgsMade(s, c) && VarsMade(s, c)
            && ImgHigh(s, c)
  {
    hide Sound, StartOk, RootMade, AllFinished, BlocksMade, ArgsMade, VarsMade, ImgHigh;
  }

  lemma FinishedAll(s: Setting, c: Copy, h: Heap, h1: Heap, trail: seq<nat>)
    requires Copying(s, c, h, {}) && StartOk(s.h0, s.depth, s.start) && TrailOk(s, c, trail)
             && CopyUndone(s, c, h, h1, [])
    ensures AllFinished(s, c, h1)
  {
    CopyingHas(s, c, h, {});
    HeapLong(s, c, h);
    hide Copying, Sound, ImgOk, FullOk, PhiOk, PsiOk, SourceOk, CopiesOk, StartOk, TrailOk, CopyUndone, Goal;
    forall id | id in c.done ensures Finished(s, c, h1, id) && c.img[id] >= |s.h0| {
      UndoneCopy(s, c, h, h1, {}, trail, id);
      PlaceIn(s, c, h, {}, id);
    }
  }

  lemma BlocksAll(s: Setting, c: Copy, h: Heap, h1: Heap)
    requires PhiOk(s, c, h) && StartOk(s.h0, s.depth, s.start) && CopyUndone(s, c, h, h1, []) && |s.h0| <= |s.hm|
    ensures BlocksMade(s, c, h1)
  {
    hide PhiOk, StartOk, CopyUndone, Fits;
    forall f | f in c.phi ensures BlockMade(s, c, h1, f) { UndoneBlock(s, c, h, h1, f); }
    forall f, g | f in c.phi && g in c.phi && f != g ensures c.phi[f] != c.phi[g] { BlocksAre(s, c, h, f, g); }
  }

  lemma ArgsAll(s: Setting, c: Copy, h: Heap)
    requires Sound(s) && StartOk(s.h0, s.depth, s.start) && ImgOk(s, c, {}) && FullOk(s, c)
    ensures ArgsMade(s, c)
  {
    hide Sound, StartOk, ImgOk, FullOk, Child;
    forall f: nat, b: nat | f in c.phi && Child(s.h0, f, b)
        ensures b in c.done && b in c.img && c.img[b] == c.phi[f] + (b - f) {
      ArgMade(s, c, h, f, b);
    }
  }

  lemma VarsAll(s: Setting, c: Copy, h: Heap)
    requires Copying(s, c, h, {}) && Sound(s) && StartOk(s.h0, s.depth, s.start) && PsiOk(s, c)
    ensures VarsMade(s, c)
  {
    hide Copying, Sound, StartOk, PsiOk, Goal;
    forall v | v in c.psi
      ensures c.psi[v] in c.done && c.psi[v] in c.img && IdOk(s.h0, c.psi[v])
              && Goal(s.h0, s.depth, s.start, c.psi[v]) == v && v < |s.h0| && s.h0[v].Var?
    {
      VarGoal(s, c, v);
      VarMade(s, c, v);
    }
    forall v, u | v in c.psi && u in c.psi && v != u && c.psi[v] in c.img && c.psi[u] in c.img
        ensures c.img[c.psi[v]] != c.img[c.psi[u]] {
      VarsApart(s, c, h, {}, v, u);
    }
  }

  lemma SameLength(s: Setting, c: Copy, h: Heap, h1: Heap)
    requires CopyUndone(s, c, h, h1, [])
    ensures |h1| == |h|
  {
  }

  lemma RootPlace(s: Setting, c: Copy, todo: set<nat>)
    requires ImgOk(s, c, todo) && todo == {}
    ensures RootMade(s, c)
  {
    assert Placed(s, c, |s.h0|);
  }

  lemma BlocksAre(s: Setting, c: Copy, h: Heap, f: nat, g: nat)
    requires PhiOk(s, c, h) && f in c.phi && g in c.phi && f != g
    ensures c.phi[f] != c.phi[g]
  {
    assert BlockOk(s, c, h, f) && BlockOk(s, c, h, g) && BlocksApart(s, c, f, g);
  }

  lemma ArgMade(s: Setting, c: Copy, h: Heap, f: nat, b: nat)
    requires Sound(s) && StartOk(s.h0, s.depth, s.start) && ImgOk(s, c, {}) && FullOk(s, c) && f in c.phi
             && Child(s.h0, f, b)
    ensures b in c.done && b in c.img && c.img[b] == c.phi[f] + (b - f)
  {
    hide Sound;
    assert Placed(s, c, b);
    ChildOf(s.h0, s.depth, f, b);
    OwnerChild(s, b);
    OneOwner(s.h0, s.depth, f, s.t.owner[b], b);
  }

  lemma VarMade(s: Setting, c: Copy, v: nat)
    requires Sound(s) && StartOk(s.h0, s.depth, s.start) && PsiOk(s, c) && v in c.psi
    ensures c.psi[v] in c.done && c.psi[v] in c.img && v < |s.h0| && s.h0[v].Var?
  {
    assert PsiAt(s, c, v);
    PsiBound(s, v);
  }

  lemma MadeSame(s: Setting, c: Copy, h: Heap, id: nat, a: nat)
    requires CopyMade(s, c, h) && id in c.done && id in c.img && IdOk(s.h0, id) && a < |s.h0| && !s.h0[a].Fun?
    requires HeapOk(s.h0, s.depth) && End(s.h0, s.depth, a) == Goal(s.h0, s.depth, s.start, id)
    ensures Same(s.h0, s.depth, h, c.phi, VarsOf(c), a, c.img[id])
  {
    hide Goal, Sound, ImgHigh, BlocksMade, ArgsMade, RootMade;
    assert Finished(s, c, h, id);
    var e := End(s.h0, s.depth, a);
    if s.h0[e].Var? {
      assert Finished(s, c, h, c.psi[e]);
    }
  }

  /** The cells after the trail was undone are a copy. */
  lemma MadeIsCopy(s: Setting, c: Copy, h: Heap, a: nat)
    requires CopyMade(s, c, h) && HeapOk(s.h0, s.depth) && a < |s.h0| && !s.h0[a].Fun? && End(s.h0, s.depth, a) ==
             End(s.h0, s.depth, s.start)
    ensures IsCopy(s.h0, s.depth, a, h, c.phi, VarsOf(c))
  {
    hide *;
    MadeHas(s, c, h);
    RootIs(s, c);
    GoalIs(s.h0, s.depth, s.start, |s.h0|);
    MadeSame(s, c, h, |s.h0|, a);
    forall f | f in c.phi ensures SameCompound(s.h0, s.depth, h, c.phi, VarsOf(c), f) { MadeCompound(s, c, h, f); }
    VarsHigh(s, c);
    CopyIs(s, c, h, a);
  }

  lemma RootIs(s: Setting, c: Copy)
    requires RootMade(s, c)
    ensures |s.h0| in c.done && |s.h0| in c.img && c.img[|s.h0|] == |s.h0| && IdOk(s.h0, |s.h0|)
  {
  }

  lemma MadeCompound(s: Setting, c: Copy, h: Heap, f: nat)
    requires CopyMade(s, c, h) && HeapOk(s.h0, s.depth) && f in c.phi
    ensures SameCompound(s.h0, s.depth, h, c.phi, VarsOf(c), f)
  {
    hide *;
    MadeHas(s, c, h);
    forall b: nat | Child(s.h0, f, b) ensures f < b && Same(s.h0, s.depth, h, c.phi, VarsOf(c), b, c.phi[f] + (b - f)) {
      ChildAfter(s.h0, f, b);
      ChildOf(s.h0, s.depth, f, b);
      ArgIs(s, c, f, b);
      GoalIs(s.h0, s.depth, s.start, b);
      MadeSame(s, c, h, b, b);
    }
    CompoundIs(s, c, h, f);
  }

  lemma ChildAfter(h0: Heap, f: nat, b: nat)
    requires Child(h0, f, b)
    ensures f < b
  {
  }

  lemma ArgIs(s: Setting, c: Copy, f: nat, b: nat)
    requires ArgsMade(s, c) && f in c.phi && Child(s.h0, f, b) && b < |s.h0| && !s.h0[b].Fun?
    ensures b in c.done && b in c.img && c.img[b] == c.phi[f] + (b - f) && IdOk(s.h0, b) && b != |s.h0|
  {
  }

  lemma CompoundIs(s: Setting, c: Copy, h: Heap, f: nat)
    requires HeapOk(s.h0, s.depth) && BlocksMade(s, c, h) && f in c.phi
    requires forall b: nat :: Child(s.h0, f, b) ==>
               f < b && Same(s.h0, s.depth, h, c.phi, VarsOf(c), b, c.phi[f] + (b - f))
    ensures SameCompound(s.h0, s.depth, h, c.phi, VarsOf(c), f)
  {
    hide HeapOk, Same, VarsOf;
    assert BlockMade(s, c, h, f);
  }

  lemma CopyIs(s: Setting, c: Copy, h: Heap, a: nat)
    requires HeapOk(s.h0, s.depth) && StartOk(s.h0, s.depth, s.start) && |s.h0| < |h|
             && Same(s.h0, s.depth, h, c.phi, VarsOf(c), a, |s.h0|)
    requires forall f :: f in c.phi ==> SameCompound(s.h0, s.depth, h, c.phi, VarsOf(c), f)
    requires BlocksMade(s, c, h) && VarsMade(s, c) && forall v :: v in VarsOf(c) ==> VarsOf(c)[v] >= |s.h0|
    ensures IsCopy(s.h0, s.depth, a, h, c.phi, VarsOf(c))
  {
    hide HeapOk, StartOk, Same, SameCompound, BlockMade, Goal;
  }

  lemma VarsHigh(s: Setting, c: Copy)
    requires ImgHigh(s, c)
    ensures forall v :: v in VarsOf(c) ==> VarsOf(c)[v] >= |s.h0|
  {
  }

  lemma GoalIs(h0: Heap, depth: seq<nat>, start: nat, id: nat)
    requires StartOk(h0, depth, start) && IdOk(h0, id)
    ensures Goal(h0, depth, start, id) == End(h0, depth, Addr(h0, start, id))
    ensures id != |h0| ==> Addr(h0, start, id) == id
    ensures id == |h0| ==> Addr(h0, start, id) == start
  {
  }

  // ----- the heap after the copy -----

  /** Reference chains in the heap with the copy: one step in the copy. */
  function DepthWith(depth: seq<nat>, h: Heap): (d: seq<nat>)
    requires |depth| <= |h|
    ensures |d| == |h| && d[..|depth|] == depth
  {
    depth + seq(|h| - |depth|, i requires 0 <= i < |h| - |depth| => if h[|depth| + i].Ref? then 1 else 0)
  }

  /** With the copy added, the heap is again in order. */
  lemma CopyHeapOk(s: Setting, c: Copy, h: Heap)
    requires CopyMade(s, c, h) && Covered(s, c, h) && HeapOk(s.h0, s.depth) && h[..|s.h0|] == s.h0
    ensures |s.depth| <= |h| && HeapOk(h, DepthWith(s.depth, h))
  {
    hide Sound, Finished, ImgHigh, HeapOk, StartOk, AllFinished, VarsMade, CellOk, DepthWith;
    DepthIs(s.h0, s.depth);
    forall x: nat | x < |h| ensures CellOk(h, DepthWith(s.depth, h), x) {
      if x < |s.h0| {
        OldCellOk(s.h0, s.depth, h, x);
      } else if x == |s.h0| {
        PlaceCellOk(s, c, h, |s.h0|);
      } else {
        assert InBlock(s, c, x);
        var f: nat :| f in c.phi && Fits(s.h0, f) && c.phi[f] <= x <= c.phi[f] + s.h0[f].arity;
        assert BlockMade(s, c, h, f);
        if x == c.phi[f] {
          BlockCellOk(s, c, h, f);
        } else {
          assert Child(s.h0, f, f + (x - c.phi[f]));
          PlaceCellOk(s, c, h, f + (x - c.phi[f]));
        }
      }
    }
    AllCells(h, DepthWith(s.depth, h));
  }

  lemma DepthIs(h0: Heap, depth: seq<nat>)
    requires HeapOk(h0, depth)
    ensures |depth| == |h0|
  {
  }

  lemma AllCells(h: Heap, depth: seq<nat>)
    requires |depth| == |h| && forall a: nat :: a < |h| ==> CellOk(h, depth, a)
    ensures HeapOk(h, depth)
  {
  }

  lemma OldCellOk(h0: Heap, depth: seq<nat>, h: Heap, x: nat)
    requires HeapOk(h0, depth) && |h0| < |h| && h[..|h0|] == h0 && x < |h0| == |depth|
    ensures CellOk(h, DepthWith(depth, h), x)
  {
    assert CellOk(h0, depth, x);
    assert forall a: nat :: a < |h0| ==> h[a] == h0[a];
    assert forall a: nat :: a < |h0| ==> DepthWith(depth, h)[a] == depth[a];
  }

  /** A cell filled by a visit. */
  lemma PlaceCellOk(s: Setting, c: Copy, h: Heap, id: nat)
    requires CopyMade(s, c, h) && id in c.done && id in c.img && |s.depth| == |s.h0| <= c.img[id] < |h|
    ensures CellOk(h, DepthWith(s.depth, h), c.img[id])
  {
    hide Goal, Sound, StartOk;
    assert Finished(s, c, h, id);
    var e := Goal(s.h0, s.depth, s.start, id);
    if s.h0[e].Var? && c.psi[e] != id {
      assert Finished(s, c, h, c.psi[e]);
    }
    if s.h0[e].Str? { assert BlockMade(s, c, h, s.h0[e].f); }
  }

  lemma BlockCellOk(s: Setting, c: Copy, h: Heap, f: nat)
    requires CopyMade(s, c, h) && HeapOk(s.h0, s.depth) && f in c.phi && |s.depth| == |s.h0| < c.phi[f] < |h|
    ensures CellOk(h, DepthWith(s.depth, h), c.phi[f])
  {
    hide Goal, Sound, StartOk;
    assert CellOk(s.h0, s.depth, f) && BlockMade(s, c, h, f);
    forall x: nat | c.phi[f] < x <= c.phi[f] + s.h0[f].arity ensures !h[x].Fun? {
      var b := f + (x - c.phi[f]);
      assert Child(s.h0, f, b);
      assert Finished(s, c, h, b);
    }
  }
}
