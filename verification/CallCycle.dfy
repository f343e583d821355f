// Detecting non-terminating recursion: does the stack end in one cycle of calls, repeated many times?

module CallCycle {
  const MAX_CYCLE: nat := 20
  const CYCLE_CTX: nat := 1
  const MAX_PRE_LOOP: nat := 20
  const MIN_REPEAT: nat := 100

  /** A frame: its predicate and its arguments. */
  datatype Frame<P, A> = Frame(pred: P, args: seq<A>)

  /** The first `MIN_REPEAT` times `d` frames repeat their predicates with period `d`, and the stack goes on. */
  ghost predicate Repeats<P, A>(fs: seq<Frame<P, A>>, d: nat) {
    MIN_REPEAT * d < |fs| && forall j :: d <= j < MIN_REPEAT * d ==> fs[j].pred == fs[j - d].pred
  }

  /** Every period below `d` was seen to fail. */
  ghost predicate NoneBelow<P, A>(fs: seq<Frame<P, A>>, d: nat) {
    forall k :: 1 <= k < d ==> !Repeats(fs, k)
  }

  /** The frames compared so far agree with the first `d`. */
  ghost predicate Agrees<P, A>(fs: seq<Frame<P, A>>, d: nat, upto: nat) {
    upto <= |fs| && forall j :: d <= j < upto ==> fs[j].pred == fs[j - d].pred
  }

  lemma Longer(d: nat, k: nat)
    requires d <= k
    ensures MIN_REPEAT * d <= MIN_REPEAT * k
  {
  }

  /** No period of `k` frames or more when the frames end within `MIN_REPEAT` times `d`. */
  lemma TooShort<P, A>(fs: seq<Frame<P, A>>, d: nat, k: nat)
    requires |fs| <= MIN_REPEAT * d && d <= k
    ensures !Repeats(fs, k)
  {
    Longer(d, k);
  }

  /** The frames still to compare make up `rounds` rounds. */
  predicate Rounds(left: nat, d: nat, rounds: nat) {
    left == d * rounds
  }

  lemma OneRound(left: nat, d: nat, rounds: nat)
    requires Rounds(left, d, rounds) && rounds > 0
    ensures left >= d && Rounds(left - d, d, rounds - 1)
  {
  }

  lemma RoundsBegin(d: nat)
    ensures Rounds((MIN_REPEAT - 1) * d, d, MIN_REPEAT - 1)
  {
  }

  lemma NoRounds(left: nat, d: nat)
    requires Rounds(left, d, 0)
    ensures left == 0
  {
  }

  /** The frames of the round that ends at `base` are calls of the same predicates as the first `d`. */
  ghost predicate LastRound<P, A>(fs: seq<Frame<P, A>>, d: nat, base: nat) {
    d <= base <= |fs| && forall i :: 0 <= i < d ==> fs[base - d + i].pred == fs[i].pred
  }

  ghost predicate PartRound<P, A>(fs: seq<Frame<P, A>>, d: nat, base: nat, i: nat) {
    i <= d <= base && base + i <= |fs| && forall k :: 0 <= k < i ==> fs[base + k].pred == fs[k].pred
  }

  lemma SameAs<P, A>(fs: seq<Frame<P, A>>, d: nat, base: nat, i: nat)
    requires LastRound(fs, d, base) && i < d && base + i < |fs|
    ensures fs[base + i - d].pred == fs[i].pred
  {
    assert base - d + i == base + i - d;
  }

  lemma HasPeriod<P, A>(fs: seq<Frame<P, A>>, d: nat)
    requires Agrees(fs, d, MIN_REPEAT * d) && MIN_REPEAT * d < |fs|
    ensures Repeats(fs, d)
  {
  }

  class Detector<P(==), A(==)> {
    const frames: seq<Frame<P, A>>
    const variantArgs: (A, A) -> bool
    /** The frames of the cycle found, as positions counted from the youngest frame. */
    var ce: array<nat>

    constructor (frames: seq<Frame<P, A>>, variantArgs: (A, A) -> bool)
      ensures this.frames == frames && this.variantArgs == variantArgs && fresh(ce) && ce.Length == MAX_CYCLE
    {
      this.frames, this.variantArgs := frames, variantArgs;
      ce := new nat[MAX_CYCLE](_ => 0);
    }

    /** Are frames `a` and `b` calls of one predicate whose arguments are pairwise variants? */
    method IsVariantFrame(a: nat, b: nat) returns (variant: bool)
      requires a < |frames| && b < |frames|
      ensures variant <==> (frames[a].pred == frames[b].pred && |frames[a].args| == |frames[b].args| &&
                            forall i :: 0 <= i < |frames[a].args| ==> variantArgs(frames[a].args[i], frames[b].args[i]))
    {
      var args, others := frames[a].args, frames[b].args;
      if frames[a].pred == frames[b].pred && |args| == |others| {
        for i := 0 to |args|
          invariant forall k :: 0 <= k < i ==> variantArgs(args[k], others[k])
        {
          if !variantArgs(args[i], others[i]) { return false; }
        }
        return true;
      }
      return false;
    }

    /** Collect the frames before the next call, at least `mindepth` up, of the predicate of frame `fr0`. */
    method Collect(fr0: nat, mindepth: nat) returns (depth: nat)
      requires fr0 < |frames| && ce.Length == MAX_CYCLE && 1 <= mindepth <= MAX_CYCLE
      requires NoneBelow(frames[fr0..], mindepth)
      modifies ce
      ensures 1 <= depth <= MAX_CYCLE && fr0 + depth <= |frames|
      ensures forall k :: 0 <= k < depth ==> ce[k] == fr0 + k
      ensures NoneBelow(frames[fr0..], depth)
      ensures depth < MAX_CYCLE && fr0 + depth < |frames| ==> depth >= mindepth
    {
      ghost var g := frames[fr0..];
      ce[0] := fr0;
      depth := 1;
      while fr0 + depth < |frames| && depth < MAX_CYCLE
          && !(frames[fr0 + depth].pred == frames[fr0].pred && depth >= mindepth)
        invariant 1 <= depth <= MAX_CYCLE && fr0 + depth <= |frames|
        invariant forall k :: 0 <= k < depth ==> ce[k] == fr0 + k
        invariant NoneBelow(g, depth)
      {
        if depth >= mindepth { assert g[depth].pred != g[depth - depth].pred; }
        ce[depth] := fr0 + depth;
        depth := depth + 1;
      }
    }

    /** Compare the frames after the first `depth` with those, round after round: `repeat` is 0 if
        `MIN_REPEAT` rounds agree and there is a frame after them; `differs` if a frame differs. */
    method Compare(fr0: nat, depth: nat) returns (repeat: nat, differs: bool)
      requires fr0 < |frames| && ce.Length == MAX_CYCLE && 1 <= depth < MAX_CYCLE && fr0 + depth < |frames|
      requires forall k :: 0 <= k < depth ==> ce[k] == fr0 + k
      ensures differs ==> !Repeats(frames[fr0..], depth)
      ensures !differs && repeat == 0 ==> Repeats(frames[fr0..], depth)
      ensures !differs && repeat > 0 ==> |frames| - fr0 <= MIN_REPEAT * depth
    {
      hide Rounds, Repeats;
      ghost var g := frames[fr0..];
      var fr := fr0 + depth;
      repeat := MIN_REPEAT;
      ghost var base, left: nat := depth, (MIN_REPEAT - 1) * depth;
      RoundsBegin(depth);
      while fr < |frames|
        invariant 1 <= repeat <= MIN_REPEAT && fr == fr0 + base && LastRound(g, depth, base) && Agrees(g, depth, base)
        invariant base + left == MIN_REPEAT * depth && Rounds(left, depth, repeat - 1)
        decreases repeat
      {
        repeat := repeat - 1;
        if repeat == 0 {
          NoRounds(left, depth);
          HasPeriod(g, depth);
          return 0, false;
        }
        OneRound(left, depth, repeat);
        var i := 0;
        while fr < |frames| && i < depth
          invariant 0 <= i <= depth && fr == fr0 + base + i && fr <= |frames|
          invariant Agrees(g, depth, base + i) && PartRound(g, depth, base, i)
          decreases depth - i
        {
          SameAs(g, depth, base, i);
          assert g[base + i] == frames[fr] && g[i] == frames[ce[i]];
          if frames[fr].pred != frames[ce[i]].pred {
            WrongPeriod(g, depth, base + i);
            return repeat, true;
          }
          i, fr := i + 1, fr + 1;
        }
        if i < depth {
          return repeat, false;
        }
        base, left := base + depth, left - depth;
      }
      differs := false;
    }

    /** The length of the cycle, with one frame of context, or 0. */
    method NonTerminatingRecursion(fr0: nat) returns (n: nat, isCycle: bool)
      requires fr0 < |frames| && ce.Length == MAX_CYCLE
      modifies ce
      ensures n == 0 ==> forall d :: 1 <= d < MAX_CYCLE ==> !Repeats(frames[fr0..], d)
      ensures n > 0 ==>
                && 2 <= n <= MAX_CYCLE && Repeats(frames[fr0..], n - CYCLE_CTX)
                    && NoneBelow(frames[fr0..], n - CYCLE_CTX)
                && (forall k :: 0 <= k < n ==> ce[k] == fr0 + k)
                && fr0 + n <= |frames|
                && var b := fr0 + n - CYCLE_CTX;
                   isCycle <==> (|frames[fr0].args| == |frames[b].args| &&
                                 forall i :: 0 <= i < |frames[b].args| ==>
                                   variantArgs(frames[fr0].args[i], frames[b].args[i]))
    {
      ghost var g := frames[fr0..];
      isCycle := false;
      var mindepth := 1;
      while mindepth <= MAX_CYCLE
        invariant 1 <= mindepth <= MAX_CYCLE + 1 && NoneBelow(g, mindepth)
        decreases MAX_CYCLE + 1 - mindepth
      {
        var depth := Collect(fr0, mindepth);
        if fr0 + depth >= |frames| || depth >= MAX_CYCLE {
          forall d | 1 <= d < MAX_CYCLE ensures !Repeats(g, d) { if d >= depth { TooShort(g, depth, d); } }
          return 0, isCycle;
        }
        isCycle := IsVariantFrame(fr0, fr0 + depth);
        var repeat, differs := Compare(fr0, depth);
        if differs {
          mindepth := depth + 1;
        } else if repeat == 0 {
          ce[depth] := fr0 + depth;
          return depth + CYCLE_CTX, isCycle;
        } else {
          forall d | 1 <= d < MAX_CYCLE ensures !Repeats(g, d) { if d >= depth { TooShort(g, depth, d); } }
          return 0, isCycle;
        }
      }
      return 0, isCycle;
    }

    /** The same for the first `MAX_PRE_LOOP` frames: the youngest frame that starts a cycle, if one does. */
    method FindNonTerminatingRecursion() returns (n: nat, isCycle: bool, ghost start: nat)
      requires ce.Length == MAX_CYCLE
      modifies ce
      ensures n == 0 ==> forall fr, d :: 0 <= fr < MAX_PRE_LOOP && fr < |frames| && 1 <= d < MAX_CYCLE ==>
              !Repeats(frames[fr..], d)
      ensures n > 0 ==>
                && start < MAX_PRE_LOOP && start < |frames| && 2 <= n <= MAX_CYCLE
                && Repeats(frames[start..], n - CYCLE_CTX) && NoneBelow(frames[start..], n - CYCLE_CTX)
                && (forall fr, d :: 0 <= fr < start && 1 <= d < MAX_CYCLE ==> !Repeats(frames[fr..], d))
                && (forall k :: 0 <= k < n ==> ce[k] == start + k)
                && start + n <= |frames|
                && var b := start + n - CYCLE_CTX;
                   isCycle <==> (|frames[start].args| == |frames[b].args| &&
                                 forall i :: 0 <= i < |frames[b].args| ==>
                                   variantArgs(frames[start].args[i], frames[b].args[i]))
    {
      var fr := 0;
      isCycle, start := false, 0;
      while fr < |frames| && fr < MAX_PRE_LOOP
        invariant 0 <= fr <= |frames|
        invariant forall f, d :: 0 <= f < fr && 1 <= d < MAX_CYCLE ==> !Repeats(frames[f..], d)
      {
        n, isCycle := NonTerminatingRecursion(fr);
        if n > 0 { return n, isCycle, fr; }
        fr := fr + 1;
      }
      n := 0;
    }
  }

  lemma WrongPeriod<P, A>(fs: seq<Frame<P, A>>, d: nat, j: nat)
    requires d <= j < |fs| && j < MIN_REPEAT * d && fs[j].pred != fs[j - d].pred
    ensures !Repeats(fs, d)
  {
  }
}
