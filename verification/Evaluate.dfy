// evalExpression: arithmetic evaluation of a term in the cell memory, without recursion.

module Evaluate {
  import opened TermHeap

  datatype Error = Instantiation | NotEvaluable(name: nat, arity: nat) | Other(code: nat)

  datatype Result<V> = Ok(value: V) | Err(error: Error)

  /** The evaluable functions: constants and strings, lists of one character, functions without
      arguments, and which other functions exist and what they do. */
  datatype Functions<!V> = Functions(constant: nat -> Result<V>, chars: nat -> Result<V>, zero: nat -> Result<V>,
                                     known: (nat, nat) -> bool, apply: (nat, seq<V>) -> Result<V>, dot: nat)

  /** An expression without cycles: `rank` covers its cells and goes down along references and arguments. */
  ghost predicate Acyclic(h: Heap, rank: map<nat, nat>) {
    forall a :: a in rank ==> Ranked(h, rank, a)
  }

  ghost predicate Ranked(h: Heap, rank: map<nat, nat>, a: nat)
    requires a in rank
  {
    && a < |h|
    && match h[a]
       case Ref(b) => b in rank && rank[b] < rank[a]
       case Str(f) => f < |h| && h[f].Fun? && f + h[f].arity < |h| && forall b: nat :: Child(h, f, b) ==>
         b in rank && rank[b] < rank[a]
       case Fun(_, _, _) => false
       case Marker => false
       case _ => true
  }

  ghost function Deref(h: Heap, rank: map<nat, nat>, a: nat): (e: nat)
    requires Acyclic(h, rank) && a in rank
    ensures e in rank && e < |h| && !h[e].Ref? && rank[e] <= rank[a]
    decreases rank[a]
  {
    assert Ranked(h, rank, a);
    if h[a].Ref? then Deref(h, rank, h[a].to) else a
  }

  /** A compound whose arguments are evaluated. */
  predicate Applies<V>(fn: Functions<V>, h: Heap, f: nat) {
    f < |h| && h[f].Fun? && h[f].arity > 0 && !(h[f].name == fn.dot && h[f].arity == 2)
  }

  /** A leaf of the expression: anything else that is not a compound to evaluate. */
  function Leaf<V>(fn: Functions<V>, h: Heap, e: nat): Result<V>
    requires e < |h|
  {
    match h[e]
    case Con(c) => fn.constant(c)
    case Str(f) => if f < |h| && h[f].Fun? && h[f].arity == 0 then fn.zero(h[f].name) else fn.chars(e)
    case _ => Err(Instantiation)
  }

  function Call<V>(fn: Functions<V>, h: Heap, f: nat, args: seq<V>): Result<V>
    requires f < |h| && h[f].Fun?
  {
    if fn.known(h[f].name, h[f].arity) then fn.apply(h[f].name, args) else Err(NotEvaluable(h[f].name, h[f].arity))
  }

  /** The value of the term at `a`, by recursion: arguments from right to left, then the function. */
  ghost function Eval<V>(fn: Functions<V>, h: Heap, rank: map<nat, nat>, a: nat): Result<V>
    requires Acyclic(h, rank) && a in rank
    decreases rank[a], 1, 0
  {
    var e := Deref(h, rank, a);
    assert Ranked(h, rank, e);
    if h[e].Str? && Applies(fn, h, h[e].f) then EvalArgs(fn, h, rank, e, h[h[e].f].arity, []) else Leaf(fn, h, e)
  }

  /** The value of the compound in cell `e` when its arguments after `k` have the values `done`. */
  ghost function EvalArgs<V>(fn: Functions<V>, h: Heap, rank: map<nat, nat>, e: nat, k: nat, done: seq<V>): Result<V>
    requires Acyclic(h, rank) && e in rank && h[e].Str? && k <= h[h[e].f].arity
    decreases rank[e], 0, k
  {
    assert Ranked(h, rank, e);
    if k == 0 then Call(fn, h, h[e].f, done)
    else
      assert Child(h, h[e].f, h[e].f + k);
      match Eval(fn, h, rank, h[e].f + k)
      case Ok(v) => EvalArgs(fn, h, rank, e, k - 1, [v] + done)
      case Err(x) => Err(x)
  }

  // ----- what a value is, by equations between cells -----

  /** The values of the arguments of the compound at `f`. */
  function ArgValues<V>(val: map<nat, Result<V>>, f: nat, arity: nat): (args: seq<V>)
    requires forall k :: f < k <= f + arity ==> k in val && val[k].Ok?
    ensures |args| == arity && forall i :: 0 <= i < arity ==> val[f + 1 + i] == Ok(args[i])
  {
    if arity == 0 then [] else ArgValues(val, f, arity - 1) + [val[f + arity].value]
  }

  /** What the value of the compound at `f` with arguments to evaluate is: the error of the last argument that
      has one, else the value of the function, if there is such a function. */
  ghost predicate CompoundValue<V>(fn: Functions<V>, val: map<nat, Result<V>>, f: nat, name: nat, arity: nat,
        r: Result<V>) {
    && (forall k :: f < k <= f + arity ==> k in val)
    && (forall k :: f < k <= f + arity && val[k].Err? && (forall j :: k < j <= f + arity ==> val[j].Ok?) ==>
        r == val[k])
    && ((forall k :: f < k <= f + arity ==> val[k].Ok?) ==>
          r == if fn.known(name, arity) then fn.apply(name, ArgValues(val, f, arity))
               else Err(NotEvaluable(name, arity)))
  }

  /** The value `val` gives to cell `a` is the one that the cell and the values of those it leads to ask for. */
  ghost predicate ValueFits<V>(fn: Functions<V>, h: Heap, val: map<nat, Result<V>>, a: nat)
    requires a in val
  {
    && a < |h|
    && match h[a]
       case Var(_) => val[a] == Err(Instantiation)
       case Con(c) => val[a] == fn.constant(c)
       case Ref(b) => b in val && val[a] == val[b]
       case Str(f) =>
         && f < |h| && h[f].Fun?
         && (if h[f].arity == 0 then val[a] == fn.zero(h[f].name)
             else if h[f].name == fn.dot && h[f].arity == 2 then val[a] == fn.chars(a)
             else CompoundValue(fn, val, f, h[f].name, h[f].arity, val[a]))
       case _ => false
  }

  /** `val` solves the equations of all its cells. */
  ghost predicate Valued<V>(fn: Functions<V>, h: Heap, val: map<nat, Result<V>>) {
    forall a :: a in val ==> ValueFits(fn, h, val, a)
  }

  /** The arguments after `k` have the values `done`. */
  predicate ArgsDone<V(==)>(val: map<nat, Result<V>>, f: nat, arity: nat, k: nat, done: seq<V>) {
    && |done| + k == arity
    && forall j :: f + k < j <= f + arity ==> j in val && val[j] == Ok(done[j - f - k - 1])
  }

  lemma DoneMore<V>(val: map<nat, Result<V>>, f: nat, arity: nat, k: nat, done: seq<V>, v: V)
    requires ArgsDone(val, f, arity, k, done) && k > 0 && f + k in val && val[f + k] == Ok(v)
    ensures ArgsDone(val, f, arity, k - 1, [v] + done)
  {
  }

  lemma AllDone<V>(fn: Functions<V>, val: map<nat, Result<V>>, f: nat, name: nat, arity: nat, done: seq<V>,
        r: Result<V>)
    requires ArgsDone(val, f, arity, 0, done)
    requires r == if fn.known(name, arity) then fn.apply(name, done) else Err(NotEvaluable(name, arity))
    ensures CompoundValue(fn, val, f, name, arity, r)
  {
    assert ArgValues(val, f, arity) == done;
  }

  lemma LastFails<V>(fn: Functions<V>, val: map<nat, Result<V>>, f: nat, name: nat, arity: nat, k: nat, done: seq<V>)
    requires ArgsDone(val, f, arity, k, done) && 0 < k && f + k in val && val[f + k].Err?
    requires forall j :: f < j <= f + arity ==> j in val
    ensures CompoundValue(fn, val, f, name, arity, val[f + k])
  {
  }

  /** `val` has the recursive values. */
  ghost predicate EvalsTo<V>(fn: Functions<V>, h: Heap, rank: map<nat, nat>, val: map<nat, Result<V>>)
    requires Acyclic(h, rank)
  {
    forall a :: a in rank ==> a in val && val[a] == Eval(fn, h, rank, a)
  }

  /** One step of the recursion over the arguments. */
  lemma ArgsStep<V>(fn: Functions<V>, h: Heap, rank: map<nat, nat>, val: map<nat, Result<V>>, e: nat, f: nat, k: nat,
                    done: seq<V>)
    requires Acyclic(h, rank) && EvalsTo(fn, h, rank, val) && e in rank && h[e] == Str(f) && f < |h| && h[f].Fun?
             && k <= h[f].arity
    ensures forall j :: f < j <= f + h[f].arity ==> j in val
    ensures var r := EvalArgs(fn, h, rank, e, k, done);
            if k == 0 then
              r == if fn.known(h[f].name, h[f].arity) then fn.apply(h[f].name, done)
                   else Err(NotEvaluable(h[f].name, h[f].arity))
            else if val[f + k].Ok? then r == EvalArgs(fn, h, rank, e, k - 1, [val[f + k].value] + done)
            else r == val[f + k]
  {
    hide Eval;
    assert Ranked(h, rank, e);
    forall j | f < j <= f + h[f].arity ensures j in rank { assert Child(h, f, j); }
  }

  lemma {:induction false} ArgsSolve<V>(fn: Functions<V>, h: Heap, rank: map<nat, nat>, val: map<nat, Result<V>>,
                                        e: nat, f: nat, k: nat, done: seq<V>)
    requires Acyclic(h, rank) && EvalsTo(fn, h, rank, val) && e in rank && h[e] == Str(f) && f < |h| && h[f].Fun?
    requires k <= h[f].arity && ArgsDone(val, f, h[f].arity, k, done)
    ensures CompoundValue(fn, val, f, h[f].name, h[f].arity, EvalArgs(fn, h, rank, e, k, done))
    decreases k
  {
    hide *;
    ArgsStep(fn, h, rank, val, e, f, k, done);
    var name, arity := h[f].name, h[f].arity;
    if k == 0 {
      AllDone(fn, val, f, name, arity, done, EvalArgs(fn, h, rank, e, k, done));
    } else if val[f + k].Ok? {
      DoneMore(val, f, arity, k, done, val[f + k].value);
      ArgsSolve(fn, h, rank, val, e, f, k - 1, [val[f + k].value] + done);
    } else {
      LastFails(fn, val, f, name, arity, k, done);
    }
  }

  /** The recursive evaluator solves the equations. */
  lemma EvalSolves<V>(fn: Functions<V>, h: Heap, rank: map<nat, nat>, val: map<nat, Result<V>>)
    requires Acyclic(h, rank) && EvalsTo(fn, h, rank, val) && forall a :: a in val ==> a in rank
    ensures Valued(fn, h, val)
  {
    forall a | a in val ensures ValueFits(fn, h, val, a) {
      assert Ranked(h, rank, a);
      if h[a].Ref? {
        SameValue(fn, h, rank, a);
      } else if h[a].Str? && Applies(fn, h, h[a].f) {
        ArgsSolve(fn, h, rank, val, a, h[a].f, h[h[a].f].arity, []);
      }
    }
  }

  lemma SameValue<V>(fn: Functions<V>, h: Heap, rank: map<nat, nat>, a: nat)
    requires Acyclic(h, rank) && a in rank && a < |h| && h[a].Ref? && h[a].to in rank
    ensures Eval(fn, h, rank, a) == Eval(fn, h, rank, h[a].to)
  {
    assert Ranked(h, rank, a);
    assert Deref(h, rank, a) == Deref(h, rank, h[a].to);
  }

  /** The equations have no second solution. */
  lemma {:induction false} OneSolution<V>(fn: Functions<V>, h: Heap, rank: map<nat, nat>, val: map<nat, Result<V>>,
                                          val1: map<nat, Result<V>>, a: nat)
    requires Acyclic(h, rank) && Valued(fn, h, val) && Valued(fn, h, val1) && a in rank && a in val && a in val1
    ensures val[a] == val1[a]
    decreases rank[a]
  {
    assert Ranked(h, rank, a) && ValueFits(fn, h, val, a) && ValueFits(fn, h, val1, a);
    if h[a].Ref? {
      OneSolution(fn, h, rank, val, val1, h[a].to);
    } else if h[a].Str? && Applies(fn, h, h[a].f) {
      var f, arity := h[a].f, h[h[a].f].arity;
      forall k | f < k <= f + arity ensures val[k] == val1[k] {
        assert Child(h, f, k);
        OneSolution(fn, h, rank, val, val1, k);
      }
      SameCompound(fn, val, val1, f, h[f].name, arity, val[a], val1[a]);
    }
  }

  lemma SameCompound<V>(fn: Functions<V>, val: map<nat, Result<V>>, val1: map<nat, Result<V>>, f: nat, name: nat,
                        arity: nat, r: Result<V>, r1: Result<V>)
    requires CompoundValue(fn, val, f, name, arity, r) && CompoundValue(fn, val1, f, name, arity, r1)
    requires forall k :: f < k <= f + arity ==> val[k] == val1[k]
    ensures r == r1
  {
    if forall k :: f < k <= f + arity ==> val[k].Ok? {
      var args, args1 := ArgValues(val, f, arity), ArgValues(val1, f, arity);
      forall i | 0 <= i < arity ensures args[i] == args1[i] { assert val[f + 1 + i] == val1[f + 1 + i]; }
      assert args == args1;
    } else {
      var k := LastError(val, f, arity);
      assert val1[k] == val[k];
    }
  }

  lemma {:induction false} LastError<V>(val: map<nat, Result<V>>, f: nat, arity: nat) returns (k: nat)
    requires forall k :: f < k <= f + arity ==> k in val
    requires exists k :: f < k <= f + arity && val[k].Err?
    ensures f < k <= f + arity && val[k].Err? && forall j :: k < j <= f + arity ==> val[j].Ok?
  {
    k := f + arity;
    if val[k].Ok? { k := LastError(val, f, arity - 1); }
  }

  /** The equations can be solved from cell `a` on, and every solution gives it the value `r`. */
  ghost predicate Solved<V(!new)>(fn: Functions<V>, h: Heap, a: nat, r: Result<V>) {
    && (exists val: map<nat, Result<V>> :: Valued(fn, h, val) && a in val)
    && (forall val: map<nat, Result<V>> :: Valued(fn, h, val) && a in val ==> val[a] == r)
  }

  /** The recursive value is the one solution of the equations at `a`. */
  lemma EvalIsSolution<V(!new)>(fn: Functions<V>, h: Heap, rank: map<nat, nat>, a: nat)
    requires Acyclic(h, rank) && a in rank
    ensures Solved(fn, h, a, Eval(fn, h, rank, a))
  {
    hide Eval, Valued;
    var all := map b | b in rank :: Eval(fn, h, rank, b);
    EvalSolves(fn, h, rank, all);
    forall val: map<nat, Result<V>> | Valued(fn, h, val) && a in val ensures val[a] == Eval(fn, h, rank, a) {
      OneSolution(fn, h, rank, val, all, a);
    }
  }

  // ----- the stacks of the loop -----

  /** A compound under evaluation: its cell, whether it was found behind a reference, the argument it is
      at, and the values of the arguments after that. */
  datatype Frame<V> = Frame(e: nat, viaRef: bool, k: nat, done: seq<V>)

  ghost predicate FrameOk<V>(fn: Functions<V>, h: Heap, rank: map<nat, nat>, fr: Frame<V>)
    requires Acyclic(h, rank)
  {
    && fr.e in rank && fr.e < |h| && h[fr.e].Str? && Applies(fn, h, h[fr.e].f)
    && 1 <= fr.k <= h[h[fr.e].f].arity && |fr.done| == h[h[fr.e].f].arity - fr.k
  }

  /** The argument cell a frame is at. */
  function ArgCell<V>(h: Heap, fr: Frame<V>): nat {
    if fr.e < |h| && h[fr.e].Str? then h[fr.e].f + fr.k else 0
  }

  /** The cell being evaluated on top of `frames`. */
  function Place<V>(h: Heap, start: nat, frames: seq<Frame<V>>): nat {
    if frames == [] then start else ArgCell(h, frames[|frames| - 1])
  }

  ghost predicate FramesOk<V>(fn: Functions<V>, h: Heap, rank: map<nat, nat>, start: nat, frames: seq<Frame<V>>)
    requires Acyclic(h, rank)
  {
    frames != [] ==>
      var top, below := frames[|frames| - 1], frames[..|frames| - 1];
      && FramesOk(fn, h, rank, start, below) && FrameOk(fn, h, rank, top)
      && var a := Place(h, start, below);
         a in rank && a < |h| && top.e == Deref(h, rank, a) && (top.viaRef <==> h[a].Ref?)
  }

  /** What `term_stack` holds. */
  function Entries<V>(h: Heap, start: nat, frames: seq<Frame<V>>): seq<(nat, bool)> {
    if frames == [] then []
    else
      var top, below := frames[|frames| - 1], frames[..|frames| - 1];
      Entries(h, start, below) + (if top.viaRef then [(Place(h, start, below), false)] else []) + [(top.e, top.viaRef)]
  }

  function Backwards<V>(s: seq<V>): (r: seq<V>)
    ensures |r| == |s|
  {
    if s == [] then [] else Backwards(s[1..]) + [s[0]]
  }

  /** What `arg_stack` holds. */
  function Values<V>(frames: seq<Frame<V>>): seq<V> {
    if frames == [] then [] else Values(frames[..|frames| - 1]) + Backwards(frames[|frames| - 1].done)
  }

  /** The value of the whole expression once the cell being evaluated has value `r`. */
  ghost function Resume<V>(fn: Functions<V>, h: Heap, rank: map<nat, nat>, start: nat, frames: seq<Frame<V>>,
        r: Result<V>): Result<V>
    requires Acyclic(h, rank) && FramesOk(fn, h, rank, start, frames)
  {
    if frames == [] || r.Err? then r
    else
      var top := frames[|frames| - 1];
      Resume(fn, h, rank, start, frames[..|frames| - 1], EvalArgs(fn, h, rank, top.e, top.k - 1, [r.value] + top.done))
  }

  ghost function Cost<V>(fn: Functions<V>, h: Heap, rank: map<nat, nat>, a: nat): nat
    requires Acyclic(h, rank) && a in rank
    decreases rank[a], 1, 0
  {
    var e := Deref(h, rank, a);
    assert Ranked(h, rank, e);
    if h[e].Str? && Applies(fn, h, h[e].f) then 1 + ArgsCost(fn, h, rank, e, h[h[e].f].arity) else 1
  }

  ghost function ArgsCost<V>(fn: Functions<V>, h: Heap, rank: map<nat, nat>, e: nat, k: nat): nat
    requires Acyclic(h, rank) && e in rank && h[e].Str? && k <= h[h[e].f].arity
    decreases rank[e], 0, k
  {
    assert Ranked(h, rank, e);
    if k == 0 then 0
    else
      assert Child(h, h[e].f, h[e].f + k);
      Cost(fn, h, rank, h[e].f + k) + ArgsCost(fn, h, rank, e, k - 1)
  }

  /** The work left in the arguments the frames have not come to. */
  ghost function Ahead<V>(fn: Functions<V>, h: Heap, rank: map<nat, nat>, start: nat, frames: seq<Frame<V>>): nat
    requires Acyclic(h, rank) && FramesOk(fn, h, rank, start, frames)
  {
    if frames == [] then 0
    else
      var top := frames[|frames| - 1];
      ArgsCost(fn, h, rank, top.e, top.k - 1) + Ahead(fn, h, rank, start, frames[..|frames| - 1])
  }

  // ----- the steps of the loop -----

  /** A cell on the way to an argument is not a functor. */
  lemma PlaceOk<V>(fn: Functions<V>, h: Heap, rank: map<nat, nat>, start: nat, frames: seq<Frame<V>>)
    requires Acyclic(h, rank) && FramesOk(fn, h, rank, start, frames) && start in rank
    ensures var a := Place(h, start, frames); a in rank && a < |h| && !h[a].Fun? && Ranked(h, rank, a)
  {
    if frames != [] {
      var top := frames[|frames| - 1];
      assert Ranked(h, rank, top.e);
      assert Child(h, h[top.e].f, h[top.e].f + top.k);
    }
    assert Ranked(h, rank, Place(h, start, frames));
  }

  /** Below the root, nothing is as high as the root. */
  lemma {:induction false} BelowRoot<V>(fn: Functions<V>, h: Heap, rank: map<nat, nat>, start: nat,
        frames: seq<Frame<V>>)
    requires Acyclic(h, rank) && FramesOk(fn, h, rank, start, frames) && start in rank
    ensures var a := Place(h, start, frames); a in rank && if frames == [] then a == start else rank[a] < rank[start]
  {
    if frames != [] {
      var top, below := frames[|frames| - 1], frames[..|frames| - 1];
      BelowRoot(fn, h, rank, start, below);
      assert Ranked(h, rank, top.e);
      assert Child(h, h[top.e].f, h[top.e].f + top.k);
    }
  }

  lemma Popped<T>(s: seq<T>, x: T)
    ensures (s + [x])[|s + [x]| - 1] == x && (s + [x])[..|s + [x]| - 1] == s
  {
  }

  /** A compound is met. */
  lemma PushFrame<V>(fn: Functions<V>, h: Heap, rank: map<nat, nat>, start: nat, frames: seq<Frame<V>>, top: Frame<V>)
    requires Acyclic(h, rank) && FramesOk(fn, h, rank, start, frames) && start in rank
    requires var a := Place(h, start, frames);
             a in rank && a < |h| && top.e == Deref(h, rank, a) && (top.viaRef <==> h[a].Ref?)
    requires h[top.e].Str? && Applies(fn, h, h[top.e].f) && top.k == h[h[top.e].f].arity && top.done == []
    ensures FramesOk(fn, h, rank, start, frames + [top])
    ensures Entries(h, start, frames + [top]) == Entries(h, start, frames)
            + (if top.viaRef then [(Place(h, start, frames), false)] else []) + [(top.e, top.viaRef)]
    ensures Values(frames + [top]) == Values(frames)
    ensures var a, b := Place(h, start, frames), h[top.e].f + top.k;
            && Place(h, start, frames + [top]) == b && b in rank
            && Resume(fn, h, rank, start, frames, Eval(fn, h, rank, a)) ==
                Resume(fn, h, rank, start, frames + [top], Eval(fn, h, rank, b))
            && Cost(fn, h, rank, a) + Ahead(fn, h, rank, start, frames) == 1 + Cost(fn, h, rank, b)
                + Ahead(fn, h, rank, start, frames + [top])
  {
    PushOk(fn, h, rank, start, frames, top);
    PushResume(fn, h, rank, start, frames, top);
    hide *;
    Popped(frames, top);
    PlaceIs(h, start, frames + [top]);
  }

  lemma PushOk<V>(fn: Functions<V>, h: Heap, rank: map<nat, nat>, start: nat, frames: seq<Frame<V>>, top: Frame<V>)
    requires Acyclic(h, rank) && FramesOk(fn, h, rank, start, frames) && start in rank
    requires var a := Place(h, start, frames);
             a in rank && a < |h| && top.e == Deref(h, rank, a) && (top.viaRef <==> h[a].Ref?)
    requires h[top.e].Str? && Applies(fn, h, h[top.e].f) && top.k == h[h[top.e].f].arity && top.done == []
    ensures FramesOk(fn, h, rank, start, frames + [top]) && ArgCell(h, top) == h[top.e].f + top.k
            && h[top.e].f + top.k in rank
    ensures Entries(h, start, frames + [top]) == Entries(h, start, frames)
            + (if top.viaRef then [(Place(h, start, frames), false)] else []) + [(top.e, top.viaRef)]
    ensures Values(frames + [top]) == Values(frames)
  {
    hide Deref, Place;
    Popped(frames, top);
    assert Ranked(h, rank, top.e);
    assert Child(h, h[top.e].f, h[top.e].f + top.k);
    assert FrameOk(fn, h, rank, top);
    assert Values(frames) + [] == Values(frames);
  }

  lemma PushResume<V>(fn: Functions<V>, h: Heap, rank: map<nat, nat>, start: nat, frames: seq<Frame<V>>, top: Frame<V>)
    requires Acyclic(h, rank) && FramesOk(fn, h, rank, start, frames) && start in rank
             && FramesOk(fn, h, rank, start, frames + [top])
    requires var a := Place(h, start, frames); a in rank && a < |h| && top.e == Deref(h, rank, a)
    requires h[top.e].Str? && Applies(fn, h, h[top.e].f) && top.k == h[h[top.e].f].arity && top.done == []
             && h[top.e].f + top.k in rank
    ensures var a, b := Place(h, start, frames), h[top.e].f + top.k;
            && Resume(fn, h, rank, start, frames, Eval(fn, h, rank, a)) ==
                Resume(fn, h, rank, start, frames + [top], Eval(fn, h, rank, b))
            && Cost(fn, h, rank, a) + Ahead(fn, h, rank, start, frames) == 1 + Cost(fn, h, rank, b)
                + Ahead(fn, h, rank, start, frames + [top])
  {
    hide *;
    var b := h[top.e].f + top.k;
    EvalIs(fn, h, rank, Place(h, start, frames), top.e);
    TopIs(fn, h, rank, start, frames, top, Eval(fn, h, rank, b));
    ArgsUnfold(fn, h, rank, top.e, top.k, []);
    if Eval(fn, h, rank, b).Err? { ErrStays(fn, h, rank, start, frames, Err(Eval(fn, h, rank, b).error)); }
  }

  /** The top frame decides what happens with a value, and what is left. */
  lemma TopIs<V>(fn: Functions<V>, h: Heap, rank: map<nat, nat>, start: nat, below: seq<Frame<V>>, top: Frame<V>,
        r: Result<V>)
    requires Acyclic(h, rank) && FramesOk(fn, h, rank, start, below + [top])
    ensures FramesOk(fn, h, rank, start, below) && FrameOk(fn, h, rank, top)
    ensures top.e in rank && top.e < |h| && h[top.e].Str? && h[top.e].f < |h| && h[h[top.e].f].Fun?
            && 1 <= top.k <= h[h[top.e].f].arity
    ensures Resume(fn, h, rank, start, below + [top], r) ==
            if r.Err? then r else Resume(fn, h, rank, start, below,
                EvalArgs(fn, h, rank, top.e, top.k - 1, [r.value] + top.done))
    ensures Ahead(fn, h, rank, start, below + [top]) == ArgsCost(fn, h, rank, top.e, top.k - 1)
            + Ahead(fn, h, rank, start, below)
  {
    Popped(below, top);
    hide Eval, EvalArgs, Cost, ArgsCost, Deref, Place, Ranked;
  }

  lemma ErrStays<V>(fn: Functions<V>, h: Heap, rank: map<nat, nat>, start: nat, frames: seq<Frame<V>>, r: Result<V>)
    requires Acyclic(h, rank) && FramesOk(fn, h, rank, start, frames) && r.Err?
    ensures Resume(fn, h, rank, start, frames, r) == r
  {
  }

  lemma EvalIs<V>(fn: Functions<V>, h: Heap, rank: map<nat, nat>, a: nat, e: nat)
    requires Acyclic(h, rank) && a in rank && e == Deref(h, rank, a) && h[e].Str? && Applies(fn, h, h[e].f)
    ensures h[e].f < |h| && h[h[e].f].Fun? && h[h[e].f].arity >= 1
    ensures Eval(fn, h, rank, a) == EvalArgs(fn, h, rank, e, h[h[e].f].arity, [])
    ensures Cost(fn, h, rank, a) == 1 + ArgsCost(fn, h, rank, e, h[h[e].f].arity)
  {
    hide EvalArgs, ArgsCost;
  }

  function Moved<V>(top: Frame<V>, v: V): Frame<V>
    requires top.k > 1
  {
    top.(k := top.k - 1, done := [v] + top.done)
  }

  /** An argument that is not the first has a value. */
  lemma NextArg<V>(fn: Functions<V>, h: Heap, rank: map<nat, nat>, start: nat, frames: seq<Frame<V>>, v: V)
    requires Acyclic(h, rank) && FramesOk(fn, h, rank, start, frames) && frames != [] && frames[|frames| - 1].k > 1
    ensures var top, below := frames[|frames| - 1], frames[..|frames| - 1];
            var next := Moved(top, v);
            var b := ArgCell(h, next);
            && FramesOk(fn, h, rank, start, below + [next]) && b in rank
            && Place(h, start, below + [next]) == b && b == ArgCell(h, top) - 1
            && Entries(h, start, below + [next]) == Entries(h, start, frames)
            && Values(below + [next]) == Values(frames) + [v]
            && Resume(fn, h, rank, start, frames, Ok(v)) ==
                Resume(fn, h, rank, start, below + [next], Eval(fn, h, rank, b))
            && Ahead(fn, h, rank, start, frames) == Cost(fn, h, rank, b) + Ahead(fn, h, rank, start, below + [next])
  {
    var top, below := frames[|frames| - 1], frames[..|frames| - 1];
    NextFrame(fn, h, rank, start, frames, v);
    NextEntries(h, start, frames, v);
    NextResume(fn, h, rank, start, frames, v);
    hide *;
    Popped(below, Moved(top, v));
    PlaceIs(h, start, below + [Moved(top, v)]);
  }

  lemma PlaceIs<V>(h: Heap, start: nat, frames: seq<Frame<V>>)
    requires frames != []
    ensures Place(h, start, frames) == ArgCell(h, frames[|frames| - 1])
  {
  }

  lemma NextFrame<V>(fn: Functions<V>, h: Heap, rank: map<nat, nat>, start: nat, frames: seq<Frame<V>>, v: V)
    requires Acyclic(h, rank) && FramesOk(fn, h, rank, start, frames) && frames != [] && frames[|frames| - 1].k > 1
    ensures var top, next := frames[|frames| - 1], Moved(frames[|frames| - 1], v);
            && FramesOk(fn, h, rank, start, frames[..|frames| - 1] + [next])
            && ArgCell(h, next) in rank && ArgCell(h, next) == ArgCell(h, top) - 1
            && next.e in rank && next.e < |h| && h[next.e].Str? && h[next.e].f < |h| && h[h[next.e].f].Fun?
            && h[next.e].f + next.k == ArgCell(h, next) && next.k <= h[h[next.e].f].arity
  {
    hide Deref, Place;
    var top, below := frames[|frames| - 1], frames[..|frames| - 1];
    var next := Moved(top, v);
    Popped(below, next);
    assert Ranked(h, rank, top.e);
    assert Child(h, h[top.e].f, h[top.e].f + next.k);
    assert FrameOk(fn, h, rank, next);
  }

  lemma NextEntries<V>(h: Heap, start: nat, frames: seq<Frame<V>>, v: V)
    requires frames != [] && frames[|frames| - 1].k > 1
    ensures var frames1 := frames[..|frames| - 1] + [Moved(frames[|frames| - 1], v)];
            Entries(h, start, frames1) == Entries(h, start, frames) && Values(frames1) == Values(frames) + [v]
  {
    hide Place;
    var top, below := frames[|frames| - 1], frames[..|frames| - 1];
    Popped(below, Moved(top, v));
    BackwardsMore(v, top.done);
  }

  lemma MovedIs<V>(top: Frame<V>, v: V)
    requires top.k > 1
    ensures Moved(top, v) == top.(k := top.k - 1, done := [v] + top.done)
  {
  }

  lemma NextResume<V>(fn: Functions<V>, h: Heap, rank: map<nat, nat>, start: nat, frames: seq<Frame<V>>, v: V)
    requires Acyclic(h, rank) && FramesOk(fn, h, rank, start, frames) && frames != [] && frames[|frames| - 1].k > 1
    requires var next := Moved(frames[|frames| - 1], v);
             FramesOk(fn, h, rank, start, frames[..|frames| - 1] + [next]) && ArgCell(h, next) in rank
    ensures var frames1, b := frames[..|frames| - 1] + [Moved(frames[|frames| - 1], v)],
            ArgCell(h, Moved(frames[|frames| - 1], v));
            && Resume(fn, h, rank, start, frames, Ok(v)) == Resume(fn, h, rank, start, frames1, Eval(fn, h, rank, b))
            && Ahead(fn, h, rank, start, frames) == Cost(fn, h, rank, b) + Ahead(fn, h, rank, start, frames1)
  {
    hide *;
    var top, below := frames[|frames| - 1], frames[..|frames| - 1];
    var next := Moved(top, v);
    var b := ArgCell(h, next);
    MovedIs(top, v);
    assert frames == below + [top];
    TopIs(fn, h, rank, start, below, top, Ok(v));
    TopIs(fn, h, rank, start, below, next, Eval(fn, h, rank, b));
    CellOfTop(h, next);
    ArgsUnfold(fn, h, rank, top.e, top.k - 1, next.done);
    if Eval(fn, h, rank, b).Err? { ErrStays(fn, h, rank, start, below, Err(Eval(fn, h, rank, b).error)); }
  }

  lemma ArgsUnfold<V>(fn: Functions<V>, h: Heap, rank: map<nat, nat>, e: nat, k: nat, done: seq<V>)
    requires Acyclic(h, rank) && e in rank && e < |h| && h[e].Str? && h[e].f < |h| && h[h[e].f].Fun?
             && 1 <= k <= h[h[e].f].arity
    ensures h[e].f + k in rank
    ensures EvalArgs(fn, h, rank, e, k, done) == match Eval(fn, h, rank, h[e].f + k)
                                                 case Ok(w) => EvalArgs(fn, h, rank, e, k - 1, [w] + done)
                                                 case Err(x) => Err(x)
    ensures ArgsCost(fn, h, rank, e, k) == Cost(fn, h, rank, h[e].f + k) + ArgsCost(fn, h, rank, e, k - 1)
  {
    hide Eval, Cost, Deref;
    assert Ranked(h, rank, e);
    assert Child(h, h[e].f, h[e].f + k);
  }

  lemma BackwardsMore<V>(v: V, s: seq<V>)
    ensures Backwards([v] + s) == Backwards(s) + [v]
  {
    assert ([v] + s)[1..] == s;
  }

  /** The first argument has a value: the function is called. */
  lemma AllArgs<V>(fn: Functions<V>, h: Heap, rank: map<nat, nat>, start: nat, frames: seq<Frame<V>>, v: V)
    requires Acyclic(h, rank) && FramesOk(fn, h, rank, start, frames) && frames != [] && frames[|frames| - 1].k == 1
    ensures var top, below := frames[|frames| - 1], frames[..|frames| - 1];
            && FramesOk(fn, h, rank, start, below)
            && top.e < |h| && h[top.e].Str? && h[top.e].f < |h| && h[h[top.e].f].Fun? && |[v] + top.done| ==
                h[h[top.e].f].arity
            && Resume(fn, h, rank, start, frames, Ok(v)) ==
                Resume(fn, h, rank, start, below, Call(fn, h, h[top.e].f, [v] + top.done))
            && Values(frames) + [v] == Values(below) + Backwards([v] + top.done)
            && Ahead(fn, h, rank, start, frames) == Ahead(fn, h, rank, start, below)
            && Entries(h, start, frames) == Entries(h, start, below)
                + (if top.viaRef then [(Place(h, start, below), false)] else []) + [(top.e, top.viaRef)]
  {
    var top := frames[|frames| - 1];
    BackwardsMore(v, top.done);
  }

  /** The cell before an argument is the functor exactly if the argument is the first. */
  lemma AtFunctor<V>(fn: Functions<V>, h: Heap, rank: map<nat, nat>, start: nat, frames: seq<Frame<V>>)
    requires Acyclic(h, rank) && FramesOk(fn, h, rank, start, frames) && frames != []
    ensures var p := Place(h, start, frames); 1 <= p < |h| && (h[p - 1].Fun? <==> frames[|frames| - 1].k == 1)
  {
    var top := frames[|frames| - 1];
    assert Ranked(h, rank, top.e);
    assert Child(h, h[top.e].f, h[top.e].f + top.k);
    if top.k > 1 {
      assert Child(h, h[top.e].f, h[top.e].f + top.k - 1);
      assert Ranked(h, rank, h[top.e].f + top.k - 1);
    }
  }

  /** The top of `arg_stack`: the first argument on top. */
  lemma TopArgs<V>(below: seq<V>, args: seq<V>)
    requires 1 <= |args| <= 3
    ensures var s := below + Backwards(args);
            && s[|s| - 1] == args[0] && (|args| > 1 ==> s[|s| - 2] == args[1]) && (|args| > 2 ==> s[|s| - 3] == args[2])
            && s[..|s| - |args|] == below
  {
    BackwardsAt(args, 0);
    if |args| > 1 { BackwardsAt(args, 1); }
    if |args| > 2 { BackwardsAt(args, 2); }
  }

  lemma {:induction false} BackwardsAt<V>(s: seq<V>, k: nat)
    requires k < |s|
    ensures Backwards(s)[|s| - 1 - k] == s[k]
  {
    if k > 0 { BackwardsAt(s[1..], k - 1); }
  }

  // ----- the loop -----

  method Follow(h: Heap, a: nat, ghost rank: map<nat, nat>) returns (e: nat)
    requires Acyclic(h, rank) && a in rank
    ensures e == Deref(h, rank, a) && e < |h|
  {
    e := a;
    assert Ranked(h, rank, e);
    while h[e].Ref?
      invariant e in rank && e < |h| && Deref(h, rank, e) == Deref(h, rank, a)
      decreases rank[e]
    {
      assert Ranked(h, rank, e);
      e := h[e].to;
      assert Ranked(h, rank, e);
    }
  }

  /** About to evaluate the cell `p`, which the argument refers to if `walkRef`; the whole expression
      has the value `goal`. */
  ghost predicate AtCell<V>(fn: Functions<V>, h: Heap, rank: map<nat, nat>, start: nat, frames: seq<Frame<V>>,
                            p: nat, walkRef: bool, terms: seq<(nat, bool)>, args: seq<V>, goal: Result<V>)
  {
    && Acyclic(h, rank) && start in rank && start < |h| && !h[start].Ref?
    && FramesOk(fn, h, rank, start, frames) && args == Values(frames)
    && var a := Place(h, start, frames);
       && a in rank && a < |h|
       && (if walkRef then h[a].Ref? && p == Deref(h, rank, a) && terms == Entries(h, start, frames) + [(a, false)]
           else p == a && terms == Entries(h, start, frames))
       && goal == Resume(fn, h, rank, start, frames, Eval(fn, h, rank, a))
  }

  /** The argument in cell `p` has the value `v`. */
  ghost predicate AtValue<V>(fn: Functions<V>, h: Heap, rank: map<nat, nat>, start: nat, frames: seq<Frame<V>>,
                             p: nat, terms: seq<(nat, bool)>, args: seq<V>, v: V, goal: Result<V>)
  {
    && Acyclic(h, rank) && start in rank && start < |h| && !h[start].Ref?
    && FramesOk(fn, h, rank, start, frames) && frames != [] && p == Place(h, start, frames)
    && args == Values(frames) + [v] && terms == Entries(h, start, frames)
    && goal == Resume(fn, h, rank, start, frames, Ok(v))
  }

  /** The work left, with and without the cell the loop is at. */
  ghost function Left<V>(fn: Functions<V>, h: Heap, rank: map<nat, nat>, start: nat, frames: seq<Frame<V>>): nat {
    if Acyclic(h, rank) && FramesOk(fn, h, rank, start, frames) && Place(h, start, frames) in rank then
      Cost(fn, h, rank, Place(h, start, frames)) + Ahead(fn, h, rank, start, frames)
    else 0
  }

  ghost function Rest<V>(fn: Functions<V>, h: Heap, rank: map<nat, nat>, start: nat, frames: seq<Frame<V>>): nat {
    if Acyclic(h, rank) && FramesOk(fn, h, rank, start, frames) then Ahead(fn, h, rank, start, frames) else 0
  }

  /** The cell is evaluated by a step of its own. */
  predicate IsLeaf<V>(fn: Functions<V>, h: Heap, p: nat)
    requires p < |h|
  {
    !h[p].Ref? && !(h[p].Str? && Applies(fn, h, h[p].f))
  }

  lemma CellKinds<V>(fn: Functions<V>, h: Heap, rank: map<nat, nat>, start: nat, frames: seq<Frame<V>>,
                     p: nat, walkRef: bool, terms: seq<(nat, bool)>, args: seq<V>, goal: Result<V>)
    requires AtCell(fn, h, rank, start, frames, p, walkRef, terms, args, goal)
    ensures p in rank && p < |h| && (walkRef ==> !h[p].Ref?)
  {
    PlaceOk(fn, h, rank, start, frames);
  }

  lemma RefStep<V>(fn: Functions<V>, h: Heap, rank: map<nat, nat>, start: nat, frames: seq<Frame<V>>,
                   p: nat, terms: seq<(nat, bool)>, args: seq<V>, goal: Result<V>)
    requires AtCell(fn, h, rank, start, frames, p, false, terms, args, goal) && p < |h| && h[p].Ref?
    ensures p in rank && Acyclic(h, rank)
    ensures AtCell(fn, h, rank, start, frames, Deref(h, rank, p), true, terms + [(p, false)], args, goal)
  {
    hide Resume, Eval, FramesOk, Ranked;
  }

  lemma CellHas<V>(fn: Functions<V>, h: Heap, rank: map<nat, nat>, start: nat, frames: seq<Frame<V>>,
                   p: nat, walkRef: bool, terms: seq<(nat, bool)>, args: seq<V>, goal: Result<V>)
    requires AtCell(fn, h, rank, start, frames, p, walkRef, terms, args, goal)
    ensures Acyclic(h, rank) && start in rank && start < |h| && !h[start].Ref?
    ensures FramesOk(fn, h, rank, start, frames) && args == Values(frames)
    ensures var a := Place(h, start, frames);
            && a in rank && a < |h| && p == (if walkRef then Deref(h, rank, a) else a) && (walkRef ==> h[a].Ref?)
            && terms == (if walkRef then Entries(h, start, frames) + [(a, false)] else Entries(h, start, frames))
            && goal == Resume(fn, h, rank, start, frames, Eval(fn, h, rank, a))
            && (p < |h| && !h[p].Ref? ==> p == Deref(h, rank, a) && (walkRef <==> h[a].Ref?))
  {
    hide FramesOk, Values, Entries, Resume, Eval, Place, Ranked;
  }

  lemma CellIs<V>(fn: Functions<V>, h: Heap, rank: map<nat, nat>, start: nat, frames: seq<Frame<V>>,
                  terms: seq<(nat, bool)>, args: seq<V>, goal: Result<V>)
    requires Acyclic(h, rank) && start in rank && start < |h| && !h[start].Ref?
    requires FramesOk(fn, h, rank, start, frames) && args == Values(frames) && terms == Entries(h, start, frames)
    requires var a := Place(h, start, frames);
             a in rank && a < |h| && goal == Resume(fn, h, rank, start, frames, Eval(fn, h, rank, a))
    ensures AtCell(fn, h, rank, start, frames, Place(h, start, frames), false, terms, args, goal)
  {
    hide Acyclic, FramesOk, Values, Entries, Resume, Eval, Place;
  }

  lemma LeftIs<V>(fn: Functions<V>, h: Heap, rank: map<nat, nat>, start: nat, frames: seq<Frame<V>>)
    requires Acyclic(h, rank) && FramesOk(fn, h, rank, start, frames) && Place(h, start, frames) in rank
    ensures Left(fn, h, rank, start, frames) == Cost(fn, h, rank, Place(h, start, frames))
            + Ahead(fn, h, rank, start, frames)
  {
    hide Ahead, Cost, FramesOk, Acyclic, Place;
  }

  lemma CompoundStep<V>(fn: Functions<V>, h: Heap, rank: map<nat, nat>, start: nat, frames: seq<Frame<V>>,
                        p: nat, walkRef: bool, terms: seq<(nat, bool)>, args: seq<V>, goal: Result<V>)
    requires AtCell(fn, h, rank, start, frames, p, walkRef, terms, args, goal) && p < |h| && h[p].Str?
             && Applies(fn, h, h[p].f)
    ensures var arity, top := h[h[p].f].arity, Frame(p, walkRef, h[h[p].f].arity, []);
            && AtCell(fn, h, rank, start, frames + [top], h[p].f + arity, false, terms + [(p, walkRef)], args, goal)
            && Left(fn, h, rank, start, frames + [top]) < Left(fn, h, rank, start, frames)
  {
    hide *;
    AppliesTo(fn, h, h[p].f);
    var top := Frame(p, walkRef, h[h[p].f].arity, []);
    CellHas(fn, h, rank, start, frames, p, walkRef, terms, args, goal);
    PlaceOk(fn, h, rank, start, frames);
    PushFrame(fn, h, rank, start, frames, top);
    PlaceOk(fn, h, rank, start, frames + [top]);
    LeftIs(fn, h, rank, start, frames);
    LeftIs(fn, h, rank, start, frames + [top]);
    var under := if walkRef then Entries(h, start, frames) + [(Place(h, start, frames), false)]
        else Entries(h, start, frames);
    assert under + [(p, walkRef)] == Entries(h, start, frames) + (if walkRef then [(Place(h, start, frames), false)]
        else []) + [(p, walkRef)];
    CellIs(fn, h, rank, start, frames + [top], terms + [(p, walkRef)], args, goal);
  }

  lemma LeafStep<V>(fn: Functions<V>, h: Heap, rank: map<nat, nat>, start: nat, frames: seq<Frame<V>>,
                    p: nat, walkRef: bool, terms: seq<(nat, bool)>, args: seq<V>, goal: Result<V>)
    requires AtCell(fn, h, rank, start, frames, p, walkRef, terms, args, goal) && p < |h| && IsLeaf(fn, h, p)
    ensures var r := Leaf(fn, h, p);
            && (r.Err? || p == start ==> goal == r)
            && (p != start ==> frames != [])
            && Rest(fn, h, rank, start, frames) < Left(fn, h, rank, start, frames)
            && (p != start && r.Ok? ==>
                  if walkRef then
                    terms != [] && !terms[|terms| - 1].1
                    && AtValue(fn, h, rank, start, frames, terms[|terms| - 1].0, terms[..|terms| - 1],
                        args + [r.value], r.value, goal)
                  else AtValue(fn, h, rank, start, frames, p, terms, args + [r.value], r.value, goal))
  {
    PlaceOk(fn, h, rank, start, frames);
    BelowRoot(fn, h, rank, start, frames);
    var a := Place(h, start, frames);
    assert p == Deref(h, rank, a) && Eval(fn, h, rank, a) == Leaf(fn, h, p);
    Popped(Entries(h, start, frames), (a, false));
    hide FramesOk, Ranked, Entries, Values, Ahead, Acyclic;
  }

  /** After a call with result `r`: the whole value, if the root or an error was reached, or the value of
      the argument the compound is. */
  ghost predicate AfterCall<V>(fn: Functions<V>, h: Heap, rank: map<nat, nat>, start: nat, down: seq<Frame<V>>,
                               terms: seq<(nat, bool)>, below: seq<V>, r: Result<V>, goal: Result<V>)
  {
    var z := |terms| - 1;
    && z >= 0
    && (r.Err? || terms[z].0 == start ==> goal == r)
    && (r.Ok? && terms[z].0 != start ==>
          if terms[z].1 then
            z > 0 && !terms[z - 1].1 && AtValue(fn, h, rank, start, down, terms[z - 1].0, terms[..z][..z - 1], below
                + [r.value], r.value, goal)
          else AtValue(fn, h, rank, start, down, terms[z].0, terms[..z], below + [r.value], r.value, goal))
  }

  /** A value for the first argument: the function below it is called. */
  lemma CallStep<V>(fn: Functions<V>, h: Heap, rank: map<nat, nat>, start: nat, frames: seq<Frame<V>>,
                    p: nat, terms: seq<(nat, bool)>, args: seq<V>, v: V, goal: Result<V>, below: seq<V>, all: seq<V>)
    requires AtValue(fn, h, rank, start, frames, p, terms, args, v, goal) && frames[|frames| - 1].k == 1
    requires below == Values(frames[..|frames| - 1]) && all == [v] + frames[|frames| - 1].done
    ensures 1 <= p <= |h| && h[p - 1].Fun? && |all| == h[p - 1].arity && args == below + Backwards(all) && |all| >= 1
    ensures Rest(fn, h, rank, start, frames[..|frames| - 1]) == Rest(fn, h, rank, start, frames)
    ensures AfterCall(fn, h, rank, start, frames[..|frames| - 1], terms, below, Call(fn, h, p - 1, all), goal)
  {
    hide *;
    ValueHas(fn, h, rank, start, frames, p, terms, args, v, goal);
    var top, down := frames[|frames| - 1], frames[..|frames| - 1];
    AllArgs(fn, h, rank, start, frames, v);
    AtFunctor(fn, h, rank, start, frames);
    PlaceIs(h, start, frames);
    CellOfTop(h, top);
    DownIs(fn, h, rank, start, frames);
    RestIs(fn, h, rank, start, frames);
    RestIs(fn, h, rank, start, down);
    CallPops(fn, h, rank, start, down, top, terms, below, Call(fn, h, p - 1, all), goal);
  }

  lemma ValueHas<V>(fn: Functions<V>, h: Heap, rank: map<nat, nat>, start: nat, frames: seq<Frame<V>>,
                    p: nat, terms: seq<(nat, bool)>, args: seq<V>, v: V, goal: Result<V>)
    requires AtValue(fn, h, rank, start, frames, p, terms, args, v, goal)
    ensures Acyclic(h, rank) && start in rank && start < |h| && !h[start].Ref?
    ensures FramesOk(fn, h, rank, start, frames) && frames != [] && p == Place(h, start, frames)
    ensures args == Values(frames) + [v] && terms == Entries(h, start, frames)
    ensures goal == Resume(fn, h, rank, start, frames, Ok(v))
  {
    hide Acyclic, FramesOk, Place, Values, Entries, Resume;
  }

  lemma CellOfTop<V>(h: Heap, fr: Frame<V>)
    requires fr.e < |h| && h[fr.e].Str?
    ensures ArgCell(h, fr) == h[fr.e].f + fr.k
  {
  }

  lemma RestIs<V>(fn: Functions<V>, h: Heap, rank: map<nat, nat>, start: nat, frames: seq<Frame<V>>)
    requires Acyclic(h, rank) && FramesOk(fn, h, rank, start, frames)
    ensures Rest(fn, h, rank, start, frames) == Ahead(fn, h, rank, start, frames)
  {
    hide Ahead;
  }

  lemma CallPops<V>(fn: Functions<V>, h: Heap, rank: map<nat, nat>, start: nat, down: seq<Frame<V>>, top: Frame<V>,
                    terms: seq<(nat, bool)>, below: seq<V>, r: Result<V>, goal: Result<V>)
    requires Acyclic(h, rank) && start in rank && start < |h| && !h[start].Ref? && FramesOk(fn, h, rank, start, down)
    requires below == Values(down) && goal == Resume(fn, h, rank, start, down, r)
    requires var a := Place(h, start, down);
             a in rank && a < |h| && top.e == Deref(h, rank, a) && (top.viaRef <==> h[a].Ref?)
                 && (!top.viaRef ==> top.e == a)
    requires terms == Entries(h, start, down) + (if top.viaRef then [(Place(h, start, down), false)] else [])
             + [(top.e, top.viaRef)]
    ensures AfterCall(fn, h, rank, start, down, terms, below, r, goal)
  {
    BelowRoot(fn, h, rank, start, down);
    assert down == [] ==> top.e == start;
    assert down != [] ==> top.e != start;
    hide FramesOk, Ranked, Entries, Values, Ahead, Acyclic, EvalArgs, Eval, Deref, Place;
    var under := Entries(h, start, down) + (if top.viaRef then [(Place(h, start, down), false)] else []);
    Popped(under, (top.e, top.viaRef));
    if top.viaRef { Popped(Entries(h, start, down), (Place(h, start, down), false)); }
  }

  lemma DownIs<V>(fn: Functions<V>, h: Heap, rank: map<nat, nat>, start: nat, frames: seq<Frame<V>>)
    requires Acyclic(h, rank) && FramesOk(fn, h, rank, start, frames) && frames != []
    ensures var top, a := frames[|frames| - 1], Place(h, start, frames[..|frames| - 1]);
            a in rank && a < |h| && top.e == Deref(h, rank, a) && (top.viaRef <==> h[a].Ref?)
                && (!top.viaRef ==> top.e == a)
  {
  }

  lemma NextStep<V>(fn: Functions<V>, h: Heap, rank: map<nat, nat>, start: nat, frames: seq<Frame<V>>,
                    p: nat, terms: seq<(nat, bool)>, args: seq<V>, v: V, goal: Result<V>)
    requires AtValue(fn, h, rank, start, frames, p, terms, args, v, goal) && frames[|frames| - 1].k > 1
    ensures var top := frames[|frames| - 1];
            var frames1 := frames[..|frames| - 1] + [Moved(top, v)];
            && p >= 1 && AtCell(fn, h, rank, start, frames1, p - 1, false, terms, args, goal)
            && Left(fn, h, rank, start, frames1) == Rest(fn, h, rank, start, frames)
  {
    var top := frames[|frames| - 1];
    var frames1 := frames[..|frames| - 1] + [Moved(top, v)];
    NextArg(fn, h, rank, start, frames, v);
    AtFunctor(fn, h, rank, start, frames);
    PlaceOk(fn, h, rank, start, frames1);
    hide FramesOk, Ranked, Entries, Values, Ahead, Acyclic, EvalArgs, Eval, Resume, Cost;
  }

  lemma ValueAt<V>(fn: Functions<V>, h: Heap, rank: map<nat, nat>, start: nat, frames: seq<Frame<V>>,
                   p: nat, terms: seq<(nat, bool)>, args: seq<V>, v: V, goal: Result<V>)
    requires AtValue(fn, h, rank, start, frames, p, terms, args, v, goal)
    ensures frames != [] && 1 <= p < |h| && (h[p - 1].Fun? <==> frames[|frames| - 1].k == 1)
            && frames[|frames| - 1].k >= 1
  {
    AtFunctor(fn, h, rank, start, frames);
  }

  lemma Begins<V>(fn: Functions<V>, h: Heap, rank: map<nat, nat>, expr: nat)
    requires Acyclic(h, rank) && expr in rank
    ensures var start := Deref(h, rank, expr);
            AtCell(fn, h, rank, start, [], start, false, [], [], Eval(fn, h, rank, expr))
  {
    var start := Deref(h, rank, expr);
    assert Deref(h, rank, start) == start;
  }

  /** Call a function with the values on top of the stack. */
  method CallFunction<V>(fn: Functions<V>, name: nat, arity: nat, args: seq<V>, ghost below: seq<V>, ghost all: seq<V>)
      returns (rc: Result<V>, rest: seq<V>)
    requires args == below + Backwards(all) && |all| == arity && 1 <= arity <= 3
    ensures rc == fn.apply(name, all) && rest == below
  {
    TopArgs(below, all);
    var n := |args|;
    if arity == 1 {
      rc := fn.apply(name, [args[n - 1]]);
      assert [args[n - 1]] == all;
    } else if arity == 2 {
      rc := fn.apply(name, [args[n - 1], args[n - 2]]);
      assert [args[n - 1], args[n - 2]] == all;
    } else {
      rc := fn.apply(name, [args[n - 1], args[n - 2], args[n - 3]]);
      assert [args[n - 1], args[n - 2], args[n - 3]] == all;
    }
    rest := args[..n - arity];
  }

  method EvalExpression<V(!new)>(fn: Functions<V>, h: Heap, expr: nat, ghost rank: map<nat, nat>) returns (r: Result<V>)
    requires Acyclic(h, rank) && expr in rank
    requires forall name: nat, arity: nat :: fn.known(name, arity) ==> arity <= 3
    ensures r == Eval(fn, h, rank, expr)
    ensures Solved(fn, h, expr, r)
  {
    hide *;
    ghost var goal := Eval(fn, h, rank, expr);
    EvalIsSolution(fn, h, rank, expr);
    var p: nat := Follow(h, expr, rank);
    var start, walkRef := p, false;
    var terms: seq<(nat, bool)>, args: seq<V> := [], [];
    ghost var frames: seq<Frame<V>> := [];
    Begins(fn, h, rank, expr);
    while true
      invariant AtCell(fn, h, rank, start, frames, p, walkRef, terms, args, goal)
      decreases Left(fn, h, rank, start, frames), if walkRef then 0 else 1
    {
      CellKinds(fn, h, rank, start, frames, p, walkRef, terms, args, goal);
      if h[p].Ref? {
        RefStep(fn, h, rank, start, frames, p, terms, args, goal);
        terms := terms + [(p, walkRef)];
        walkRef := true;
        p := Follow(h, p, rank);
        continue;
      }
      if h[p].Str? && Applies(fn, h, h[p].f) {
        AppliesTo(fn, h, h[p].f);
        CompoundStep(fn, h, rank, start, frames, p, walkRef, terms, args, goal);
        frames := frames + [Frame(p, walkRef, h[h[p].f].arity, [])];
        terms := terms + [(p, walkRef)];
        p := h[p].f + h[h[p].f].arity;
        walkRef := false;
        continue;
      }
      LeafIs(fn, h, p);
      LeafStep(fn, h, rank, start, frames, p, walkRef, terms, args, goal);
      var n := Leaf(fn, h, p);
      if n.Err? { return n; }
      if p == start { return n; }
      if walkRef {
        p, walkRef := terms[|terms| - 1].0, terms[|terms| - 1].1;
        terms := terms[..|terms| - 1];
      }
      args := args + [n.value];
      ghost var work, v := Rest(fn, h, rank, start, frames), n.value;
      ValueAt(fn, h, rank, start, frames, p, terms, args, v, goal);
      p := p - 1;
      while h[p].Fun?
        invariant AtValue(fn, h, rank, start, frames, p + 1, terms, args, v, goal) && !walkRef
        invariant frames != [] && p < |h| && (h[p].Fun? <==> frames[|frames| - 1].k == 1) && frames[|frames| - 1].k >= 1
        invariant Rest(fn, h, rank, start, frames) == work
        decreases |frames|
      {
        ghost var below, all := Values(frames[..|frames| - 1]), [v] + frames[|frames| - 1].done;
        CallStep(fn, h, rank, start, frames, p + 1, terms, args, v, goal, below, all);
        CallIs(fn, h, p, all);
        AfterIs(fn, h, rank, start, frames[..|frames| - 1], terms, below, Call(fn, h, p, all), goal);
        var name, arity := h[p].name, h[p].arity;
        if !fn.known(name, arity) { return Err(NotEvaluable(name, arity)); }
        var rc;
        rc, args := CallFunction(fn, name, arity, args, below, all);
        if rc.Err? { return rc; }
        args, v := args + [rc.value], rc.value;
        frames := frames[..|frames| - 1];
        p, walkRef := terms[|terms| - 1].0, terms[|terms| - 1].1;
        terms := terms[..|terms| - 1];
        if p == start { return rc; }
        if walkRef {
          p, walkRef := terms[|terms| - 1].0, terms[|terms| - 1].1;
          terms := terms[..|terms| - 1];
        }
        ValueAt(fn, h, rank, start, frames, p, terms, args, v, goal);
        p := p - 1;
      }
      NextStep(fn, h, rank, start, frames, p + 1, terms, args, v, goal);
      frames := frames[..|frames| - 1] + [Moved(frames[|frames| - 1], v)];
    }
  }

  lemma AfterIs<V>(fn: Functions<V>, h: Heap, rank: map<nat, nat>, start: nat, down: seq<Frame<V>>,
                   terms: seq<(nat, bool)>, below: seq<V>, r: Result<V>, goal: Result<V>)
    requires AfterCall(fn, h, rank, start, down, terms, below, r, goal)
    ensures |terms| > 0 && (r.Err? || terms[|terms| - 1].0 == start ==> goal == r)
    ensures r.Ok? && terms[|terms| - 1].0 != start ==>
              var z := |terms| - 1;
              if terms[z].1 then
                z > 0 && !terms[z - 1].1 && AtValue(fn, h, rank, start, down, terms[z - 1].0, terms[..z][..z - 1],
                    below + [r.value], r.value, goal)
              else AtValue(fn, h, rank, start, down, terms[z].0, terms[..z], below + [r.value], r.value, goal)
  {
    hide AtValue;
  }

  lemma AppliesTo<V>(fn: Functions<V>, h: Heap, f: nat)
    requires Applies(fn, h, f)
    ensures f < |h| && h[f].Fun?
  {
  }

  lemma LeafIs<V>(fn: Functions<V>, h: Heap, p: nat)
    requires p < |h| && !h[p].Ref? && !(h[p].Str? && Applies(fn, h, h[p].f))
    ensures IsLeaf(fn, h, p)
  {
  }

  lemma CallIs<V>(fn: Functions<V>, h: Heap, f: nat, args: seq<V>)
    requires f < |h| && h[f].Fun?
    ensures Call(fn, h, f, args) == if fn.known(h[f].name, h[f].arity) then fn.apply(h[f].name, args)
            else Err(NotEvaluable(h[f].name, h[f].arity))
  {
  }
}
