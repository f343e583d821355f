// Terms as graphs of cells on the global stack.

module TermHeap {
  /** The mark bits of a variable or of the functor cell of a compound. */
  datatype Mark = Virgin | Once | Twice

  /** A cell.  A compound is a `Str` that points to a `Fun` cell, which its arguments follow.
      `Marker` is the place of a variable that has been copied and occurs more than once. */
  datatype Cell =
    | Var(mark: Mark)
    | Marker
    | Ref(to: nat)
    | Str(f: nat)
    | Con(c: nat)
    | Fun(name: nat, arity: nat, fmark: Mark)

  type Heap = seq<Cell>

  /** The cell without its mark. */
  function Erase(c: Cell): Cell {
    match c
    case Var(_) => Var(Virgin)
    case Fun(n, k, _) => Fun(n, k, Virgin)
    case _ => c
  }

  /** One cell of an unmarked heap: pointers lead into the heap, reference chains end (`depth`), and
      compounds do not overlap. */
  predicate CellOk(h: Heap, depth: seq<nat>, a: nat)
    requires |depth| == |h| && a < |h|
  {
    match h[a]
    case Var(m) => m == Virgin
    case Marker => false
    case Ref(b) => b < |h| && depth[b] < depth[a] && !h[b].Fun?
    case Str(f) => f < |h| && h[f].Fun?
    case Con(_) => true
    case Fun(_, k, m) => m == Virgin && a + k < |h| && forall b :: a < b <= a + k ==> !h[b].Fun?
  }

  ghost predicate HeapOk(h: Heap, depth: seq<nat>) {
    |depth| == |h| && forall a :: 0 <= a < |h| ==> CellOk(h, depth, a)
  }

  /** Where a chain of references ends. */
  ghost function End(h: Heap, depth: seq<nat>, a: nat): (e: nat)
    requires HeapOk(h, depth) && a < |h| && !h[a].Fun?
    ensures e < |h| && !h[e].Ref? && !h[e].Fun?
    decreases depth[a]
  {
    assert CellOk(h, depth, a);
    if h[a].Ref? then End(h, depth, h[a].to) else a
  }

  /** The arguments of the compound at `f`. */
  predicate Child(h: Heap, f: nat, a: nat) {
    f < |h| && h[f].Fun? && f < a <= f + h[f].arity
  }

  lemma ChildOf(h: Heap, depth: seq<nat>, f: nat, a: nat)
    requires HeapOk(h, depth) && Child(h, f, a)
    ensures a < |h| && !h[a].Fun?
  {
    assert CellOk(h, depth, f);
  }

  /** An argument belongs to one compound. */
  lemma OneOwner(h: Heap, depth: seq<nat>, f: nat, g: nat, a: nat)
    requires HeapOk(h, depth) && Child(h, f, a) && Child(h, g, a)
    ensures f == g
  {
    assert CellOk(h, depth, f) && CellOk(h, depth, g);
    if f < g { ChildOf(h, depth, f, g); }
    if g < f { ChildOf(h, depth, g, f); }
  }

  /** `h` starts with `h0`, but for marks. */
  ghost predicate UpToMarks(h0: Heap, h: Heap) {
    |h0| <= |h| && forall a :: 0 <= a < |h0| ==> Erase(h[a]) == h0[a]
  }

  function Range(lo: nat, n: nat): (r: seq<nat>)
    ensures |r| == n && (forall k :: 0 <= k < n ==> r[k] == lo + k)
    ensures forall a :: a in r <==> lo <= a < lo + n
    decreases n
  {
    if n == 0 then [] else [lo] + Range(lo + 1, n - 1)
  }

  /** A visit is the root or an argument cell; the root has the number |h0|. */
  function Addr(h0: Heap, start: nat, id: nat): nat {
    if id == |h0| then start else id
  }

  /** A tour of the graph: for each compound and variable met, the visit that met it first; the compound
      each argument visited belongs to; the order of meeting compounds; the visits made. */
  datatype Tour = Tour(via: map<nat, nat>, varVia: map<nat, nat>, owner: map<nat, nat>, rank: map<nat, nat>,
        done: set<nat>)

  predicate IdOk(h0: Heap, id: nat) {
    id == |h0| || (id < |h0| && !h0[id].Fun?)
  }

  ghost predicate StartOk(h0: Heap, depth: seq<nat>, start: nat) {
    HeapOk(h0, depth) && start < |h0| && !h0[start].Fun?
  }

  /** Where visit `id` leads. */
  ghost function Goal(h0: Heap, depth: seq<nat>, start: nat, id: nat): (e: nat)
    requires StartOk(h0, depth, start) && IdOk(h0, id)
    ensures e < |h0| && !h0[e].Ref? && !h0[e].Fun?
  {
    End(h0, depth, Addr(h0, start, id))
  }

  ghost predicate Meets(h0: Heap, depth: seq<nat>, start: nat, id: nat, f: nat)
    requires StartOk(h0, depth, start)
  {
    IdOk(h0, id) && h0[Goal(h0, depth, start, id)] == Str(f)
  }

  ghost predicate MeetsVar(h0: Heap, depth: seq<nat>, start: nat, id: nat, v: nat)
    requires StartOk(h0, depth, start)
  {
    IdOk(h0, id) && Goal(h0, depth, start, id) == v
  }
}
