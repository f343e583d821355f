// Safety of the atom table in every interleaving: one valid atom per unique text, and outside a resize
// every valid unique atom is linked in the current table.

module AtomInvariant {
  import opened AtomTable

  // ----- tables -----

  function TextOf(m: Mem, i: nat): Text {
    if Cell(m, i).text.Some? then Cell(m, i).text.value else Text(0, false)
  }

  function BucketOf(h: Hash, m: Mem, tbl: Table, i: nat): nat {
    Bucket(h, tbl, TextOf(m, i))
  }

  predicate IsUnique(m: Mem, i: nat) {
    Cell(m, i).text.Some? && Cell(m, i).text.value.unique
  }

  /** Atom `i` is linked in `tbl` no later than the head of its bucket. */
  predicate BelowHead(h: Hash, m: Mem, tbl: Table, i: nat) {
    var head := HeadOf(h, tbl, TextOf(m, i));
    head.Some? && head.value in tbl.order && i in tbl.order && tbl.order[i] <= tbl.order[head.value]
  }

  predicate HeadFits(h: Hash, m: Mem, tbl: Table, v: nat)
    requires v < |tbl.heads|
  {
    tbl.heads[v].Some? ==> tbl.heads[v].value in tbl.order && BucketOf(h, m, tbl, tbl.heads[v].value) == v
  }

  predicate LinkedOk(m: Mem, tbl: Table) {
    forall i :: i in tbl.order ==> Cell(m, i).life != Free && IsUnique(m, i)
  }

  predicate HeadsOk(h: Hash, m: Mem, tbl: Table) {
    forall v :: 0 <= v < |tbl.heads| ==> HeadFits(h, m, tbl, v)
  }

  predicate BelowOk(h: Hash, m: Mem, tbl: Table) {
    forall i :: i in tbl.order ==> BelowHead(h, m, tbl, i)
  }

  /** Atoms were linked one at a time. */
  predicate OrderOk(tbl: Table) {
    && (forall i :: i in tbl.order ==> tbl.order[i] < |tbl.order|)
    && (forall i, j :: i in tbl.order && j in tbl.order && tbl.order[i] == tbl.order[j] ==> i == j)
  }

  /** The atoms linked in a table are in use, unique, and the buckets start at the latest one. */
  ghost predicate TableOk(h: Hash, m: Mem, tbl: Table) {
    |tbl.heads| > 0 && LinkedOk(m, tbl) && HeadsOk(h, m, tbl) && BelowOk(h, m, tbl) && OrderOk(tbl)
  }

  /** `next` leads from `i` to the atom of the same bucket that was linked just before it. */
  ghost predicate NextOk(h: Hash, m: Mem, tbl: Table, i: nat)
    requires i in tbl.order
  {
    var n := Cell(m, i).next;
    && (n.Some? ==>
      n.value in tbl.order && BucketOf(h, m, tbl, n.value) == BucketOf(h, m, tbl, i)
      && tbl.order[n.value] < tbl.order[i])
    && (forall x ::
      x in tbl.order && BucketOf(h, m, tbl, x) == BucketOf(h, m, tbl, i) && tbl.order[x] < tbl.order[i] ==>
          n.Some? && n.value in tbl.order && tbl.order[x] <= tbl.order[n.value])
  }

  ghost predicate ChainsOk(h: Hash, m: Mem, tbl: Table) {
    forall i :: i in tbl.order ==> NextOk(h, m, tbl, i)
  }

  predicate Distinct(m: Mem, tbl: Table) {
    forall i, j :: i in tbl.order && j in tbl.order && TextOf(m, i) == TextOf(m, j) ==> i == j
  }

  predicate AtomOk(m: Mem, i: nat) {
    var a := Cell(m, i);
    && (a.life == Free ==> a.text == None)
    && (a.life != Free ==> 1 <= i)
    && (a.life == Valid ==> a.text.Some? && i < m.highest && (a.text.value.unique ==> i in TableAt(m, Cur(m)).order))
  }

  ghost predicate AtomsOk(m: Mem) {
    forall i :: i in m.atoms ==> AtomOk(m, i)
  }

  /** The table under construction holds the valid unique atoms visited so far. */
  ghost predicate BuildOk(h: Hash, m: Mem) {
    m.resize.Scan? ==>
      && TableOk(h, m, m.building) && ChainsOk(h, m, m.building)
      && 1 <= m.resize.index
      && (forall i :: i in m.building.order ==> i < m.resize.index && Cell(m, i).life == Valid)
      && (forall i :: i in m.atoms && Cell(m, i).life == Valid && IsUnique(m, i) ==>
            (i < m.resize.index ==> i in m.building.order) && (m.resize.last ==> i < m.resize.upto))
  }

  ghost predicate MemOk(h: Hash, m: Mem) {
    && |m.tables| > 0 && 1 <= m.highest
    && TableOk(h, m, m.tables[Cur(m)]) && Distinct(m, m.tables[Cur(m)])
    && (!m.resize.Scan? ==> ChainsOk(h, m, m.tables[Cur(m)]))
    && AtomsOk(m) && BuildOk(h, m)
  }

  // ----- threads -----

  /** The atom a thread has reserved and not yet published or released. */
  function Owned(th: Thread): Option<nat> {
    match th
    case Raise(_, _, _, i) => Some(i)
    case Fill(_, _, _, i) => Some(i)
    case ReadLink(_, _, _, i) => Some(i)
    case WriteLink(_, _, _, i, _) => Some(i)
    case Guard(_, _, _, i) => Some(i)
    case Cas(_, _, _, i) => Some(i)
    case Recheck(_, _, _, i) => Some(i)
    case Undo(_, i) => Some(i)
    case Release(_, i) => Some(i)
    case Publish(_, i) => Some(i)
    case _ => None
  }

  /** A thread that has passed the `rehashing` test and may still make its atom valid. */
  predicate Committed(m: Mem, th: Thread) {
    ((th.Cas? || th.Recheck?) && th.tab == Cur(m)) || (th.Publish? && th.t.unique)
  }

  predicate HeadKnown(m: Mem, tab: nat, head: Option<nat>) {
    tab == Cur(m) && head.Some? ==> head.value in TableAt(m, tab).order
  }

  /** What a thread read at its last `redo` is still the case. */
  predicate Current(h: Hash, m: Mem, t: Text, tab: nat, head: Option<nat>) {
    tab == Cur(m) && HeadOf(h, TableAt(m, tab), t) == head
  }

  /** No atom with text `t` is linked in the current table. */
  ghost predicate Absent(m: Mem, t: Text) {
    forall x :: x in TableAt(m, Cur(m)).order ==> TextOf(m, x) != t
  }

  /** Every atom with text `t` in the current table is still ahead on the chain, from `at` on. */
  ghost predicate Ahead(h: Hash, m: Mem, t: Text, at: Option<nat>) {
    var tbl := TableAt(m, Cur(m));
    && (at.Some? ==> at.value in tbl.order && BucketOf(h, m, tbl, at.value) == Bucket(h, tbl, t))
    && (forall x :: x in tbl.order && TextOf(m, x) == t ==>
      at.Some? && at.value in tbl.order && tbl.order[x] <= tbl.order[at.value])
  }

  ghost predicate Searched(h: Hash, m: Mem, t: Text, tab: nat, head: Option<nat>) {
    t.unique && Current(h, m, t, tab, head) && !m.resize.Scan? ==> Absent(m, t)
  }

  /** The reserved atom `i` is this thread's alone and not linked in the current table. */
  predicate Holding(m: Mem, i: nat) {
    Cell(m, i).life == Reserved && 1 <= i && i !in TableAt(m, Cur(m)).order
  }

  predicate Filled(m: Mem, t: Text, i: nat) {
    Cell(m, i).text == Some(t) && i < m.highest
  }

  ghost predicate ThreadOk(h: Hash, m: Mem, th: Thread) {
    match th
    case Idle => true
    case Redo(t) => true
    case ReadHead(t, tab) => tab <= Cur(m)
    case StartWalk(t, tab, head) => tab <= Cur(m) && HeadKnown(m, tab, head)
    case Walk(t, tab, head, at) =>
      tab <= Cur(m) && t.unique && HeadKnown(m, tab, head) && (Current(h, m, t, tab, head) && !m.resize.Scan? ==>
          Ahead(h, m, t, at))
    case Compare(t, tab, head, i, life) =>
      tab <= Cur(m) && t.unique && HeadKnown(m, tab, head) && (Current(h, m, t, tab, head) && !m.resize.Scan? ==>
          Ahead(h, m, t, Some(i)) && life != Free)
      && (life == Valid ==> Cell(m, i).life == Valid)
    case ReadNext(t, tab, head, i) =>
      tab <= Cur(m) && t.unique && HeadKnown(m, tab, head)
      && (Current(h, m, t, tab, head) && !m.resize.Scan? ==> Ahead(h, m, t, Some(i)) && TextOf(m, i) != t)
    case NotFound(t, tab, head) => tab <= Cur(m) && HeadKnown(m, tab, head) && Searched(h, m, t, tab, head)
    case WantLock(t, tab, head) => tab <= Cur(m) && HeadKnown(m, tab, head) && Searched(h, m, t, tab, head)
    case Resizing(t, tab, head) => tab <= Cur(m) && HeadKnown(m, tab, head) && Searched(h, m, t, tab, head)
    case CheckTable(t, tab, head) => tab <= Cur(m) && HeadKnown(m, tab, head) && Searched(h, m, t, tab, head)
    case CheckHead(t, tab, head) => tab <= Cur(m) && HeadKnown(m, tab, head) && Searched(h, m, t, tab, head)
    case Reserve(t, tab, head) => tab <= Cur(m) && HeadKnown(m, tab, head) && Searched(h, m, t, tab, head)
    case Raise(t, tab, head, i) =>
      tab <= Cur(m) && HeadKnown(m, tab, head) && Searched(h, m, t, tab, head) && Holding(m, i) && Cell(m, i).text ==
          None && i <= m.highest
    case Fill(t, tab, head, i) =>
      tab <= Cur(m) && HeadKnown(m, tab, head) && Searched(h, m, t, tab, head) && Holding(m, i) && Cell(m, i).text ==
          None && i < m.highest
    case ReadLink(t, tab, head, i) =>
      tab <= Cur(m) && t.unique && HeadKnown(m, tab, head) && Searched(h, m, t, tab, head) && Holding(m, i)
          && Filled(m, t, i)
    case WriteLink(t, tab, head, i, n) =>
      tab <= Cur(m) && t.unique && HeadKnown(m, tab, head) && Searched(h, m, t, tab, head) && Holding(m, i)
          && Filled(m, t, i)
      && (Current(h, m, t, tab, head) ==> n == head)
    case Guard(t, tab, head, i) =>
      tab <= Cur(m) && t.unique && HeadKnown(m, tab, head) && Searched(h, m, t, tab, head) && Holding(m, i)
          && Filled(m, t, i)
      && (Current(h, m, t, tab, head) ==> Cell(m, i).next == head)
    case Cas(t, tab, head, i) =>
      tab <= Cur(m) && t.unique && HeadKnown(m, tab, head) && Holding(m, i) && Filled(m, t, i)
      && (Current(h, m, t, tab, head) ==> Absent(m, t) && Cell(m, i).next == head)
    case Recheck(t, tab, head, i) =>
      tab <= Cur(m) && t.unique && Cell(m, i).life == Reserved && 1 <= i && Filled(m, t, i)
          && (i in TableAt(m, Cur(m)).order <==> tab == Cur(m))
    case Undo(t, i) => Holding(m, i)
    case Release(t, i) => Holding(m, i) && Cell(m, i).text == None
    case Publish(t, i) => Cell(m, i).life == Reserved && 1 <= i && Filled(m, t, i)
        && (t.unique ==> i in TableAt(m, Cur(m)).order)
    case Done(t, i) => Cell(m, i).life == Valid && Cell(m, i).text == Some(t)
  }

  /** While the array is scanned, the atoms of committed threads are still to be visited. */
  predicate Awaited(m: Mem, th: Thread) {
    m.resize.Scan? && Committed(m, th) ==> th.i >= m.resize.index && (m.resize.last ==> th.i < m.resize.upto)
  }

  predicate LockOk(m: Mem, tid: nat, th: Thread) {
    th.Resizing? <==> !m.resize.Off? && m.resize.holder == tid
  }

  ghost predicate OneOk(h: Hash, m: Mem, tid: nat, th: Thread) {
    ThreadOk(h, m, th) && Awaited(m, th) && LockOk(m, tid, th)
  }

  ghost predicate Inv(h: Hash, s: State) {
    && MemOk(h, s.mem)
    && (forall tid :: tid in s.threads ==> OneOk(h, s.mem, tid, s.threads[tid]))
    && (forall a, b :: a in s.threads && b in s.threads && a != b ==> Apart(s.threads[a], s.threads[b]))
  }

  predicate Apart(a: Thread, b: Thread) {
    Owned(a).None? || Owned(a) != Owned(b)
  }

  // ----- steps that only touch an atom nobody else can reach through the current table -----

  /** Atom `i` changes, but is neither linked in the current table nor valid, before or after. */
  predicate PrivateChange(m: Mem, i: nat, a: Atom) {
    && i !in TableAt(m, Cur(m)).order && Cell(m, i).life != Valid && a.life != Valid && 1 <= i
    && (a.life == Free ==> a.text == None)
  }

  /** The atoms linked in `tbl` keep their text and stay in use. */
  ghost predicate KeepsText(m: Mem, m1: Mem, tbl: Table) {
    forall x :: x in tbl.order ==>
      Cell(m1, x).text == Cell(m, x).text && (Cell(m1, x).life == Free <==> Cell(m, x).life == Free)
  }

  ghost predicate KeepsNext(m: Mem, m1: Mem, tbl: Table) {
    forall x :: x in tbl.order ==> Cell(m1, x).next == Cell(m, x).next
  }

  lemma FrameTable(h: Hash, m: Mem, m1: Mem, tbl: Table)
    requires TableOk(h, m, tbl) && KeepsText(m, m1, tbl)
    ensures TableOk(h, m1, tbl)
  {
    hide Bucket, OrderOk;
    forall v | 0 <= v < |tbl.heads| ensures HeadFits(h, m1, tbl, v) { assert HeadFits(h, m, tbl, v); }
    forall x | x in tbl.order ensures BelowHead(h, m1, tbl, x) {
      assert BelowHead(h, m, tbl, x);
      assert TextOf(m1, x) == TextOf(m, x);
    }
  }

  lemma FrameDistinct(m: Mem, m1: Mem, tbl: Table)
    requires Distinct(m, tbl) && KeepsText(m, m1, tbl)
    ensures Distinct(m1, tbl)
  {
    assert forall x :: x in tbl.order ==> TextOf(m1, x) == TextOf(m, x);
  }

  lemma FrameNext(h: Hash, m: Mem, m1: Mem, tbl: Table, i: nat)
    requires i in tbl.order && NextOk(h, m, tbl, i) && KeepsText(m, m1, tbl) && KeepsNext(m, m1, tbl)
    ensures NextOk(h, m1, tbl, i)
  {
    hide Bucket, Cell;
    assert forall x :: x in tbl.order ==> TextOf(m1, x) == TextOf(m, x);
    assert forall x :: x in tbl.order ==> BucketOf(h, m1, tbl, x) == BucketOf(h, m, tbl, x);
    hide BucketOf, TextOf;
  }

  lemma FrameChains(h: Hash, m: Mem, m1: Mem, tbl: Table)
    requires ChainsOk(h, m, tbl) && KeepsText(m, m1, tbl) && KeepsNext(m, m1, tbl)
    ensures ChainsOk(h, m1, tbl)
  {
    hide NextOk, KeepsText, KeepsNext;
    forall i | i in tbl.order ensures NextOk(h, m1, tbl, i) { FrameNext(h, m, m1, tbl, i); }
  }

  lemma PrivateTable(h: Hash, m: Mem, i: nat, a: Atom, tbl: Table)
    requires TableOk(h, m, tbl) && i !in tbl.order
    ensures TableOk(h, Put(m, i, a), tbl)
    ensures Distinct(m, tbl) ==> Distinct(Put(m, i, a), tbl)
    ensures ChainsOk(h, m, tbl) ==> ChainsOk(h, Put(m, i, a), tbl)
  {
    hide TableOk, Distinct, ChainsOk;
    var m1 := Put(m, i, a);
    FrameTable(h, m, m1, tbl);
    if Distinct(m, tbl) { FrameDistinct(m, m1, tbl); }
    if ChainsOk(h, m, tbl) { FrameChains(h, m, m1, tbl); }
  }

  lemma PrivateMem(h: Hash, m: Mem, i: nat, a: Atom)
    requires MemOk(h, m) && PrivateChange(m, i, a)
    ensures MemOk(h, Put(m, i, a))
  {
    hide TableOk, Distinct, ChainsOk, AtomOk;
    var m1 := Put(m, i, a);
    PrivateTable(h, m, i, a, m.tables[Cur(m)]);
    forall x | x in m1.atoms ensures AtomOk(m1, x) {
      if x == i { PrivateAtom(m, i, a); } else { OtherAtom(m, i, a, x); }
    }
    if m.resize.Scan? {
      assert i !in m.building.order;
      PrivateTable(h, m, i, a, m.building);
    }
  }

  lemma PrivateAtom(m: Mem, i: nat, a: Atom)
    requires PrivateChange(m, i, a)
    ensures AtomOk(Put(m, i, a), i)
  {
  }

  lemma OtherAtom(m: Mem, i: nat, a: Atom, x: nat)
    requires AtomOk(m, x) && x != i
    ensures AtomOk(Put(m, i, a), x)
  {
  }

  /** Memory changed in ways that a thread which does not own atom `i` cannot notice. */
  ghost predicate SameView(h: Hash, m: Mem, m1: Mem) {
    && Cur(m1) == Cur(m) && (m.resize.Scan? ==> m1.resize.Scan?) && m.highest <= m1.highest
    && (forall tab: nat, head :: HeadKnown(m, tab, head) ==> HeadKnown(m1, tab, head))
    && (forall t, tab: nat, head :: Current(h, m1, t, tab, head) ==> Current(h, m, t, tab, head))
    && (forall t :: Absent(m, t) ==> Absent(m1, t))
    && (forall t, at :: Ahead(h, m, t, at) ==> Ahead(h, m1, t, at))
    && (forall x: nat :: x in TableAt(m1, Cur(m)).order <==> x in TableAt(m, Cur(m)).order)
    && (forall x: nat :: x in TableAt(m, Cur(m)).order ==> TextOf(m1, x) == TextOf(m, x))
    && (forall x: nat :: Cell(m, x).life == Valid ==> Cell(m1, x).life == Valid && Cell(m1, x).text == Cell(m, x).text)
  }

  /** Atoms linked in the current table keep their text, and valid ones stay so. */
  ghost predicate KeepsLinked(m: Mem, m1: Mem) {
    && |m1.tables| == |m.tables| && TableAt(m1, Cur(m)) == TableAt(m, Cur(m)) && (m.resize.Scan? ==> m1.resize.Scan?)
        && m.highest <= m1.highest
    && (forall x: nat :: x in TableAt(m, Cur(m)).order ==> Cell(m1, x).text == Cell(m, x).text)
    && (forall x: nat :: Cell(m, x).life == Valid ==> Cell(m1, x).life == Valid && Cell(m1, x).text == Cell(m, x).text)
  }

  lemma ViewKept(h: Hash, m: Mem, m1: Mem)
    requires KeepsLinked(m, m1)
    ensures SameView(h, m, m1)
  {
    hide HeadOf, Bucket, Cell;
    assert forall x: nat :: x in TableAt(m, Cur(m)).order ==> TextOf(m1, x) == TextOf(m, x);
    hide KeepsLinked, TableAt;
    forall t, at | Ahead(h, m, t, at) ensures Ahead(h, m1, t, at) {
      assert at.Some? ==> TextOf(m1, at.value) == TextOf(m, at.value);
    }
  }

  /** A thread that does not own what changed does not notice. */
  lemma FrameThread(h: Hash, m: Mem, m1: Mem, th: Thread)
    requires ThreadOk(h, m, th) && SameView(h, m, m1)
    requires Owned(th).Some? ==> Cell(m1, Owned(th).value) == Cell(m, Owned(th).value)
    requires !m.resize.Scan? ==> LinkedText(h, m, th)
    ensures ThreadOk(h, m1, th)
  {
    hide HeadOf, Bucket, HeadKnown, Current, Absent, Ahead, TableAt, TextOf, BucketOf;
    hide LinkedText;
    if th.ReadNext? && !m.resize.Scan? { ReadNextText(h, m, m1, th); }
  }

  /** Holds of every thread that keeps its place on the chain. */
  ghost predicate LinkedText(h: Hash, m: Mem, th: Thread) {
    th.ReadNext? && Ahead(h, m, th.t, Some(th.i)) ==> th.i in TableAt(m, Cur(m)).order
  }

  lemma ReadNextText(h: Hash, m: Mem, m1: Mem, th: Thread)
    requires th.ReadNext? && LinkedText(h, m, th) && SameView(h, m, m1)
    ensures Ahead(h, m, th.t, Some(th.i)) ==> TextOf(m1, th.i) == TextOf(m, th.i)
  {
    hide Ahead, TextOf;
  }

  lemma AheadLinked(h: Hash, m: Mem, th: Thread)
    ensures LinkedText(h, m, th)
  {
  }

  lemma PrivateThread(h: Hash, m: Mem, i: nat, a: Atom, th: Thread)
    requires ThreadOk(h, m, th) && PrivateChange(m, i, a) && Owned(th) != Some(i)
    ensures ThreadOk(h, Put(m, i, a), th)
  {
    var m1 := Put(m, i, a);
    assert KeepsLinked(m, m1);
    hide *;
    ViewKept(h, m, m1);
    AheadLinked(h, m, th);
    OwnedKept(m, i, a, th);
    FrameThread(h, m, m1, th);
  }

  lemma OwnedKept(m: Mem, i: nat, a: Atom, th: Thread)
    requires Owned(th) != Some(i)
    ensures Owned(th).Some? ==> Cell(Put(m, i, a), Owned(th).value) == Cell(m, Owned(th).value)
  {
  }

  lemma PrivateOthers(h: Hash, s: State, tid: nat, i: nat, a: Atom)
    requires Inv(h, s) && PrivateChange(s.mem, i, a)
    requires forall o :: o in s.threads && o != tid ==> Owned(s.threads[o]) != Some(i)
    ensures MemOk(h, Put(s.mem, i, a))
    ensures forall o :: o in s.threads && o != tid ==> OneOk(h, Put(s.mem, i, a), o, s.threads[o])
  {
    hide MemOk, ThreadOk;
    PrivateMem(h, s.mem, i, a);
    forall o | o in s.threads && o != tid ensures OneOk(h, Put(s.mem, i, a), o, s.threads[o]) {
      assert OneOk(h, s.mem, o, s.threads[o]);
      PrivateThread(h, s.mem, i, a, s.threads[o]);
    }
  }
}
