// Every step of every thread keeps the invariant of the atom table.

module AtomSteps {
  import opened AtomTable
  import opened AtomInvariant

  // ----- steps that only read -----

  /** Walking starts at the head of the bucket, with everything still ahead. */
  lemma WalkStarts(h: Hash, m: Mem, t: Text, tab: nat, head: Option<nat>)
    requires MemOk(h, m) && t.unique && tab <= Cur(m) && HeadKnown(m, tab, head)
    ensures ThreadOk(h, m, Walk(t, tab, head, HeadOf(h, TableAt(m, tab), t)))
  {
    hide ChainsOk, Distinct, AtomsOk, BuildOk, Bucket, OrderOk, LinkedOk;
    var tbl, at := TableAt(m, Cur(m)), HeadOf(h, TableAt(m, tab), t);
    BucketIs(h, tbl, tbl, t);
    if Current(h, m, t, tab, head) && !m.resize.Scan? {
      assert HeadFits(h, m, tbl, Bucket(h, tbl, t));
      forall x | x in tbl.order && TextOf(m, x) == t
          ensures at.Some? && at.value in tbl.order && tbl.order[x] <= tbl.order[at.value] {
        assert BelowHead(h, m, tbl, x);
        BucketIs(h, tbl, tbl, TextOf(m, x));
      }
    }
  }

  /** The end of the chain, or the next atom to look at. */
  lemma WalkGoes(h: Hash, m: Mem, t: Text, tab: nat, head: Option<nat>, at: Option<nat>)
    requires MemOk(h, m) && ThreadOk(h, m, Walk(t, tab, head, at))
    ensures at.None? ==> ThreadOk(h, m, NotFound(t, tab, head))
    ensures at.Some? ==> ThreadOk(h, m, Compare(t, tab, head, at.value, Cell(m, at.value).life))
  {
    hide ChainsOk, Distinct, AtomsOk, BuildOk, HeadsOk, BelowOk, OrderOk;
  }

  /** A valid atom with the right text is the answer; a reserved one is waited for. */
  lemma CompareGoes(h: Hash, m: Mem, t: Text, tab: nat, head: Option<nat>, i: nat, life: Life)
    requires ThreadOk(h, m, Compare(t, tab, head, i, life))
    ensures life == Valid && Cell(m, i).text == Some(t) ==> ThreadOk(h, m, Done(t, i))
    ensures !(life != Free && Cell(m, i).text == Some(t)) && MemOk(h, m) ==> ThreadOk(h, m, ReadNext(t, tab, head, i))
  {
    hide ChainsOk, Distinct, AtomsOk, BuildOk, HeadsOk, BelowOk, OrderOk;
    if Current(h, m, t, tab, head) && !m.resize.Scan? && MemOk(h, m) && !(life != Free && Cell(m, i).text == Some(t)) {
      assert i in TableAt(m, Cur(m)).order;
      assert IsUnique(m, i);
    }
  }

  /** Stepping over an atom with another text leaves every atom with this text ahead. */
  lemma NextGoes(h: Hash, m: Mem, t: Text, tab: nat, head: Option<nat>, i: nat)
    requires MemOk(h, m) && ThreadOk(h, m, ReadNext(t, tab, head, i))
    ensures ThreadOk(h, m, Walk(t, tab, head, Cell(m, i).next))
  {
    hide Distinct, AtomsOk, BuildOk, HeadsOk, BelowOk;
    if Current(h, m, t, tab, head) && !m.resize.Scan? {
      var tbl, n := TableAt(m, Cur(m)), Cell(m, i).next;
      assert NextOk(h, m, tbl, i);
      forall x | x in tbl.order && TextOf(m, x) == t
          ensures n.Some? && n.value in tbl.order && tbl.order[x] <= tbl.order[n.value] {
        assert x != i;
        assert BucketOf(h, m, tbl, x) == BucketOf(h, m, tbl, i);
      }
    }
  }

  lemma HeadRead(h: Hash, m: Mem, t: Text, tab: nat)
    requires MemOk(h, m) && tab <= Cur(m)
    ensures HeadKnown(m, tab, HeadOf(h, TableAt(m, tab), t))
  {
    hide ChainsOk, Distinct, AtomsOk, BuildOk, BelowOk, OrderOk;
    if tab == Cur(m) { assert HeadFits(h, m, m.tables[tab], Bucket(h, m.tables[tab], t)); }
  }

  predicate Searching(th: Thread) {
    th.Idle? || th.Redo? || th.ReadHead? || th.StartWalk? || th.Walk? || th.Compare? || th.ReadNext?
  }

  /** A thread that only reads. */
  lemma ReadStep(h: Hash, m: Mem, tid: nat, th: Thread, th1: Thread)
    requires MemOk(h, m) && OneOk(h, m, tid, th) && LookupStep(h, m, th, m, th1)
    requires !th.Reserve? && !th.Raise? && !th.Fill? && !th.WriteLink? && !th.Undo? && !th.Release? && !th.Publish?
    requires th.Cas? ==> !(th.tab < |m.tables| && HeadOf(h, m.tables[th.tab], th.t) == th.head)
    ensures OneOk(h, m, tid, th1) && (Owned(th1).Some? ==> Owned(th1) == Owned(th))
  {
    hide MemOk, ThreadOk, LookupStep, Awaited, LockOk;
    if Searching(th) { SearchStep(h, m, tid, th, th1); } else { OtherRead(h, m, tid, th, th1); }
  }

  lemma SearchStep(h: Hash, m: Mem, tid: nat, th: Thread, th1: Thread)
    requires MemOk(h, m) && OneOk(h, m, tid, th) && LookupStep(h, m, th, m, th1) && Searching(th)
    ensures OneOk(h, m, tid, th1) && Owned(th1).None?
  {
    hide MemOk, Ahead, Absent, Current, HeadOf, HeadKnown, Searched, Holding, Filled, Cell, TableAt;
    match th {
      case ReadHead(t, tab) => HeadRead(h, m, t, tab);
      case StartWalk(t, tab, head) => WalkOrNot(h, m, t, tab, head);
      case Walk(t, tab, head, at) => WalkGoes(h, m, t, tab, head, at);
      case Compare(t, tab, head, i, life) => CompareGoes(h, m, t, tab, head, i, life);
      case ReadNext(t, tab, head, i) => NextGoes(h, m, t, tab, head, i);
      case _ =>
    }
  }

  lemma OtherRead(h: Hash, m: Mem, tid: nat, th: Thread, th1: Thread)
    requires OneOk(h, m, tid, th) && LookupStep(h, m, th, m, th1) && !Searching(th)
    requires !th.Reserve? && !th.Raise? && !th.Fill? && !th.WriteLink? && !th.Undo? && !th.Release? && !th.Publish?
    requires th.Cas? ==> !(th.tab < |m.tables| && HeadOf(h, m.tables[th.tab], th.t) == th.head)
    ensures OneOk(h, m, tid, th1) && (Owned(th1).Some? ==> Owned(th1) == Owned(th))
  {
    hide MemOk, Ahead, Absent, Current, HeadOf, HeadKnown, Searched, Holding, Filled, Cell, TableAt;
    if th.ReadLink? {
      LinkRead(h, m, th.t, th.tab, th.head, th.i);
    } else if th.Guard? {
      GuardGoes(h, m, th.t, th.tab, th.head, th.i);
    } else if th.Recheck? {
      RecheckGoes(h, m, th.t, th.tab, th.head, th.i);
    }
  }

  lemma WalkOrNot(h: Hash, m: Mem, t: Text, tab: nat, head: Option<nat>)
    requires MemOk(h, m) && ThreadOk(h, m, StartWalk(t, tab, head))
    ensures t.unique ==> ThreadOk(h, m, Walk(t, tab, head, HeadOf(h, TableAt(m, tab), t)))
    ensures !t.unique ==> ThreadOk(h, m, NotFound(t, tab, head))
  {
    hide MemOk;
    if t.unique { WalkStarts(h, m, t, tab, head); }
  }

  lemma LinkRead(h: Hash, m: Mem, t: Text, tab: nat, head: Option<nat>, i: nat)
    requires ThreadOk(h, m, ReadLink(t, tab, head, i))
    ensures ThreadOk(h, m, WriteLink(t, tab, head, i, HeadOf(h, TableAt(m, tab), t)))
  {
    hide Absent, HeadOf;
  }

  /** With no resize going on, what the search found still holds and will be waited for. */
  lemma GuardGoes(h: Hash, m: Mem, t: Text, tab: nat, head: Option<nat>, i: nat)
    requires ThreadOk(h, m, Guard(t, tab, head, i))
    ensures ThreadOk(h, m, Undo(t, i))
    ensures !Rehashing(m) ==> ThreadOk(h, m, Cas(t, tab, head, i)) && Awaited(m, Cas(t, tab, head, i))
  {
    hide Absent, HeadOf, Current;
  }

  lemma RecheckGoes(h: Hash, m: Mem, t: Text, tab: nat, head: Option<nat>, i: nat)
    requires ThreadOk(h, m, Recheck(t, tab, head, i)) && Awaited(m, Recheck(t, tab, head, i))
    ensures tab == Cur(m) ==> ThreadOk(h, m, Publish(t, i)) && Awaited(m, Publish(t, i))
    ensures tab != Cur(m) ==> ThreadOk(h, m, Undo(t, i))
  {
  }

  // ----- publishing and raising the bound -----

  lemma PublishMem(h: Hash, m: Mem, t: Text, i: nat)
    requires MemOk(h, m) && ThreadOk(h, m, Publish(t, i)) && Awaited(m, Publish(t, i))
    ensures MemOk(h, Put(m, i, Cell(m, i).(life := Valid)))
  {
    hide TableOk, Distinct, ChainsOk, AtomOk;
    var m1, tbl := Put(m, i, Cell(m, i).(life := Valid)), m.tables[Cur(m)];
    FrameTable(h, m, m1, tbl);
    FrameDistinct(m, m1, tbl);
    if ChainsOk(h, m, tbl) { FrameChains(h, m, m1, tbl); }
    forall x | x in m1.atoms ensures AtomOk(m1, x) {
      if x == i { PublishedAtom(h, m, t, i); } else { OtherAtom(m, i, m1.atoms[i], x); }
    }
    if m.resize.Scan? {
      FrameTable(h, m, m1, m.building);
      FrameChains(h, m, m1, m.building);
    }
  }

  lemma PublishedAtom(h: Hash, m: Mem, t: Text, i: nat)
    requires ThreadOk(h, m, Publish(t, i))
    ensures AtomOk(Put(m, i, Cell(m, i).(life := Valid)), i)
  {
  }

  lemma PublishThread(h: Hash, m: Mem, i: nat, th: Thread)
    requires ThreadOk(h, m, th) && Owned(th) != Some(i) && Cell(m, i).life == Reserved
    ensures ThreadOk(h, Put(m, i, Cell(m, i).(life := Valid)), th)
  {
    var m1 := Put(m, i, Cell(m, i).(life := Valid));
    assert KeepsLinked(m, m1);
    hide *;
    ViewKept(h, m, m1);
    AheadLinked(h, m, th);
    OwnedKept(m, i, Cell(m, i).(life := Valid), th);
    FrameThread(h, m, m1, th);
  }

  lemma RaiseMem(h: Hash, m: Mem, hi: nat)
    requires MemOk(h, m) && m.highest <= hi
    ensures MemOk(h, m.(highest := hi))
  {
    hide TableOk, Distinct, ChainsOk;
    var m1, tbl := m.(highest := hi), m.tables[Cur(m)];
    FrameTable(h, m, m1, tbl);
    FrameDistinct(m, m1, tbl);
    if ChainsOk(h, m, tbl) { FrameChains(h, m, m1, tbl); }
    forall x | x in m1.atoms ensures AtomOk(m1, x) { assert AtomOk(m, x); }
    if m.resize.Scan? {
      FrameTable(h, m, m1, m.building);
      FrameChains(h, m, m1, m.building);
    }
  }

  lemma RaiseThread(h: Hash, m: Mem, hi: nat, th: Thread)
    requires ThreadOk(h, m, th) && m.highest <= hi
    ensures ThreadOk(h, m.(highest := hi), th)
  {
    var m1 := m.(highest := hi);
    assert KeepsLinked(m, m1);
    assert forall x: nat :: Cell(m1, x) == Cell(m, x);
    hide *;
    ViewKept(h, m, m1);
    AheadLinked(h, m, th);
    FrameThread(h, m, m1, th);
  }

  // ----- linking an atom with compare-and-swap -----

  /** Another table than the current one: nobody depends on it. */
  lemma OldTableMem(h: Hash, m: Mem, tab: nat, tbl: Table)
    requires MemOk(h, m) && tab < Cur(m)
    ensures MemOk(h, m.(tables := m.tables[tab := tbl]))
  {
    hide TableOk, Distinct, ChainsOk;
    var m1, cur := m.(tables := m.tables[tab := tbl]), m.tables[Cur(m)];
    FrameTable(h, m, m1, cur);
    FrameDistinct(m, m1, cur);
    if ChainsOk(h, m, cur) { FrameChains(h, m, m1, cur); }
    forall x | x in m1.atoms ensures AtomOk(m1, x) { assert AtomOk(m, x); }
    if m.resize.Scan? {
      FrameTable(h, m, m1, m.building);
      FrameChains(h, m, m1, m.building);
    }
  }

  lemma OldTableThread(h: Hash, m: Mem, tab: nat, tbl: Table, th: Thread)
    requires ThreadOk(h, m, th) && tab < Cur(m)
    ensures ThreadOk(h, m.(tables := m.tables[tab := tbl]), th)
  {
    var m1 := m.(tables := m.tables[tab := tbl]);
    assert KeepsLinked(m, m1);
    assert forall x: nat :: Cell(m1, x) == Cell(m, x);
    hide *;
    ViewKept(h, m, m1);
    AheadLinked(h, m, th);
    FrameThread(h, m, m1, th);
  }

  /** Linking changes the head of one bucket and nothing else. */
  lemma LinkIs(h: Hash, tbl: Table, t: Text, i: nat)
    requires |tbl.heads| > 0
    ensures var tbl1, v := Link(h, tbl, t, i), Bucket(h, tbl, t);
            && |tbl1.heads| == |tbl.heads| && v < |tbl.heads| && tbl1.heads[v] == Some(i)
            && (forall u :: 0 <= u < |tbl.heads| && u != v ==> tbl1.heads[u] == tbl.heads[u])
            && tbl1.order == tbl.order[i := |tbl.order|]
  {
  }

  /** Buckets depend on the size of the table only. */
  lemma BucketIs(h: Hash, tbl: Table, tbl1: Table, t: Text)
    requires |tbl1.heads| == |tbl.heads| > 0
    ensures Bucket(h, tbl1, t) == Bucket(h, tbl, t) < |tbl.heads|
    ensures HeadOf(h, tbl, t) == tbl.heads[Bucket(h, tbl, t)] && HeadOf(h, tbl1, t) == tbl1.heads[Bucket(h, tbl, t)]
  {
  }

  /** Linking a new atom at the head of its bucket keeps a table in order. */
  lemma LinkTable(h: Hash, m: Mem, tbl: Table, t: Text, i: nat)
    requires TableOk(h, m, tbl) && i !in tbl.order && Cell(m, i).life != Free && Cell(m, i).text == Some(t) && t.unique
    ensures TableOk(h, m, Link(h, tbl, t, i))
  {
    hide OrderOk, HeadFits, BelowHead, Link, Bucket;
    var tbl1 := Link(h, tbl, t, i);
    LinkIs(h, tbl, t, i);
    forall u | 0 <= u < |tbl1.heads| ensures HeadFits(h, m, tbl1, u) {
      assert HeadFits(h, m, tbl, u);
      LinkFits(h, m, tbl, t, i, u);
    }
    forall x | x in tbl1.order ensures BelowHead(h, m, tbl1, x) {
      if x != i { assert BelowHead(h, m, tbl, x); }
      LinkBelow(h, m, tbl, t, i, x);
    }
    LinkOrder(h, tbl, t, i);
  }

  lemma LinkFits(h: Hash, m: Mem, tbl: Table, t: Text, i: nat, u: nat)
    requires |tbl.heads| > 0 && u < |tbl.heads| && HeadFits(h, m, tbl, u) && Cell(m, i).text == Some(t)
    ensures u < |Link(h, tbl, t, i).heads| && HeadFits(h, m, Link(h, tbl, t, i), u)
  {
    hide Bucket, Link;
    LinkIs(h, tbl, t, i);
    BucketIs(h, tbl, Link(h, tbl, t, i), t);
    if tbl.heads[u].Some? { BucketIs(h, tbl, Link(h, tbl, t, i), TextOf(m, tbl.heads[u].value)); }
  }

  lemma LinkBelow(h: Hash, m: Mem, tbl: Table, t: Text, i: nat, x: nat)
    requires |tbl.heads| > 0 && OrderOk(tbl) && i !in tbl.order && Cell(m, i).text == Some(t)
    requires x == i || BelowHead(h, m, tbl, x)
    ensures BelowHead(h, m, Link(h, tbl, t, i), x)
  {
    hide Bucket, Link, HeadOf;
    LinkIs(h, tbl, t, i);
    BucketIs(h, tbl, Link(h, tbl, t, i), TextOf(m, x));
    BucketIs(h, tbl, Link(h, tbl, t, i), t);
  }

  lemma LinkOrder(h: Hash, tbl: Table, t: Text, i: nat)
    requires |tbl.heads| > 0 && OrderOk(tbl) && i !in tbl.order
    ensures OrderOk(Link(h, tbl, t, i))
  {
    hide Bucket, Link;
    LinkIs(h, tbl, t, i);
    var o1 := Link(h, tbl, t, i).order;
    assert |o1| == |tbl.order| + 1;
  }

  lemma LinkChains(h: Hash, m: Mem, tbl: Table, t: Text, i: nat)
    requires TableOk(h, m, tbl) && ChainsOk(h, m, tbl) && i !in tbl.order && Cell(m, i).text == Some(t)
    requires Cell(m, i).next == HeadOf(h, tbl, t)
    ensures ChainsOk(h, m, Link(h, tbl, t, i))
  {
    hide NextOk, Bucket, Link, HeadsOk, BelowOk, LinkedOk;
    var tbl1 := Link(h, tbl, t, i);
    LinkIs(h, tbl, t, i);
    forall x | x in tbl1.order ensures NextOk(h, m, tbl1, x) {
      if x == i { LinkNewNext(h, m, tbl, t, i); } else { LinkOldNext(h, m, tbl, t, i, x); }
    }
  }

  lemma LinkNewNext(h: Hash, m: Mem, tbl: Table, t: Text, i: nat)
    requires TableOk(h, m, tbl) && i !in tbl.order && Cell(m, i).text == Some(t) && Cell(m, i).next == HeadOf(h, tbl, t)
    ensures i in Link(h, tbl, t, i).order && NextOk(h, m, Link(h, tbl, t, i), i)
  {
    hide LinkedOk, Bucket, Link, HeadOf, BelowOk, BelowHead;
    var tbl1, n := Link(h, tbl, t, i), Cell(m, i).next;
    LinkIs(h, tbl, t, i);
    BucketIs(h, tbl, tbl1, t);
    assert HeadFits(h, m, tbl, Bucket(h, tbl, t));
    hide HeadsOk;
    if n.Some? { BucketIs(h, tbl, tbl1, TextOf(m, n.value)); }
    forall x | x in tbl1.order && BucketOf(h, m, tbl1, x) == BucketOf(h, m, tbl1, i) && tbl1.order[x] < tbl1.order[i]
      ensures n.Some? && n.value in tbl1.order && tbl1.order[x] <= tbl1.order[n.value]
    {
      BucketIs(h, tbl, tbl1, TextOf(m, x));
      BelowItsHead(h, m, tbl, x);
    }
  }

  lemma BelowItsHead(h: Hash, m: Mem, tbl: Table, x: nat)
    requires TableOk(h, m, tbl) && x in tbl.order
    ensures var head := tbl.heads[BucketOf(h, m, tbl, x)];
            head.Some? && head.value in tbl.order && tbl.order[x] <= tbl.order[head.value]
  {
    hide HeadsOk, LinkedOk, OrderOk;
    assert BelowHead(h, m, tbl, x);
  }

  lemma LinkOldNext(h: Hash, m: Mem, tbl: Table, t: Text, i: nat, x: nat)
    requires |tbl.heads| > 0 && OrderOk(tbl) && i !in tbl.order && x in tbl.order && NextOk(h, m, tbl, x)
    ensures x in Link(h, tbl, t, i).order && NextOk(h, m, Link(h, tbl, t, i), x)
  {
    hide Bucket, Link;
    var tbl1, n := Link(h, tbl, t, i), Cell(m, x).next;
    LinkIs(h, tbl, t, i);
    BucketIs(h, tbl, tbl1, TextOf(m, x));
    if n.Some? { BucketIs(h, tbl, tbl1, TextOf(m, n.value)); }
    forall y | y in tbl1.order && BucketOf(h, m, tbl1, y) == BucketOf(h, m, tbl1, x) && tbl1.order[y] < tbl1.order[x]
      ensures n.Some? && n.value in tbl1.order && tbl1.order[y] <= tbl1.order[n.value]
    {
      BucketIs(h, tbl, tbl1, TextOf(m, y));
      assert y in tbl.order && BucketOf(h, m, tbl, y) == BucketOf(h, m, tbl, x);
    }
  }

  lemma LinkDistinct(h: Hash, m: Mem, tbl: Table, t: Text, i: nat)
    requires |tbl.heads| > 0 && Distinct(m, tbl) && i !in tbl.order && Cell(m, i).text == Some(t)
    requires forall x :: x in tbl.order ==> TextOf(m, x) != t
    ensures Distinct(m, Link(h, tbl, t, i))
  {
    hide Link, Bucket;
    LinkIs(h, tbl, t, i);
  }

  function Pushed(h: Hash, m: Mem, t: Text, i: nat): Mem
    requires |m.tables| > 0
  {
    m.(tables := m.tables[Cur(m) := Link(h, m.tables[Cur(m)], t, i)])
  }

  lemma PushMem(h: Hash, m: Mem, t: Text, head: Option<nat>, i: nat)
    requires MemOk(h, m) && ThreadOk(h, m, Cas(t, Cur(m), head, i)) && HeadOf(h, m.tables[Cur(m)], t) == head
    ensures MemOk(h, Pushed(h, m, t, i))
    ensures ThreadOk(h, Pushed(h, m, t, i), Recheck(t, Cur(m), head, i))
  {
    hide TableOk, Distinct, ChainsOk, Link, Bucket, AtomOk, ThreadOk, Pushed;
    var m1, tbl := Pushed(h, m, t, i), m.tables[Cur(m)];
    var tbl1 := Link(h, tbl, t, i);
    HasBuckets(h, m, tbl);
    PushUses(h, m, t, head, i);
    LinkTable(h, m, tbl, t, i);
    FrameTable(h, m, m1, tbl1);
    LinkDistinct(h, m, tbl, t, i);
    FrameDistinct(m, m1, tbl1);
    if ChainsOk(h, m, tbl) {
      LinkChains(h, m, tbl, t, i);
      FrameChains(h, m, m1, tbl1);
    }
    LinkIs(h, tbl, t, i);
    forall x | x in m1.atoms ensures AtomOk(m1, x) { PushAtom(h, m, t, i, x); }
    if m.resize.Scan? {
      FrameTable(h, m, m1, m.building);
      FrameChains(h, m, m1, m.building);
    }
  }

  lemma PushUses(h: Hash, m: Mem, t: Text, head: Option<nat>, i: nat)
    requires |m.tables| > 0 && |m.tables[Cur(m)].heads| > 0
    requires ThreadOk(h, m, Cas(t, Cur(m), head, i)) && HeadOf(h, m.tables[Cur(m)], t) == head
    ensures t.unique && Holding(m, i) && Filled(m, t, i) && Absent(m, t) && Cell(m, i).next == head
    ensures ThreadOk(h, Pushed(h, m, t, i), Recheck(t, Cur(m), head, i))
    ensures var m1 := Pushed(h, m, t, i);
            && |m1.tables| == |m.tables| && Cur(m1) == Cur(m) && m1.tables[Cur(m)] == Link(h, m.tables[Cur(m)], t, i)
            && m1.atoms == m.atoms && m1.highest == m.highest && m1.resize == m.resize && m1.building == m.building
  {
    hide Bucket;
  }

  lemma PushAtom(h: Hash, m: Mem, t: Text, i: nat, x: nat)
    requires |m.tables| > 0 && AtomOk(m, x)
    ensures AtomOk(Pushed(h, m, t, i), x)
  {
    hide Bucket;
  }

  lemma HasBuckets(h: Hash, m: Mem, tbl: Table)
    requires TableOk(h, m, tbl)
    ensures |tbl.heads| > 0
  {
  }

  /** What a pushed atom changes for a thread that has read the table: its head is out of date, or the
      atom belongs to another bucket. */
  lemma PushCurrent(h: Hash, m: Mem, t: Text, i: nat, t1: Text, tab: nat, head: Option<nat>)
    requires |m.tables| > 0 && |m.tables[Cur(m)].heads| > 0 && i !in m.tables[Cur(m)].order
             && HeadKnown(m, tab, head) && t1.unique
    requires Current(h, Pushed(h, m, t, i), t1, tab, head)
    ensures Current(h, m, t1, tab, head) && t1 != t
  {
    hide Bucket, Link;
    var tbl := m.tables[Cur(m)];
    LinkIs(h, tbl, t, i);
    BucketIs(h, tbl, Link(h, tbl, t, i), t1);
  }

  lemma PushKeeps(h: Hash, m: Mem, t: Text, i: nat)
    requires |m.tables| > 0 && |m.tables[Cur(m)].heads| > 0 && i !in m.tables[Cur(m)].order && Cell(m, i).text ==
             Some(t)
    ensures var m1 := Pushed(h, m, t, i);
            && Cur(m1) == Cur(m) && TableAt(m1, Cur(m)) == Link(h, m.tables[Cur(m)], t, i)
            && (forall t1: Text :: t1 != t && Absent(m, t1) ==> Absent(m1, t1))
            && (forall x :: Cell(m1, x) == Cell(m, x))
  {
    var m1 := Pushed(h, m, t, i);
    assert forall x :: TextOf(m1, x) == TextOf(m, x);
    assert TextOf(m, i) == t;
  }

  lemma PushAhead(h: Hash, m: Mem, t: Text, i: nat, t1: Text, at: Option<nat>)
    requires |m.tables| > 0 && |m.tables[Cur(m)].heads| > 0 && i !in m.tables[Cur(m)].order && Cell(m, i).text ==
             Some(t)
    requires Ahead(h, m, t1, at) && t1 != t
    ensures Ahead(h, Pushed(h, m, t, i), t1, at)
  {
    PushKeeps(h, m, t, i);
    var m1 := Pushed(h, m, t, i);
    assert forall x :: TextOf(m1, x) == TextOf(m, x);
    assert TextOf(m, i) == t;
  }

  /** What a pushed atom leaves as it was for threads looking for something else. */
  ghost predicate PushView(h: Hash, m: Mem, m1: Mem, t: Text, i: nat) {
    && Cur(m1) == Cur(m) && m1.resize == m.resize && m1.highest == m.highest
    && (forall tab: nat, head :: HeadKnown(m, tab, head) ==> HeadKnown(m1, tab, head))
    && (forall t1: Text, tab: nat, head :: HeadKnown(m, tab, head) && t1.unique && Current(h, m1, t1, tab, head) ==>
        Current(h, m, t1, tab, head) && t1 != t)
    && (forall t1 :: t1 != t && Absent(m, t1) ==> Absent(m1, t1))
    && (forall t1, at :: t1 != t && Ahead(h, m, t1, at) ==> Ahead(h, m1, t1, at))
    && (forall x: nat :: x != i && Holding(m, x) ==> Holding(m1, x))
    && (forall x: nat, t1 :: Filled(m, t1, x) ==> Filled(m1, t1, x))
    && (forall x: nat :: Cell(m1, x) == Cell(m, x) && TextOf(m1, x) == TextOf(m, x))
    && (forall x: nat :: x in TableAt(m1, Cur(m)).order <==> x == i || x in TableAt(m, Cur(m)).order)
  }

  lemma PushSeen(h: Hash, m: Mem, t: Text, i: nat)
    requires |m.tables| > 0 && |m.tables[Cur(m)].heads| > 0 && i !in m.tables[Cur(m)].order && Cell(m, i).text ==
             Some(t)
    ensures PushView(h, m, Pushed(h, m, t, i), t, i)
  {
    hide Absent, Ahead, Current, Link, Bucket;
    var m1 := Pushed(h, m, t, i);
    PushKeeps(h, m, t, i);
    PushOrder(h, m.tables[Cur(m)], t, i);
    hide Pushed;
    forall t1: Text, tab: nat, head | HeadKnown(m, tab, head) && t1.unique && Current(h, m1, t1, tab, head)
        ensures Current(h, m, t1, tab, head) && t1 != t {
      PushCurrent(h, m, t, i, t1, tab, head);
    }
    forall t1, at | t1 != t && Ahead(h, m, t1, at) ensures Ahead(h, m1, t1, at) { PushAhead(h, m, t, i, t1, at); }
  }

  lemma PushThread(h: Hash, m: Mem, t: Text, i: nat, th: Thread)
    requires |m.tables| > 0 && |m.tables[Cur(m)].heads| > 0 && i !in m.tables[Cur(m)].order && Cell(m, i).text ==
             Some(t)
    requires ThreadOk(h, m, th) && Owned(th) != Some(i)
    ensures ThreadOk(h, Pushed(h, m, t, i), th)
  {
    hide *;
    PushSeen(h, m, t, i);
    UnseenThread(h, m, Pushed(h, m, t, i), t, i, th);
  }

  lemma UnseenThread(h: Hash, m: Mem, m1: Mem, t: Text, i: nat, th: Thread)
    requires PushView(h, m, m1, t, i) && ThreadOk(h, m, th) && Owned(th) != Some(i)
    ensures ThreadOk(h, m1, th)
  {
    hide Absent, Ahead, Current, HeadKnown, Holding, Filled, TableAt, Cell, TextOf, Cur;
  }

  lemma PushOrder(h: Hash, tbl: Table, t: Text, i: nat)
    requires |tbl.heads| > 0
    ensures forall x :: x in Link(h, tbl, t, i).order <==> x == i || x in tbl.order
  {
  }
}
