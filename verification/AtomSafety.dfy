// The atom table is safe in every run.

module AtomSafety {
  import opened AtomTable
  import opened AtomInvariant
  import opened AtomSteps

  // ----- resizing -----

  lemma OutsideScan(h: Hash, m: Mem, r: Resize)
    requires MemOk(h, m) && !m.resize.Scan? && !r.Scan?
    ensures MemOk(h, m.(resize := r))
  {
    hide TableOk, Distinct, ChainsOk;
    var m1, cur := m.(resize := r), m.tables[Cur(m)];
    FrameTable(h, m, m1, cur);
    FrameDistinct(m, m1, cur);
    FrameChains(h, m, m1, cur);
    forall x | x in m1.atoms ensures AtomOk(m1, x) { assert AtomOk(m, x); }
  }

  /** A thread does not depend on the resize but for whether the array is being scanned. */
  lemma ResizeThread(h: Hash, m: Mem, r: Resize, b: Table, th: Thread)
    requires ThreadOk(h, m, th) && (m.resize.Scan? ==> r.Scan?)
    ensures ThreadOk(h, m.(resize := r, building := b), th)
  {
    var m1 := m.(resize := r, building := b);
    assert KeepsLinked(m, m1);
    assert forall x: nat :: Cell(m1, x) == Cell(m, x);
    hide *;
    ViewKept(h, m, m1);
    AheadLinked(h, m, th);
    FrameThread(h, m, m1, th);
  }

  lemma EmptyOk(h: Hash, m: Mem, n: nat)
    requires n > 0
    ensures TableOk(h, m, Empty(n)) && ChainsOk(h, m, Empty(n))
  {
  }

  lemma ScanStarts(h: Hash, m: Mem, tid: nat)
    requires MemOk(h, m) && m.resize == Locked(tid)
    ensures MemOk(h, m.(resize := Scan(tid, 1, 1, 0, false), building := Empty(2 * |TableAt(m, Cur(m)).heads|)))
  {
    hide TableOk, Distinct, ChainsOk, Empty;
    var cur := m.tables[Cur(m)];
    HasBuckets(h, m, cur);
    var m1 := m.(resize := Scan(tid, 1, 1, 0, false), building := Empty(2 * |cur.heads|));
    FrameTable(h, m, m1, cur);
    FrameDistinct(m, m1, cur);
    EmptyOk(h, m1, 2 * |cur.heads|);
    forall x | x in m1.atoms ensures AtomOk(m1, x) { assert AtomOk(m, x); }
  }

  lemma StartAwaited(h: Hash, m: Mem, tid: nat, b: Table, th: Thread)
    requires ThreadOk(h, m, th)
    ensures Awaited(m.(resize := Scan(tid, 1, 1, 0, false), building := b), th)
  {
  }

  /** Passing an atom that is free or need not be linked. */
  lemma ScanSkips(h: Hash, m: Mem)
    requires MemOk(h, m) && m.resize.Scan?
    requires var a := Cell(m, m.resize.index); a.life != Reserved && !(a.life == Valid && IsUnique(m, m.resize.index))
    ensures MemOk(h, m.(resize := m.resize.(index := m.resize.index + 1)))
  {
    hide TableOk, Distinct, ChainsOk;
    var cur, m1 := m.tables[Cur(m)], m.(resize := m.resize.(index := m.resize.index + 1));
    FrameTable(h, m, m1, cur);
    FrameDistinct(m, m1, cur);
    FrameTable(h, m, m1, m.building);
    FrameChains(h, m, m1, m.building);
    forall x | x in m1.atoms ensures AtomOk(m1, x) { assert AtomOk(m, x); }
  }

  /** A committed thread's atom is reserved, so the scan has not passed it. */
  lemma PassAwaited(h: Hash, m: Mem, th: Thread)
    requires ThreadOk(h, m, th) && Awaited(m, th) && m.resize.Scan? && Cell(m, m.resize.index).life != Reserved
    ensures Awaited(m.(resize := m.resize.(index := m.resize.index + 1)), th)
  {
  }

  function Visited(h: Hash, m: Mem): Mem
    requires m.resize.Scan?
  {
    var i, t := m.resize.index, TextOf(m, m.resize.index);
    Put(m.(resize := m.resize.(index := i + 1)), i,
        Cell(m, i).(next := HeadOf(h, m.building, t))).(building := Link(h, m.building, t, i))
  }

  lemma ScanLinks(h: Hash, m: Mem)
    requires MemOk(h, m) && m.resize.Scan? && Cell(m, m.resize.index).life == Valid && IsUnique(m, m.resize.index)
    ensures MemOk(h, Visited(h, m))
  {
    hide TableOk, Distinct, ChainsOk, Link, HeadOf, AtomOk;
    var i, t, cur := m.resize.index, TextOf(m, m.resize.index), m.tables[Cur(m)];
    var m2, m1 := Put(m, i, Cell(m, i).(next := HeadOf(h, m.building, t))), Visited(h, m);
    FrameTable(h, m, m1, cur);
    FrameDistinct(m, m1, cur);
    FrameTable(h, m, m2, m.building);
    FrameChains(h, m, m2, m.building);
    HasBuckets(h, m, m.building);
    LinkTable(h, m2, m.building, t, i);
    LinkChains(h, m2, m.building, t, i);
    FrameTable(h, m2, m1, m1.building);
    FrameChains(h, m2, m1, m1.building);
    LinkIs(h, m.building, t, i);
    forall x | x in m1.atoms ensures AtomOk(m1, x) { VisitedAtom(h, m, x); }
    VisitedBuild(h, m);
  }

  lemma VisitedAtom(h: Hash, m: Mem, x: nat)
    requires AtomsOk(m) && m.resize.Scan? && Cell(m, m.resize.index).life == Valid && x in Visited(h, m).atoms
    ensures AtomOk(Visited(h, m), x)
  {
    hide Link, HeadOf;
    assert AtomOk(m, x);
  }

  lemma VisitedBuild(h: Hash, m: Mem)
    requires BuildOk(h, m) && m.resize.Scan? && Cell(m, m.resize.index).life == Valid && IsUnique(m, m.resize.index)
    requires TableOk(h, Visited(h, m), Visited(h, m).building) && ChainsOk(h, Visited(h, m), Visited(h, m).building)
    requires |m.building.heads| > 0
    ensures BuildOk(h, Visited(h, m))
  {
    hide TableOk, ChainsOk, Link, HeadOf;
    LinkIs(h, m.building, TextOf(m, m.resize.index), m.resize.index);
    var m1 := Visited(h, m);
    forall i | i in m1.building.order ensures i < m1.resize.index && Cell(m1, i).life == Valid {
      if i != m.resize.index { assert i in m.building.order; }
    }
    forall i | i in m1.atoms && Cell(m1, i).life == Valid && IsUnique(m1, i)
      ensures (i < m1.resize.index ==> i in m1.building.order) && (m1.resize.last ==> i < m1.resize.upto)
    {
      assert Cell(m, i).life == Valid && IsUnique(m, i) && i in m.atoms;
    }
    hide Cell, IsUnique;
  }

  lemma VisitKeeps(h: Hash, m: Mem)
    requires m.resize.Scan?
    ensures KeepsLinked(m, Visited(h, m)) && forall x: nat :: x != m.resize.index ==>
              Cell(Visited(h, m), x) == Cell(m, x)
  {
    hide HeadOf, Bucket, Link;
  }

  lemma VisitThread(h: Hash, m: Mem, th: Thread)
    requires ThreadOk(h, m, th) && m.resize.Scan? && Cell(m, m.resize.index).life == Valid
    ensures ThreadOk(h, Visited(h, m), th)
  {
    var m1 := Visited(h, m);
    VisitKeeps(h, m);
    if Owned(th).Some? { OwnedReserved(h, m, th); }
    hide *;
    ViewKept(h, m, m1);
    AheadLinked(h, m, th);
    FrameThread(h, m, m1, th);
  }

  lemma VisitAwaited(h: Hash, m: Mem, th: Thread)
    requires ThreadOk(h, m, th) && Awaited(m, th) && m.resize.Scan? && Cell(m, m.resize.index).life != Reserved
    ensures Awaited(Visited(h, m), th)
  {
    hide HeadOf, Link;
  }

  /** The next block of the array; the last one ends at the present bound, which every atom that can
      still become valid lies below. */
  lemma ScanBlocks(h: Hash, m: Mem, upto: nat, block: nat, last: bool)
    requires MemOk(h, m) && m.resize.Scan? && (last ==> upto == m.highest)
    ensures MemOk(h, m.(resize := m.resize.(upto := upto, last := last, block := block)))
  {
    hide TableOk, Distinct, ChainsOk;
    var cur, m1 := m.tables[Cur(m)], m.(resize := m.resize.(upto := upto, last := last, block := block));
    FrameTable(h, m, m1, cur);
    FrameDistinct(m, m1, cur);
    FrameTable(h, m, m1, m.building);
    FrameChains(h, m, m1, m.building);
    forall x | x in m1.atoms ensures AtomOk(m1, x) { assert AtomOk(m, x); }
    forall i | i in m1.atoms && Cell(m1, i).life == Valid && IsUnique(m1, i)
      ensures (i < m1.resize.index ==> i in m1.building.order) && (m1.resize.last ==> i < m1.resize.upto)
    {
      assert AtomOk(m, i);
      assert Cell(m, i).life == Valid && IsUnique(m, i);
    }
  }

  lemma BlockAwaited(h: Hash, m: Mem, upto: nat, block: nat, last: bool, th: Thread)
    requires ThreadOk(h, m, th) && Awaited(m, th) && m.resize.Scan? && (last ==> upto == m.highest)
    ensures Awaited(m.(resize := m.resize.(upto := upto, last := last, block := block)), th)
  {
  }

  function Swap(m: Mem): Mem
    requires m.resize.Scan?
  {
    m.(tables := m.tables + [m.building], resize := Swapped(m.resize.holder))
  }

  /** The new table becomes current: by now it holds every valid unique atom. */
  lemma SwapMem(h: Hash, m: Mem)
    requires MemOk(h, m) && m.resize.Scan? && m.resize.last && m.resize.index >= m.resize.upto
    ensures MemOk(h, Swap(m))
  {
    hide TableOk, ChainsOk;
    var m1, cur := Swap(m), m.tables[Cur(m)];
    assert m1.tables[Cur(m1)] == m.building;
    FrameTable(h, m, m1, m.building);
    FrameChains(h, m, m1, m.building);
    BuildLinked(h, m);
    forall x | x in m.building.order ensures x in cur.order {
      assert Cell(m, x).life == Valid && IsUnique(m, x);
      assert AtomOk(m, x);
    }
    assert forall x :: TextOf(m1, x) == TextOf(m, x);
    forall x | x in m1.atoms ensures AtomOk(m1, x) { assert AtomOk(m, x); }
  }

  lemma BuildLinked(h: Hash, m: Mem)
    requires TableOk(h, m, m.building)
    ensures forall x :: x in m.building.order ==> IsUnique(m, x)
  {
  }

  lemma SwapThread(h: Hash, m: Mem, th: Thread)
    requires ThreadOk(h, m, th) && Awaited(m, th) && m.resize.Scan? && m.resize.last
             && m.resize.index >= m.resize.upto && |m.tables| > 0
    requires forall i :: i in m.building.order ==> Cell(m, i).life == Valid
    ensures ThreadOk(h, Swap(m), th)
  {
    hide HeadOf, Bucket;
    var m1 := Swap(m);
    assert Cur(m1) == Cur(m) + 1 && TableAt(m1, Cur(m1)) == m.building;
    assert forall x :: Cell(m1, x) == Cell(m, x);
  }

  // ----- one step -----

  /** Memory, the thread that moved and all the others are as the invariant wants them. */
  ghost predicate Kept(h: Hash, s: State, tid: nat, m1: Mem, th1: Thread) {
    && MemOk(h, m1) && OneOk(h, m1, tid, th1)
    && forall o :: o in s.threads && o != tid ==> OneOk(h, m1, o, s.threads[o]) && Apart(th1, s.threads[o])
  }

  lemma Keep(h: Hash, s: State, tid: nat, s1: State)
    requires tid in s.threads && tid in s1.threads && s1.threads == s.threads[tid := s1.threads[tid]]
    requires Inv(h, s) && Kept(h, s, tid, s1.mem, s1.threads[tid])
    ensures Inv(h, s1)
  {
    hide MemOk, OneOk;
    forall a, b | a in s1.threads && b in s1.threads && a != b ensures Apart(s1.threads[a], s1.threads[b]) {
      assert a != tid && b != tid ==> Apart(s.threads[a], s.threads[b]);
      assert a == tid ==> Apart(s1.threads[tid], s.threads[b]);
      assert b == tid ==> Apart(s1.threads[tid], s.threads[a]);
    }
  }

  lemma OthersFacts(h: Hash, s: State, tid: nat, o: nat)
    requires Inv(h, s) && tid in s.threads && o in s.threads && o != tid
    ensures MemOk(h, s.mem) && OneOk(h, s.mem, tid, s.threads[tid]) && OneOk(h, s.mem, o, s.threads[o])
    ensures Apart(s.threads[tid], s.threads[o])
  {
    hide MemOk, OneOk, Apart;
  }

  lemma MineFacts(h: Hash, s: State, tid: nat)
    requires Inv(h, s) && tid in s.threads
    ensures MemOk(h, s.mem) && OneOk(h, s.mem, tid, s.threads[tid])
  {
    hide MemOk, OneOk;
  }

  predicate OnlyReads(m: Mem, th: Thread, h: Hash) {
    && !th.Reserve? && !th.Raise? && !th.Fill? && !th.WriteLink? && !th.Undo? && !th.Release? && !th.Publish?
    && !th.WantLock? && !th.Resizing?
    && (th.Cas? ==> !(th.tab < |m.tables| && HeadOf(h, m.tables[th.tab], th.t) == th.head))
  }

  lemma KeptRead(h: Hash, s: State, tid: nat, m1: Mem, th1: Thread)
    requires Inv(h, s) && tid in s.threads && LookupStep(h, s.mem, s.threads[tid], m1, th1)
             && OnlyReads(s.mem, s.threads[tid], h)
    ensures Kept(h, s, tid, m1, th1)
  {
    hide MemOk, OneOk;
    var th := s.threads[tid];
    MineFacts(h, s, tid);
    assert m1 == s.mem;
    ReadStep(h, s.mem, tid, th, th1);
    forall o | o in s.threads && o != tid ensures OneOk(h, m1, o, s.threads[o]) && Apart(th1, s.threads[o]) {
      OthersFacts(h, s, tid, o);
    }
  }

  /** A step that changes one atom its thread holds, or one that was free. */
  lemma KeptPrivate(h: Hash, s: State, tid: nat, i: nat, a: Atom, th1: Thread)
    requires Inv(h, s) && tid in s.threads && PrivateChange(s.mem, i, a)
    requires Owned(s.threads[tid]) == Some(i) || Cell(s.mem, i).life == Free
    requires Owned(th1) == Some(i) || Owned(th1) == None
    requires ThreadOk(h, Put(s.mem, i, a), th1) && Awaited(Put(s.mem, i, a), th1) && LockOk(s.mem, tid, th1)
    ensures Kept(h, s, tid, Put(s.mem, i, a), th1)
  {
    hide MemOk, ThreadOk, PrivateChange;
    MineFacts(h, s, tid);
    forall o | o in s.threads && o != tid ensures Owned(s.threads[o]) != Some(i) {
      OthersFacts(h, s, tid, o);
      OwnedReserved(h, s.mem, s.threads[o]);
    }
    PrivateOthers(h, s, tid, i, a);
  }

  lemma OwnedReserved(h: Hash, m: Mem, th: Thread)
    requires ThreadOk(h, m, th)
    ensures Owned(th).Some? ==> Cell(m, Owned(th).value).life == Reserved && 1 <= Owned(th).value
  {
  }

  /** The steps of a thread that changes its reserved atom. */
  lemma KeptOwner(h: Hash, s: State, tid: nat, m1: Mem, th1: Thread)
    requires Inv(h, s) && tid in s.threads && LookupStep(h, s.mem, s.threads[tid], m1, th1)
    requires var th := s.threads[tid]; th.Reserve? || th.Fill? || th.WriteLink? || th.Undo? || th.Release?
    ensures Kept(h, s, tid, m1, th1)
  {
    hide Inv, LookupStep, Kept;
    var th := s.threads[tid];
    if th.Reserve? { KeptReserve(h, s, tid, m1, th1); }
    else if th.Fill? { KeptFill(h, s, tid, m1, th1); }
    else if th.WriteLink? { KeptWrite(h, s, tid, m1, th1); }
    else { KeptRelease(h, s, tid, m1, th1); }
  }

  lemma KeptReserve(h: Hash, s: State, tid: nat, m1: Mem, th1: Thread)
    requires Inv(h, s) && tid in s.threads && s.threads[tid].Reserve? && LookupStep(h, s.mem, s.threads[tid], m1, th1)
    ensures Kept(h, s, tid, m1, th1)
  {
    hide MemOk, Kept;
    var m, th := s.mem, s.threads[tid];
    MineFacts(h, s, tid);
    ReserveGoes(h, m, th.t, th.tab, th.head, th1.i);
    KeptPrivate(h, s, tid, th1.i, Cell(m, th1.i).(life := Reserved), th1);
  }

  lemma KeptFill(h: Hash, s: State, tid: nat, m1: Mem, th1: Thread)
    requires Inv(h, s) && tid in s.threads && s.threads[tid].Fill? && LookupStep(h, s.mem, s.threads[tid], m1, th1)
    ensures Kept(h, s, tid, m1, th1)
  {
    hide MemOk, Kept;
    var m, th := s.mem, s.threads[tid];
    MineFacts(h, s, tid);
    FillGoes(h, m, th.t, th.tab, th.head, th.i);
    KeptPrivate(h, s, tid, th.i, Cell(m, th.i).(text := Some(th.t)), th1);
  }

  lemma KeptWrite(h: Hash, s: State, tid: nat, m1: Mem, th1: Thread)
    requires Inv(h, s) && tid in s.threads && s.threads[tid].WriteLink? && LookupStep(h, s.mem, s.threads[tid], m1, th1)
    ensures Kept(h, s, tid, m1, th1)
  {
    hide MemOk, Kept;
    var m, th := s.mem, s.threads[tid];
    MineFacts(h, s, tid);
    WriteGoes(h, m, th.t, th.tab, th.head, th.i, th.n);
    KeptPrivate(h, s, tid, th.i, Cell(m, th.i).(next := th.n), th1);
  }

  lemma KeptRelease(h: Hash, s: State, tid: nat, m1: Mem, th1: Thread)
    requires Inv(h, s) && tid in s.threads && (s.threads[tid].Undo? || s.threads[tid].Release?)
    requires LookupStep(h, s.mem, s.threads[tid], m1, th1)
    ensures Kept(h, s, tid, m1, th1)
  {
    hide MemOk, Kept;
    var m, th := s.mem, s.threads[tid];
    MineFacts(h, s, tid);
    if th.Undo? {
      KeptPrivate(h, s, tid, th.i, Cell(m, th.i).(text := None), th1);
    } else {
      KeptPrivate(h, s, tid, th.i, Cell(m, th.i).(life := Free), th1);
    }
  }

  lemma ReserveGoes(h: Hash, m: Mem, t: Text, tab: nat, head: Option<nat>, i: nat)
    requires MemOk(h, m) && ThreadOk(h, m, Reserve(t, tab, head)) && MayReserve(m, i)
    ensures PrivateChange(m, i, Cell(m, i).(life := Reserved))
    ensures ThreadOk(h, Put(m, i, Cell(m, i).(life := Reserved)), Raise(t, tab, head, i))
  {
    hide ChainsOk, Distinct, BuildOk, HeadsOk, BelowOk, HeadOf;
    var m1, tbl := Put(m, i, Cell(m, i).(life := Reserved)), m.tables[Cur(m)];
    assert i !in tbl.order;
    FreeHasNoText(m, i);
    assert forall x :: TextOf(m1, x) == TextOf(m, x);
  }

  /** The assertion of reserveAtom: a free atom has the invalid type. */
  lemma FreeHasNoText(m: Mem, i: nat)
    requires AtomsOk(m) && Cell(m, i).life == Free
    ensures Cell(m, i).text == None
  {
    if i in m.atoms { assert AtomOk(m, i); }
  }

  lemma FillGoes(h: Hash, m: Mem, t: Text, tab: nat, head: Option<nat>, i: nat)
    requires ThreadOk(h, m, Fill(t, tab, head, i))
    ensures PrivateChange(m, i, Cell(m, i).(text := Some(t)))
    ensures var m1 := Put(m, i, Cell(m, i).(text := Some(t)));
            if t.unique then ThreadOk(h, m1, ReadLink(t, tab, head, i)) else ThreadOk(h, m1, Publish(t, i))
  {
    hide HeadOf;
    var m1 := Put(m, i, Cell(m, i).(text := Some(t)));
    assert forall x :: x != i ==> TextOf(m1, x) == TextOf(m, x);
  }

  lemma WriteGoes(h: Hash, m: Mem, t: Text, tab: nat, head: Option<nat>, i: nat, n: Option<nat>)
    requires ThreadOk(h, m, WriteLink(t, tab, head, i, n))
    ensures PrivateChange(m, i, Cell(m, i).(next := n))
    ensures ThreadOk(h, Put(m, i, Cell(m, i).(next := n)), Guard(t, tab, head, i))
  {
    hide HeadOf;
    var m1 := Put(m, i, Cell(m, i).(next := n));
    assert forall x :: TextOf(m1, x) == TextOf(m, x);
  }

  lemma KeptRaise(h: Hash, s: State, tid: nat, m1: Mem, th1: Thread)
    requires Inv(h, s) && tid in s.threads && s.threads[tid].Raise? && LookupStep(h, s.mem, s.threads[tid], m1, th1)
    ensures Kept(h, s, tid, m1, th1)
  {
    hide MemOk, ThreadOk;
    var m, th := s.mem, s.threads[tid];
    MineFacts(h, s, tid);
    RaiseMem(h, m, m1.highest);
    RaiseThread(h, m, m1.highest, th);
    RaiseGoes(h, m1, th.t, th.tab, th.head, th.i);
    forall o | o in s.threads && o != tid ensures OneOk(h, m1, o, s.threads[o]) && Apart(th1, s.threads[o]) {
      OthersFacts(h, s, tid, o);
      RaiseThread(h, m, m1.highest, s.threads[o]);
    }
  }

  lemma RaiseGoes(h: Hash, m1: Mem, t: Text, tab: nat, head: Option<nat>, i: nat)
    requires ThreadOk(h, m1, Raise(t, tab, head, i)) && m1.highest != i
    ensures ThreadOk(h, m1, Fill(t, tab, head, i))
  {
    hide Searched, HeadKnown;
  }

  lemma KeptPublish(h: Hash, s: State, tid: nat, m1: Mem, th1: Thread)
    requires Inv(h, s) && tid in s.threads && s.threads[tid].Publish? && LookupStep(h, s.mem, s.threads[tid], m1, th1)
    ensures Kept(h, s, tid, m1, th1)
  {
    hide MemOk;
    var m, th := s.mem, s.threads[tid];
    MineFacts(h, s, tid);
    PublishMem(h, m, th.t, th.i);
    forall o | o in s.threads && o != tid ensures OneOk(h, m1, o, s.threads[o]) && Apart(th1, s.threads[o]) {
      OthersFacts(h, s, tid, o);
      PublishThread(h, m, th.i, s.threads[o]);
    }
  }

  lemma KeptCas(h: Hash, s: State, tid: nat, m1: Mem, th1: Thread)
    requires Inv(h, s) && tid in s.threads && s.threads[tid].Cas? && LookupStep(h, s.mem, s.threads[tid], m1, th1)
    requires var th := s.threads[tid]; th.tab < |s.mem.tables| && HeadOf(h, s.mem.tables[th.tab], th.t) == th.head
    ensures Kept(h, s, tid, m1, th1)
  {
    var th := s.threads[tid];
    MineFacts(h, s, tid);
    if th.tab == Cur(s.mem) { KeptPush(h, s, tid, m1, th1); } else { KeptOld(h, s, tid, m1, th1); }
  }

  lemma KeptPush(h: Hash, s: State, tid: nat, m1: Mem, th1: Thread)
    requires Inv(h, s) && tid in s.threads && s.threads[tid].Cas? && LookupStep(h, s.mem, s.threads[tid], m1, th1)
    requires var th := s.threads[tid];
             && th.tab == Cur(s.mem) && th.tab < |s.mem.tables|
             && HeadOf(h, s.mem.tables[th.tab], th.t) == th.head
    ensures Kept(h, s, tid, m1, th1)
  {
    hide ThreadOk, HeadOf, Link, MemOk;
    var m, th := s.mem, s.threads[tid];
    MineFacts(h, s, tid);
    CasFacts(h, m, th.t, th.tab, th.head, th.i);
    PushMem(h, m, th.t, th.head, th.i);
    assert m1 == Pushed(h, m, th.t, th.i);
    forall o | o in s.threads && o != tid ensures OneOk(h, m1, o, s.threads[o]) && Apart(th1, s.threads[o]) {
      OthersFacts(h, s, tid, o);
      PushThread(h, m, th.t, th.i, s.threads[o]);
    }
  }

  lemma CasFacts(h: Hash, m: Mem, t: Text, tab: nat, head: Option<nat>, i: nat)
    requires MemOk(h, m) && ThreadOk(h, m, Cas(t, tab, head, i))
    ensures |m.tables| > 0 && |m.tables[Cur(m)].heads| > 0 && i !in m.tables[Cur(m)].order && Cell(m, i).text == Some(t)
  {
  }

  lemma KeptOld(h: Hash, s: State, tid: nat, m1: Mem, th1: Thread)
    requires Inv(h, s) && tid in s.threads && s.threads[tid].Cas? && LookupStep(h, s.mem, s.threads[tid], m1, th1)
    requires var th := s.threads[tid]; th.tab < Cur(s.mem) && HeadOf(h, s.mem.tables[th.tab], th.t) == th.head
    ensures Kept(h, s, tid, m1, th1)
  {
    hide MemOk, Link, HeadOf;
    var m, th := s.mem, s.threads[tid];
    MineFacts(h, s, tid);
    var tbl := Link(h, m.tables[th.tab], th.t, th.i);
    OldTableMem(h, m, th.tab, tbl);
    OldTableThread(h, m, th.tab, tbl, th);
    forall o | o in s.threads && o != tid ensures OneOk(h, m1, o, s.threads[o]) && Apart(th1, s.threads[o]) {
      OthersFacts(h, s, tid, o);
      OldTableThread(h, m, th.tab, tbl, s.threads[o]);
    }
  }

  // ----- steps of a resize -----

  /** Taking or giving back the lock, clearing the flag. */
  lemma KeptResize(h: Hash, s: State, tid: nat, r: Resize, th1: Thread)
    requires Inv(h, s) && tid in s.threads && !s.mem.resize.Scan? && !r.Scan? && (r.Off? || r.holder == tid)
    requires s.mem.resize.Off? || s.mem.resize.holder == tid
    requires ThreadOk(h, s.mem, th1) && Owned(th1) == None && !th1.Cas? && !th1.Recheck? && !th1.Publish?
             && (th1.Resizing? <==> !r.Off?)
    ensures Kept(h, s, tid, s.mem.(resize := r), th1)
  {
    hide MemOk, ThreadOk;
    var m, m1 := s.mem, s.mem.(resize := r);
    MineFacts(h, s, tid);
    OutsideScan(h, m, r);
    assert m1 == m.(resize := r, building := m.building);
    ResizeThread(h, m, r, m.building, th1);
    forall o | o in s.threads && o != tid ensures OneOk(h, m1, o, s.threads[o]) && Apart(th1, s.threads[o]) {
      OthersFacts(h, s, tid, o);
      ResizeThread(h, m, r, m.building, s.threads[o]);
    }
  }

  lemma KeptScanStart(h: Hash, s: State, tid: nat, m1: Mem)
    requires Inv(h, s) && tid in s.threads && s.threads[tid].Resizing? && s.mem.resize == Locked(tid)
    requires m1 == s.mem.(resize := Scan(tid, 1, 1, 0, false),
             building := Empty(2 * |TableAt(s.mem, Cur(s.mem)).heads|))
    ensures Kept(h, s, tid, m1, s.threads[tid])
  {
    hide MemOk, ThreadOk, Empty, Awaited;
    var m := s.mem;
    MineFacts(h, s, tid);
    ScanStarts(h, m, tid);
    ResizeThread(h, m, m1.resize, m1.building, s.threads[tid]);
    StartAwaited(h, m, tid, m1.building, s.threads[tid]);
    forall o | o in s.threads && o != tid ensures OneOk(h, m1, o, s.threads[o]) && Apart(s.threads[tid], s.threads[o]) {
      OthersFacts(h, s, tid, o);
      ResizeThread(h, m, m1.resize, m1.building, s.threads[o]);
      StartAwaited(h, m, tid, m1.building, s.threads[o]);
    }
  }

  ghost predicate Scanning(h: Hash, s: State, tid: nat) {
    Inv(h, s) && tid in s.threads && s.threads[tid].Resizing? && s.mem.resize.Scan? && s.mem.resize.holder == tid
  }

  lemma KeptSkip(h: Hash, s: State, tid: nat)
    requires Scanning(h, s, tid)
    requires var i := s.mem.resize.index;
             && Cell(s.mem, i).life != Reserved
             && !(Cell(s.mem, i).life == Valid && IsUnique(s.mem, i))
    ensures Kept(h, s, tid, s.mem.(resize := s.mem.resize.(index := s.mem.resize.index + 1)), s.threads[tid])
  {
    hide MemOk, ThreadOk, Awaited;
    var m, m1 := s.mem, s.mem.(resize := s.mem.resize.(index := s.mem.resize.index + 1));
    MineFacts(h, s, tid);
    ScanSkips(h, m);
    assert m1 == m.(resize := m1.resize, building := m.building);
    ResizeThread(h, m, m1.resize, m.building, s.threads[tid]);
    PassAwaited(h, m, s.threads[tid]);
    forall o | o in s.threads && o != tid ensures OneOk(h, m1, o, s.threads[o]) && Apart(s.threads[tid], s.threads[o]) {
      OthersFacts(h, s, tid, o);
      ResizeThread(h, m, m1.resize, m.building, s.threads[o]);
      PassAwaited(h, m, s.threads[o]);
    }
  }

  lemma KeptVisit(h: Hash, s: State, tid: nat)
    requires Scanning(h, s, tid) && Cell(s.mem, s.mem.resize.index).life == Valid && IsUnique(s.mem, s.mem.resize.index)
    ensures Kept(h, s, tid, Visited(h, s.mem), s.threads[tid])
  {
    hide MemOk, ThreadOk, Awaited, HeadOf, Link;
    var m := s.mem;
    MineFacts(h, s, tid);
    ScanLinks(h, m);
    VisitThread(h, m, s.threads[tid]);
    VisitAwaited(h, m, s.threads[tid]);
    forall o | o in s.threads && o != tid
        ensures OneOk(h, Visited(h, m), o, s.threads[o]) && Apart(s.threads[tid], s.threads[o]) {
      OthersFacts(h, s, tid, o);
      VisitThread(h, m, s.threads[o]);
      VisitAwaited(h, m, s.threads[o]);
    }
  }

  lemma KeptBlock(h: Hash, s: State, tid: nat, upto: nat, block: nat, last: bool)
    requires Scanning(h, s, tid) && (last ==> upto == s.mem.highest)
    ensures Kept(h, s, tid, s.mem.(resize := s.mem.resize.(upto := upto, last := last, block := block)), s.threads[tid])
  {
    hide MemOk, ThreadOk, Awaited;
    var m, m1 := s.mem, s.mem.(resize := s.mem.resize.(upto := upto, last := last, block := block));
    MineFacts(h, s, tid);
    ScanBlocks(h, m, upto, block, last);
    assert m1 == m.(resize := m1.resize, building := m.building);
    ResizeThread(h, m, m1.resize, m.building, s.threads[tid]);
    BlockAwaited(h, m, upto, block, last, s.threads[tid]);
    forall o | o in s.threads && o != tid ensures OneOk(h, m1, o, s.threads[o]) && Apart(s.threads[tid], s.threads[o]) {
      OthersFacts(h, s, tid, o);
      ResizeThread(h, m, m1.resize, m.building, s.threads[o]);
      BlockAwaited(h, m, upto, block, last, s.threads[o]);
    }
  }

  lemma KeptSwap(h: Hash, s: State, tid: nat)
    requires Scanning(h, s, tid) && s.mem.resize.last && s.mem.resize.index >= s.mem.resize.upto
    ensures Kept(h, s, tid, Swap(s.mem), s.threads[tid])
  {
    hide MemOk, ThreadOk;
    var m, m1 := s.mem, Swap(s.mem);
    MineFacts(h, s, tid);
    SwapMem(h, m);
    BuiltValid(h, m);
    SwapThread(h, m, s.threads[tid]);
    forall o | o in s.threads && o != tid ensures OneOk(h, m1, o, s.threads[o]) && Apart(s.threads[tid], s.threads[o]) {
      OthersFacts(h, s, tid, o);
      SwapThread(h, m, s.threads[o]);
    }
  }

  lemma BuiltValid(h: Hash, m: Mem)
    requires MemOk(h, m) && m.resize.Scan?
    ensures |m.tables| > 0 && forall i :: i in m.building.order ==> Cell(m, i).life == Valid
  {
  }

  lemma KeptScan(h: Hash, s: State, tid: nat)
    requires Scanning(h, s, tid)
    ensures var r := s.mem.resize; Kept(h, s, tid, ScanStep(h, s.mem, r.index, r.upto, r.block, r.last), s.threads[tid])
  {
    hide *;
    var m, r := s.mem, s.mem.resize;
    ScanningFacts(h, s, tid);
    ScanCases(h, m);
    if r.index < r.upto {
      if Cell(m, r.index).life == Reserved {
        Stutter(h, s, tid);
      } else if Cell(m, r.index).life == Valid && IsUnique(m, r.index) {
        KeptVisit(h, s, tid);
      } else {
        KeptSkip(h, s, tid);
      }
    } else if r.last {
      KeptSwap(h, s, tid);
    } else {
      var end := 2 * Power(r.block);
      KeptBlock(h, s, tid, if end >= m.highest then m.highest else end, r.block + 1, end >= m.highest);
    }
  }

  lemma ScanningFacts(h: Hash, s: State, tid: nat)
    requires Scanning(h, s, tid)
    ensures Inv(h, s) && tid in s.threads && s.mem.resize.Scan?
  {
    hide Inv;
  }

  /** The cases of a scan step. */
  lemma ScanCases(h: Hash, m: Mem)
    requires m.resize.Scan?
    ensures var r := m.resize; var a := Cell(m, r.index); var end := 2 * Power(r.block);
            ScanStep(h, m, r.index, r.upto, r.block, r.last) ==
            if r.index < r.upto then
              if a.life == Reserved then m
              else if a.life == Valid && IsUnique(m, r.index) then Visited(h, m)
              else m.(resize := r.(index := r.index + 1))
            else if r.last then Swap(m)
            else m.(resize := r.(upto := if end >= m.highest then m.highest else end, last := end >= m.highest,
                block := r.block + 1))
  {
    hide HeadOf, Link, Power;
  }

  lemma Stutter(h: Hash, s: State, tid: nat)
    requires Inv(h, s) && tid in s.threads
    ensures Kept(h, s, tid, s.mem, s.threads[tid])
  {
    hide MemOk, OneOk;
    forall o | o in s.threads && o != tid
        ensures OneOk(h, s.mem, o, s.threads[o]) && Apart(s.threads[tid], s.threads[o]) {
      OthersFacts(h, s, tid, o);
    }
  }

  lemma KeptResizing(h: Hash, s: State, tid: nat, m1: Mem, th1: Thread)
    requires Inv(h, s) && tid in s.threads && ResizeStep(h, s.mem, tid, s.threads[tid], m1, th1)
    ensures Kept(h, s, tid, m1, th1)
  {
    hide MemOk, Kept, ScanStep, Empty, Searched, HeadKnown;
    var m, th := s.mem, s.threads[tid];
    MineFacts(h, s, tid);
    if th.WantLock? {
      KeptResize(h, s, tid, Locked(tid), th1);
    } else {
      match m.resize {
        case Locked(_) => if m1.resize.Off? { KeptResize(h, s, tid, Off, th1); } else { KeptScanStart(h, s, tid, m1); }
        case Scan(_, _, _, _, _) => KeptScan(h, s, tid);
        case Swapped(_) => KeptResize(h, s, tid, Unlocking(tid), th1);
        case Unlocking(_) => KeptResize(h, s, tid, Off, th1);
      }
    }
  }

  /** Every step keeps the invariant. */
  lemma StepKeeps(h: Hash, s: State, tid: nat, s1: State)
    requires Inv(h, s) && Next(h, s, tid, s1)
    ensures Inv(h, s1)
  {
    hide Inv, Kept, LookupStep, ResizeStep;
    var th, m1, th1 := s.threads[tid], s1.mem, s1.threads[tid];
    if ResizeStep(h, s.mem, tid, th, m1, th1) {
      KeptResizing(h, s, tid, m1, th1);
    } else {
      KeptLookup(h, s, tid, m1, th1);
    }
    Keep(h, s, tid, s1);
  }

  lemma KeptLookup(h: Hash, s: State, tid: nat, m1: Mem, th1: Thread)
    requires Inv(h, s) && tid in s.threads && LookupStep(h, s.mem, s.threads[tid], m1, th1)
    ensures Kept(h, s, tid, m1, th1)
  {
    hide Inv, Kept, HeadOf;
    var th := s.threads[tid];
    NoLockStep(h, s.mem, th, m1, th1);
    hide LookupStep;
    if th.Reserve? || th.Fill? || th.WriteLink? || th.Undo? || th.Release? {
      KeptOwner(h, s, tid, m1, th1);
    } else if th.Raise? {
      KeptRaise(h, s, tid, m1, th1);
    } else if th.Publish? {
      KeptPublish(h, s, tid, m1, th1);
    } else if th.Cas? && th.tab < |s.mem.tables| && HeadOf(h, s.mem.tables[th.tab], th.t) == th.head {
      KeptCas(h, s, tid, m1, th1);
    } else {
      KeptRead(h, s, tid, m1, th1);
    }
  }

  lemma NoLockStep(h: Hash, m: Mem, th: Thread, m1: Mem, th1: Thread)
    requires LookupStep(h, m, th, m1, th1)
    ensures !th.WantLock? && !th.Resizing?
  {
  }

  // ----- all runs -----

  lemma InitInv(h: Hash, s: State)
    requires Init(s)
    ensures Inv(h, s)
  {
    hide Empty;
    var m := s.mem;
    assert m.tables[0].order == map[] by { EmptyFacts(|m.tables[0].heads|); }
    EmptyTable(h, m);
  }

  lemma EmptyFacts(n: nat)
    ensures Empty(n).order == map[]
  {
  }

  lemma EmptyTable(h: Hash, m: Mem)
    requires |m.tables| == 1 && |m.tables[0].heads| > 0 && m.tables[0] == Empty(|m.tables[0].heads|)
    ensures TableOk(h, m, m.tables[0]) && ChainsOk(h, m, m.tables[0]) && Distinct(m, m.tables[0])
  {
    EmptyOk(h, m, |m.tables[0].heads|);
  }

  lemma {:induction false} RunKeeps(h: Hash, run: seq<State>)
    requires Run(h, run)
    ensures Inv(h, run[|run| - 1])
    decreases |run|
  {
    hide Inv, Init, Next;
    if |run| == 1 {
      InitInv(h, run[0]);
    } else {
      RunKeeps(h, run[..|run| - 1]);
      var tid: nat :| Next(h, run[|run| - 2], tid, run[|run| - 1]);
      StepKeeps(h, run[|run| - 2], tid, run[|run| - 1]);
    }
  }

  /** Following `next` from `at`, at most `fuel` times, meets atom `x`. */
  predicate Meets(m: Mem, at: Option<nat>, x: nat, fuel: nat)
    decreases fuel
  {
    at.Some? && (at.value == x || (fuel > 0 && Meets(m, Cell(m, at.value).next, x, fuel - 1)))
  }

  /** Atom `x` is on the chain of its bucket in the current table. */
  ghost predicate Linked(h: Hash, m: Mem, x: nat) {
    && Cell(m, x).text.Some? && |m.tables| > 0
    && var heads := m.tables[|m.tables| - 1].heads;
       |heads| > 0 && exists fuel: nat :: Meets(m, heads[h(Cell(m, x).text.value) % |heads|], x, fuel)
  }

  lemma {:induction false} ChainMeets(h: Hash, m: Mem, tbl: Table, at: nat, x: nat)
    requires ChainsOk(h, m, tbl) && OrderOk(tbl) && at in tbl.order && x in tbl.order
    requires BucketOf(h, m, tbl, at) == BucketOf(h, m, tbl, x) && tbl.order[x] <= tbl.order[at]
    ensures Meets(m, Some(at), x, tbl.order[at])
    decreases tbl.order[at]
  {
    hide BucketOf;
    if at != x {
      assert NextOk(h, m, tbl, at);
      assert tbl.order[x] != tbl.order[at];
      var n := Cell(m, at).next;
      ChainMeets(h, m, tbl, n.value, x);
      MeetsMore(m, n, x, tbl.order[n.value], tbl.order[at] - 1);
    }
  }

  lemma {:induction false} MeetsMore(m: Mem, at: Option<nat>, x: nat, fuel: nat, more: nat)
    requires Meets(m, at, x, fuel) && fuel <= more
    ensures Meets(m, at, x, more)
    decreases fuel
  {
    if at.value != x { MeetsMore(m, Cell(m, at.value).next, x, fuel - 1, more - 1); }
  }

  /** In every run, at most one valid atom exists for each unique text. */
  lemma OneAtomPerText(h: Hash, run: seq<State>, i: nat, j: nat)
    requires Run(h, run)
    requires var m := run[|run| - 1].mem;
             && Cell(m, i).life == Valid == Cell(m, j).life && IsUnique(m, i)
             && Cell(m, i).text == Cell(m, j).text
    ensures i == j
  {
    RunKeeps(h, run);
    var m := run[|run| - 1].mem;
    assert AtomOk(m, i) && AtomOk(m, j);
  }

  /** In every run, whenever the array is not being scanned, every valid unique atom is on the chain of
      its bucket in the current table. */
  lemma EveryAtomLinked(h: Hash, run: seq<State>, i: nat)
    requires Run(h, run)
    requires var m := run[|run| - 1].mem; !m.resize.Scan? && Cell(m, i).life == Valid && IsUnique(m, i)
    ensures Linked(h, run[|run| - 1].mem, i)
  {
    RunKeeps(h, run);
    var m := run[|run| - 1].mem;
    var tbl := m.tables[Cur(m)];
    assert AtomOk(m, i);
    hide Run, AtomsOk, BuildOk, Distinct;
    assert BelowHead(h, m, tbl, i);
    var head := HeadOf(h, tbl, TextOf(m, i));
    assert HeadFits(h, m, tbl, Bucket(h, tbl, TextOf(m, i)));
    ChainMeets(h, m, tbl, head.value, i);
  }

  lemma DoneFacts(h: Hash, m: Mem, tid: nat, th: Thread)
    requires OneOk(h, m, tid, th) && th.Done?
    ensures Cell(m, th.i).life == Valid && Cell(m, th.i).text == Some(th.t) && (th.t.unique ==> IsUnique(m, th.i))
  {
  }

  /** A valid atom stays valid and keeps its text. */
  lemma ValidStays(h: Hash, s: State, tid: nat, s1: State, i: nat)
    requires Inv(h, s) && Next(h, s, tid, s1) && Cell(s.mem, i).life == Valid
    ensures Cell(s1.mem, i).life == Valid && Cell(s1.mem, i).text == Cell(s.mem, i).text
  {
    hide MemOk;
    MineFacts(h, s, tid);
    OwnedReserved(h, s.mem, s.threads[tid]);
    hide ThreadOk, Link, HeadOf;
  }

  lemma {:induction false} ValidForever(h: Hash, run: seq<State>, k: nat, i: nat)
    requires Run(h, run) && k < |run| && Cell(run[k].mem, i).life == Valid
    ensures var last := run[|run| - 1].mem;
            Cell(last, i).life == Valid && Cell(last, i).text == Cell(run[k].mem, i).text
    decreases |run|
  {
    hide Inv, Init, Next;
    if k < |run| - 1 {
      var before := run[..|run| - 1];
      ValidForever(h, before, k, i);
      RunKeeps(h, before);
      var tid: nat :| Next(h, run[|run| - 2], tid, run[|run| - 1]);
      ValidStays(h, run[|run| - 2], tid, run[|run| - 1], i);
    }
  }

  lemma {:induction false} RunPrefix(h: Hash, run: seq<State>, k: nat)
    requires Run(h, run) && k < |run|
    ensures Run(h, run[..k + 1])
    decreases |run|
  {
    hide Init, Moves;
    if k == |run| - 1 {
      assert run[..k + 1] == run;
    } else {
      RunPrefix(h, run[..|run| - 1], k);
      assert run[..|run| - 1][..k + 1] == run[..k + 1];
    }
  }

  /** Two lookups of the same unique text return the same atom, whenever and in whichever threads. */
  lemma LookupsAgree(h: Hash, run: seq<State>, k: nat, a: nat, b: nat)
    requires Run(h, run) && k < |run|
    requires var early, late := run[k], run[|run| - 1];
             && a in early.threads && early.threads[a].Done? && early.threads[a].t.unique
             && b in late.threads && late.threads[b].Done? && late.threads[b].t == early.threads[a].t
    ensures run[k].threads[a].i == run[|run| - 1].threads[b].i
  {
    RunKeeps(h, run);
    RunPrefix(h, run, k);
    RunKeeps(h, run[..k + 1]);
    var early, late := run[k], run[|run| - 1];
    assert run[..k + 1][|run[..k + 1]| - 1] == early;
    hide *;
    MineFacts(h, early, a);
    MineFacts(h, late, b);
    DoneFacts(h, early.mem, a, early.threads[a]);
    DoneFacts(h, late.mem, b, late.threads[b]);
    ValidForever(h, run, k, early.threads[a].i);
    OneAtomPerText(h, run, late.threads[b].i, early.threads[a].i);
  }

  /** The assertion in reserveAtom never fails: an atom that may be reserved has the invalid type. */
  lemma ReserveAssertion(h: Hash, run: seq<State>, i: nat)
    requires Run(h, run) && MayReserve(run[|run| - 1].mem, i)
    ensures Cell(run[|run| - 1].mem, i).text == None
  {
    RunKeeps(h, run);
    FreeHasNoText(run[|run| - 1].mem, i);
  }
}
