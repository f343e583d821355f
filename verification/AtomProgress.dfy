// A lookup that is left alone ends: it finds the atom, or makes it.

module AtomProgress {
  import opened AtomTable
  import opened AtomInvariant
  import opened AtomSteps
  import opened AtomSafety

  // ----- reserved atoms are somebody's -----

  ghost predicate Claims(s: State, i: nat) {
    exists tid: nat :: tid in s.threads && Owned(s.threads[tid]) == Some(i)
  }

  ghost predicate Claimed(s: State) {
    forall i: nat :: Cell(s.mem, i).life == Reserved ==> Claims(s, i)
  }

  /** Only the thread that reserves an atom makes it reserved, and who owns one keeps it until it is not. */
  lemma LookupClaims(h: Hash, m: Mem, th: Thread, m1: Mem, th1: Thread, i: nat)
    requires LookupStep(h, m, th, m1, th1) && Cell(m1, i).life == Reserved
    ensures Cell(m, i).life == Reserved || Owned(th1) == Some(i)
    ensures Owned(th) == Some(i) ==> Owned(th1) == Some(i)
  {
    hide LookupStep, Owned, Cell;
    if Owned(th) == Some(i) { OwnerKeeps(h, m, th, m1, th1, i); }
    OnlyReserve(h, m, th, m1, th1, i);
  }

  lemma OwnerKeeps(h: Hash, m: Mem, th: Thread, m1: Mem, th1: Thread, i: nat)
    requires LookupStep(h, m, th, m1, th1) && Cell(m1, i).life == Reserved && Owned(th) == Some(i)
    ensures Owned(th1) == Some(i)
  {
    hide HeadOf, Link, TableAt, Cur, Rehashing, MayReserve;
  }

  lemma OnlyReserve(h: Hash, m: Mem, th: Thread, m1: Mem, th1: Thread, i: nat)
    requires LookupStep(h, m, th, m1, th1) && Cell(m1, i).life == Reserved
    ensures Cell(m, i).life == Reserved || Owned(th1) == Some(i)
  {
    hide HeadOf, Link, TableAt, Cur, Rehashing, MayReserve;
  }

  lemma ResizeClaims(h: Hash, m: Mem, tid: nat, th: Thread, m1: Mem, th1: Thread, i: nat)
    requires ResizeStep(h, m, tid, th, m1, th1) && Cell(m1, i).life == Reserved
    ensures Cell(m, i).life == Reserved && Owned(th).None?
  {
    hide HeadOf, Link, TableAt, Cur, Empty, Power;
  }

  lemma StepClaims(h: Hash, m: Mem, tid: nat, th: Thread, m1: Mem, th1: Thread, i: nat)
    requires ThreadStep(h, m, tid, th, m1, th1) && Cell(m1, i).life == Reserved
    ensures Cell(m, i).life == Reserved || Owned(th1) == Some(i)
    ensures Owned(th) == Some(i) ==> Owned(th1) == Some(i)
  {
    hide LookupStep, ResizeStep, Owned, Cell;
    if LookupStep(h, m, th, m1, th1) {
      LookupClaims(h, m, th, m1, th1, i);
    } else {
      ResizeClaims(h, m, tid, th, m1, th1, i);
    }
  }

  lemma ClaimKept(h: Hash, s: State, tid: nat, s1: State)
    requires Claimed(s) && Next(h, s, tid, s1)
    ensures Claimed(s1)
  {
    hide ThreadStep, Owned;
    forall i: nat | Cell(s1.mem, i).life == Reserved ensures Claims(s1, i) {
      StepClaims(h, s.mem, tid, s.threads[tid], s1.mem, s1.threads[tid], i);
      if Owned(s1.threads[tid]) != Some(i) {
        assert Claims(s, i);
        var o: nat :| o in s.threads && Owned(s.threads[o]) == Some(i);
        assert o in s1.threads && s1.threads[o] == s.threads[o];
      }
    }
  }

  /** In every run each reserved atom belongs to a thread. */
  lemma {:induction false} RunClaimed(h: Hash, run: seq<State>)
    requires Run(h, run)
    ensures Claimed(run[|run| - 1])
    decreases |run|
  {
    hide Next, Owned;
    if |run| > 1 {
      RunClaimed(h, run[..|run| - 1]);
      var tid: nat :| Next(h, run[|run| - 2], tid, run[|run| - 1]);
      ClaimKept(h, run[|run| - 2], tid, run[|run| - 1]);
    }
  }

  // ----- a thread alone -----

  /** Nothing to wait for: no other thread holds an atom with text `t` that is linked, and some atom may be
      reserved, as long as the first one never used is not reserved already. */
  ghost predicate OthersAway(s: State, tid: nat, t: Text) {
    && (forall o: nat, i: nat :: o in s.threads && o != tid && Owned(s.threads[o]) == Some(i) ==>
          i in TableAt(s.mem, Cur(s.mem)).order ==> Cell(s.mem, i).text != Some(t))
    && (Cell(s.mem, s.mem.highest).life == Reserved ==> exists i: nat :: MayReserve(s.mem, i))
  }

  ghost predicate Exists(m: Mem, t: Text, x: nat) {
    Cell(m, x).life == Valid && Cell(m, x).text == Some(t)
  }

  /** What a lookup of `t` that started in memory `m0` and ends in `m` with atom `i` has done: if there was an
      atom for a unique text it is this one and nothing was changed; else the atom was free, is valid with
      this text, and no other atom was changed. */
  ghost predicate Answered(m0: Mem, m: Mem, t: Text, i: nat) {
    && Exists(m, t, i) && (forall x: nat :: x != i ==> Cell(m, x) == Cell(m0, x))
    && if t.unique && exists x: nat :: Exists(m0, t, x) then Exists(m0, t, i) && m == m0 else Cell(m0, i).life == Free
  }

  /** The lookup has not changed anything yet. */
  predicate Looking(th: Thread) {
    th.Redo? || th.ReadHead? || th.StartWalk? || th.Walk? || th.Compare? || th.ReadNext? || th.NotFound?
    || th.CheckTable? || th.CheckHead? || th.Reserve?
  }

  /** What the thread read is what memory holds. */
  predicate Fresh(h: Hash, m: Mem, th: Thread, t: Text)
    requires Looking(th)
  {
    && th.t == t
    && (th.Redo? || th.tab == Cur(m))
    && (th.Redo? || th.ReadHead? || th.head == HeadOf(h, TableAt(m, Cur(m)), t))
    && (th.Compare? ==> th.life == Cell(m, th.i).life)
  }

  /** It has reserved an atom and goes on to link and publish it. */
  predicate Making(th: Thread) {
    th.Raise? || th.Fill? || th.ReadLink? || th.WriteLink? || th.Guard? || th.Cas? || th.Recheck? || th.Publish?
  }

  /** The atom was free, the others are as they were, and nobody has touched the bucket. */
  ghost predicate Made(h: Hash, m0: Mem, m: Mem, th: Thread, t: Text)
    requires Making(th)
  {
    && th.t == t && Cell(m0, th.i).life == Free && (t.unique ==> Absent(m0, t))
    && (forall x: nat :: x != th.i ==> Cell(m, x) == Cell(m0, x))
    && |m.tables| > 0 && m.resize.Off?
    && (th.Publish? || th.tab == Cur(m))
    && (th.Publish? || th.Recheck? || th.head == HeadOf(h, TableAt(m, Cur(m)), t))
  }

  /** Where the thread that started in `m0` can be. */
  ghost predicate Alone(h: Hash, m0: Mem, m: Mem, th: Thread, t: Text) {
    if Looking(th) then m == m0 && Fresh(h, m, th, t)
    else if Making(th) then Made(h, m0, m, th, t)
    else th.Done? && th.t == t && Answered(m0, m, t, th.i)
  }

  function Rank(m: Mem, i: nat): nat {
    if i in TableAt(m, Cur(m)).order then TableAt(m, Cur(m)).order[i] else 0
  }

  /** The number of steps the thread has left, at most. */
  function StepsLeft(m: Mem, th: Thread): nat {
    var linked := |TableAt(m, Cur(m)).order|;
    match th
    case Redo(_) => 16 + 3 * linked
    case ReadHead(_, _) => 15 + 3 * linked
    case StartWalk(_, _, _) => 14 + 3 * linked
    case Walk(_, _, _, at) => if at.None? then 13 else 16 + 3 * Rank(m, at.value)
    case Compare(_, _, _, i, _) => 15 + 3 * Rank(m, i)
    case ReadNext(_, _, _, i) => 14 + 3 * Rank(m, i)
    case NotFound(_, _, _) => 12
    case CheckTable(_, _, _) => 11
    case CheckHead(_, _, _) => 10
    case Reserve(_, _, _) => 9
    case Raise(_, _, _, _) => 8
    case Fill(_, _, _, _) => 7
    case ReadLink(_, _, _, _) => 6
    case WriteLink(_, _, _, _, _) => 5
    case Guard(_, _, _, _) => 4
    case Cas(_, _, _, _) => 3
    case Recheck(_, _, _, _) => 2
    case Publish(_, _) => 1
    case _ => 0
  }

  // ----- its steps -----

  /** Searching: the chain gets shorter, and an atom with this text is the answer. */
  lemma SearchGoes(h: Hash, m: Mem, tid: nat, th: Thread, m1: Mem, th1: Thread, t: Text)
    requires MemOk(h, m) && OneOk(h, m, tid, th) && m.resize.Off? && LookupStep(h, m, th, m1, th1)
    requires Looking(th) && Fresh(h, m, th, t) && !th.NotFound? && !th.CheckTable? && !th.CheckHead? && !th.Reserve?
    requires forall i: nat :: Cell(m, i).text == Some(t) && i in TableAt(m, Cur(m)).order ==> Cell(m, i).life == Valid
    ensures m1 == m && StepsLeft(m, th1) < StepsLeft(m, th)
    ensures (Looking(th1) && Fresh(h, m, th1, t)) || (th1.Done? && th1.t == t && t.unique && Exists(m, t, th1.i))
  {
    hide ChainsOk, Distinct, AtomsOk, BuildOk, LinkedOk, BelowOk, Bucket, Absent;
    var tbl := TableAt(m, Cur(m));
    match th {
      case StartWalk(_, _, _) => HeadRead(h, m, t, Cur(m));
      case Compare(_, _, _, i, _) => assert i in tbl.order;
      case ReadNext(_, _, _, i) => NextRank(h, m, i);
      case _ =>
    }
  }

  lemma NextRank(h: Hash, m: Mem, i: nat)
    requires MemOk(h, m) && !m.resize.Scan? && i in TableAt(m, Cur(m)).order
    ensures Cell(m, i).next.Some? ==> Rank(m, Cell(m, i).next.value) < Rank(m, i)
  {
    hide Distinct, AtomsOk, BuildOk, TableOk, BucketOf;
    assert NextOk(h, m, TableAt(m, Cur(m)), i);
  }

  /** The tests after the search pass, and an atom is reserved. */
  lemma CheckGoes(h: Hash, m: Mem, tid: nat, th: Thread, m1: Mem, th1: Thread, t: Text)
    requires MemOk(h, m) && OneOk(h, m, tid, th) && m.resize.Off? && LookupStep(h, m, th, m1, th1)
    requires Looking(th) && Fresh(h, m, th, t) && (th.NotFound? || th.CheckTable? || th.CheckHead? || th.Reserve?)
    requires !th1.WantLock?
    ensures StepsLeft(m1, th1) < StepsLeft(m, th)
    ensures if Looking(th1) then m1 == m && Fresh(h, m, th1, t) else Making(th1) && Made(h, m, m1, th1, t)
  {
    hide TableOk, ChainsOk, Distinct, AtomsOk, BuildOk, Bucket, Absent;
  }

  /** Linking and publishing succeed at once. */
  lemma MakeGoes(h: Hash, m0: Mem, m: Mem, tid: nat, th: Thread, m1: Mem, th1: Thread, t: Text)
    requires MemOk(h, m0) && OneOk(h, m, tid, th) && LookupStep(h, m, th, m1, th1)
    requires Making(th) && Made(h, m0, m, th, t)
    ensures if Making(th1) then Made(h, m0, m1, th1, t)
            else th1.Done? && th1.t == t && Answered(m0, m1, t, th1.i)
    ensures StepsLeft(m1, th1) < StepsLeft(m, th)
  {
    hide MemOk, OneOk, LookupStep, Made, Answered;
    if th.Publish? {
      PublishAnswers(h, m0, m, tid, th, m1, th1, t);
    } else if th.Cas? {
      CasLinks(h, m0, m, th, m1, th1, t);
    } else if th.Raise? || th.Fill? || th.WriteLink? {
      WriteMakes(h, m0, m, th, m1, th1, t);
    } else {
      ReadMakes(h, m0, m, th, m1, th1, t);
    }
  }

  lemma CasLinks(h: Hash, m0: Mem, m: Mem, th: Thread, m1: Mem, th1: Thread, t: Text)
    requires LookupStep(h, m, th, m1, th1) && th.Cas? && Made(h, m0, m, th, t)
    ensures th1.Recheck? && Made(h, m0, m1, th1, t)
  {
    hide Absent, Link, HeadOf;
  }

  lemma WriteMakes(h: Hash, m0: Mem, m: Mem, th: Thread, m1: Mem, th1: Thread, t: Text)
    requires LookupStep(h, m, th, m1, th1) && (th.Raise? || th.Fill? || th.WriteLink?) && Made(h, m0, m, th, t)
    ensures Making(th1) && Made(h, m0, m1, th1, t)
    ensures match th
            case Raise(_, _, _, _) => th1.Fill?
            case Fill(_, _, _, _) => th1.ReadLink? || th1.Publish?
            case _ => th1.Guard?
  {
    hide Absent, Bucket;
  }

  lemma ReadMakes(h: Hash, m0: Mem, m: Mem, th: Thread, m1: Mem, th1: Thread, t: Text)
    requires LookupStep(h, m, th, m1, th1) && (th.ReadLink? || th.Guard? || th.Recheck?) && Made(h, m0, m, th, t)
    ensures Making(th1) && Made(h, m0, m1, th1, t)
    ensures if th.ReadLink? then th1.WriteLink? else if th.Guard? then th1.Cas? else th1.Publish?
  {
    hide Absent, HeadOf;
  }

  lemma PublishAnswers(h: Hash, m0: Mem, m: Mem, tid: nat, th: Thread, m1: Mem, th1: Thread, t: Text)
    requires MemOk(h, m0) && OneOk(h, m, tid, th) && LookupStep(h, m, th, m1, th1)
    requires th.Publish? && Made(h, m0, m, th, t)
    ensures th1.Done? && th1.t == t && Answered(m0, m1, t, th1.i)
  {
    hide TableOk, ChainsOk, Distinct, BuildOk, Bucket;
    if t.unique {
      forall x: nat ensures !Exists(m0, t, x) { assert AtomOk(m0, x); }
    }
  }

  /** An atom with text `t` that is linked but not valid belongs to another thread. */
  lemma LinkedValid(h: Hash, s: State, tid: nat, t: Text, i: nat)
    requires Inv(h, s) && Claimed(s) && OthersAway(s, tid, t) && tid in s.threads && Looking(s.threads[tid])
    requires Cell(s.mem, i).text == Some(t) && i in TableAt(s.mem, Cur(s.mem)).order
    ensures Cell(s.mem, i).life == Valid
  {
    hide ChainsOk, Distinct, AtomsOk, BuildOk, HeadsOk, BelowOk, OneOk, Apart;
    assert Cell(s.mem, i).life == Reserved ==> Claims(s, i);
  }

  /** An atom that may be reserved. */
  lemma FreeAtom(h: Hash, s: State, tid: nat, t: Text) returns (i: nat)
    requires Inv(h, s) && OthersAway(s, tid, t)
    ensures MayReserve(s.mem, i)
  {
    hide ChainsOk, Distinct, TableOk, BuildOk, OneOk, Apart;
    i := s.mem.highest;
    assert AtomOk(s.mem, i);
    if Cell(s.mem, i).life == Reserved { i :| MayReserve(s.mem, i); }
  }

  /** A thread on its way can take a step that does not start a resize. */
  lemma CanMove(h: Hash, m: Mem, th: Thread, i: nat) returns (m1: Mem, th1: Thread)
    requires (Looking(th) && MayReserve(m, i)) || Making(th)
    ensures LookupStep(h, m, th, m1, th1) && !th1.WantLock?
  {
    hide HeadOf, Link, TableAt;
    m1 := m;
    match th {
      case Redo(t) => th1 := ReadHead(t, Cur(m));
      case ReadHead(t, tab) => th1 := StartWalk(t, tab, HeadOf(h, TableAt(m, tab), t));
      case StartWalk(t, tab, head) =>
        th1 := if t.unique then Walk(t, tab, head, HeadOf(h, TableAt(m, tab), t)) else NotFound(t, tab, head);
      case Walk(t, tab, head, at) =>
        th1 := if at.None? then NotFound(t, tab, head) else Compare(t, tab, head, at.value, Cell(m, at.value).life);
      case Compare(t, tab, head, x, life) =>
        th1 := if life != Free && Cell(m, x).text == Some(t) then (if life == Valid then Done(t, x) else Redo(t))
               else ReadNext(t, tab, head, x);
      case ReadNext(t, tab, head, x) => th1 := Walk(t, tab, head, Cell(m, x).next);
      case NotFound(t, tab, head) => th1 := CheckTable(t, tab, head);
      case CheckTable(t, tab, head) => th1 := if tab == Cur(m) then CheckHead(t, tab, head) else Redo(t);
      case CheckHead(t, tab, head) =>
        th1 := if HeadOf(h, TableAt(m, tab), t) == head then Reserve(t, tab, head) else Redo(t);
      case Reserve(t, tab, head) =>
        th1 := Raise(t, tab, head, i);
        m1 := Put(m, i, Cell(m, i).(life := Reserved));
      case _ => m1, th1 := CanMake(h, m, th);
    }
  }

  lemma CanMake(h: Hash, m: Mem, th: Thread) returns (m1: Mem, th1: Thread)
    requires Making(th)
    ensures LookupStep(h, m, th, m1, th1) && !th1.WantLock?
  {
    hide HeadOf, Link, TableAt;
    m1 := m;
    match th {
      case Raise(t, tab, head, i) =>
        th1 := Fill(t, tab, head, i);
        m1 := m.(highest := if m.highest == i then i + 1 else m.highest);
      case Fill(t, tab, head, i) =>
        th1 := if t.unique then ReadLink(t, tab, head, i) else Publish(t, i);
        m1 := Put(m, i, Cell(m, i).(text := Some(t)));
      case ReadLink(t, tab, head, i) => th1 := WriteLink(t, tab, head, i, HeadOf(h, TableAt(m, tab), t));
      case WriteLink(t, tab, head, i, n) =>
        th1 := Guard(t, tab, head, i);
        m1 := Put(m, i, Cell(m, i).(next := n));
      case Guard(t, tab, head, i) => th1 := if Rehashing(m) then Undo(t, i) else Cas(t, tab, head, i);
      case Cas(t, tab, head, i) =>
        th1 := Undo(t, i);
        if tab < |m.tables| && HeadOf(h, m.tables[tab], t) == head {
          th1 := Recheck(t, tab, head, i);
          m1 := m.(tables := m.tables[tab := Link(h, m.tables[tab], t, i)]);
        }
      case Recheck(t, tab, head, i) => th1 := if tab == Cur(m) then Publish(t, i) else Undo(t, i);
      case Publish(t, i) =>
        th1 := Done(t, i);
        m1 := Put(m, i, Cell(m, i).(life := Valid));
    }
  }

  // ----- from the start to the answer -----

  /** A step of thread `tid`, which has not finished and does not start a resize. */
  ghost predicate SoloStep(h: Hash, tid: nat, s: State, s1: State) {
    Next(h, s, tid, s1) && !s.threads[tid].Done? && !s1.threads[tid].WantLock?
  }

  /** From state `s` on only thread `tid` takes steps. */
  ghost predicate Solo(h: Hash, s: State, tid: nat, solo: seq<State>) {
    && solo != [] && solo[0] == s
    && forall k :: 0 <= k < |solo| - 1 ==> SoloStep(h, tid, solo[k], solo[k + 1])
  }

  /** What holds at every point of such a run. */
  ghost predicate OnItsWay(h: Hash, m0: Mem, s: State, tid: nat, t: Text) {
    && Inv(h, s) && Claimed(s) && tid in s.threads && Alone(h, m0, s.mem, s.threads[tid], t)
    && (Looking(s.threads[tid]) ==> OthersAway(s, tid, t))
  }

  /** One step: nearer to the answer. */
  lemma AloneGoes(h: Hash, m0: Mem, m: Mem, tid: nat, th: Thread, m1: Mem, th1: Thread, t: Text)
    requires MemOk(h, m0) && m0.resize.Off? && OneOk(h, m, tid, th) && Alone(h, m0, m, th, t) && !th.Done?
    requires LookupStep(h, m, th, m1, th1) && !th1.WantLock?
    requires Looking(th) ==> forall i: nat ::
               Cell(m, i).text == Some(t) && i in TableAt(m, Cur(m)).order ==> Cell(m, i).life == Valid
    ensures Alone(h, m0, m1, th1, t) && StepsLeft(m1, th1) < StepsLeft(m, th)
    ensures Looking(th1) ==> Looking(th) && m1 == m
  {
    hide MemOk, OneOk, LookupStep, StepsLeft, Made, Fresh, Answered, Cell, TableAt, Exists;
    if Making(th) {
      MakeGoes(h, m0, m, tid, th, m1, th1, t);
    } else if th.NotFound? || th.CheckTable? || th.CheckHead? || th.Reserve? {
      CheckGoes(h, m, tid, th, m1, th1, t);
    } else {
      SearchGoes(h, m, tid, th, m1, th1, t);
      if th1.Done? { FoundAnswers(m, t, th1.i); }
    }
  }

  lemma FoundAnswers(m: Mem, t: Text, i: nat)
    requires t.unique && Exists(m, t, i)
    ensures Answered(m, m, t, i)
  {
  }

  lemma SoloKeeps(h: Hash, m0: Mem, s: State, tid: nat, t: Text, s1: State)
    requires MemOk(h, m0) && m0.resize.Off? && OnItsWay(h, m0, s, tid, t) && SoloStep(h, tid, s, s1)
    ensures OnItsWay(h, m0, s1, tid, t)
    ensures StepsLeft(s1.mem, s1.threads[tid]) < StepsLeft(s.mem, s.threads[tid])
  {
    hide *;
    OnItsWayHas(h, m0, s, tid, t);
    StepHas(h, tid, s, s1);
    StepKeeps(h, s, tid, s1);
    ClaimKept(h, s, tid, s1);
    MineFacts(h, s, tid);
    var m, th, m1, th1 := s.mem, s.threads[tid], s1.mem, s1.threads[tid];
    OnlyLooks(h, m0, m, th, t);
    ResizesNot(h, m, tid, th, m1, th1);
    if Looking(th) {
      forall i: nat | Cell(m, i).text == Some(t) && i in TableAt(m, Cur(m)).order ensures Cell(m, i).life == Valid {
        LinkedValid(h, s, tid, t, i);
      }
    }
    AloneGoes(h, m0, m, tid, th, m1, th1, t);
    if Looking(th1) { StaysAway(s, tid, t, s1); }
    OnItsWayIs(h, m0, s1, tid, t);
  }

  lemma OnItsWayHas(h: Hash, m0: Mem, s: State, tid: nat, t: Text)
    requires OnItsWay(h, m0, s, tid, t)
    ensures Inv(h, s) && Claimed(s) && tid in s.threads && Alone(h, m0, s.mem, s.threads[tid], t)
    ensures Looking(s.threads[tid]) ==> OthersAway(s, tid, t)
  {
    hide Inv, Claimed, Alone, OthersAway, Looking;
  }

  lemma OnItsWayIs(h: Hash, m0: Mem, s: State, tid: nat, t: Text)
    requires Inv(h, s) && Claimed(s) && tid in s.threads && Alone(h, m0, s.mem, s.threads[tid], t)
    requires Looking(s.threads[tid]) ==> OthersAway(s, tid, t)
    ensures OnItsWay(h, m0, s, tid, t)
  {
    hide Inv, Claimed, Alone, OthersAway, Looking;
  }

  lemma StepHas(h: Hash, tid: nat, s: State, s1: State)
    requires SoloStep(h, tid, s, s1)
    ensures Next(h, s, tid, s1) && tid in s.threads && tid in s1.threads && !s.threads[tid].Done?
    ensures !s1.threads[tid].WantLock?
    ensures ThreadStep(h, s.mem, tid, s.threads[tid], s1.mem, s1.threads[tid])
    ensures s1.threads == s.threads[tid := s1.threads[tid]]
  {
    hide ThreadStep;
  }

  lemma OnlyLooks(h: Hash, m0: Mem, m: Mem, th: Thread, t: Text)
    requires Alone(h, m0, m, th, t) && !th.Done?
    ensures Looking(th) || Making(th)
  {
    hide Fresh, Made, Answered;
  }

  lemma StaysAway(s: State, tid: nat, t: Text, s1: State)
    requires OthersAway(s, tid, t) && s1.mem == s.mem && tid in s.threads && tid in s1.threads
    requires s1.threads == s.threads[tid := s1.threads[tid]]
    ensures OthersAway(s1, tid, t)
  {
    hide Owned;
  }

  lemma ResizesNot(h: Hash, m: Mem, tid: nat, th: Thread, m1: Mem, th1: Thread)
    requires ThreadStep(h, m, tid, th, m1, th1) && (Looking(th) || Making(th))
    ensures LookupStep(h, m, th, m1, th1)
  {
    hide LookupStep;
  }

  lemma SoloMoves(h: Hash, m0: Mem, s: State, tid: nat, t: Text) returns (s1: State)
    requires OnItsWay(h, m0, s, tid, t) && !s.threads[tid].Done?
    ensures SoloStep(h, tid, s, s1)
  {
    var th := s.threads[tid];
    var i := 0;
    if Looking(th) { i := FreeAtom(h, s, tid, t); }
    hide Inv, LookupStep, ResizeStep, Made, Fresh, Answered, Claimed, OthersAway, MayReserve;
    var m1, th1 := CanMove(h, s.mem, th, i);
    s1 := State(m1, s.threads[tid := th1]);
  }

  lemma {:induction false} SoloRun(h: Hash, s: State, tid: nat, t: Text, solo: seq<State>)
    requires s.mem.resize.Off? && OnItsWay(h, s.mem, s, tid, t) && s.threads[tid] == Redo(t) && Solo(h, s, tid, solo)
    ensures var last := solo[|solo| - 1];
            && OnItsWay(h, s.mem, last, tid, t)
            && |solo| + StepsLeft(last.mem, last.threads[tid]) <= 1 + StepsLeft(s.mem, Redo(t))
    decreases |solo|
  {
    hide OnItsWay, StepsLeft, SoloStep;
    if |solo| > 1 {
      var before := solo[..|solo| - 1];
      SoloRun(h, s, tid, t, before);
      assert SoloStep(h, tid, solo[|solo| - 2], solo[|solo| - 2 + 1]);
      MemoryOk(h, s, tid, t);
      SoloKeeps(h, s.mem, before[|before| - 1], tid, t, solo[|solo| - 1]);
    }
  }

  lemma MemoryOk(h: Hash, s: State, tid: nat, t: Text)
    requires OnItsWay(h, s.mem, s, tid, t)
    ensures MemOk(h, s.mem)
  {
  }

  lemma LookupBegins(h: Hash, run: seq<State>, tid: nat, t: Text)
    requires Run(h, run)
    requires var s := run[|run| - 1]; tid in s.threads && s.threads[tid] == Redo(t) && OthersAway(s, tid, t)
    ensures var s := run[|run| - 1]; OnItsWay(h, s.mem, s, tid, t)
  {
    RunKeeps(h, run);
    RunClaimed(h, run);
    hide Inv, Claimed, OthersAway;
  }

  /** From every state that a run can reach with no resize going on, a lookup that goes on alone, without
      starting a resize, ends: after as many of its steps as three times the atoms linked and sixteen it is
      done, until then it can take a step, and then it has answered. */
  lemma LookupEnds(h: Hash, run: seq<State>, tid: nat, t: Text, solo: seq<State>)
    requires Run(h, run)
    requires var s := run[|run| - 1];
             && s.mem.resize.Off? && tid in s.threads && s.threads[tid] == Redo(t) && OthersAway(s, tid, t)
             && Solo(h, s, tid, solo)
    ensures var m0, last := run[|run| - 1].mem, solo[|solo| - 1];
            && |solo| <= 17 + 3 * |TableAt(m0, Cur(m0)).order|
            && tid in last.threads
            && if last.threads[tid].Done? then last.threads[tid].t == t
                && Answered(m0, last.mem, t, last.threads[tid].i)
               else exists s1: State :: SoloStep(h, tid, last, s1)
  {
    var s, last := run[|run| - 1], solo[|solo| - 1];
    LookupBegins(h, run, tid, t);
    hide *;
    SoloRun(h, s, tid, t, solo);
    OnItsWayHas(h, s.mem, last, tid, t);
    StepsAtStart(s.mem, t);
    if last.threads[tid].Done? {
      DoneAnswers(h, s.mem, last.mem, last.threads[tid], t);
    } else {
      var s1 := SoloMoves(h, s.mem, last, tid, t);
    }
  }

  lemma StepsAtStart(m: Mem, t: Text)
    ensures StepsLeft(m, Redo(t)) == 16 + 3 * |TableAt(m, Cur(m)).order|
  {
  }

  lemma DoneAnswers(h: Hash, m0: Mem, m: Mem, th: Thread, t: Text)
    requires Alone(h, m0, m, th, t) && th.Done?
    ensures th.t == t && Answered(m0, m, t, th.i)
  {
    hide Answered;
  }

  /** So there is a run that goes on to the answer. */
  lemma LookupAnswers(h: Hash, run: seq<State>, tid: nat, t: Text) returns (solo: seq<State>)
    requires Run(h, run)
    requires var s := run[|run| - 1];
             s.mem.resize.Off? && tid in s.threads && s.threads[tid] == Redo(t) && OthersAway(s, tid, t)
    ensures Solo(h, run[|run| - 1], tid, solo)
    ensures var last := solo[|solo| - 1];
            tid in last.threads && last.threads[tid].Done? && last.threads[tid].t == t
            && Answered(run[|run| - 1].mem, last.mem, t, last.threads[tid].i)
  {
    var s := run[|run| - 1];
    hide Run, Inv, Claimed, Answered, OthersAway, SoloStep;
    solo := [s];
    LookupEnds(h, run, tid, t, solo);
    while !solo[|solo| - 1].threads[tid].Done?
      invariant Solo(h, s, tid, solo) && tid in solo[|solo| - 1].threads
      invariant |solo| <= 17 + 3 * |TableAt(s.mem, Cur(s.mem)).order|
      decreases 17 + 3 * |TableAt(s.mem, Cur(s.mem)).order| - |solo|
    {
      LookupEnds(h, run, tid, t, solo);
      var s1: State :| SoloStep(h, tid, solo[|solo| - 1], s1);
      solo := solo + [s1];
      LookupEnds(h, run, tid, t, solo);
    }
    LookupEnds(h, run, tid, t, solo);
  }

  // ----- a resize alone -----

  /** But for the links between them the atoms are what they were. */
  ghost predicate SameAtoms(m0: Mem, m: Mem) {
    && m.highest == m0.highest
    && forall i: nat :: Cell(m, i).life == Cell(m0, i).life && Cell(m, i).text == Cell(m0, i).text
  }

  /** The newest of `tables` was added to those of `m0`; it has twice the buckets of the one before. */
  predicate Added(m0: Mem, tables: seq<Table>) {
    && |tables| == |m0.tables| + 1 && tables[..|m0.tables|] == m0.tables
    && |tables[|m0.tables|].heads| == 2 * |TableAt(m0, Cur(m0)).heads|
  }

  /** A resize that started in `m0` is going on. */
  ghost predicate Growing(m0: Mem, m: Mem, tid: nat) {
    && !m.resize.Off? && m.resize.holder == tid && SameAtoms(m0, m)
    && match m.resize
       case Locked(_) => m.tables == m0.tables && m.atoms == m0.atoms
       case Scan(_, _, upto, _, _) =>
         m.tables == m0.tables && upto <= m.highest && |m.building.heads| == 2 * |TableAt(m0, Cur(m0)).heads|
       case _ => Added(m0, m.tables)
  }

  /** It is over: there was nothing to do, or there is a new table. */
  ghost predicate Grown(m0: Mem, m: Mem) {
    m.resize.Off? && SameAtoms(m0, m) && ((m.tables == m0.tables && m.atoms == m0.atoms) || Added(m0, m.tables))
  }

  function ResizeLeft(m: Mem): nat {
    match m.resize
    case Off => 0
    case Locked(_) => 2 * m.highest + 4
    case Scan(_, index, _, block, last) =>
      3 + (if index < m.highest then m.highest - index else 0)
      + if last then 0 else 1 + if block < m.highest then m.highest - block else 0
    case Swapped(_) => 2
    case Unlocking(_) => 1
  }

  lemma {:induction false} PowerAbove(n: nat)
    ensures Power(n) > n
  {
    if n > 0 { PowerAbove(n - 1); }
  }

  /** Each step of the scan goes on in the array, takes in its next block, or ends the scan. */
  lemma ScanGoes(h: Hash, m0: Mem, m: Mem, tid: nat)
    requires Growing(m0, m, tid) && m.resize.Scan? && forall i: nat :: Cell(m0, i).life != Reserved
    ensures var r := m.resize;
            var m1 := ScanStep(h, m, r.index, r.upto, r.block, r.last);
            Growing(m0, m1, tid) && ResizeLeft(m1) < ResizeLeft(m)
  {
    hide TableAt, Cur;
    var r := m.resize;
    if r.index < r.upto {
      assert Cell(m0, r.index).life != Reserved;
      PassGoes(h, m0, m, tid);
    } else if r.last {
      var tables := m.tables + [m.building];
      assert tables[..|m0.tables|] == m0.tables;
    } else {
      PowerAbove(r.block);
    }
  }

  lemma PassGoes(h: Hash, m0: Mem, m: Mem, tid: nat)
    requires Growing(m0, m, tid) && m.resize.Scan? && m.resize.index < m.resize.upto
    requires Cell(m, m.resize.index).life != Reserved
    ensures var r := m.resize;
            var m1 := ScanStep(h, m, r.index, r.upto, r.block, r.last);
            Growing(m0, m1, tid) && ResizeLeft(m1) < ResizeLeft(m)
  {
    hide TableAt, Cur, HeadOf, Power;
  }

  lemma ResizeGoes(h: Hash, m0: Mem, m: Mem, tid: nat, th: Thread, m1: Mem, th1: Thread)
    requires Growing(m0, m, tid) && th.Resizing? && 1 <= m.highest && forall i: nat :: Cell(m0, i).life != Reserved
    requires ResizeStep(h, m, tid, th, m1, th1)
    ensures if th1.Resizing? then th1 == th && Growing(m0, m1, tid) && ResizeLeft(m1) < ResizeLeft(m)
            else th1 == CheckTable(th.t, th.tab, th.head) && Grown(m0, m1)
  {
    if m.resize.Scan? { ScanGoes(h, m0, m, tid); }
    hide ScanStep, TableAt, Cur, Added, Cell;
  }

  /** A step of thread `tid`, which is resizing. */
  ghost predicate ResizingStep(h: Hash, tid: nat, s: State, s1: State) {
    Next(h, s, tid, s1) && s.threads[tid].Resizing?
  }

  ghost predicate SoloResize(h: Hash, s: State, tid: nat, solo: seq<State>) {
    && solo != [] && solo[0] == s
    && forall k :: 0 <= k < |solo| - 1 ==> ResizingStep(h, tid, solo[k], solo[k + 1])
  }

  /** The thread resizes, and no atom is reserved; or it has finished. */
  ghost predicate ResizeRuns(m0: Mem, s: State, tid: nat, th0: Thread) {
    && tid in s.threads && th0.Resizing? && 1 <= m0.highest && (forall i: nat :: Cell(m0, i).life != Reserved)
    && if s.threads[tid].Resizing? then s.threads[tid] == th0 && Growing(m0, s.mem, tid)
       else s.threads[tid] == CheckTable(th0.t, th0.tab, th0.head) && Grown(m0, s.mem)
  }

  function StepsToResize(s: State, tid: nat): nat {
    if tid in s.threads && s.threads[tid].Resizing? then ResizeLeft(s.mem) else 0
  }

  lemma ResizeRunsOn(h: Hash, m0: Mem, s: State, tid: nat, th0: Thread, s1: State)
    requires ResizeRuns(m0, s, tid, th0) && ResizingStep(h, tid, s, s1)
    ensures ResizeRuns(m0, s1, tid, th0) && StepsToResize(s1, tid) < StepsToResize(s, tid)
  {
    hide ResizeStep, LookupStep, Grown, Added;
    NoLookup(h, s.mem, tid, s.threads[tid], s1.mem, s1.threads[tid]);
    ResizeGoes(h, m0, s.mem, tid, s.threads[tid], s1.mem, s1.threads[tid]);
    ResizeTakes(s.mem, tid);
  }

  lemma NoLookup(h: Hash, m: Mem, tid: nat, th: Thread, m1: Mem, th1: Thread)
    requires ThreadStep(h, m, tid, th, m1, th1) && th.Resizing?
    ensures ResizeStep(h, m, tid, th, m1, th1)
  {
    hide ResizeStep;
  }

  lemma ResizeTakes(m: Mem, tid: nat)
    requires !m.resize.Off?
    ensures ResizeLeft(m) > 0
  {
  }

  lemma CanResize(h: Hash, m0: Mem, s: State, tid: nat, th0: Thread) returns (s1: State)
    requires ResizeRuns(m0, s, tid, th0) && s.threads[tid].Resizing?
    ensures ResizingStep(h, tid, s, s1)
  {
    hide ScanStep, LookupStep, Added, Cell, TableAt, Cur;
    var m, th1 := s.mem, s.threads[tid];
    var m1 := match m.resize
              case Scan(_, index, upto, block, last) => ScanStep(h, m, index, upto, block, last)
              case Swapped(_) => m.(resize := Unlocking(tid))
              case _ => m.(resize := Off);
    if m.resize.Locked? || m.resize.Unlocking? { th1 := CheckTable(th0.t, th0.tab, th0.head); }
    s1 := State(m1, s.threads[tid := th1]);
    assert ResizeStep(h, m, tid, s.threads[tid], m1, th1);
  }

  lemma {:induction false} ResizeRun(h: Hash, s: State, tid: nat, solo: seq<State>)
    requires tid in s.threads && ResizeRuns(s.mem, s, tid, s.threads[tid]) && SoloResize(h, s, tid, solo)
    ensures var last := solo[|solo| - 1];
            && ResizeRuns(s.mem, last, tid, s.threads[tid])
            && |solo| + StepsToResize(last, tid) <= 1 + StepsToResize(s, tid)
    decreases |solo|
  {
    hide ResizeRuns, StepsToResize, ResizingStep;
    if |solo| > 1 {
      var before := solo[..|solo| - 1];
      ResizeRun(h, s, tid, before);
      assert ResizingStep(h, tid, solo[|solo| - 2], solo[|solo| - 2 + 1]);
      ResizeRunsOn(h, s.mem, before[|before| - 1], tid, s.threads[tid], solo[|solo| - 1]);
    }
  }

  lemma ResizeBegins(h: Hash, run: seq<State>, tid: nat)
    requires Run(h, run)
    requires var s := run[|run| - 1];
             && tid in s.threads && s.threads[tid].Resizing? && s.mem.resize.Locked?
             && forall o :: o in s.threads ==> Owned(s.threads[o]).None?
    ensures var s := run[|run| - 1]; ResizeRuns(s.mem, s, tid, s.threads[tid])
  {
    RunKeeps(h, run);
    RunClaimed(h, run);
    var s := run[|run| - 1];
    MineFacts(h, s, tid);
    hide Run, TableOk, AtomsOk, BuildOk, Distinct, ChainsOk, ThreadOk;
    forall i: nat ensures Cell(s.mem, i).life != Reserved {
      assert Cell(s.mem, i).life == Reserved ==> Claims(s, i);
    }
  }

  /** From every state that a run can reach in which a thread has just got the lock and no thread holds an
      atom, the resize ends when left alone: after as many steps as twice the highest index and four it has
      changed nothing, or has added a table with twice the buckets, and the lock is free. */
  lemma ResizeEnds(h: Hash, run: seq<State>, tid: nat, solo: seq<State>)
    requires Run(h, run)
    requires var s := run[|run| - 1];
             && tid in s.threads && s.threads[tid].Resizing? && s.mem.resize.Locked?
             && (forall o :: o in s.threads ==> Owned(s.threads[o]).None?)
             && SoloResize(h, s, tid, solo)
    ensures var s, last := run[|run| - 1], solo[|solo| - 1];
            && |solo| <= 5 + 2 * s.mem.highest
            && tid in last.threads
            && if last.threads[tid].Resizing? then exists s1: State :: ResizingStep(h, tid, last, s1)
               else last.threads[tid].CheckTable? && Grown(s.mem, last.mem)
  {
    var s, last := run[|run| - 1], solo[|solo| - 1];
    assert StepsToResize(s, tid) == 4 + 2 * s.mem.highest;
    hide Run, Owned, SoloResize, Growing, Grown, StepsToResize, ResizingStep;
    ResizeBegins(h, run, tid);
    ResizeRun(h, s, tid, solo);
    if last.threads[tid].Resizing? { var s1 := CanResize(h, s.mem, last, tid, s.threads[tid]); }
  }
}
