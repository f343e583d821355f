// The lock-free atom table: any number of threads look up or create atoms while the table is resized.
//
// Every shared read or write is a step of its own, taken by one thread at a time.  Memory is
// sequentially consistent and no atom is collected.

module AtomTable {
  datatype Option<T> = None | Some(value: T)

  /** What an atom stands for; `unique` when its blob type keeps one atom per text. */
  datatype Text = Text(id: nat, unique: bool)

  /** The state bits of the reference word.  A valid atom is also reserved. */
  datatype Life = Free | Reserved | Valid

  /** An element of the atom array; `text` is None when its type is the invalid type. */
  datatype Atom = Atom(life: Life, text: Option<Text>, next: Option<nat>)

  const VIRGIN := Atom(Free, None, None)

  /** A hash table.  `order` is not part of the program's state: it records when each atom was linked. */
  datatype Table = Table(heads: seq<Option<nat>>, order: map<nat, nat>)

  /** The resize in progress, with the thread that holds the lock. */
  datatype Resize =
    | Off
    | Locked(holder: nat)
    | Scan(holder: nat, index: nat, upto: nat, block: nat, last: bool)
    | Swapped(holder: nat)
    | Unlocking(holder: nat)

  /** The last of `tables` is the current one; older ones may still be in use by slow threads. */
  datatype Mem = Mem(atoms: map<nat, Atom>, tables: seq<Table>, highest: nat, resize: Resize, building: Table)

  /** Where a thread is in lookupBlob.  `tab` and `head` are what it read at the last `redo`. */
  datatype Thread =
    | Idle
    | Redo(t: Text)
    | ReadHead(t: Text, tab: nat)
    | StartWalk(t: Text, tab: nat, head: Option<nat>)
    | Walk(t: Text, tab: nat, head: Option<nat>, at: Option<nat>)
    | Compare(t: Text, tab: nat, head: Option<nat>, i: nat, life: Life)
    | ReadNext(t: Text, tab: nat, head: Option<nat>, i: nat)
    | NotFound(t: Text, tab: nat, head: Option<nat>)
    | WantLock(t: Text, tab: nat, head: Option<nat>)
    | Resizing(t: Text, tab: nat, head: Option<nat>)
    | CheckTable(t: Text, tab: nat, head: Option<nat>)
    | CheckHead(t: Text, tab: nat, head: Option<nat>)
    | Reserve(t: Text, tab: nat, head: Option<nat>)
    | Raise(t: Text, tab: nat, head: Option<nat>, i: nat)
    | Fill(t: Text, tab: nat, head: Option<nat>, i: nat)
    | ReadLink(t: Text, tab: nat, head: Option<nat>, i: nat)
    | WriteLink(t: Text, tab: nat, head: Option<nat>, i: nat, n: Option<nat>)
    | Guard(t: Text, tab: nat, head: Option<nat>, i: nat)
    | Cas(t: Text, tab: nat, head: Option<nat>, i: nat)
    | Recheck(t: Text, tab: nat, head: Option<nat>, i: nat)
    | Undo(t: Text, i: nat)
    | Release(t: Text, i: nat)
    | Publish(t: Text, i: nat)
    | Done(t: Text, i: nat)

  datatype State = State(mem: Mem, threads: map<nat, Thread>)

  type Hash = Text -> nat

  function Cell(m: Mem, i: nat): Atom {
    if i in m.atoms then m.atoms[i] else VIRGIN
  }

  function Cur(m: Mem): nat {
    if |m.tables| == 0 then 0 else |m.tables| - 1
  }

  function Bucket(h: Hash, tbl: Table, t: Text): nat {
    if |tbl.heads| == 0 then 0 else h(t) % |tbl.heads|
  }

  function HeadOf(h: Hash, tbl: Table, t: Text): Option<nat> {
    if |tbl.heads| == 0 then None else tbl.heads[Bucket(h, tbl, t)]
  }

  function TableAt(m: Mem, tab: nat): Table {
    if tab < |m.tables| then m.tables[tab] else Table([], map[])
  }

  /** The flag `rehashing`. */
  predicate Rehashing(m: Mem) {
    m.resize.Scan? || m.resize.Swapped?
  }

  function Put(m: Mem, i: nat, a: Atom): Mem {
    m.(atoms := m.atoms[i := a])
  }

  /** Make atom `i` the head of its bucket. */
  function Link(h: Hash, tbl: Table, t: Text, i: nat): Table {
    if |tbl.heads| == 0 then tbl
    else Table(tbl.heads[Bucket(h, tbl, t) := Some(i)], tbl.order[i := |tbl.order|])
  }

  /** Any free atom may be reserved, or the first one never used. */
  predicate MayReserve(m: Mem, i: nat) {
    1 <= i <= m.highest && Cell(m, i).life == Free
  }

  function Empty(n: nat): (tbl: Table)
    ensures |tbl.heads| == n && tbl.order == map[] && forall v :: 0 <= v < n ==> tbl.heads[v] == None
  {
    Table(seq(n, _ => None), map[])
  }

  function Power(n: nat): nat {
    if n == 0 then 1 else 2 * Power(n - 1)
  }

  /** One step of a thread that is not resizing: what it does to memory, and where it goes. */
  predicate LookupStep(h: Hash, m: Mem, th: Thread, m1: Mem, th1: Thread) {
    match th
    case Idle => m1 == m && th1.Redo?
    case Redo(t) => m1 == m && th1 == ReadHead(t, Cur(m))
    case ReadHead(t, tab) => m1 == m && th1 == StartWalk(t, tab, HeadOf(h, TableAt(m, tab), t))
    case StartWalk(t, tab, head) =>
      m1 == m && th1 == if t.unique then Walk(t, tab, head, HeadOf(h, TableAt(m, tab), t)) else NotFound(t, tab, head)
    case Walk(t, tab, head, at) =>
      m1 == m && th1 == if at.None? then NotFound(t, tab, head)
          else Compare(t, tab, head, at.value, Cell(m, at.value).life)
    case Compare(t, tab, head, i, life) =>
      m1 == m && th1 == if life != Free && Cell(m, i).text == Some(t)
          then (if life == Valid then Done(t, i) else Redo(t))
                        else ReadNext(t, tab, head, i)
    case ReadNext(t, tab, head, i) => m1 == m && th1 == Walk(t, tab, head, Cell(m, i).next)
    case NotFound(t, tab, head) => m1 == m && (th1 == CheckTable(t, tab, head) || th1 == WantLock(t, tab, head))
    case CheckTable(t, tab, head) => m1 == m && th1 == if tab == Cur(m) then CheckHead(t, tab, head) else Redo(t)
    case CheckHead(t, tab, head) =>
      m1 == m && th1 == if HeadOf(h, TableAt(m, tab), t) == head then Reserve(t, tab, head) else Redo(t)
    case Reserve(t, tab, head) =>
      th1.Raise? && th1 == Raise(t, tab, head, th1.i) && MayReserve(m, th1.i) && m1 ==
          Put(m, th1.i, Cell(m, th1.i).(life := Reserved))
    case Raise(t, tab, head, i) =>
      m1 == m.(highest := if m.highest == i then i + 1 else m.highest) && th1 == Fill(t, tab, head, i)
    case Fill(t, tab, head, i) =>
      m1 == Put(m, i, Cell(m, i).(text := Some(t))) && th1 == if t.unique then ReadLink(t, tab, head, i)
          else Publish(t, i)
    case ReadLink(t, tab, head, i) => m1 == m && th1 == WriteLink(t, tab, head, i, HeadOf(h, TableAt(m, tab), t))
    case WriteLink(t, tab, head, i, n) => m1 == Put(m, i, Cell(m, i).(next := n)) && th1 == Guard(t, tab, head, i)
    case Guard(t, tab, head, i) => m1 == m && th1 == if Rehashing(m) then Undo(t, i) else Cas(t, tab, head, i)
    case Cas(t, tab, head, i) =>
      if tab < |m.tables| && HeadOf(h, m.tables[tab], t) == head then
        m1 == m.(tables := m.tables[tab := Link(h, m.tables[tab], t, i)]) && th1 == Recheck(t, tab, head, i)
      else m1 == m && th1 == Undo(t, i)
    case Recheck(t, tab, head, i) => m1 == m && th1 == if tab == Cur(m) then Publish(t, i) else Undo(t, i)
    case Undo(t, i) => m1 == Put(m, i, Cell(m, i).(text := None)) && th1 == Release(t, i)
    case Release(t, i) => m1 == Put(m, i, Cell(m, i).(life := Free)) && th1 == Redo(t)
    case Publish(t, i) => m1 == Put(m, i, Cell(m, i).(life := Valid)) && th1 == Done(t, i)
    case Done(_, _) => m1 == m && th1 == Idle
    case WantLock(_, _, _) => false
    case Resizing(_, _, _) => false
  }

  /** One step of rehashAtoms by the thread that holds the lock. */
  predicate ResizeStep(h: Hash, m: Mem, tid: nat, th: Thread, m1: Mem, th1: Thread) {
    match th
    case WantLock(t, tab, head) => m.resize.Off? && m1 == m.(resize := Locked(tid)) && th1 == Resizing(t, tab, head)
    case Resizing(t, tab, head) =>
      (match m.resize
       case Locked(_) =>
         || (m1 == m.(resize := Off) && th1 == CheckTable(t, tab, head))
         || (th1 == th && m1 == m.(resize := Scan(tid, 1, 1, 0, false),
             building := Empty(2 * |TableAt(m, Cur(m)).heads|)))
       case Scan(_, index, upto, block, last) => th1 == th && m1 == ScanStep(h, m, index, upto, block, last)
       case Swapped(_) => th1 == th && m1 == m.(resize := Unlocking(tid))
       case Unlocking(_) => m1 == m.(resize := Off) && th1 == CheckTable(t, tab, head)
       case Off => false)
    case _ => false
  }

  /** Visit one atom, start the next block of the array, or switch to the new table.  A reserved atom
      that is not yet valid is waited for. */
  function ScanStep(h: Hash, m: Mem, index: nat, upto: nat, block: nat, last: bool): Mem
    requires m.resize.Scan?
  {
    if index < upto then
      var a := Cell(m, index);
      if a.life == Reserved then m
      else
        var next := m.(resize := m.resize.(index := index + 1));
        if a.life == Valid && a.text.Some? && a.text.value.unique then
          Put(next, index, a.(next := HeadOf(h, m.building, a.text.value))).(building := Link(h, m.building,
              a.text.value, index))
        else next
    else if last then m.(tables := m.tables + [m.building], resize := Swapped(m.resize.holder))
    else
      var end := 2 * Power(block);
      m.(resize := m.resize.(upto := if end >= m.highest then m.highest else end, last := end >= m.highest,
          block := block + 1))
  }

  predicate ThreadStep(h: Hash, m: Mem, tid: nat, th: Thread, m1: Mem, th1: Thread) {
    LookupStep(h, m, th, m1, th1) || ResizeStep(h, m, tid, th, m1, th1)
  }

  /** Some thread takes a step. */
  predicate Next(h: Hash, s: State, tid: nat, s1: State) {
    && tid in s.threads && tid in s1.threads
    && ThreadStep(h, s.mem, tid, s.threads[tid], s1.mem, s1.threads[tid])
    && s1.threads == s.threads[tid := s1.threads[tid]]
  }

  /** An empty table of any size and any number of threads that have not started. */
  predicate Init(s: State) {
    && |s.mem.tables| == 1 && |s.mem.tables[0].heads| > 0 && s.mem.tables[0] == Empty(|s.mem.tables[0].heads|)
    && s.mem.atoms == map[] && s.mem.highest == 1 && s.mem.resize == Off
    && forall tid :: tid in s.threads ==> s.threads[tid] == Idle
  }

  ghost predicate Moves(h: Hash, s: State, s1: State) {
    exists tid: nat :: Next(h, s, tid, s1)
  }

  /** A run: each state follows from the one before by a step of some thread. */
  ghost predicate Run(h: Hash, run: seq<State>) {
    && run != []
    && if |run| == 1 then Init(run[0])
       else Run(h, run[..|run| - 1]) && Moves(h, run[|run| - 2], run[|run| - 1])
  }
}
