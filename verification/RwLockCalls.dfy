/** rwlock.c, in place on the heap. */
module RwLockCalls {
  import opened Types
  import opened Sequences
  import opened Spec
  import opened Invariants
  import opened Heap
  import opened Scheduling
  import opened Steps
  import opened Frames
  import opened RwLockSteps
  import opened Os
  import opened Dispatching
  import opened Service
  import opened Calls

  // --------------------------------------------------------------- blocked list

  method SetLockLink(task: Task, rwlock: RwLock, ghost ts0: map<Task, TaskV>, ghost ts1: map<Task, TaskV>)
    requires TasksHold(ts0) && task in ts0 && ts0[task].back == NoObj && task in ts1 && ts1 == ts0[task := ts1[task]]
    requires ts1[task] == ts0[task].(back := OnRwLock(rwlock), call := ts1[task].call)
    modifies task`rwlock
    ensures TasksHold(ts1)
  {
    assert Holds(task, ts0[task]);
    assert task.rwlock == null;
    task.rwlock := rwlock;
  }

  /** blocked_enq */
  method BlockedEnq(k: Globals, rwlock: RwLock, task: Task, ghost v: View, ghost call: Call)
    requires Core(k, v) && task == v.running && OnRwLock(rwlock) in v.lists
    requires task in v.t && v.t[task].back == NoObj
    modifies k.cells, v.tasks`nblocked, task`rwlock
    ensures Core(k, Attach(v, OnRwLock(rwlock), call))
  {
    hide Known, OwnCells, QueuesHold, TasksHold, ListsHold, Attach;
    ghost var o := OnRwLock(rwlock);
    AttachFacts(v, o, call);
    KnownTasks(v);
    ghost var a := Attach(v, o, call);
    CellKnown(o, v.lists.Keys, k.cells);
    AppendTo(rwlock.blocked, task, o, v.lists, v.t, a.t, k.cells);
    SetLockLink(task, rwlock, v.t, a.t);
  }

  method Park(k: Globals, rwlock: RwLock, to: nat, now: nat, ghost v: View, ghost call: Call)
    requires Core(k, v) && Known(v) && v.running in v.t && OnRwLock(rwlock) in v.lists
    requires v.t[v.running].back == NoObj && MayPark(Enlist(v, OnRwLock(rwlock), call), to, now)
    modifies k`runqueue, k`waitqueue, k`scheduled, k.cells, v.tasks
    ensures Core(k, Block(v, OnRwLock(rwlock), call, to, now))
  {
    hide Core, Block, Enlist, MayPark, Attach, Known;
    CoreRunning(k, v);
    BlockedEnq(k, rwlock, k.running, v, call);
    SvcBlock(k, to, FLAG_RWLOCK, now, v, OnRwLock(rwlock), call);
  }

  // ------------------------------------------------------------------ counters

  method SetLock(r: RwLock, readers: nat, writers: nat, writer: Task?, ghost rv: RwLockV,
                 ghost rwlocks: map<RwLock, RwLockV>)
    requires RwLocksHold(rwlocks) && r in rwlocks
    requires rv.readers == readers && rv.writers == writers && rv.writer == writer
    modifies r`readers, r`writers, r`writer
    ensures RwLocksHold(rwlocks[r := rv]) && r.readers == readers && r.writers == writers && r.writer == writer
  {
    r.readers := readers;
    r.writers := writers;
    r.writer := writer;
  }

  method SetLockIn(k: Globals, r: RwLock, readers: nat, writers: nat, writer: Task?, ghost rv: RwLockV, ghost v: View)
    requires Core(k, v) && RwLocksHold(v.rwlocks) && r in v.rwlocks
    requires rv.readers == readers && rv.writers == writers && rv.writer == writer
    modifies r`readers, r`writers, r`writer
    ensures Core(k, v.(rwlocks := v.rwlocks[r := rv])) && RwLocksHold(v.rwlocks[r := rv])
    ensures r.readers == readers && r.writers == writers && r.writer == writer
  {
    hide Core, RwLocksHold;
    CoreSame(k, v, v.(rwlocks := v.rwlocks[r := rv]));
    SetLock(r, readers, writers, writer, rv, v.rwlocks);
  }

  /** A lock's counters changed, and nothing else. */
  method PutLock(k: Globals, r: RwLock, readers: nat, writers: nat, writer: Task?, ghost rv: RwLockV, ghost v: View)
    requires Rep(k, v) && r in v.rwlocks && rv.readers == readers && rv.writers == writers && rv.writer == writer
    modifies r`readers, r`writers, r`writer
    ensures Rep(k, v.(rwlocks := v.rwlocks[r := rv]))
    ensures r.readers == readers && r.writers == writers && r.writer == writer
  {
    hide Core, OwnRings, MutexesHold, RingsHold, RwLocksHold;
    SetLockIn(k, r, readers, writers, writer, rv, v);
  }

  /** What the calls on a lock look at. */
  lemma LockFields(k: Globals, v: View, r: RwLock)
    requires Inv(v) && Rep(k, v) && RwLockKnown(v, r)
    ensures r in v.rwlocks && OnRwLock(r) in v.lists && RwLockHolds(r, v.rwlocks[r])
    ensures k.running == v.running && v.running in v.t && v.t[v.running].back == NoObj && v.running.rwlock == null
    ensures v.scheduled == null && Known(v) && v.t.Keys == v.tasks
    ensures v.rwlocks[r].readers < UINT16_LIMIT && v.rwlocks[r].writers <= 1
  {
    InvHanded(v);
    assert Holds(v.running, v.t[v.running]);
    Facts(v, OnRwLock(r));
    hide Mid;
  }

  // ------------------------------------------------------------------- acquire

  lemma LockParks(v: View, r: RwLock, call: Call, to: nat, now: nat)
    requires Inv(v) && RwLockKnown(v, r) && CanWait(v, to, now) && (call == Read || call == Write)
    requires v.rwlocks[r].readers > 0 || v.rwlocks[r].writers > 0
    ensures Known(v) && v.running in v.t
    ensures var w, o := Worded(v, v.running, Desired(call)), OnRwLock(r);
      && Known(w) && o in w.lists && w.t[v.running].back == NoObj
      && MayPark(Enlist(w, o, call), to, now) && SameObjects(w, Block(w, o, call, to, now))
  {
    hide Inv, Yields, Block, MayPark, Enlist, ParkedState, Return, SameObjects;
    var o := OnRwLock(r);
    Facts(v, o);
    var w := Worded(v, v.running, Desired(call));
    RwLockParks(v, r, call, to, now);
    ParkFacts(v, w, o, call, to, now, Return(v, Out(Block(w, o, call, to, now), Status0(OSS_ERROR_TO))));
  }

  lemma LockCases(v: View, r: RwLock, to: nat, now: nat)
    requires Known(v) && RwLockKnown(v, r) && v.running in v.t && to > 0 && OnRwLock(r) in v.lists
    ensures Known(Worded(v, v.running, Desired(Read))) && Known(Worded(v, v.running, Desired(Write)))
    ensures v.rwlocks[r].writers > 0 ==>
      (AcquireRead(v, r, to, now) ==
       Out(Block(Worded(v, v.running, Desired(Read)), OnRwLock(r), Read, to, now), Status0(OSS_ERROR_TO)))
    ensures v.rwlocks[r].readers > 0 || v.rwlocks[r].writers > 0 ==>
      (AcquireWrite(v, r, to, now) ==
       Out(Block(Worded(v, v.running, Desired(Write)), OnRwLock(r), Write, to, now), Status0(OSS_ERROR_TO)))
  {
    hide Block;
  }

  /** Say what is wanted. */
  method Wish(k: Globals, task: Task, c: Word, ghost v: View)
    requires Rep(k, v) && task in v.t && task in v.tasks
    modifies task`c
    ensures Rep(k, Worded(v, task, c))
  {
    hide Core, OwnRings, MutexesHold, RingsHold, RwLocksHold;
    SetWordIn(k, task, c, v);
  }

  method ParkWith(k: Globals, rwlock: RwLock, to: nat, now: nat, ghost w: View, ghost call: Call)
    requires Rep(k, w) && Known(w) && w.running in w.t && OnRwLock(rwlock) in w.lists
    requires w.t[w.running].back == NoObj && MayPark(Enlist(w, OnRwLock(rwlock), call), to, now)
    requires SameObjects(w, Block(w, OnRwLock(rwlock), call, to, now))
    modifies k`runqueue, k`waitqueue, k`scheduled, k.cells, w.tasks
    ensures Rep(k, Block(w, OnRwLock(rwlock), call, to, now))
  {
    hide Core, ObjectsHold, Known, Block, Enlist, MayPark, SameObjects;
    Park(k, rwlock, to, now, w, call);
    ObjectsSame(k, w, Block(w, OnRwLock(rwlock), call, to, now));
  }

  /** osi_rwlock_acquire_read */
  method AcquireForRead(k: Globals, rwlock: RwLock, to: nat, now: nat, ghost v: View) returns (status: nat)
    requires Inv(v) && Rep(k, v) && RwLockKnown(v, rwlock) && CanBlock(v, to, now)
    modifies k`runqueue, k`waitqueue, k`scheduled, k.cells, v.tasks, rwlock`readers, rwlock`writers, rwlock`writer
    ensures Rep(k, AcquireRead(v, rwlock, to, now).v) && AcquireRead(v, rwlock, to, now).r == Status0(status)
  {
    hide Inv, Rep, Block, Enlist, MayPark, SameObjects, Known, RwLockKnown;
    LockFields(k, v, rwlock);
    var task := k.running;
    assert task.rwlock == null;
    ghost var rv := v.rwlocks[rwlock];
    if rwlock.writers == 0 {
      var readers := (rwlock.readers + 1) % UINT16_LIMIT;
      PutLock(k, rwlock, readers, 0, rwlock.writer,
              rv.(readers := (rv.readers + 1) % UINT16_LIMIT, holds := rv.holds + multiset{task}), v);
      return OSS_SUCCESS;
    }
    if to == 0 {
      return OSS_ERROR_TO;
    }
    LockParks(v, rwlock, Read, to, now);
    LockCases(v, rwlock, to, now);
    Wish(k, task, DESIRED_READ, v);
    ParkWith(k, rwlock, to, now, Worded(v, task, DESIRED_READ), Read);
    return OSS_ERROR_TO;
  }

  /** osi_rwlock_acquire_write */
  method AcquireForWrite(k: Globals, rwlock: RwLock, to: nat, now: nat, ghost v: View) returns (status: nat)
    requires Inv(v) && Rep(k, v) && RwLockKnown(v, rwlock) && CanBlock(v, to, now)
    modifies k`runqueue, k`waitqueue, k`scheduled, k.cells, v.tasks, rwlock`readers, rwlock`writers, rwlock`writer
    ensures Rep(k, AcquireWrite(v, rwlock, to, now).v) && AcquireWrite(v, rwlock, to, now).r == Status0(status)
    ensures status == OSS_SUCCESS ==> rwlock.readers == 0 && rwlock.writers == 1
  {
    hide Inv, Rep, Block, Enlist, MayPark, SameObjects, Known, RwLockKnown;
    LockFields(k, v, rwlock);
    var task := k.running;
    assert task.rwlock == null;
    ghost var rv := v.rwlocks[rwlock];
    if rwlock.readers == 0 && rwlock.writers == 0 {
      PutLock(k, rwlock, 0, rwlock.writers + 1, task, rv.(writers := rv.writers + 1, writer := task), v);
      return OSS_SUCCESS;
    }
    if to == 0 {
      return OSS_ERROR_TO;
    }
    LockParks(v, rwlock, Write, to, now);
    LockCases(v, rwlock, to, now);
    Wish(k, task, DESIRED_WRITE, v);
    ParkWith(k, rwlock, to, now, Worded(v, task, DESIRED_WRITE), Write);
    return OSS_ERROR_TO;
  }

  // ------------------------------------------------------------------- release

  /** The writer at the head has left the list: it gets the lock, and its frame says so. */
  function WriterIn(p: View, r: RwLock, x: Task): View
    requires r in p.rwlocks && x in p.t
  {
    var rv := p.rwlocks[r];
    var p1 := Worded(p, x, DESIRED_NONE);
    SetRet(p1.(rwlocks := p.rwlocks[r := rv.(writers := rv.writers + 1, writer := x)]), x,
           p.t[x].ret.(status := OSS_SUCCESS))
  }

  lemma WriterSteps(d: View, r: RwLock)
    requires Known(d) && RwLockKnown(d, r) && |d.lists[OnRwLock(r)]| > 0
    ensures var x, p := d.lists[OnRwLock(r)][0], PopBlocked(d, OnRwLock(r));
      && x in d.t && x in p.t && x in d.tasks && r in d.rwlocks && r in p.rwlocks && p.rwlocks == d.rwlocks
      && GrantWrite(d, r) == WriterIn(p, r, x)
      && GrantWrite(d, r).mutexes == d.mutexes && GrantWrite(d, r).queues == d.queues
      && GrantWrite(d, r).tasks == d.tasks
  {
    var x := d.lists[OnRwLock(r)][0];
    SetTwice(d.t, x, d.t[x].(c := DESIRED_NONE), d.t[x].(c := DESIRED_NONE, ret := d.t[x].ret.(status := OSS_SUCCESS)));
  }

  method LetWrite(k: Globals, rwlock: RwLock, task: Task, ghost p: View)
    requires Core(k, p) && RwLocksHold(p.rwlocks) && rwlock in p.rwlocks && task in p.t
    modifies task`c, task`ret, rwlock`readers, rwlock`writers, rwlock`writer
    ensures Core(k, WriterIn(p, rwlock, task)) && RwLocksHold(WriterIn(p, rwlock, task).rwlocks)
  {
    hide Core, RwLocksHold;
    ghost var p1 := Worded(p, task, DESIRED_NONE);
    ghost var rv := p.rwlocks[rwlock].(writers := p.rwlocks[rwlock].writers + 1, writer := task);
    SetWordIn(k, task, DESIRED_NONE, p);
    LockHeld(rwlock, p.rwlocks);
    SetLockIn(k, rwlock, rwlock.readers, rwlock.writers + 1, task, rv, p1);
    ghost var p2 := p1.(rwlocks := p1.rwlocks[rwlock := rv]);
    RetHeld(k, p2, task);
    Answer(k, task, task.ret.(status := OSS_SUCCESS), p2);
  }

  lemma LockHeld(r: RwLock, rwlocks: map<RwLock, RwLockV>)
    requires RwLocksHold(rwlocks) && r in rwlocks
    ensures RwLockHolds(r, rwlocks[r])
  {
  }

  /** Unlink the head of the lock's list. */
  method PopHead(k: Globals, rwlock: RwLock, ghost v: View) returns (task: Task)
    requires Core(k, v) && OnRwLock(rwlock) in v.lists && |v.lists[OnRwLock(rwlock)]| > 0
    modifies k.cells, v.tasks`nblocked
    ensures task == v.lists[OnRwLock(rwlock)][0] && Core(k, PopBlocked(v, OnRwLock(rwlock)))
  {
    hide Known, OwnCells, QueuesHold, TasksHold, ListsHold;
    ghost var o := OnRwLock(rwlock);
    KnownTasks(v);
    CellKnown(o, v.lists.Keys, k.cells);
    PopKnown(v, o);
    task := PopFrom(rwlock.blocked, o, v.lists, v.t, k.cells);
  }

  method WriteHead(k: Globals, rwlock: RwLock, ghost d: View) returns (task: Task)
    requires Core(k, d) && RwLocksHold(d.rwlocks) && Known(d)
    requires RwLockKnown(d, rwlock) && |d.lists[OnRwLock(rwlock)]| > 0
    modifies k.cells, d.tasks`nblocked, d.tasks`c, d.tasks`ret, rwlock`readers, rwlock`writers, rwlock`writer
    ensures task == d.lists[OnRwLock(rwlock)][0]
    ensures Core(k, GrantWrite(d, rwlock)) && RwLocksHold(GrantWrite(d, rwlock).rwlocks)
  {
    hide Core, RwLocksHold, GrantWrite, WriterIn, Known, RwLockKnown, PopBlocked;
    WriterSteps(d, rwlock);
    assert OnRwLock(rwlock) in d.lists by { LockIn(d, rwlock); }
    task := PopHead(k, rwlock, d);
    LetWrite(k, rwlock, task, PopBlocked(d, OnRwLock(rwlock)));
  }

  lemma LockIn(v: View, r: RwLock)
    requires RwLockKnown(v, r)
    ensures OnRwLock(r) in v.lists && r in v.rwlocks
  {
  }

  /** The waiting writer gets the lock. */
  method WriteFirst(k: Globals, rwlock: RwLock, ghost d: View) returns (task: Task)
    requires Rep(k, d) && Known(d) && RwLockKnown(d, rwlock) && |d.lists[OnRwLock(rwlock)]| > 0
    modifies k.cells, d.tasks`nblocked, d.tasks`c, d.tasks`ret, rwlock`readers, rwlock`writers, rwlock`writer
    ensures task == d.lists[OnRwLock(rwlock)][0] && Rep(k, GrantWrite(d, rwlock))
  {
    hide Core, OwnRings, MutexesHold, RingsHold, RwLocksHold, GrantWrite, Known, RwLockKnown;
    WriterSteps(d, rwlock);
    task := WriteHead(k, rwlock, d);
  }

  /** A reader off the list, its word cleared and its frame written, and still in WAIT. */
  function ReaderOut(d: View, o: Obj, x: Task): View
    requires o in d.lists && x in d.t
  {
    var p := d.(lists := d.lists[o := Without(d.lists[o], x)]);
    SetRet(Worded(p, x, DESIRED_NONE), x, d.t[x].ret.(status := OSS_SUCCESS))
  }

  /** One more reader. */
  function OneMore(rv: RwLockV, x: Task): RwLockV {
    rv.(readers := (rv.readers + 1) % UINT16_LIMIT, holds := rv.holds + multiset{x})
  }

  lemma ReaderSteps(d: View, r: RwLock, i: nat)
    requires Known(d) && RwLockKnown(d, r) && i < |d.lists[OnRwLock(r)]| && Distinct(d.lists[OnRwLock(r)])
    ensures r in d.rwlocks && OnRwLock(r) in d.lists
    ensures var x := d.lists[OnRwLock(r)][i];
      && x in d.t && x in d.tasks && Known(ReaderOut(d, OnRwLock(r), x)) && Known(GrantRead(d, r, i))
      && x in ReaderOut(d, OnRwLock(r), x).t && x in GrantRead(d, r, i).t
      && GrantRead(d, r, i) == ReaderOut(d, OnRwLock(r), x).(rwlocks := d.rwlocks[r := OneMore(d.rwlocks[r], x)])
  {
    var list := d.lists[OnRwLock(r)];
    var x := list[i];
    IndexOfAt(list, i);
    GrantKnown(d, r, i);
    SetTwice(d.t, x, d.t[x].(c := DESIRED_NONE), d.t[x].(c := DESIRED_NONE, ret := d.t[x].ret.(status := OSS_SUCCESS)));
  }

  lemma WakeCommutes(p: View, x: Task, rwlocks: map<RwLock, RwLockV>)
    requires Known(p) && x in p.t
    ensures Known(p.(rwlocks := rwlocks))
    ensures StatusSet(p.(rwlocks := rwlocks), x, Idle) == StatusSet(p, x, Idle).(rwlocks := rwlocks)
    ensures var w := StatusSet(p, x, Idle);
      w.rwlocks == p.rwlocks && w.mutexes == p.mutexes && w.queues == p.queues && w.tasks == p.tasks
  {
  }

  lemma OutSame(d: View, o: Obj, x: Task)
    requires o in d.lists && x in d.t
    ensures var p := ReaderOut(d, o, x);
      p.rwlocks == d.rwlocks && p.mutexes == d.mutexes && p.queues == d.queues && p.tasks == d.tasks
  {
  }

  /** Unlink the reader found behind `previous`. */
  method UnhookReader(k: Globals, rwlock: RwLock, previous: Task?, iter: Task, ghost i: nat, ghost d: View)
    requires Core(k, d) && OnRwLock(rwlock) in d.lists && i < |d.lists[OnRwLock(rwlock)]|
    requires iter == d.lists[OnRwLock(rwlock)][i] && previous == At(d.lists[OnRwLock(rwlock)], i - 1)
    modifies k.cells, d.tasks`nblocked
    ensures Core(k, d.(lists := d.lists[OnRwLock(rwlock) := Without(d.lists[OnRwLock(rwlock)], iter)]))
    ensures iter.nblocked == null
  {
    hide Known, OwnCells, QueuesHold, TasksHold, ListsHold, Without;
    ghost var o := OnRwLock(rwlock);
    KnownTasks(d);
    CellKnown(o, d.lists.Keys, k.cells);
    ListsKnown(d, d.lists[o := Without(d.lists[o], iter)]);
    UnhookFrom(rwlock.blocked, previous, iter, i, o, d.lists, d.t, k.cells);
  }

  lemma ListsKnown(d: View, lists: map<Obj, seq<Task>>)
    requires Known(d) && lists.Keys == d.lists.Keys
    ensures Known(d.(lists := lists))
  {
  }

  method LetRead(k: Globals, rwlock: RwLock, previous: Task?, iter: Task, ghost i: nat, ghost d: View)
    requires Core(k, d) && OnRwLock(rwlock) in d.lists && i < |d.lists[OnRwLock(rwlock)]|
    requires iter == d.lists[OnRwLock(rwlock)][i] && previous == At(d.lists[OnRwLock(rwlock)], i - 1)
    requires iter in d.t && iter in d.tasks
    modifies k.cells, d.tasks`nblocked, iter`c, iter`ret
    ensures Core(k, ReaderOut(d, OnRwLock(rwlock), iter)) && iter.nblocked == null
  {
    hide Core, Without;
    ghost var o := OnRwLock(rwlock);
    ghost var p := d.(lists := d.lists[o := Without(d.lists[o], iter)]);
    UnhookReader(k, rwlock, previous, iter, i, d);
    SetWordIn(k, iter, DESIRED_NONE, p);
    RetHeld(k, Worded(p, iter, DESIRED_NONE), iter);
    Answer(k, iter, iter.ret.(status := OSS_SUCCESS), Worded(p, iter, DESIRED_NONE));
  }

  method WakeReader(k: Globals, rwlock: RwLock, previous: Task?, iter: Task, ghost i: nat, ghost d: View)
    requires Core(k, d) && OnRwLock(rwlock) in d.lists && i < |d.lists[OnRwLock(rwlock)]|
    requires iter == d.lists[OnRwLock(rwlock)][i] && previous == At(d.lists[OnRwLock(rwlock)], i - 1)
    requires iter in d.t && iter in d.tasks && Known(ReaderOut(d, OnRwLock(rwlock), iter))
    requires CanSet(ReaderOut(d, OnRwLock(rwlock), iter), iter, Idle)
    modifies k`runqueue, k`waitqueue, k.cells, d.tasks
    ensures Core(k, StatusSet(ReaderOut(d, OnRwLock(rwlock), iter), iter, Idle)) && iter.nblocked == null
  {
    hide Core, Known, CanSet, StatusSet, ReaderOut;
    OutSame(d, OnRwLock(rwlock), iter);
    assert iter in ReaderOut(d, OnRwLock(rwlock), iter).t by { OutTask(d, OnRwLock(rwlock), iter); }
    LetRead(k, rwlock, previous, iter, i, d);
    TaskStatusSet(k, iter, Idle, ReaderOut(d, OnRwLock(rwlock), iter));
  }

  lemma OutTask(d: View, o: Obj, x: Task)
    requires o in d.lists && x in d.t
    ensures x in ReaderOut(d, o, x).t
  {
  }

  method ReadHead(k: Globals, rwlock: RwLock, previous: Task?, iter: Task, ghost i: nat, ghost d: View)
    requires Core(k, d) && RwLocksHold(d.rwlocks) && rwlock in d.rwlocks
    requires OnRwLock(rwlock) in d.lists && i < |d.lists[OnRwLock(rwlock)]|
    requires iter == d.lists[OnRwLock(rwlock)][i] && previous == At(d.lists[OnRwLock(rwlock)], i - 1)
    requires iter in d.t && iter in d.tasks && Known(ReaderOut(d, OnRwLock(rwlock), iter))
    requires iter in ReaderOut(d, OnRwLock(rwlock), iter).t && CanSet(ReaderOut(d, OnRwLock(rwlock), iter), iter, Idle)
    requires StatusSet(ReaderOut(d, OnRwLock(rwlock), iter), iter, Idle).rwlocks == d.rwlocks
    modifies k`runqueue, k`waitqueue, k.cells, d.tasks, rwlock`readers, rwlock`writers, rwlock`writer
    ensures var s := StatusSet(ReaderOut(d, OnRwLock(rwlock), iter), iter, Idle);
      var m := d.rwlocks[rwlock := OneMore(d.rwlocks[rwlock], iter)];
      Core(k, s.(rwlocks := m)) && RwLocksHold(m)
    ensures iter.nblocked == null
  {
    hide Core, RwLocksHold, Known, CanSet, StatusSet, ReaderOut;
    KnownTasks(ReaderOut(d, OnRwLock(rwlock), iter));
    WakeReader(k, rwlock, previous, iter, i, d);
    LockHeld(rwlock, d.rwlocks);
    SetLockIn(k, rwlock, (rwlock.readers + 1) % UINT16_LIMIT, rwlock.writers, rwlock.writer,
              OneMore(d.rwlocks[rwlock], iter), StatusSet(ReaderOut(d, OnRwLock(rwlock), iter), iter, Idle));
  }

  lemma ReadResult(d: View, r: RwLock, i: nat)
    requires Known(d) && RwLockKnown(d, r) && i < |d.lists[OnRwLock(r)]| && Distinct(d.lists[OnRwLock(r)])
    ensures r in d.rwlocks && OnRwLock(r) in d.lists
    ensures var x := d.lists[OnRwLock(r)][i];
      && x in d.t && x in d.tasks && Known(ReaderOut(d, OnRwLock(r), x)) && x in ReaderOut(d, OnRwLock(r), x).t
      && Known(GrantRead(d, r, i)) && x in GrantRead(d, r, i).t
      && (var s, w := StatusSet(ReaderOut(d, OnRwLock(r), x), x, Idle), StatusSet(GrantRead(d, r, i), x, Idle);
          && s.rwlocks == d.rwlocks && w == s.(rwlocks := d.rwlocks[r := OneMore(d.rwlocks[r], x)])
          && w.mutexes == d.mutexes && w.queues == d.queues && w.tasks == d.tasks)
  {
    hide Known, RwLockKnown, StatusSet, ReaderOut, GrantRead, Distinct;
    ReaderSteps(d, r, i);
    var x := d.lists[OnRwLock(r)][i];
    OutSame(d, OnRwLock(r), x);
    WakeCommutes(ReaderOut(d, OnRwLock(r), x), x, d.rwlocks[r := OneMore(d.rwlocks[r], x)]);
  }

  /** The reader found behind `previous` gets its hold and becomes runnable. */
  method ReadAt(k: Globals, rwlock: RwLock, previous: Task?, iter: Task, ghost i: nat, ghost d: View)
    requires Rep(k, d) && Known(d) && RwLockKnown(d, rwlock) && i < |d.lists[OnRwLock(rwlock)]|
    requires iter == d.lists[OnRwLock(rwlock)][i] && previous == At(d.lists[OnRwLock(rwlock)], i - 1)
    requires Distinct(d.lists[OnRwLock(rwlock)]) && iter in d.t && Known(ReaderOut(d, OnRwLock(rwlock), iter))
    requires CanSet(ReaderOut(d, OnRwLock(rwlock), iter), iter, Idle)
    modifies k`runqueue, k`waitqueue, k.cells, d.tasks, rwlock`readers, rwlock`writers, rwlock`writer
    ensures Known(GrantRead(d, rwlock, i)) && iter in GrantRead(d, rwlock, i).t
    ensures Rep(k, StatusSet(GrantRead(d, rwlock, i), iter, Idle)) && iter.nblocked == null
  {
    hide Core, OwnRings, MutexesHold, RingsHold, RwLocksHold, Known, RwLockKnown, CanSet, StatusSet, ReaderOut,
      GrantRead, Distinct, OneMore;
    ReadResult(d, rwlock, i);
    ReadHead(k, rwlock, previous, iter, i, d);
  }

  /** A release by a holder. */
  ghost predicate Holding(v: View, r: RwLock)
    requires r in v.rwlocks
  {
    v.running in v.rwlocks[r].holds || v.rwlocks[r].writer == v.running
  }

  lemma HoldFields(v: View, r: RwLock)
    requires Inv(v) && RwLockKnown(v, r) && Holding(v, r)
    ensures var rv := v.rwlocks[r];
      && (rv.readers > 0 || rv.writers == 1) && rv.writers <= 1
      && (rv.writers > 0 ==> rv.writer == v.running && rv.readers == 0)
      && (rv.readers > 0 ==> rv.writers == 0)
    ensures Known(Dropped(v, r)) && RwLockKnown(Dropped(v, r), r)
    ensures Dropped(v, r).lists == v.lists && Dropped(v, r).t == v.t
    ensures Dropped(v, r).tasks == v.tasks && Distinct(v.lists[OnRwLock(r)])
    ensures r in Dropped(v, r).rwlocks && Dropped(v, r).rwlocks[r] == DropHold(v.rwlocks[r], v.running)
  {
    Facts(v, OnRwLock(r));
    hide Inv;
  }

  /** The holds given up. */
  method DropHolds(k: Globals, rwlock: RwLock, task: Task, ghost v: View)
    requires Inv(v) && Rep(k, v) && RwLockKnown(v, rwlock) && Holding(v, rwlock) && task == v.running
    modifies rwlock`readers, rwlock`writers, rwlock`writer
    ensures Rep(k, Dropped(v, rwlock))
  {
    hide Inv, Rep;
    LockFields(k, v, rwlock);
    HoldFields(v, rwlock);
    ghost var rv := v.rwlocks[rwlock];
    assert rwlock.readers > 0 || rwlock.writers == 1;
    if rwlock.readers > 0 {
      PutLock(k, rwlock, rwlock.readers - 1, rwlock.writers, rwlock.writer,
              rv.(readers := rv.readers - 1, holds := rv.holds - multiset{task}), v);
    }
    if rwlock.writers > 0 {
      assert rwlock.writer == task;
      PutLock(k, rwlock, rwlock.readers, rwlock.writers - 1, null, rv.(writer := null, writers := rv.writers - 1), v);
    }
  }

  lemma WriteReady(v: View, r: RwLock)
    requires Inv(v) && RwLockKnown(v, r) && Holding(v, r) && |v.lists[OnRwLock(r)]| > 0
    requires DropHold(v.rwlocks[r], v.running).readers == 0 && v.t[v.lists[OnRwLock(r)][0]].c == DESIRED_WRITE
    ensures Known(Dropped(v, r)) && RwLockKnown(Dropped(v, r), r) && Dropped(v, r).lists == v.lists
    ensures var w, x := GrantWrite(Dropped(v, r), r), v.lists[OnRwLock(r)][0];
      Known(w) && Mid(w) && Grantee(w, x) && w.tasks == v.tasks && x in w.t
  {
    hide Inv, DispatchOrQueue, GrantWrite, Touches, Ready, ObjectOk, Mid;
    HoldFields(v, r);
    var o, list := OnRwLock(r), v.lists[OnRwLock(r)];
    Facts(v, o);
    GrantWriteObject(v, r);
    assert list[0] in list;
    WaitersHere(v, o, list[0]);
    var w := GrantWrite(Dropped(v, r), r);
    TouchReady(v, w, o, list[0]);
    ServeGrantee(v, w, o, list[0]);
    ReadyMid(w);
    TouchTasks(v, w, o, list[0]);
  }

  lemma ReadReady(v: View, r: RwLock, i: nat)
    requires Inv(v) && RwLockKnown(v, r) && Holding(v, r) && ReaderStillWaits(v, r) && v.running in v.t
    requires i == FirstReader(v.lists[OnRwLock(r)], v.t) < |v.lists[OnRwLock(r)]|
    requires !(DropHold(v.rwlocks[r], v.running).readers == 0 && v.t[v.lists[OnRwLock(r)][0]].c == DESIRED_WRITE)
    ensures var d, x := Dropped(v, r), v.lists[OnRwLock(r)][i];
      && d.lists == v.lists && Known(d) && RwLockKnown(d, r) && Distinct(d.lists[OnRwLock(r)])
      && x in d.t && Known(ReaderOut(d, OnRwLock(r), x)) && CanSet(ReaderOut(d, OnRwLock(r), x), x, Idle)
  {
    hide Inv, GrantRead, Touches, Ready, ObjectOk, Mid, ReaderOut, Known, RunqueueOk, WaitqueueOk, Holding,
      FirstReader, Distinct;
    var o, d, list := OnRwLock(r), Dropped(v, r), v.lists[OnRwLock(r)];
    HoldFields(v, r);
    Facts(v, o);
    ReadTouches(v, r, i);
    var w := GrantRead(d, r, i);
    TouchReady(v, w, o, list[i]);
    ReadyMid(w);
    MidQueues(w);
    ReaderSteps(d, r, i);
    StillWaiting(v, w, o, list[i]);
  }

  lemma ReadTouches(v: View, r: RwLock, i: nat)
    requires Inv(v) && RwLockKnown(v, r) && Holding(v, r) && i < |v.lists[OnRwLock(r)]|
    requires v.t[v.lists[OnRwLock(r)][i]].c == DESIRED_READ
    ensures Known(Dropped(v, r)) && RwLockKnown(Dropped(v, r), r) && i < |Dropped(v, r).lists[OnRwLock(r)]|
    ensures Touches(v, GrantRead(Dropped(v, r), r, i), OnRwLock(r), v.lists[OnRwLock(r)][i])
    ensures ObjectOk(GrantRead(Dropped(v, r), r, i), OnRwLock(r))
  {
    hide Inv, GrantRead, Touches, ObjectOk, HoldsOk;
    HoldFields(v, r);
    Facts(v, OnRwLock(r));
    RwLockParts(v, r);
    DropRoom(v.rwlocks[r], v.lists[OnRwLock(r)], v.t, OnRwLock(r), v.running);
    GrantReadObject(v, r, i);
  }

  lemma StillWaiting(v: View, w: View, o: Obj, x: Task)
    requires Touches(v, w, o, x) && v.t[x].status.Wait?
    ensures x in w.t && w.t[x].status.Wait?
  {
  }

  lemma ReleaseCases(v: View, r: RwLock, now: nat)
    requires Inv(v) && RwLockKnown(v, r) && Holding(v, r)
    ensures Known(v) && v.running in v.t && OnRwLock(r) in v.lists && Among(v.lists[OnRwLock(r)], v.t.Keys)
    ensures var d, list := Dropped(v, r), v.lists[OnRwLock(r)];
      var i := FirstReader(list, v.t);
      && Known(d) && RwLockKnown(d, r) && d.lists == v.lists && d.t == v.t
      && (|list| == 0 ==> RwRelease(v, r, now) == Out(d, Status0(OSS_SUCCESS)))
      && (|list| > 0 && d.rwlocks[r].readers == 0 && v.t[list[0]].c == DESIRED_WRITE ==>
            && Known(GrantWrite(d, r)) && list[0] in GrantWrite(d, r).t
            && RwRelease(v, r, now) == Out(DispatchOrQueue(GrantWrite(d, r), list[0], now), Status0(OSS_SUCCESS)))
      && (|list| > 0 && !(d.rwlocks[r].readers == 0 && v.t[list[0]].c == DESIRED_WRITE) && i == |list| ==>
            RwRelease(v, r, now) == Out(d, Status0(OSS_SUCCESS)))
      && (|list| > 0 && !(d.rwlocks[r].readers == 0 && v.t[list[0]].c == DESIRED_WRITE) && i < |list| ==>
            && Known(GrantRead(d, r, i)) && list[i] in GrantRead(d, r, i).t
            && RwRelease(v, r, now) == Out(StatusSet(GrantRead(d, r, i), list[i], Idle), Status0(OSS_SUCCESS)))
  {
    HoldFields(v, r);
    Facts(v, OnRwLock(r));
    var list := v.lists[OnRwLock(r)];
    if |list| > 0 {
      GrantKnown(Dropped(v, r), r, 0);
      if FirstReader(list, v.t) < |list| { GrantKnown(Dropped(v, r), r, FirstReader(list, v.t)); }
    }
    hide Inv, FirstReader, DispatchOrQueue, StatusSet, Known, GrantWrite, GrantRead, Among;
  }

  /** No reader among the first `i`. */
  ghost predicate NoReader(s: seq<Task>, ts: map<Task, TaskV>, i: nat)
    requires Among(s, ts.Keys) && i <= |s|
  {
    forall j :: 0 <= j < i ==> ts[s[j]].c != DESIRED_READ
  }

  lemma NoReaderYet(s: seq<Task>, ts: map<Task, TaskV>, i: nat)
    requires Among(s, ts.Keys) && i <= |s|
    ensures NoReader(s, ts, 0)
    ensures NoReader(s, ts, i) && i < |s| ==> s[i] in ts
    ensures NoReader(s, ts, i) && (i < |s| ==> ts[s[i]].c == DESIRED_READ) ==> FirstReader(s, ts) == i
    ensures NoReader(s, ts, i) && i < |s| && ts[s[i]].c != DESIRED_READ ==> NoReader(s, ts, i + 1)
  {
    var n := FirstReader(s, ts);
  }

  lemma ListHeld(k: Globals, v: View, r: RwLock, i: nat)
    requires Rep(k, v) && OnRwLock(r) in v.lists && i <= |v.lists[OnRwLock(r)]|
    ensures r.blocked.tasks == At(v.lists[OnRwLock(r)], 0) && Among(v.lists[OnRwLock(r)], v.t.Keys)
    ensures i < |v.lists[OnRwLock(r)]| ==> var x := v.lists[OnRwLock(r)][i];
      x in v.t && x.c == v.t[x].c && x.nblocked == At(v.lists[OnRwLock(r)], i + 1)
  {
    var list := v.lists[OnRwLock(r)];
    assert ListHolds(OnRwLock(r), list, v.t);
    if i < |list| { assert Holds(list[i], v.t[list[i]]); }
  }

  /** The first reader in the list is served. */
  method ServeReader(k: Globals, rwlock: RwLock, previous: Task?, iter: Task, ghost i: nat, now: nat, ghost v: View,
                     ghost d: View)
    requires Inv(v) && RwLockKnown(v, rwlock) && Holding(v, rwlock) && v.running in v.t && ReaderStillWaits(v, rwlock)
    requires OnRwLock(rwlock) in v.lists && rwlock in v.rwlocks && Among(v.lists[OnRwLock(rwlock)], v.t.Keys)
    requires d == Dropped(v, rwlock) && Rep(k, d) && d.lists == v.lists && d.t == v.t && d.tasks == v.tasks && Known(v)
    requires i == FirstReader(v.lists[OnRwLock(rwlock)], v.t) < |v.lists[OnRwLock(rwlock)]|
    requires EntersLoop(v, rwlock)
    requires iter == v.lists[OnRwLock(rwlock)][i] && previous == At(v.lists[OnRwLock(rwlock)], i - 1)
    modifies k`runqueue, k`waitqueue, k.cells, v.tasks, rwlock`readers, rwlock`writers, rwlock`writer
    ensures Rep(k, RwRelease(v, rwlock, now).v) && iter.nblocked == null
  {
    hide Inv, Rep, Known, RwLockKnown, Holding, ReaderStillWaits, Dropped, RwRelease, FirstReader, Among, StatusSet,
      GrantRead, ReaderOut, CanSet, Distinct, DropHold;
    ReleaseCases(v, rwlock, now);
    DroppedReaders(v, rwlock);
    ReadReady(v, rwlock, i);
    ReadAt(k, rwlock, previous, iter, i, d);
  }

  /** The loop of osi_rwlock_release. Unlinking a reader clears the link the loop goes on by, so it
      ends there: at most one reader is served. */
  method ServeReaders(k: Globals, rwlock: RwLock, now: nat, ghost v: View, ghost d: View)
    requires Inv(v) && RwLockKnown(v, rwlock) && Holding(v, rwlock) && v.running in v.t && ReaderStillWaits(v, rwlock)
    requires OnRwLock(rwlock) in v.lists && |v.lists[OnRwLock(rwlock)]| > 0 && rwlock in v.rwlocks
    requires d == Dropped(v, rwlock) && Rep(k, d) && d.lists == v.lists && d.t == v.t && d.tasks == v.tasks && Known(v)
    requires EntersLoop(v, rwlock)
    modifies k`runqueue, k`waitqueue, k.cells, v.tasks, rwlock`readers, rwlock`writers, rwlock`writer
    ensures Rep(k, RwRelease(v, rwlock, now).v)
    ensures OneReaderLess(v, RwRelease(v, rwlock, now).v, rwlock)
  {
    hide Inv, Rep, Known, RwLockKnown, Holding, ReaderStillWaits, Dropped, RwRelease, FirstReader, Among, StatusSet,
      GrantRead, ReaderOut, CanSet, Distinct, NoReader, DropHold, OneReaderLess;
    ghost var list := v.lists[OnRwLock(rwlock)];
    NoneServed(v, rwlock, now);
    ListHeld(k, d, rwlock, 0);
    var previous: Task? := null;
    var iter := rwlock.blocked.tasks;
    ghost var i := 0;
    ghost var served := false;
    while iter != null
      invariant i <= |list| && (served ==> iter == null)
      invariant served ==> Rep(k, RwRelease(v, rwlock, now).v)
      invariant !served ==> Rep(k, d) && iter == At(list, i) && previous == At(list, i - 1) && NoReader(list, v.t, i)
      decreases |list| - i, !served
    {
      NoReaderYet(list, v.t, i);
      ListHeld(k, d, rwlock, i);
      if iter.c == DESIRED_READ {
        ServeReader(k, rwlock, previous, iter, i, now, v, d);
        served := true;
      } else {
        previous, i := iter, i + 1;
      }
      iter := iter.nblocked;
    }
  }

  /** Without a reader in the list nobody is served. */
  lemma NoneServed(v: View, r: RwLock, now: nat)
    requires Inv(v) && RwLockKnown(v, r) && Holding(v, r) && Known(v) && v.running in v.t && r in v.rwlocks
    requires OnRwLock(r) in v.lists && EntersLoop(v, r)
    ensures var list := v.lists[OnRwLock(r)];
      && Among(list, v.t.Keys) && NoReader(list, v.t, 0)
      && (NoReader(list, v.t, |list|) ==> RwRelease(v, r, now).v == Dropped(v, r))
      && OneReaderLess(v, RwRelease(v, r, now).v, r)
  {
    hide Inv, Holding, RwRelease, Dropped, FirstReader, StatusSet, GrantRead, GrantWrite, DispatchOrQueue, DropHold,
      OneReaderLess;
    LoopServesOne(v, r, now) by { Facts(v, OnRwLock(r)); }
    var list := v.lists[OnRwLock(r)];
    ReleaseCases(v, r, now);
    DroppedReaders(v, r);
    NoReaderYet(list, v.t, 0);
    NoReaderYet(list, v.t, |list|);
  }

  lemma DroppedReaders(v: View, r: RwLock)
    requires r in v.rwlocks
    ensures r in Dropped(v, r).rwlocks && Dropped(v, r).rwlocks[r].readers == DropHold(v.rwlocks[r], v.running).readers
  {
  }

  /** osi_rwlock_release */
  method Release(k: Globals, rwlock: RwLock, now: nat, ghost v: View) returns (status: nat)
    requires Inv(v) && Rep(k, v) && RwLockKnown(v, rwlock) && v.running in v.t
    requires Holding(v, rwlock) && ReaderStillWaits(v, rwlock)
    modifies k`runqueue, k`waitqueue, k`scheduled, k.cells, v.tasks, rwlock`readers, rwlock`writers, rwlock`writer
    ensures Known(v) && Rep(k, RwRelease(v, rwlock, now).v) && RwRelease(v, rwlock, now).r == Status0(status)
  {
    hide Inv, Rep, Known, RwLockKnown, Holding, ReaderStillWaits, Dropped, RwRelease, FirstReader, Among, GrantWrite,
      GrantRead, Mid, Grantee, DispatchOrQueue, StatusSet;
    LockFields(k, v, rwlock);
    DropHolds(k, rwlock, k.running, v);
    ReleaseCases(v, rwlock, now);
    HoldFields(v, rwlock);
    ghost var d := Dropped(v, rwlock);
    status := OSS_SUCCESS;
    HeadOf(k, d, rwlock);
    if rwlock.blocked.tasks != null {
      var task := rwlock.blocked.tasks;
      if rwlock.readers == 0 && task.c == DESIRED_WRITE {
        WriteReady(v, rwlock);
        task := WriteFirst(k, rwlock, d);
        ServeWaiter(k, task, now, GrantWrite(d, rwlock));
      } else {
        ServeReaders(k, rwlock, now, v, d);
      }
    }
  }

  lemma HeadOf(k: Globals, v: View, r: RwLock)
    requires Rep(k, v) && OnRwLock(r) in v.lists && r in v.rwlocks
    ensures var list := v.lists[OnRwLock(r)];
      r.blocked.tasks == At(list, 0) && (list != [] ==> list[0] in v.t && list[0].c == v.t[list[0]].c)
    ensures r.readers == v.rwlocks[r].readers
  {
    ListHeld(k, v, r, 0);
    assert RwLockHolds(r, v.rwlocks[r]);
  }
}
