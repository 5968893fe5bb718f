/** mutex.c, in place on the heap. */
module MutexCalls {
  import opened Types
  import opened Spec
  import opened Invariants
  import opened Heap
  import opened Scheduling
  import opened Steps
  import opened Frames
  import opened MutexSteps
  import opened Os
  import opened Dispatching
  import opened Service
  import opened Calls

  method SetMutexLink(task: Task, mutex: Mutex, ghost ts0: map<Task, TaskV>, ghost ts1: map<Task, TaskV>)
    requires TasksHold(ts0) && task in ts0 && ts0[task].back == NoObj && task in ts1 && ts1 == ts0[task := ts1[task]]
    requires ts1[task] == ts0[task].(back := OnMutex(mutex), call := ts1[task].call)
    modifies task`mutex
    ensures TasksHold(ts1)
  {
    assert Holds(task, ts0[task]);
    assert task.mutex == null;
    task.mutex := mutex;
  }

  /** blocked_enq */
  method BlockedEnq(k: Globals, mutex: Mutex, task: Task, ghost v: View)
    requires Core(k, v) && task == v.running && OnMutex(mutex) in v.lists
    requires task in v.t && v.t[task].back == NoObj
    modifies k.cells, v.tasks`nblocked, task`mutex
    ensures Core(k, Attach(v, OnMutex(mutex), Lock))
  {
    hide Known, OwnCells, QueuesHold, TasksHold, ListsHold, Attach;
    ghost var o := OnMutex(mutex);
    AttachFacts(v, o, Lock);
    KnownTasks(v);
    ghost var a := Attach(v, o, Lock);
    CellKnown(o, v.lists.Keys, k.cells);
    AppendTo(mutex.blocked, task, o, v.lists, v.t, a.t, k.cells);
    SetMutexLink(task, mutex, v.t, a.t);
  }

  // ------------------------------------------------------------------- acquire

  method SetMutex(m: Mutex, owner: Task?, level: nat, ghost mv: MutexV, ghost mutexes: map<Mutex, MutexV>)
    requires MutexesHold(mutexes) && m in mutexes && mv.owner == owner && mv.level == level
    modifies m`owner, m`level
    ensures MutexesHold(mutexes[m := mv]) && m.owner == owner && m.level == level
  {
    m.owner := owner;
    m.level := level;
  }

  method SetMutexIn(k: Globals, m: Mutex, owner: Task?, level: nat, ghost mv: MutexV, ghost v: View)
    requires Core(k, v) && MutexesHold(v.mutexes) && m in v.mutexes && mv.owner == owner && mv.level == level
    modifies m`owner, m`level
    ensures Core(k, v.(mutexes := v.mutexes[m := mv])) && MutexesHold(v.mutexes[m := mv])
    ensures m.owner == owner && m.level == level
  {
    hide Core, MutexesHold;
    CoreSame(k, v, v.(mutexes := v.mutexes[m := mv]));
    SetMutex(m, owner, level, mv, v.mutexes);
  }

  /** A mutex changed, and nothing else. */
  method PutMutex(k: Globals, m: Mutex, owner: Task?, level: nat, ghost mv: MutexV, ghost v: View)
    requires Rep(k, v) && m in v.mutexes && mv.owner == owner && mv.level == level
    modifies m`owner, m`level
    ensures Rep(k, v.(mutexes := v.mutexes[m := mv])) && m.owner == owner && m.level == level
  {
    hide Core, OwnRings, MutexesHold, RingsHold, RwLocksHold;
    SetMutexIn(k, m, owner, level, mv, v);
  }

  /** What osi_mutex_acquire looks at. */
  lemma MutexFields(k: Globals, v: View, m: Mutex)
    requires Inv(v) && Rep(k, v) && MutexKnown(v, m)
    ensures m in v.mutexes && m.owner == v.mutexes[m].owner && m.level == v.mutexes[m].level
    ensures k.running == v.running && v.running in v.t && v.running.mutex == null && v.t[v.running].back == NoObj
    ensures v.scheduled == null && OnMutex(m) in v.lists && Known(v) && v.t.Keys == v.tasks == v.mutexes[m].balance.Keys
  {
    InvHanded(v);
    assert MutexHolds(m, v.mutexes[m]);
    assert Holds(v.running, v.t[v.running]);
    hide Mid;
  }

  lemma AcquireBlocks(v: View, m: Mutex, to: nat, now: nat)
    requires Inv(v) && MutexKnown(v, m) && CanWait(v, to, now)
    requires v.mutexes[m].level > 0 && v.mutexes[m].owner != v.running
    ensures Known(v) && OnMutex(m) in v.lists && MayPark(Enlist(v, OnMutex(m), Lock), to, now)
    ensures MutexAcquire(v, m, to, now) == Out(Block(v, OnMutex(m), Lock, to, now), Status0(OSS_ERROR_TO))
    ensures SameObjects(v, Block(v, OnMutex(m), Lock, to, now))
  {
    hide Inv, MayPark, Block, Yields, ObjectOk, ParkedState, Return, Enlist, SameObjects;
    var o := OnMutex(m);
    Facts(v, o);
    AcquireParks(v, m, to, now);
    ParkFacts(v, v, o, Lock, to, now, Return(v, Out(Block(v, o, Lock, to, now), Status0(OSS_ERROR_TO))));
  }

  /** The end of osi_mutex_acquire: block until somebody releases. */
  method Park(k: Globals, mutex: Mutex, to: nat, now: nat, ghost v: View)
    requires Core(k, v) && Known(v) && v.running in v.t && OnMutex(mutex) in v.lists
    requires v.t[v.running].back == NoObj && MayPark(Enlist(v, OnMutex(mutex), Lock), to, now)
    modifies k`runqueue, k`waitqueue, k`scheduled, k.cells, v.tasks
    ensures Core(k, Block(v, OnMutex(mutex), Lock, to, now))
  {
    hide Core, Block, Enlist, MayPark, Attach, Known;
    CoreRunning(k, v);
    BlockedEnq(k, mutex, k.running, v);
    SvcBlock(k, to, FLAG_MUTEX, now, v, OnMutex(mutex), Lock);
  }

  method AwaitMutex(k: Globals, mutex: Mutex, to: nat, now: nat, ghost v: View)
    requires Inv(v) && Rep(k, v) && MutexKnown(v, mutex) && CanWait(v, to, now)
    requires v.mutexes[mutex].level > 0 && v.mutexes[mutex].owner != v.running
    modifies k`runqueue, k`waitqueue, k`scheduled, k.cells, v.tasks
    ensures Rep(k, MutexAcquire(v, mutex, to, now).v) && MutexAcquire(v, mutex, to, now).r == Status0(OSS_ERROR_TO)
  {
    hide Inv, Core, ObjectsHold, Block, Enlist, MayPark, SameObjects, Known, MutexKnown, MutexAcquire, CanWait;
    MutexFields(k, v, mutex);
    AcquireBlocks(v, mutex, to, now);
    Park(k, mutex, to, now, v);
    ObjectsSame(k, v, Block(v, OnMutex(mutex), Lock, to, now));
  }

  /** osi_mutex_acquire */
  method Acquire(k: Globals, mutex: Mutex, to: nat, now: nat, ghost v: View) returns (status: nat)
    requires Inv(v) && Rep(k, v) && MutexKnown(v, mutex) && CanBlock(v, to, now)
    modifies k`runqueue, k`waitqueue, k`scheduled, k.cells, v.tasks, mutex`owner, mutex`level
    ensures Rep(k, MutexAcquire(v, mutex, to, now).v) && MutexAcquire(v, mutex, to, now).r == Status0(status)
  {
    hide Inv, Core, ObjectsHold, Block, Enlist, MayPark, SameObjects, Attach, Known, MutexKnown;
    MutexFields(k, v, mutex);
    var task := k.running;
    assert task.mutex == null;
    ghost var mv := v.mutexes[mutex];
    if mutex.level == 0 {
      PutMutex(k, mutex, task, 1, MutexV(task, 1, mv.balance[task := mv.balance[task] + 1]), v);
      return OSS_SUCCESS;
    }
    if mutex.owner == task {
      if mutex.level == UINT32_MAX {
        return OSS_ERROR;
      }
      ghost var more := mv.balance[task := mv.balance[task] + 1];
      PutMutex(k, mutex, task, (mutex.level + 1) % UINT16_LIMIT,
               MutexV(task, (mv.level + 1) % UINT16_LIMIT, more), v);
      return OSS_SUCCESS;
    }
    if to == 0 {
      return OSS_ERROR_TO;
    }
    AwaitMutex(k, mutex, to, now, v);
    return OSS_ERROR_TO;
  }

  // ------------------------------------------------------------------- release

  /** blocked_deq */
  method BlockedDeq(k: Globals, mutex: Mutex, ghost v: View) returns (task: Task?)
    requires Core(k, v) && OnMutex(mutex) in v.lists
    modifies k.cells, v.tasks`nblocked
    ensures v.lists[OnMutex(mutex)] == [] ==> task == null && Core(k, v)
    ensures v.lists[OnMutex(mutex)] != [] ==>
      task == v.lists[OnMutex(mutex)][0] && Core(k, PopBlocked(v, OnMutex(mutex)))
  {
    hide Known, OwnCells, QueuesHold, TasksHold, ListsHold;
    ghost var o := OnMutex(mutex);
    KnownTasks(v);
    CellKnown(o, v.lists.Keys, k.cells);
    assert ListHolds(o, v.lists[o], v.t) by { HeldList(o, v.lists, v.t, k.cells); }
    task := mutex.blocked.tasks;
    if task == null {
      return;
    }
    assert Holds(task, v.t[task]) by { TaskHeld(task, v.t); }
    assert task.mutex == mutex;
    PopKnown(v, o);
    task := PopFrom(mutex.blocked, o, v.lists, v.t, k.cells);
  }

  /** The mutex is the grantee's. */
  function Owned(v: View, m: Mutex, x: Task): MutexV
    requires m in v.mutexes && x in v.mutexes[m].balance
  {
    MutexV(x, 1, v.mutexes[m].balance[x := v.mutexes[m].balance[x] + 1])
  }

  /** The grantee leaves the list and becomes the owner; its frame says so. */
  lemma GrantSteps(v: View, m: Mutex)
    requires Known(v) && MutexKnown(v, m) && |v.lists[OnMutex(m)]| > 0
    ensures var x, p := v.lists[OnMutex(m)][0], PopBlocked(v, OnMutex(m));
      && x in v.t && x in p.t && x in v.tasks && m in p.mutexes && x in p.mutexes[m].balance && p.mutexes == v.mutexes
      && Grant(v, m) == Awarded(p, m, x)
  {
  }

  /** The mutex is `x`'s, and the frame of `x` says so. */
  function Awarded(p: View, m: Mutex, x: Task): View
    requires m in p.mutexes && x in p.mutexes[m].balance && x in p.t
  {
    SetRet(p.(mutexes := p.mutexes[m := Owned(p, m, x)]), x, p.t[x].ret.(status := OSS_SUCCESS))
  }

  method Award(k: Globals, mutex: Mutex, x: Task, ghost p: View)
    requires Core(k, p) && MutexesHold(p.mutexes) && mutex in p.mutexes && x in p.mutexes[mutex].balance && x in p.t
    modifies x`ret, mutex`owner, mutex`level
    ensures Core(k, Awarded(p, mutex, x)) && MutexesHold(Awarded(p, mutex, x).mutexes)
  {
    hide Core, MutexesHold;
    ghost var p1 := p.(mutexes := p.mutexes[mutex := Owned(p, mutex, x)]);
    SetMutexIn(k, mutex, x, 1, Owned(p, mutex, x), p);
    RetHeld(k, p1, x);
    Answer(k, x, x.ret.(status := OSS_SUCCESS), p1);
  }

  /** Hand the mutex to the first waiter, as far as tasks, lists and mutexes go. */
  method GrantHead(k: Globals, mutex: Mutex, ghost v: View) returns (blockedTask: Task)
    requires Core(k, v) && MutexesHold(v.mutexes) && Known(v) && MutexKnown(v, mutex) && |v.lists[OnMutex(mutex)]| > 0
    modifies k.cells, v.tasks`nblocked, v.tasks`ret, mutex`owner, mutex`level
    ensures blockedTask == v.lists[OnMutex(mutex)][0]
    ensures Core(k, Grant(v, mutex)) && MutexesHold(Grant(v, mutex).mutexes)
  {
    hide Core, MutexesHold, Grant, Known, MutexKnown, PopBlocked, Awarded;
    GrantSteps(v, mutex);
    MutexIn(v, mutex);
    blockedTask := BlockedDeq(k, mutex, v);
    Award(k, mutex, blockedTask, PopBlocked(v, OnMutex(mutex)));
  }

  method GrantFirst(k: Globals, mutex: Mutex, ghost v: View) returns (blockedTask: Task)
    requires Rep(k, v) && Known(v) && MutexKnown(v, mutex) && |v.lists[OnMutex(mutex)]| > 0
    modifies k.cells, v.tasks`nblocked, v.tasks`ret, mutex`owner, mutex`level
    ensures blockedTask == v.lists[OnMutex(mutex)][0] && Rep(k, Grant(v, mutex))
  {
    hide Core, OwnRings, MutexesHold, RingsHold, RwLocksHold, Grant, Known, MutexKnown;
    GrantOthers(v, mutex);
    blockedTask := GrantHead(k, mutex, v);
  }

  lemma GrantOthers(v: View, m: Mutex)
    requires Known(v) && MutexKnown(v, m) && |v.lists[OnMutex(m)]| > 0
    ensures Grant(v, m).queues == v.queues && Grant(v, m).rwlocks == v.rwlocks
  {
  }

  lemma MutexIn(v: View, m: Mutex)
    requires MutexKnown(v, m)
    ensures OnMutex(m) in v.lists && m in v.mutexes
  {
  }

  lemma ReleaseCases(v: View, m: Mutex, now: nat)
    requires Inv(v) && MutexKnown(v, m) && v.mutexes[m].level > 0 && v.mutexes[m].owner == v.running
    ensures v.running in v.mutexes[m].balance
    ensures v.mutexes[m].level > 1 ==>
      (MutexRelease(v, m, now) == Out(v.(mutexes := v.mutexes[m := Less(v, m)]), Status0(OSS_SUCCESS)))
    ensures v.mutexes[m].level == 1 ==>
      && Freed(v, m) == v.(mutexes := v.mutexes[m := Less(v, m)][m := Less(v, m).(owner := null)])
      && Known(Freed(v, m)) && MutexKnown(Freed(v, m), m) && Freed(v, m).lists == v.lists
      && Freed(v, m).tasks == v.tasks
      && (|v.lists[OnMutex(m)]| == 0 ==> MutexRelease(v, m, now) == Out(Freed(v, m), Status0(OSS_SUCCESS)))
      && (|v.lists[OnMutex(m)]| > 0 ==>
            MutexRelease(v, m, now) ==
              Out(DispatchOrQueue(Grant(Freed(v, m), m), v.lists[OnMutex(m)][0], now), Status0(OSS_SUCCESS)))
  {
    hide Grant, DispatchOrQueue, ObjectOk;
    Facts(v, OnMutex(m));
  }

  function Less(v: View, m: Mutex): MutexV
    requires m in v.mutexes && v.running in v.mutexes[m].balance && v.mutexes[m].level > 0
  {
    var mv := v.mutexes[m];
    MutexV(mv.owner, mv.level - 1, mv.balance[v.running := mv.balance[v.running] - 1])
  }

  lemma GrantReady(v: View, m: Mutex)
    requires Inv(v) && MutexKnown(v, m) && v.mutexes[m].level == 1 && v.mutexes[m].owner == v.running
    requires |v.lists[OnMutex(m)]| > 0
    ensures var w, x := Grant(Freed(v, m), m), v.lists[OnMutex(m)][0];
      Known(w) && Mid(w) && Grantee(w, x) && w.tasks == v.tasks
  {
    hide Inv, DispatchOrQueue, Grant, Touches, Ready, SameObjects, ObjectOk, MutexKnown;
    MutexIn(v, m);
    var o, list := OnMutex(m), v.lists[OnMutex(m)];
    Facts(v, o);
    GrantObject(v, m);
    assert list[0] in list;
    WaitersHere(v, o, list[0]);
    var w := Grant(Freed(v, m), m);
    TouchReady(v, w, o, list[0]);
    ServeGrantee(v, w, o, list[0]);
    ReadyMid(w);
    assert w.tasks == v.tasks by { TouchTasks(v, w, o, list[0]); }
  }

  /** osi_mutex_release */
  method Release(k: Globals, mutex: Mutex, now: nat, ghost v: View) returns (status: nat)
    requires Inv(v) && Rep(k, v) && MutexKnown(v, mutex)
    requires v.mutexes[mutex].level > 0 && v.mutexes[mutex].owner == v.running
    modifies k`runqueue, k`waitqueue, k`scheduled, k.cells, v.tasks, mutex`owner, mutex`level
    ensures Rep(k, MutexRelease(v, mutex, now).v) && MutexRelease(v, mutex, now).r == Status0(status)
  {
    hide Inv, Rep, Known, MutexKnown, MutexRelease, DispatchOrQueue, Grant, Freed, Grantee, Mid;
    MutexFields(k, v, mutex);
    ReleaseCases(v, mutex, now);
    status := OSS_SUCCESS;
    assert mutex.level > 0;
    assert mutex.owner == k.running;
    ghost var less := Less(v, mutex);
    PutMutex(k, mutex, mutex.owner, mutex.level - 1, less, v);
    if mutex.level != 0 {
      return;
    }
    assert mutex.owner.mutex == null;
    PutMutex(k, mutex, null, mutex.level, less.(owner := null), v.(mutexes := v.mutexes[mutex := less]));
    RepCore(k, Freed(v, mutex));
    HeadHeld(k, Freed(v, mutex), OnMutex(mutex));
    if mutex.blocked.tasks != null {
      GrantReady(v, mutex);
      var blockedTask := GrantFirst(k, mutex, Freed(v, mutex));
      ServeWaiter(k, blockedTask, now, Grant(Freed(v, mutex), mutex));
    }
  }
}
