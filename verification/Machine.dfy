/** The whole kernel on the heap: every step of the state machine carried out in place, and runs. */
module Machine {
  import opened Types
  import opened Sequences
  import opened Spec
  import opened Invariants
  import opened Heap
  import opened Scheduling
  import opened Steps
  import opened Frames
  import opened TaskSteps
  import opened Preservation
  import opened Runs
  import opened Os
  import opened Dispatching
  import opened Scheduler
  import opened Service
  import opened Calls
  import MutexCalls
  import QueueCalls
  import RwLockCalls

  // ---------------------------------------------------------------- task control

  lemma StatusSame(v: View, x: Task, st: Status)
    requires Known(v) && x in v.t
    ensures SameObjects(v, StatusSet(v, x, st))
  {
  }

  /** A change of status outside the scheduler: a task suspends, resumes or returns from its handler. */
  method ChangeStatus(k: Globals, x: Task, st: Status, ghost v: View)
    requires Rep(k, v) && Known(v) && x in v.t && CanSet(v, x, st) && !st.Active?
    modifies k`runqueue, k`waitqueue, v.tasks`nrp, x`status
    ensures Rep(k, StatusSet(v, x, st))
  {
    hide Core, ObjectsHold, StatusSet, CanSet, SameObjects, Known;
    KnownTasks(v);
    StatusSame(v, x, st);
    TaskStatusSet(k, x, st, v);
    ObjectsSame(k, v, StatusSet(v, x, st));
  }

  /** A task as os_task_start_options leaves it. */
  function Reset(tv: TaskV, p: nat): TaskV {
    tv.(status := Idle, priority := p, delay := 0, flags := FLAG_NONE, back := NoObj, call := NoCall, c := 0)
  }

  method ResetTask(task: Task, p: nat, ghost ts: map<Task, TaskV>)
    requires TasksHold(ts) && task in ts
    modifies task`status, task`priority, task`delay, task`flags, task`c, task`mutex, task`queue, task`rwlock
    ensures TasksHold(ts[task := Reset(ts[task], p)])
    ensures task.status == Idle && task.priority == p
  {
    assert Holds(task, ts[task]);
    task.delay := 0;
    task.flags := FLAG_NONE;
    task.queue := null;
    task.mutex := null;
    task.rwlock := null;
    task.c := 0;
    task.priority := p;
    task.status := Idle;
  }

  lemma RestartSame(v: View, x: Task, p: nat)
    requires Known(v) && x in v.t
    ensures v.t.Keys == v.tasks && Among(v.rq, v.tasks) && Among(v.wq, v.tasks) && Among(Without(v.rq, x), v.tasks)
    ensures var ts, w := v.t[x := Reset(v.t[x], p)], Restart(v, x, p);
      && ts.Keys == v.tasks && Among(Without(v.rq, x), ts.Keys)
      && Known(w) && w.t == ts && w.tasks == v.tasks && w.lists == v.lists && w.objs == v.objs && w.lists.Keys == v.objs
      && w.wq == Without(v.wq, x) && w.rq == RunqueueAdd(Without(v.rq, x), ts, x)
      && w.running == v.running && w.scheduled == v.scheduled && w.idle == v.idle && SameObjects(v, w)
  {
    hide Distinct, Without, RunqueueAdd;
    var ts := v.t[x := Reset(v.t[x], p)];
    WithoutAmong(v.rq, x, v.tasks);
    WithoutAmong(v.wq, x, v.tasks);
    AddAmong(Without(v.rq, x), ts, x);
  }

  lemma RestartOrder(rq: seq<Task>, wq: seq<Task>, ts0: map<Task, TaskV>, x: Task, tv: TaskV)
    requires RunqueueOk(rq, ts0) && WaitqueueOk(wq, ts0) && x in ts0
    ensures x !in Without(rq, x) && x !in Without(wq, x)
    ensures Among(Without(rq, x), ts0[x := tv].Keys) && ByPriority(Without(rq, x), ts0[x := tv])
  {
    WithoutMembers(rq, x);
    WithoutMembers(wq, x);
    WithoutOrdered(rq, ts0, x);
    OrderFrame(Without(rq, x), ts0, ts0[x := tv], x);
  }

  lemma LinkClear(lists: map<Obj, seq<Task>>, ts: map<Task, TaskV>, x: Task, cells: set<Blocked>)
    requires OwnCells(lists.Keys, cells) && ListsHold(lists, ts, cells) && x in ts && ts[x].back == NoObj
    ensures x.nblocked == null
  {
  }

  /** The fields that os_task_start_options sets. A task that waits for nothing is on no blocked list,
      so its link is clear already. */
  method ClearTask(task: Task, p: nat, ghost lists: map<Obj, seq<Task>>, ghost ts: map<Task, TaskV>,
                   ghost cells: set<Blocked>)
    requires OwnCells(lists.Keys, cells) && ListsHold(lists, ts, cells) && TasksHold(ts)
    requires task in ts && ts[task].back == NoObj
    modifies task`status, task`priority, task`delay, task`flags, task`c, task`mutex, task`queue, task`rwlock,
      task`nblocked
    ensures ListsHold(lists, ts[task := Reset(ts[task], p)], cells) && TasksHold(ts[task := Reset(ts[task], p)])
    ensures task.status == Idle && task.priority == p
  {
    hide TasksHold, ListsHold, OwnCells;
    LinkClear(lists, ts, task, cells);
    ListsKeep(lists, ts, ts[task := Reset(ts[task], p)], cells);
    ResetTask(task, p, ts);
    task.nblocked := null;
  }

  /** ... and the queues. */
  method StartQueues(k: Globals, task: Task, ghost rq: seq<Task>, ghost wq: seq<Task>, ghost ts0: map<Task, TaskV>,
                     ghost tv: TaskV)
    requires RunqueueOk(rq, ts0) && WaitqueueOk(wq, ts0) && task in ts0
    requires QueuesHold(k.runqueue, k.waitqueue, rq, wq, ts0.Keys) && TasksHold(ts0[task := tv])
    requires Among(Without(rq, task), ts0[task := tv].Keys) && task.status == Idle && ts0[task := tv].Keys == ts0.Keys
    modifies k`runqueue, k`waitqueue, ts0.Keys`nrp
    ensures var ts := ts0[task := tv];
      && Among(RunqueueAdd(Without(rq, task), ts, task), ts0.Keys) && Among(Without(wq, task), ts0.Keys)
      && QueuesHold(k.runqueue, k.waitqueue, RunqueueAdd(Without(rq, task), ts, task), Without(wq, task), ts0.Keys)
  {
    hide RunqueueOk, WaitqueueOk, QueuesHold, TasksHold, Without, RunqueueAdd, Among, ByPriority, RunQueue.PrioritiesOf;
    ghost var ts := ts0[task := tv];
    RestartOrder(rq, wq, ts0, task, tv);
    QueuesAmong(rq, wq, ts0);
    TakeOffBoth(k, task, rq, wq, ts0.Keys);
    FieldsOf(Without(rq, task), ts);
    StatusHeld(task, ts);
    PutOnRunqueue(k, task, Without(rq, task), Without(wq, task), ts);
  }

  lemma QueuesAmong(rq: seq<Task>, wq: seq<Task>, ts: map<Task, TaskV>)
    requires RunqueueOk(rq, ts) && WaitqueueOk(wq, ts)
    ensures Among(rq, ts.Keys) && Among(wq, ts.Keys)
  {
  }

  /** os_task_start_options, as far as the scheduler goes. */
  method StartCore(k: Globals, task: Task, priority: nat, ghost v: View)
    requires Core(k, v) && RunqueueOk(v.rq, v.t) && WaitqueueOk(v.wq, v.t)
    requires task in v.t && v.t[task].back == NoObj
    modifies k`runqueue, k`waitqueue, v.tasks
    ensures Core(k, Restart(v, task, priority))
  {
    hide RunqueueOk, WaitqueueOk, Known, OwnCells, QueuesHold, TasksHold, ListsHold, Restart, Without, RunqueueAdd,
      Among, SameObjects;
    RestartSame(v, task, priority);
    ClearTask(task, priority, v.lists, v.t, k.cells);
    StartQueues(k, task, v.rq, v.wq, v.t, Reset(v.t[task], priority));
  }

  /** os_task_start_options */
  method StartTask(k: Globals, task: Task, priority: nat, ghost v: View)
    requires Rep(k, v) && RunqueueOk(v.rq, v.t) && WaitqueueOk(v.wq, v.t)
    requires Known(v) && task in v.t && v.t[task].back == NoObj && !Runnable(v.t[task].status)
    modifies k`runqueue, k`waitqueue, v.tasks
    ensures Rep(k, Restart(v, task, priority))
  {
    hide RunqueueOk, WaitqueueOk, Core, ObjectsHold, Restart, SameObjects, Known;
    CoreTask(k, v, task);
    assert task.status != Idle && task.status != Active;
    RestartSame(v, task, priority);
    StartCore(k, task, priority, v);
    ObjectsSame(k, v, Restart(v, task, priority));
  }

  // ---------------------------------------------------------------- ending a step

  lemma SwitchSame(s: View, r: Ret)
    requires s.running in s.t
    ensures SameObjects(s, Switch(s)) && SameObjects(s, SetRet(s, s.running, r))
    ensures SameObjects(s, Switch(SetRet(s, s.running, r)))
  {
  }

  method EndCall(k: Globals, r: Ret, ghost s: View)
    requires Rep(k, s)
    modifies k`running, k`scheduled, k.running`ret
    ensures s.running in s.t && Rep(k, Switch(SetRet(s, s.running, r)))
  {
    hide Core, ObjectsHold, SetRet, Switch, SameObjects;
    CoreRunning(k, s);
    SwitchSame(s, r);
    ReturnFrom(k, r, s);
    ObjectsSame(k, s, Switch(SetRet(s, s.running, r)));
  }

  method EndInterrupt(k: Globals, ghost s: View)
    requires Rep(k, s)
    modifies k`running, k`scheduled
    ensures Rep(k, Switch(s))
  {
    hide Core, ObjectsHold, Switch, SameObjects;
    CoreRunning(k, s);
    SwitchSame(s, Ret(0, 0));
    SwitchTask(k, s);
    ObjectsSame(k, s, Switch(s));
  }

  // -------------------------------------------------------- time and task control

  method TickStep(k: Globals, now: nat, ghost v: View)
    requires Inv(v) && Rep(k, v) && Known(v)
    modifies k`running, k`runqueue, k`waitqueue, k`scheduled, k.cells, v.tasks
    ensures Rep(k, Switch(Schedule(v, now)))
  {
    hide Inv, Core, ObjectsHold, SameObjects, Known, Schedule, Switch;
    assert Mid(v) by { InvMid(v); }
    ScheduleSame(v, now);
    ScheduleTask(k, now, v);
    ObjectsSame(k, v, Schedule(v, now));
    EndInterrupt(k, Schedule(v, now));
  }

  lemma InvMid(v: View)
    requires Inv(v)
    ensures Mid(v) && Known(v) && v.scheduled == null && RunqueueOk(v.rq, v.t) && WaitqueueOk(v.wq, v.t)
    ensures !v.t[v.running].status.Wait? && v.running in v.t && v.t.Keys == v.tasks
  {
    hide ObjectsOk;
  }

  lemma SleepParks(v: View, ms: nat, now: nat)
    requires Inv(v) && CanWait(v, ms, now)
    ensures Known(v) && MayPark(v, ms, now) && SameObjects(v, Delay(v, ms, now)) && v.running in v.t
  {
    hide Inv, Ready, Schedule, Mid, RunqueueOk, WaitqueueOk;
    InvMid(v);
    AsleepMid(v, ms, now);
    DelayIsSchedule(v, ms, now);
    var b := Asleep(v, ms, now);
    assert SameObjects(v, b);
    hide Asleep, Delay, SameObjects, MayPark;
    ScheduleSame(b, now);
    SameThrough(v, b, Schedule(b, now));
  }

  method SleepStep(k: Globals, ms: nat, now: nat, ghost v: View)
    requires Inv(v) && Rep(k, v) && CanWait(v, ms, now) && Known(v) && v.running in v.t && v.running in v.tasks
    modifies k`running, k`runqueue, k`waitqueue, k`scheduled, k.cells, v.tasks
    ensures Rep(k, Return(v, Out(Delay(v, ms, now), Status0(OSS_ERROR_TO))))
  {
    hide Inv, Core, ObjectsHold, SameObjects, Known, Delay, Switch, MayPark, SetRet;
    CoreRunning(k, v);
    SleepParks(v, ms, now);
    SvcDelay(k, ms, now, v);
    CoreRunning(k, Delay(v, ms, now));
    ObjectsSame(k, v, Delay(v, ms, now));
    EndCall(k, Status0(OSS_ERROR_TO), Delay(v, ms, now));
  }

  lemma QuitQuits(v: View, st: Status, now: nat)
    requires Inv(v) && Ended(st) && v.running != v.idle
    ensures Known(v) && MayQuit(v, st) && SameObjects(v, Quit(v, st, now))
  {
    hide Inv, Ready, Schedule, StatusSet, SameObjects, Stage, RunqueueOk, WaitqueueOk, Mid;
    InvMid(v);
    QuitReady(v, st, now);
    StatusSame(v, v.running, st);
    var b := StatusSet(v, v.running, st);
    ReadyMid(b);
    ScheduleSame(b, now);
    SameThrough(v, b, Schedule(b, now));
  }

  method QuitStep(k: Globals, st: Status, now: nat, ghost v: View)
    requires Inv(v) && Rep(k, v) && Ended(st) && v.running != v.idle
    requires Known(v) && v.running in v.t && v.running in v.tasks
    modifies k`running, k`runqueue, k`waitqueue, k`scheduled, k.cells, v.tasks
    ensures Rep(k, Return(v, Out(Quit(v, st, now), Status0(OSS_SUCCESS))))
  {
    hide Inv, Core, ObjectsHold, SameObjects, Known, Quit, Switch, MayQuit, SetRet;
    CoreRunning(k, v);
    QuitQuits(v, st, now);
    SvcQuit(k, st, now, v);
    CoreRunning(k, Quit(v, st, now));
    ObjectsSame(k, v, Quit(v, st, now));
    EndCall(k, Status0(OSS_SUCCESS), Quit(v, st, now));
  }

  /** The end of a call that has left the kernel in `o.v`. */
  method Finish(k: Globals, ghost v: View, r: Ret, ghost o: Out)
    requires Rep(k, o.v) && r == o.r && k.running == v.running
    modifies k`running, k`scheduled, k.running`ret
    ensures v.running in o.v.t && Rep(k, Return(v, o))
  {
    hide Core, ObjectsHold, Switch, SetRet;
    RepCore(k, o.v);
    CoreRunning(k, o.v);
    EndCall(k, r, o.v);
  }

  // -------------------------------------------------------------------- one step

  method PerformTime(k: Globals, a: Action, ghost v: View)
    requires Inv(v) && Rep(k, v) && Enabled(v, a) && (a.Tick? || a.Sleep? || a.Abort? || a.PanicCall? || a.Finish?)
    modifies k, k.cells, v.tasks
    ensures Rep(k, Step(v, a))
  {
    hide Inv, Rep, Known, Schedule, Switch, Delay, Quit, Return, StatusSet, RunqueueOk, WaitqueueOk;
    InvMid(v);
    match a
    case Tick(now) => TickStep(k, now, v);
    case Sleep(ms, now) => SleepStep(k, ms, now, v);
    case Abort(now) => QuitStep(k, Aborted, now, v);
    case PanicCall(now) => QuitStep(k, Panic, now, v);
    case Finish =>
      RepCore(k, v);
      CoreRunning(k, v);
      ChangeStatus(k, k.running, Finished, v);
    case _ =>
  }

  method PerformTask(k: Globals, a: Action, ghost v: View)
    requires Inv(v) && Rep(k, v) && Enabled(v, a) && (a.Suspend? || a.Resume? || a.Start?)
    modifies k, k.cells, v.tasks
    ensures Rep(k, Step(v, a))
  {
    hide Inv, Rep, Known, StatusSet, Restart, RunqueueOk, WaitqueueOk;
    InvMid(v);
    match a
    case Suspend(x) => ChangeStatus(k, x, Suspended, v);
    case Resume(x) => ChangeStatus(k, x, Idle, v);
    case Start(x, p) => StartTask(k, x, p, v);
    case _ =>
  }

  method AcquireStep(k: Globals, m: Mutex, to: nat, now: nat, ghost v: View)
    requires Inv(v) && Rep(k, v) && Known(v) && v.running in v.t && MutexKnown(v, m) && CanBlock(v, to, now)
    modifies k, k.cells, v.tasks, m
    ensures Rep(k, Return(v, MutexAcquire(v, m, to, now)))
  {
    hide Inv, Rep, Known, Return, Switch, MutexKnown, MutexAcquire;
    RepCore(k, v);
    CoreRunning(k, v);
    var status := MutexCalls.Acquire(k, m, to, now, v);
    Finish(k, v, Status0(status), MutexAcquire(v, m, to, now));
  }

  method ReleaseStep(k: Globals, m: Mutex, now: nat, ghost v: View)
    requires Inv(v) && Rep(k, v) && Known(v) && v.running in v.t
    requires MutexKnown(v, m) && v.mutexes[m].level > 0 && v.mutexes[m].owner == v.running
    modifies k, k.cells, v.tasks, m
    ensures Rep(k, Return(v, MutexRelease(v, m, now)))
  {
    hide Inv, Rep, Known, Return, Switch, MutexKnown, MutexRelease;
    RepCore(k, v);
    CoreRunning(k, v);
    var status := MutexCalls.Release(k, m, now, v);
    Finish(k, v, Status0(status), MutexRelease(v, m, now));
  }

  lemma RingOf(k: Globals, v: View, q: Queue)
    requires Rep(k, v) && QueueKnown(v, q)
    ensures q.messages in k.rings
  {
  }

  method SendStep(k: Globals, q: Queue, msg: Word, to: nat, now: nat, ghost v: View)
    requires Inv(v) && Rep(k, v) && Known(v) && v.running in v.t && QueueKnown(v, q) && CanBlock(v, to, now)
    modifies k, k.cells, v.tasks, q, q.messages
    ensures Rep(k, Return(v, Enqueue(v, q, msg, to, now)))
  {
    hide Inv, Rep, Known, Return, Switch, QueueKnown, Enqueue;
    RepCore(k, v);
    CoreRunning(k, v);
    var status := QueueCalls.EnqueueFromTask(k, q, msg, to, now, v);
    Finish(k, v, Status0(status), Enqueue(v, q, msg, to, now));
  }

  method SendIsrStep(k: Globals, q: Queue, msg: Word, now: nat, ghost v: View)
    requires Inv(v) && Rep(k, v) && Known(v) && v.running in v.t && QueueKnown(v, q)
    modifies k, k.cells, v.tasks, q, q.messages
    ensures Rep(k, Switch(EnqueueIsr(v, q, msg, now).v))
  {
    hide Inv, Rep, Known, Return, Switch, QueueKnown, EnqueueIsr;
    RepCore(k, v);
    CoreRunning(k, v);
    var status := QueueCalls.EnqueueFromIsr(k, q, msg, now, v);
    EndInterrupt(k, EnqueueIsr(v, q, msg, now).v);
  }

  method ReceiveStep(k: Globals, q: Queue, to: nat, now: nat, ghost v: View)
    requires Inv(v) && Rep(k, v) && Known(v) && v.running in v.t && QueueKnown(v, q) && CanBlock(v, to, now)
    modifies k, k.cells, v.tasks, q, q.messages
    ensures Rep(k, Return(v, Dequeue(v, q, to, now)))
  {
    hide Inv, Rep, Known, Return, Switch, QueueKnown, Dequeue;
    RepCore(k, v);
    CoreRunning(k, v);
    var status, message := QueueCalls.DequeueFromTask(k, q, to, now, v);
    Finish(k, v, Ret(status, message), Dequeue(v, q, to, now));
  }

  method ReadLockStep(k: Globals, r: RwLock, to: nat, now: nat, ghost v: View)
    requires Inv(v) && Rep(k, v) && Known(v) && v.running in v.t && RwLockKnown(v, r) && CanBlock(v, to, now)
    modifies k, k.cells, v.tasks, r
    ensures Rep(k, Return(v, AcquireRead(v, r, to, now)))
  {
    hide Inv, Rep, Known, Return, Switch, RwLockKnown, AcquireRead;
    RepCore(k, v);
    CoreRunning(k, v);
    var status := RwLockCalls.AcquireForRead(k, r, to, now, v);
    Finish(k, v, Status0(status), AcquireRead(v, r, to, now));
  }

  method WriteLockStep(k: Globals, r: RwLock, to: nat, now: nat, ghost v: View)
    requires Inv(v) && Rep(k, v) && Known(v) && v.running in v.t && RwLockKnown(v, r) && CanBlock(v, to, now)
    modifies k, k.cells, v.tasks, r
    ensures Rep(k, Return(v, AcquireWrite(v, r, to, now)))
  {
    hide Inv, Rep, Known, Return, Switch, RwLockKnown, AcquireWrite;
    RepCore(k, v);
    CoreRunning(k, v);
    var status := RwLockCalls.AcquireForWrite(k, r, to, now, v);
    Finish(k, v, Status0(status), AcquireWrite(v, r, to, now));
  }

  method UnlockStep(k: Globals, r: RwLock, now: nat, ghost v: View)
    requires Inv(v) && Rep(k, v) && Known(v) && v.running in v.t
    requires RwLockKnown(v, r) && RwLockCalls.Holding(v, r) && ReaderStillWaits(v, r)
    modifies k, k.cells, v.tasks, r
    ensures Rep(k, Return(v, RwRelease(v, r, now)))
  {
    hide Inv, Rep, Known, Return, Switch, RwLockKnown, RwRelease, RwLockCalls.Holding, ReaderStillWaits;
    RepCore(k, v);
    CoreRunning(k, v);
    var status := RwLockCalls.Release(k, r, now, v);
    Finish(k, v, Status0(status), RwRelease(v, r, now));
  }

  method PerformMutex(k: Globals, a: Action, ghost v: View)
    requires Inv(v) && Rep(k, v) && Enabled(v, a) && (a.Acquire? || a.Release?)
    modifies k, k.cells, v.tasks, v.mutexes.Keys
    ensures Rep(k, Step(v, a))
  {
    hide Inv, Rep, Known, Return, MutexAcquire, MutexRelease, RunqueueOk, WaitqueueOk;
    InvMid(v);
    match a
    case Acquire(m, to, now) => AcquireStep(k, m, to, now, v);
    case Release(m, now) => ReleaseStep(k, m, now, v);
    case _ =>
  }

  method PerformQueue(k: Globals, a: Action, ghost v: View)
    requires Inv(v) && Rep(k, v) && Enabled(v, a) && (a.SendTo? || a.SendIsr? || a.ReceiveFrom?)
    modifies k, k.cells, v.tasks, v.queues.Keys, k.rings
    ensures Rep(k, Step(v, a))
  {
    hide Inv, Rep, Known, Return, Switch, Enqueue, EnqueueIsr, Dequeue, RunqueueOk, WaitqueueOk;
    InvMid(v);
    match a
    case SendTo(q, msg, to, now) =>
      RingOf(k, v, q);
      SendStep(k, q, msg, to, now, v);
    case SendIsr(q, msg, now) =>
      RingOf(k, v, q);
      SendIsrStep(k, q, msg, now, v);
    case ReceiveFrom(q, to, now) =>
      RingOf(k, v, q);
      ReceiveStep(k, q, to, now, v);
    case _ =>
  }

  method PerformLock(k: Globals, a: Action, ghost v: View)
    requires Inv(v) && Rep(k, v) && Enabled(v, a) && (a.ReadLock? || a.WriteLock? || a.Unlock?)
    modifies k, k.cells, v.tasks, v.rwlocks.Keys
    ensures Rep(k, Step(v, a))
  {
    hide Inv, Rep, Known, Return, AcquireRead, AcquireWrite, RwRelease, RunqueueOk, WaitqueueOk, ReaderStillWaits;
    InvMid(v);
    match a
    case ReadLock(r, to, now) => ReadLockStep(k, r, to, now, v);
    case WriteLock(r, to, now) => WriteLockStep(k, r, to, now, v);
    case Unlock(r, now) => UnlockStep(k, r, now, v);
    case _ =>
  }

  /** Any step: the code on the heap does what the state machine says, and keeps its invariant. */
  method Perform(k: Globals, a: Action, ghost v: View)
    requires Inv(v) && Rep(k, v) && Enabled(v, a)
    modifies k, k.cells, k.rings, v.tasks, v.mutexes.Keys, v.queues.Keys, v.rwlocks.Keys
    ensures Rep(k, Step(v, a)) && Inv(Step(v, a))
  {
    hide Inv, Rep, Known, Enabled, Step;
    StepInv(v, a);
    if a.Acquire? || a.Release? {
      PerformMutex(k, a, v);
    } else if a.SendTo? || a.SendIsr? || a.ReceiveFrom? {
      PerformQueue(k, a, v);
    } else if a.ReadLock? || a.WriteLock? || a.Unlock? {
      PerformLock(k, a, v);
    } else if a.Suspend? || a.Resume? || a.Start? {
      PerformTask(k, a, v);
    } else {
      PerformTime(k, a, v);
    }
  }

  // ------------------------------------------------------------------------ runs

  /** The same tasks and the same objects exist. */
  ghost predicate SamePopulation(v: View, w: View) {
    && w.tasks == v.tasks
    && w.mutexes.Keys == v.mutexes.Keys && w.queues.Keys == v.queues.Keys && w.rwlocks.Keys == v.rwlocks.Keys
  }

  lemma ReturnPopulation(v: View, o: Out)
    requires v.running in o.v.t && SamePopulation(v, o.v)
    ensures SamePopulation(v, Return(v, o)) && SamePopulation(v, Switch(o.v))
  {
  }

  lemma AcquirePopulation(v: View, m: Mutex, to: nat, now: nat)
    requires Inv(v) && MutexKnown(v, m)
    ensures Known(v) && SamePopulation(v, MutexAcquire(v, m, to, now).v)
  {
    hide Inv, Block, ObjectOk;
    Facts(v, OnMutex(m));
    BlockSame(v, OnMutex(m), Lock, to, now);
  }

  lemma ReleasePopulation(v: View, m: Mutex, now: nat)
    requires Inv(v) && MutexKnown(v, m) && v.mutexes[m].level > 0 && v.mutexes[m].owner == v.running
    ensures Known(v) && SamePopulation(v, MutexRelease(v, m, now).v)
  {
    hide Inv, DispatchOrQueue, ObjectOk, Grant, Freed, MutexRelease, Known, MutexKnown;
    InvMid(v);
    MutexCalls.ReleaseCases(v, m, now);
    MutexCalls.MutexIn(v, m);
    if v.mutexes[m].level == 1 && |v.lists[OnMutex(m)]| > 0 {
      MutexCalls.GrantReady(v, m);
      var w, x := Grant(Freed(v, m), m), v.lists[OnMutex(m)][0];
      GranteeIs(w, x);
      DispatchOrQueueSame(w, x, now);
      GrantPopulation(Freed(v, m), m);
    }
  }

  lemma GrantPopulation(u: View, m: Mutex)
    requires Known(u) && MutexKnown(u, m) && |u.lists[OnMutex(m)]| > 0
    ensures SamePopulation(u, Grant(u, m))
  {
  }

  lemma SendPopulation(v: View, q: Queue, msg: Word, now: nat)
    requires Inv(v) && QueueKnown(v, q)
    ensures Known(v) && SamePopulation(v, EnqueueIsr(v, q, msg, now).v)
  {
    hide Inv, DispatchOrQueue, ObjectOk;
    Facts(v, OnQueue(q));
    if ReceiverWaits(v, q) {
      var w, x := HandOver(v, q, msg), v.lists[OnQueue(q)][0];
      HandOverKnown(v, q, msg);
      DispatchOrQueueSame(w, x, now);
    }
  }

  lemma EnqueuePopulation(v: View, q: Queue, msg: Word, to: nat, now: nat)
    requires Inv(v) && QueueKnown(v, q)
    ensures Known(v) && SamePopulation(v, Enqueue(v, q, msg, to, now).v)
  {
    hide Inv, Block, ObjectOk, EnqueueIsr;
    SendPopulation(v, q, msg, now);
    Facts(v, OnQueue(q));
    BlockSame(OfferBlocked(v, q, msg), OnQueue(q), Send, to, now);
  }

  lemma DequeuePopulation(v: View, q: Queue, to: nat, now: nat)
    requires Inv(v) && QueueKnown(v, q)
    ensures Known(v) && SamePopulation(v, Dequeue(v, q, to, now).v)
  {
    hide Inv, Block, DispatchOrQueue, Admit, Taken, ObjectOk, Put, Take;
    Facts(v, OnQueue(q));
    if v.queues[q].number > 0 {
      QueueCalls.TakenSteps(v, q);
      if SenderWaits(Taken(v, q), q) {
        AdmitKnown(Taken(v, q), q);
        AdmitPopulation(Taken(v, q), q);
        var w, x := Admit(Taken(v, q), q), v.lists[OnQueue(q)][0];
        assert x in w.t;
        DispatchOrQueueSame(w, x, now);
      }
    } else {
      BlockSame(Awaiting(v, q), OnQueue(q), Receive, to, now);
    }
  }

  lemma AdmitPopulation(u: View, q: Queue)
    requires Known(u) && QueueKnown(u, q) && |u.lists[OnQueue(q)]| > 0
    ensures SamePopulation(u, Admit(u, q))
  {
  }

  lemma ReadPopulation(v: View, r: RwLock, to: nat, now: nat)
    requires Inv(v) && RwLockKnown(v, r)
    ensures Known(v) && SamePopulation(v, AcquireRead(v, r, to, now).v)
  {
    hide Inv, Block, ObjectOk;
    Facts(v, OnRwLock(r));
    BlockSame(Worded(v, v.running, DESIRED_READ), OnRwLock(r), Read, to, now);
  }

  lemma WritePopulation(v: View, r: RwLock, to: nat, now: nat)
    requires Inv(v) && RwLockKnown(v, r)
    ensures Known(v) && SamePopulation(v, AcquireWrite(v, r, to, now).v)
  {
    hide Inv, Block, ObjectOk;
    Facts(v, OnRwLock(r));
    BlockSame(Worded(v, v.running, DESIRED_WRITE), OnRwLock(r), Write, to, now);
  }

  lemma UnlockPopulation(v: View, r: RwLock, now: nat)
    requires Inv(v) && RwLockKnown(v, r) && RwLockCalls.Holding(v, r)
    ensures Known(v) && SamePopulation(v, RwRelease(v, r, now).v)
  {
    hide Inv, DispatchOrQueue, StatusSet, FirstReader, Known, RwRelease;
    RwLockCalls.ReleaseCases(v, r, now);
    var d, list := Dropped(v, r), v.lists[OnRwLock(r)];
    if |list| > 0 {
      if d.rwlocks[r].readers == 0 && v.t[list[0]].c == DESIRED_WRITE {
        DispatchOrQueueSame(GrantWrite(d, r), list[0], now);
      } else if FirstReader(list, v.t) < |list| {
        var i := FirstReader(list, v.t);
        StatusSame(GrantRead(d, r, i), list[i], Idle);
      }
    }
  }

  lemma TimePopulation(v: View, a: Action)
    requires Inv(v) && Enabled(v, a) && (a.Tick? || a.Sleep? || a.Abort? || a.PanicCall?)
    ensures SamePopulation(v, Step(v, a))
  {
    hide Inv, Schedule, StatusSet, Delay, Quit, Return, Switch, RunqueueOk, WaitqueueOk, Mid, MayPark;
    InvMid(v);
    match a
    case Tick(now) =>
      ScheduleSame(v, now);
      ReturnPopulation(v, Out(Schedule(v, now), Ret(0, 0)));
    case Sleep(ms, now) =>
      SleepParks(v, ms, now);
      ReturnPopulation(v, Out(Delay(v, ms, now), Status0(OSS_ERROR_TO)));
    case Abort(now) =>
      QuitQuits(v, Aborted, now);
      ReturnPopulation(v, Out(Quit(v, Aborted, now), Status0(OSS_SUCCESS)));
    case PanicCall(now) =>
      QuitQuits(v, Panic, now);
      ReturnPopulation(v, Out(Quit(v, Panic, now), Status0(OSS_SUCCESS)));
    case _ =>
  }

  lemma TaskPopulation(v: View, a: Action)
    requires Inv(v) && Enabled(v, a) && (a.Finish? || a.Suspend? || a.Resume? || a.Start?)
    ensures SamePopulation(v, Step(v, a))
  {
    hide Inv, StatusSet, RunqueueOk, WaitqueueOk, Mid;
    InvMid(v);
    match a
    case Finish => StatusSame(v, v.running, Finished);
    case Suspend(x) => StatusSame(v, x, Suspended);
    case Resume(x) => StatusSame(v, x, Idle);
    case Start(x, p) =>
    case _ =>
  }

  lemma CallPopulation(v: View, a: Action)
    requires Inv(v) && Enabled(v, a) && ObjectOf(a) != NoObj
    ensures SamePopulation(v, Step(v, a))
  {
    hide Inv, Known, Return, Switch, SamePopulation, MutexAcquire, MutexRelease, EnqueueIsr, Enqueue, Dequeue,
      AcquireRead, AcquireWrite, RwRelease, ReaderStillWaits;
    InvMid(v);
    match a
    case Acquire(m, to, now) =>
      AcquirePopulation(v, m, to, now);
      ReturnPopulation(v, MutexAcquire(v, m, to, now));
    case Release(m, now) =>
      ReleasePopulation(v, m, now);
      ReturnPopulation(v, MutexRelease(v, m, now));
    case SendTo(q, msg, to, now) =>
      EnqueuePopulation(v, q, msg, to, now);
      ReturnPopulation(v, Enqueue(v, q, msg, to, now));
    case SendIsr(q, msg, now) =>
      SendPopulation(v, q, msg, now);
      ReturnPopulation(v, EnqueueIsr(v, q, msg, now));
    case ReceiveFrom(q, to, now) =>
      DequeuePopulation(v, q, to, now);
      ReturnPopulation(v, Dequeue(v, q, to, now));
    case ReadLock(r, to, now) =>
      ReadPopulation(v, r, to, now);
      ReturnPopulation(v, AcquireRead(v, r, to, now));
    case WriteLock(r, to, now) =>
      WritePopulation(v, r, to, now);
      ReturnPopulation(v, AcquireWrite(v, r, to, now));
    case Unlock(r, now) =>
      UnlockPopulation(v, r, now);
      ReturnPopulation(v, RwRelease(v, r, now));
    case _ =>
  }

  /** No step creates or destroys anything. */
  lemma StepPopulation(v: View, a: Action)
    requires Inv(v) && Enabled(v, a)
    ensures SamePopulation(v, Step(v, a))
  {
    hide Inv, Step, Known, SamePopulation, Enabled;
    if a.Tick? || a.Sleep? || a.Abort? || a.PanicCall? {
      TimePopulation(v, a);
    } else if a.Finish? || a.Suspend? || a.Resume? || a.Start? {
      TaskPopulation(v, a);
    } else {
      CallPopulation(v, a);
    }
  }

  /** A whole run, step by step on the heap. */
  method RunAll(k: Globals, run: seq<Action>, ghost v: View)
    requires Inv(v) && Rep(k, v) && Legal(v, run)
    modifies k, k.cells, k.rings, v.tasks, v.mutexes.Keys, v.queues.Keys, v.rwlocks.Keys
    ensures Rep(k, Run(v, run)) && Inv(Run(v, run))
    decreases |run|
  {
    hide Inv, Rep, Enabled, Step;
    if run != [] {
      Perform(k, run[0], v);
      StepPopulation(v, run[0]);
      RunAll(k, run[1..], Step(v, run[0]));
    }
  }
}
