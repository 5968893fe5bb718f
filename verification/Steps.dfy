/** The kernel as a state machine: one atomic step for every entry point, each ending with the
    context switch if something was scheduled. */
module Steps {
  import opened Types
  import opened Sequences
  import opened Spec

  datatype Action =
    | Tick(now: nat)
    | Sleep(ms: nat, now: nat)
    | Abort(now: nat)
    | PanicCall(now: nat)
    | Finish
    | Suspend(x: Task)
    | Resume(x: Task)
    | Start(x: Task, priority: nat)
    | Acquire(m: Mutex, to: nat, now: nat)
    | Release(m: Mutex, now: nat)
    | SendTo(q: Queue, msg: Word, to: nat, now: nat)
    | SendIsr(q: Queue, msg: Word, now: nat)
    | ReceiveFrom(q: Queue, to: nat, now: nat)
    | ReadLock(r: RwLock, to: nat, now: nat)
    | WriteLock(r: RwLock, to: nat, now: nat)
    | Unlock(r: RwLock, now: nat)

  /** The running task has not returned from its handler, so it can make service calls. */
  predicate Executing(v: View)
    requires v.running in v.t
  {
    v.t[v.running].status.Active? || v.t[v.running].status.Suspended?
  }

  /** The caller may be made to wait until `to` from now. */
  predicate CanWait(v: View, to: nat, now: nat) {
    v.running != v.idle && 0 < to && (to == UINT32_MAX || now + to < UINT32_MAX)
  }

  /** ... or does not ask to. */
  predicate CanBlock(v: View, to: nat, now: nat) {
    to == 0 || CanWait(v, to, now)
  }

  /** The reader that a release would grant is still waiting, not already woken by its timeout. */
  predicate ReaderStillWaits(v: View, r: RwLock)
    requires v.running in v.t && r in v.rwlocks && OnRwLock(r) in v.lists
    requires Among(v.lists[OnRwLock(r)], v.t.Keys)
  {
    var list := v.lists[OnRwLock(r)];
    var i := FirstReader(list, v.t);
    i < |list| && !(DropHold(v.rwlocks[r], v.running).readers == 0 && v.t[list[0]].c == DESIRED_WRITE)
    ==> v.t[list[i]].status.Wait?
  }

  ghost predicate Enabled(v: View, a: Action)
    requires Known(v)
  {
    match a
    case Tick(_) => true
    case Sleep(ms, now) => Executing(v) && CanWait(v, ms, now)
    case Abort(_) => Executing(v) && v.running != v.idle
    case PanicCall(_) => Executing(v) && v.running != v.idle
    case Finish => v.t[v.running].status.Active? && v.running != v.idle
    case Suspend(x) => x in v.t && x != v.idle && Runnable(v.t[x].status) && v.t[x].back == NoObj
    case Resume(x) => x in v.t && x != v.running && v.t[x].status.Suspended?
    case Start(x, p) =>
      x in v.t && x != v.running && x != v.idle && !Runnable(v.t[x].status) && v.t[x].back == NoObj
      && PRIORITY_IDLE < p
    case Acquire(m, to, now) =>
      Executing(v) && MutexKnown(v, m) && CanBlock(v, to, now)
      && (v.mutexes[m].owner == v.running ==> v.mutexes[m].level + 1 < UINT16_LIMIT)
    case Release(m, _) =>
      Executing(v) && MutexKnown(v, m) && v.mutexes[m].level > 0 && v.mutexes[m].owner == v.running
    case SendTo(q, _, to, now) => Executing(v) && QueueKnown(v, q) && CanBlock(v, to, now)
    case SendIsr(q, _, _) => QueueKnown(v, q)
    case ReceiveFrom(q, to, now) => Executing(v) && QueueKnown(v, q) && CanBlock(v, to, now)
    case ReadLock(r, to, now) =>
      Executing(v) && RwLockKnown(v, r) && CanBlock(v, to, now)
      && v.rwlocks[r].readers + 1 < UINT16_LIMIT
    case WriteLock(r, to, now) => Executing(v) && RwLockKnown(v, r) && CanBlock(v, to, now)
    case Unlock(r, _) =>
      Executing(v) && RwLockKnown(v, r)
      && (v.running in v.rwlocks[r].holds || v.rwlocks[r].writer == v.running)
      && ReaderStillWaits(v, r)
  }

  /** The end of a service call: its result goes into the caller's frame, then the switch. */
  function Return(v: View, o: Out): View
    requires v.running in o.v.t
  {
    Switch(SetRet(o.v, v.running, o.r))
  }

  /** svc_abort and svc_panic, after the panic hook. */
  function Quit(v: View, st: Status, now: nat): (w: View)
    requires Known(v)
    ensures w.t.Keys == v.t.Keys
  {
    StatusSetKnown(v, v.running, st);
    var v1 := StatusSet(v, v.running, st);
    if v1.scheduled == null then Schedule(v1, now) else v1
  }

  /** os_task_start_options */
  function Restart(v: View, x: Task, p: nat): View
    requires Known(v) && x in v.t
  {
    var ts := v.t[x := v.t[x].(status := Idle, priority := p, delay := 0, flags := FLAG_NONE,
                               back := NoObj, call := NoCall, c := 0)];
    WithoutAmong(v.rq, x, v.tasks);
    v.(t := ts, wq := Without(v.wq, x), rq := RunqueueAdd(Without(v.rq, x), ts, x))
  }

  function Step(v: View, a: Action): View
    requires Known(v) && Enabled(v, a)
  {
    match a
    case Tick(now) => Switch(Schedule(v, now))
    case Sleep(ms, now) => Return(v, Out(Delay(v, ms, now), Status0(OSS_ERROR_TO)))
    case Abort(now) => Return(v, Out(Quit(v, Aborted, now), Status0(OSS_SUCCESS)))
    case PanicCall(now) => Return(v, Out(Quit(v, Panic, now), Status0(OSS_SUCCESS)))
    case Finish => StatusSet(v, v.running, Finished)
    case Suspend(x) => StatusSet(v, x, Suspended)
    case Resume(x) => StatusSet(v, x, Idle)
    case Start(x, p) => Restart(v, x, p)
    case Acquire(m, to, now) => Return(v, MutexAcquire(v, m, to, now))
    case Release(m, now) => Return(v, MutexRelease(v, m, now))
    case SendTo(q, msg, to, now) => Return(v, Enqueue(v, q, msg, to, now))
    case SendIsr(q, msg, now) => Switch(EnqueueIsr(v, q, msg, now).v)
    case ReceiveFrom(q, to, now) => Return(v, Dequeue(v, q, to, now))
    case ReadLock(r, to, now) => Return(v, AcquireRead(v, r, to, now))
    case WriteLock(r, to, now) => Return(v, AcquireWrite(v, r, to, now))
    case Unlock(r, now) => Return(v, RwRelease(v, r, now))
  }
}
