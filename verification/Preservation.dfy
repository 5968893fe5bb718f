/** Every enabled step keeps the invariant. */
module Preservation {
  import opened Types
  import opened Spec
  import opened Invariants
  import opened Scheduling
  import opened Steps
  import opened Frames
  import opened MutexSteps
  import opened QueueSteps
  import opened RwLockSteps
  import opened TaskSteps

  /** The object an action is a call on. */
  function ObjectOf(a: Action): Obj {
    match a
    case Acquire(m, _, _) => OnMutex(m)
    case Release(m, _) => OnMutex(m)
    case SendTo(q, _, _, _) => OnQueue(q)
    case SendIsr(q, _, _) => OnQueue(q)
    case ReceiveFrom(q, _, _) => OnQueue(q)
    case ReadLock(r, _, _) => OnRwLock(r)
    case WriteLock(r, _, _) => OnRwLock(r)
    case Unlock(r, _) => OnRwLock(r)
    case _ => NoObj
  }

  /** Where a call on an object has got when it turns to the scheduler. */
  function Middle(v: View, a: Action): View
    requires Known(v) && Enabled(v, a)
  {
    match a
    case Acquire(m, to, now) => AcquireMid(v, m, to, now)
    case Release(m, now) => ReleaseMid(v, m, now)
    case SendTo(q, msg, to, now) => EnqueueMid(v, q, msg, to, now)
    case SendIsr(q, msg, now) => SendMid(v, q, msg, now)
    case ReceiveFrom(q, to, now) => DequeueMid(v, q, to, now)
    case ReadLock(r, to, now) => ReadMid(v, r, to, now)
    case WriteLock(r, to, now) => WriteMid(v, r, to, now)
    case Unlock(r, now) => UnlockMid(v, r, now)
    case _ => v
  }

  lemma StepTime(v: View, a: Action)
    requires Inv(v) && Enabled(v, a) && (a.Tick? || a.Sleep? || a.Abort? || a.PanicCall? || a.Finish?)
    ensures Good(v, NoObj, Step(v, a))
  {
    InvHanded(v);
    hide Inv, Return, Switch, Schedule, Delay, Quit, StatusSet, Handed, Ready, Good;
    match a
    case Tick(now) => TickGood(v, now);
    case Sleep(ms, now) => SleepGood(v, ms, now);
    case Abort(now) => QuitGood(v, Aborted, now);
    case PanicCall(now) => QuitGood(v, Panic, now);
    case Finish => OffGood(v, v.running, Finished);
    case _ =>
  }

  lemma StepTask(v: View, a: Action)
    requires Inv(v) && Enabled(v, a) && (a.Suspend? || a.Resume? || a.Start?)
    ensures Good(v, NoObj, Step(v, a))
  {
    hide Inv, StatusSet, Restart, Good;
    match a
    case Suspend(x) => OffGood(v, x, Suspended);
    case Resume(x) => ResumeGood(v, x);
    case Start(x, p) => RestartGood(v, x, p);
    case _ =>
  }

  lemma StepObject(v: View, a: Action)
    requires Inv(v) && Enabled(v, a)
    requires a.Acquire? || a.Release? || a.SendTo? || a.SendIsr? || a.ReceiveFrom?
    ensures Settles(v, Middle(v, a), ObjectOf(a), Step(v, a))
  {
    hide Inv, Return, Switch, MutexKnown, QueueKnown, MutexAcquire, MutexRelease, Enqueue, EnqueueIsr, Dequeue,
      Settles, AcquireMid, ReleaseMid, EnqueueMid, SendMid, DequeueMid;
    match a
    case Acquire(m, to, now) => AcquireInv(v, m, to, now);
    case Release(m, now) => ReleaseInv(v, m, now);
    case SendTo(q, msg, to, now) => EnqueueInv(v, q, msg, to, now);
    case SendIsr(q, msg, now) => EnqueueNow(v, q, msg, now);
    case ReceiveFrom(q, to, now) => DequeueInv(v, q, to, now);
    case _ =>
  }

  lemma StepLock(v: View, a: Action)
    requires Inv(v) && Enabled(v, a) && (a.ReadLock? || a.WriteLock? || a.Unlock?)
    ensures Settles(v, Middle(v, a), ObjectOf(a), Step(v, a))
  {
    hide Inv, Return, RwLockKnown, AcquireRead, AcquireWrite, RwRelease, Settles, ReadMid, WriteMid, UnlockMid;
    match a
    case ReadLock(r, to, now) => AcquireReadInv(v, r, to, now);
    case WriteLock(r, to, now) => AcquireWriteInv(v, r, to, now);
    case Unlock(r, now) => UnlockInv(v, r, now);
    case _ =>
  }

  /** Every step keeps the invariant; a switch is to a task that no runnable task outranks, and
      to the idle task only when it is alone; the task that resumes finds in its frame what
      happened to its wait; and only the object called, and the one the resuming task was
      waiting at, are touched. */
  lemma StepGood(v: View, a: Action)
    requires Inv(v) && Enabled(v, a)
    ensures Good(v, ObjectOf(a), Step(v, a))
    ensures ObjectOf(a) != NoObj ==> Settles(v, Middle(v, a), ObjectOf(a), Step(v, a))
  {
    if a.Tick? || a.Sleep? || a.Abort? || a.PanicCall? || a.Finish? || a.Suspend? || a.Resume? || a.Start? {
      assert ObjectOf(a) == NoObj;
      hide *;
      if a.Suspend? || a.Resume? || a.Start? { StepTask(v, a); } else { StepTime(v, a); }
    } else {
      if a.ReadLock? || a.WriteLock? || a.Unlock? { StepLock(v, a); } else { StepObject(v, a); }
      hide Good, Inv, Enabled, Step, Middle, Undisturbed, Answered, FramesKept, ObjectOk;
    }
  }

  lemma StepInv(v: View, a: Action)
    requires Inv(v) && Enabled(v, a)
    ensures Inv(Step(v, a))
  {
    StepGood(v, a);
    hide Inv, Step, Enabled, Framed, RetsKept, Outcome, Highest;
  }

  /** The calls whose caller cannot go on. */
  ghost predicate Blocks(v: View, a: Action)
    requires Known(v) && Enabled(v, a)
  {
    match a
    case Sleep(_, _) => true
    case Abort(_) => true
    case PanicCall(_) => true
    case Acquire(m, to, _) => to > 0 && v.mutexes[m].level > 0 && v.mutexes[m].owner != v.running
    case SendTo(q, _, to, _) => to > 0 && v.queues[q].number == v.queues[q].size && !ReceiverWaits(v, q)
    case ReceiveFrom(q, to, _) => to > 0 && v.queues[q].number == 0
    case ReadLock(r, to, _) => to > 0 && v.rwlocks[r].writers > 0
    case WriteLock(r, to, _) => to > 0 && (v.rwlocks[r].readers > 0 || v.rwlocks[r].writers > 0)
    case _ => false
  }

  /** A call whose caller cannot go on always ends with a different task running, one that no
      runnable task outranks: the assertions after scheduling never fail. */
  lemma BlockingYields(v: View, a: Action)
    requires Inv(v) && Enabled(v, a) && Blocks(v, a)
    ensures Inv(Step(v, a)) && Step(v, a).running != v.running && Highest(Step(v, a))
  {
    BlockingStep(v, a);
    hide Step, Inv, Enabled, Blocks, Framed, RetsKept, Outcome, Undisturbed;
  }

  lemma BlockingStep(v: View, a: Action)
    requires Inv(v) && Enabled(v, a) && Blocks(v, a)
    ensures Good(v, ObjectOf(a), Step(v, a)) && Step(v, a).running != v.running
  {
    hide Inv, Return, Good, Settles, Delay, Quit, Block, MutexKnown, RwLockKnown, EnqueueIsr, ParkedState, Asleep,
      StatusSet;
    match a
    case Sleep(ms, now) => SleepGood(v, ms, now);
    case Abort(now) => QuitGood(v, Aborted, now);
    case PanicCall(now) => QuitGood(v, Panic, now);
    case Acquire(m, to, now) =>
      assert MutexKnown(v, m);
      AcquireParks(v, m, to, now);
    case SendTo(q, msg, to, now) =>
      EnqueueParks(v, q, msg, to, now);
      assert Enqueue(v, q, msg, to, now) ==
        Out(Block(OfferBlocked(v, q, msg), OnQueue(q), Send, to, now), Status0(OSS_ERROR_TO));
    case ReceiveFrom(q, to, now) => DequeueParks(v, q, to, now);
    case ReadLock(r, to, now) => RwLockParks(v, r, Read, to, now);
    case WriteLock(r, to, now) => RwLockParks(v, r, Write, to, now);
    case _ =>
  }
}
