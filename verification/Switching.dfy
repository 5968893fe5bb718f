/** Who runs after a grant: the task that was served, at once, unless a queued task outranks it. */
module Switching {
  import opened Types
  import opened Sequences
  import opened Spec
  import opened Invariants
  import opened Scheduling
  import opened Steps
  import opened Frames
  import opened RwLockSteps
  import opened TaskSteps
  import opened Preservation
  import opened Locks
  import opened Laws
  import opened Ledgers
  import opened Timing

  /** Nobody queued has a higher priority. */
  ghost predicate Unoutranked(v: View, y: Task) {
    y in v.t && forall z :: z in v.rq && z in v.t ==> v.t[z].priority <= v.t[y].priority
  }

  lemma ServedRuns(m: View, z: Task, now: nat)
    requires Ready(m) && Grantee(m, z) && !m.t[m.running].status.Wait?
    ensures Unoutranked(m, z) ==> DispatchOrQueue(m, z, now).scheduled == z
    ensures Runnable(DispatchOrQueue(m, z, now).t[z].status)
  {
    hide Schedule, Dispatch, SchedOk, ObjectsOk, Pick;
    if HasHigher(m, z) {
      var m1 := if Runnable(m.t[z].status) then m else StatusSet(m, z, Idle);
      if !Runnable(m.t[z].status) { QueueGrantee(m, z); }
      StaysRunnable(m1, now, z);
    } else {
      DispatchEffect(m, z);
    }
  }

  lemma StaysRunnable(b: View, now: nat, z: Task)
    requires Ready(b) && z in b.t && Runnable(b.t[z].status) && z != b.running && !b.t[b.running].status.Wait?
    ensures Runnable(Schedule(b, now).t[z].status)
  {
    hide Schedule, Dispatch, Pick, SchedOk, ObjectsOk;
    ScheduleParts(b, now);
    WakeReady(b, now);
    WakeKeeps(b, now, z);
    var v1 := Wake(b, now);
    if Pick(v1) != b.running { DispatchEffect(v1, Pick(v1)); }
  }

  lemma WakeKeeps(b: View, now: nat, z: Task)
    requires Mid(b) && z in b.t && Runnable(b.t[z].status)
    ensures z in Wake(b, now).t && Runnable(Wake(b, now).t[z].status) && Wake(b, now).running == b.running
  {
    hide SchedOk, ObjectsOk, BacksOk;
  }

  lemma TouchServed(v: View, m: View, o: Obj, z: Task, now: nat)
    requires Inv(v) && Touches(v, m, o, z) && ObjectOk(m, o) && v.t[z].back == o
    ensures Known(m) && z in m.t
    ensures var s := DispatchOrQueue(m, z, now);
      && z in s.t && Runnable(s.t[z].status) && s.running == v.running
      && (Unoutranked(v, z) ==> s.scheduled == z)
  {
    hide Inv, DispatchOrQueue, ObjectOk, Ready, Handed, Carried;
    TouchReady(v, m, o, z);
    ServeGrantee(v, m, o, z);
    ServedRuns(m, z, now);
    ReadyCarries(m, z, now);
    TouchesRanks(v, m, o, z);
  }

  lemma ReadyCarries(m: View, z: Task, now: nat)
    requires Ready(m) && Grantee(m, z) && !m.t[m.running].status.Wait?
    ensures Known(m) && DispatchOrQueue(m, z, now).running == m.running
  {
    hide DispatchOrQueue, Ready, Handed;
    DispatchOrQueueHanded(m, z, now);
    ReadyKnown(m);
  }

  lemma ReadyKnown(m: View)
    requires Ready(m)
    ensures Known(m)
  {
  }

  lemma TouchesRanks(v: View, m: View, o: Obj, z: Task)
    requires Touches(v, m, o, z)
    ensures m.running == v.running && Known(m) && (Unoutranked(v, z) ==> Unoutranked(m, z))
  {
  }

  /** After the step `y` is runnable, and the one that runs if nobody queued before outranks it. */
  ghost predicate Takes(v: View, w: View, y: Task) {
    y in w.t && Runnable(w.t[y].status) && (Unoutranked(v, y) ==> w.running == y)
  }

  lemma EndsWith(v: View, s: View, r: Ret, y: Task)
    requires s.running == v.running && v.running in s.t && y in s.t && Runnable(s.t[y].status)
    requires Unoutranked(v, y) ==> s.scheduled == y
    ensures Takes(v, Return(v, Out(s, r)), y) && Takes(v, Switch(s), y)
  {
    hide Unoutranked;
  }

  lemma ReleaseGrants(v: View, m: Mutex, now: nat, y: Task)
    requires Inv(v) && Enabled(v, Release(m, now)) && Known(v) && Granted(v, Release(m, now), OnMutex(m), y)
    ensures Takes(v, Step(v, Release(m, now)), y)
  {
    hide Inv, Step, Middle, Grant, DispatchOrQueue, Touches, Return, ObjectOk, Takes, Unoutranked, Freed;
    var a, o := Release(m, now), OnMutex(m);
    RunningUnlisted(v);
    ServedFrame(v, a, o, y);
    if v.mutexes[m].level > 1 {
      ReleaseUnwinds(v, m, now);
      NoGrant(v, a, o, y);
    } else {
      var x := v.lists[o][0];
      HeadOnly(v, o, y);
      HeadOf(v, o);
      ReleaseMiddle(v, m, now);
      ReleaseIsGrant(v, m, now);
      ReleaseObject(v, m);
      var g := Grant(Freed(v, m), m);
      TouchServed(v, g, o, x, now);
      EndsWith(v, DispatchOrQueue(g, x, now), Status0(OSS_SUCCESS), x);
    }
  }

  lemma SendGrants(v: View, a: Action, y: Task)
    requires Inv(v) && Enabled(v, a) && Known(v) && (a.SendTo? || a.SendIsr?) && Granted(v, a, OnQueue(a.q), y)
    ensures Takes(v, Step(v, a), y)
  {
    hide Inv, Step, Middle, HandOver, DispatchOrQueue, Touches, Return, Switch, ObjectOk, Takes, Unoutranked,
      EnqueueIsr, Blocks;
    var o, q := OnQueue(a.q), a.q;
    RunningUnlisted(v);
    ServedFrame(v, a, o, y);
    SendServes(v, a, y);
    var x, h := v.lists[o][0], HandOver(v, q, a.msg);
    EnqueueIs(v, q, a.msg, a.now);
    SendsNow(v, a);
    HeadOnly(v, o, y);
    HeadOf(v, o);
    MiddleHand(v, a);
    HandObject(v, q, a.msg);
    TouchServed(v, h, o, x, a.now);
    EndsWith(v, DispatchOrQueue(h, x, a.now), Status0(OSS_SUCCESS), x);
  }

  lemma SendServes(v: View, a: Action, y: Task)
    requires Known(v) && Enabled(v, a) && (a.SendTo? || a.SendIsr?)
    requires y in v.lists[OnQueue(a.q)] && OnQueue(a.q) in Middle(v, a).lists && y !in Middle(v, a).lists[OnQueue(a.q)]
    ensures ReceiverWaits(v, a.q) && (a.SendTo? ==> !Blocks(v, a))
  {
    hide Known, DispatchOrQueue;
  }

  lemma ReceiveGrants(v: View, a: Action, y: Task)
    requires Inv(v) && Enabled(v, a) && Known(v) && a.ReceiveFrom? && Granted(v, a, OnQueue(a.q), y)
    ensures Takes(v, Step(v, a), y)
  {
    hide Inv, Middle, Admit, Taken, DispatchOrQueue, Touches, Return, ObjectOk, Takes, Unoutranked, Dequeue, Blocks,
      Known;
    var o, q := OnQueue(a.q), a.q;
    RunningUnlisted(v);
    ServedFrame(v, a, o, y);
    ReceiveServes(v, a, y);
    DequeueIs(v, q, a.to, a.now);
    HeadOnly(v, o, y);
    HeadOf(v, o);
    MiddleAdmits(v, a);
    AdmitsObject(v, q);
    var x, g := v.lists[o][0], Admit(Taken(v, q), q);
    TouchServed(v, g, o, x, a.now);
    InRunning(v);
    EndsWith(v, DispatchOrQueue(g, x, a.now), Dequeue(v, q, a.to, a.now).r, x);
  }

  lemma InRunning(v: View)
    requires Inv(v)
    ensures v.running in v.t && Known(v)
  {
  }

  lemma ReceiveServes(v: View, a: Action, y: Task)
    requires Known(v) && Enabled(v, a) && a.ReceiveFrom?
    requires y in v.lists[OnQueue(a.q)] && OnQueue(a.q) in Middle(v, a).lists && y !in Middle(v, a).lists[OnQueue(a.q)]
    ensures v.queues[a.q].number > 0 && SenderWaits(v, a.q)
  {
    hide Known, DispatchOrQueue;
  }

  lemma UnlockGrants(v: View, r: RwLock, now: nat, y: Task)
    requires Inv(v) && Enabled(v, Unlock(r, now)) && Known(v) && Granted(v, Unlock(r, now), OnRwLock(r), y)
    ensures y in v.t && (v.t[y].call.Read? || v.t[y].call.Write?)
    ensures var w := Step(v, Unlock(r, now));
      && y in w.t && Runnable(w.t[y].status)
      && (v.t[y].call.Write? ==> Takes(v, w, y)) && (v.t[y].call.Read? ==> w.running == v.running)
  {
    hide Inv, Step, Middle, GrantWrite, GrantRead, Dropped, UnlockMid, DispatchOrQueue, Touches, Return, ObjectOk,
      StatusSet, FirstReader, RwRelease, EntersLoop, Known, ReaderStillWaits, Takes, Unoutranked, DropHold;
    var a, o, list := Unlock(r, now), OnRwLock(r), v.lists[OnRwLock(r)];
    RunningUnlisted(v);
    ServedFrame(v, a, o, y);
    UnlockReturns(v, r, now);
    StepIsUnlock(v, r, now);
    UnlockIs(v, r, now);
    ListedOnce(v, r);
    MidList(v, r, now, y);
    LoopOrHead(v, r);
    WaitersAsk(v, r);
    InRunning(v);
    FirstReaderReads(list, v.t);
    var u := RwRelease(v, r, now).v;
    if EntersLoop(v, r) {
      DroppedList(v, r);
      GrantReadRuns(Dropped(v, r), r, FirstReader(list, v.t));
      StatusRuns(UnlockMid(v, r, now), y);
      DroppedNone(v, r);
      EndsHere(v, u, y);
    } else {
      assert list[0] in list;
      LockTouched(v, r);
      HeadOf(v, o);
      TouchServed(v, UnlockMid(v, r, now), o, list[0], now);
      EndsWith(v, u, Status0(OSS_SUCCESS), y);
      TakesRuns(v, Step(v, a), y);
    }
  }

  lemma TakesRuns(v: View, w: View, y: Task)
    requires Takes(v, w, y)
    ensures y in w.t && Runnable(w.t[y].status)
  {
  }

  lemma DroppedNone(v: View, r: RwLock)
    requires Inv(v) && r in v.rwlocks
    ensures Dropped(v, r).scheduled == null && Dropped(v, r).running == v.running
  {
  }

  lemma GrantReadRuns(d: View, r: RwLock, i: nat)
    requires Known(d) && RwLockKnown(d, r) && i < |d.lists[OnRwLock(r)]|
    ensures var g := GrantRead(d, r, i); Known(g) && g.scheduled == d.scheduled && g.running == d.running
  {
    GrantKnown(d, r, i);
  }

  lemma StatusRuns(g: View, x: Task)
    requires Known(g) && x in g.t
    ensures var u := StatusSet(g, x, Idle);
      x in u.t && Runnable(u.t[x].status) && u.scheduled == g.scheduled && u.running == g.running
  {
  }

  lemma EndsHere(v: View, u: View, y: Task)
    requires u.running == v.running && u.scheduled == null && v.running in u.t && y in u.t && Runnable(u.t[y].status)
    ensures var w := Return(v, Out(u, Status0(OSS_SUCCESS)));
      w.running == v.running && y in w.t && Runnable(w.t[y].status)
  {
  }

  /** Whoever is told SUCCESS by another's call is runnable when the step is over. A reader that gets a lock waits for
      its turn; anyone else runs at once unless a queued task outranks it. */
  lemma GrantTakes(v: View, a: Action, y: Task)
    requires Inv(v) && Enabled(v, a) && Known(v) && ObjectOf(a) != NoObj && Granted(v, a, ObjectOf(a), y)
    ensures y in v.t && y in Step(v, a).t && Runnable(Step(v, a).t[y].status)
    ensures if v.t[y].call.Read? then Step(v, a).running == v.running
            else Unoutranked(v, y) ==> Step(v, a).running == y
  {
    hide Inv, Step, Enabled, Middle, Granted, Unoutranked, Blocks, Known;
    GrantedListed(v, a, y);
    CallsFit(v, ObjectOf(a), y);
    if a.Acquire? || a.ReadLock? || a.WriteLock? {
      NeverGrants(v, a, y);
    } else {
      match a
      case Release(m, now) => ReleaseGrants(v, m, now, y);
      case SendTo(_, _, _, _) => SendGrants(v, a, y);
      case SendIsr(_, _, _) => SendGrants(v, a, y);
      case ReceiveFrom(_, _, _) => ReceiveGrants(v, a, y);
      case Unlock(r, now) => UnlockGrants(v, r, now, y);
      case _ =>
    }
  }

  lemma GrantedListed(v: View, a: Action, y: Task)
    requires Known(v) && Enabled(v, a) && Granted(v, a, ObjectOf(a), y)
    ensures ObjectOf(a) in v.lists && y in v.lists[ObjectOf(a)]
  {
    hide Step;
  }

  lemma CallsFit(v: View, o: Obj, y: Task)
    requires Inv(v) && o in v.lists && y in v.lists[o]
    ensures y in v.t && CallFits(o, v.t[y].call)
  {
    Facts(v, o);
    assert TaskOk(v.t[y]) && v.t[y].back == o;
  }

  lemma NeverGrants(v: View, a: Action, y: Task)
    requires Inv(v) && Known(v) && Enabled(v, a) && (a.Acquire? || a.ReadLock? || a.WriteLock?)
    ensures !Granted(v, a, ObjectOf(a), y)
  {
    hide Inv, Step, Middle, Blocks, Granted;
    RunningUnlisted(v);
    if Blocks(v, a) {
      BlockedTold(v, a, y);
    } else {
      StaysOn(v, a);
      if a.Acquire? { AcquireAnswers(v, a.m, a.to, a.now); }
      else if a.ReadLock? { ReadAnswers(v, a.r, a.to, a.now); }
      else { WriteAnswers(v, a.r, a.to, a.now); }
      NoGrant(v, a, ObjectOf(a), y);
    }
  }

  // ------------------------------------------------------------ control of tasks

  /** `x` has been put into the runqueue behind every task of its priority `p` or above, before all others. */
  ghost predicate QueuedBehind(s: seq<Task>, r: seq<Task>, ts: map<Task, TaskV>, x: Task, p: nat) {
    && Distinct(r) && x in r && Without(r, x) == s
    && forall y :: y in s && y in ts ==> (IndexOf(r, y) < IndexOf(r, x) <==> ts[y].priority >= p)
  }

  lemma JoinsBehind(s: seq<Task>, ts0: map<Task, TaskV>, ts1: map<Task, TaskV>, x: Task)
    requires RunqueueOk(s, ts0) && x in ts0 && SameBut(ts0, ts1, x) && x !in s
    ensures QueuedBehind(s, RunqueueAdd(s, ts1, x), ts0, x, ts1[x].priority)
  {
    hide PriorityPos, InsertAt, Without, IndexOf;
    var p := PriorityPos(s, ts1, ts1[x].priority);
    InsertMembers(s, p, x);
    InsertAround(s, p, x);
    forall y | y in s && y in ts0
      ensures IndexOf(InsertAt(s, p, x), y) < IndexOf(InsertAt(s, p, x), x) <==> ts0[y].priority >= ts1[x].priority
    {
      var j := IndexOf(s, y);
      InsertPlace(s, p, x, j);
      assert p <= j ==> ts0[s[p]].priority >= ts0[s[j]].priority;
    }
  }

  lemma InsertAround(s: seq<Task>, p: nat, x: Task)
    requires p <= |s| && Distinct(s) && x !in s
    ensures Without(InsertAt(s, p, x), x) == s
  {
    InsertMembers(s, p, x);
    InsertIndex(s, p, x, p);
    IndexOfAt(InsertAt(s, p, x), p);
  }

  lemma InsertPlace(s: seq<Task>, p: nat, x: Task, j: nat)
    requires p <= |s| && Distinct(s) && x !in s && j < |s|
    ensures IndexOf(InsertAt(s, p, x), x) == p
    ensures IndexOf(InsertAt(s, p, x), s[j]) == if j < p then j else j + 1
  {
    hide InsertAt;
    InsertMembers(s, p, x);
    InsertIndex(s, p, x, p);
    InsertIndex(s, p, x, if j < p then j else j + 1);
    IndexOfAt(InsertAt(s, p, x), p);
    IndexOfAt(InsertAt(s, p, x), if j < p then j else j + 1);
  }

  /** A suspended task leaves the runqueue; nothing else changes. */
  lemma SuspendsOnly(v: View, x: Task)
    requires Inv(v) && Enabled(v, Suspend(x))
    ensures Known(v) && x in v.t
    ensures Step(v, Suspend(x)) == v.(t := v.t[x := v.t[x].(status := Suspended)], rq := Without(v.rq, x))
  {
    hide Inv, Known, StatusSet, Without;
    InRunning(v);
    NotAsleep(v, x);
    StatusShape(v, x, Suspended);
  }

  /** So does a task that returns from its handler. */
  lemma FinishesOnly(v: View)
    requires Inv(v) && Enabled(v, Finish)
    ensures Known(v) && v.running in v.t
    ensures Step(v, Finish) == v.(t := v.t[v.running := v.t[v.running].(status := Finished)],
                                     rq := Without(v.rq, v.running))
  {
    hide Inv, Known, StatusSet, Without;
    InRunning(v);
    NotAsleep(v, v.running);
    StatusShape(v, v.running, Finished);
  }

  lemma StatusShape(v: View, x: Task, st: Status)
    requires Known(v) && x in v.t && x !in v.wq && !v.t[x].status.Wait? && (st.Suspended? || st.Finished? || st.Idle?)
    ensures var w, ts := StatusSet(v, x, st), v.t[x := v.t[x].(status := st)];
      && w == v.(t := ts, rq := w.rq) && Among(v.rq, ts.Keys)
      && w.rq == if st.Idle? then RunqueueAdd(v.rq, ts, x) else Without(v.rq, x)
  {
    hide RunqueueAdd, WaitqueueAdd, Without;
    WithoutAbsent(v.wq, x);
  }

  lemma NotAsleep(v: View, x: Task)
    requires Inv(v) && x in v.t && !v.t[x].status.Wait?
    ensures x !in v.wq
  {
    hide ObjectsOk, BacksOk;
  }

  /** A resumed task is IDLE and queued behind its equals; nothing else changes. */
  lemma ResumesOnly(v: View, x: Task)
    requires Inv(v) && Enabled(v, Resume(x))
    ensures Known(v) && x in v.t
    ensures var w := Step(v, Resume(x));
      && w == v.(t := v.t[x := v.t[x].(status := Idle)], rq := w.rq)
      && QueuedBehind(v.rq, w.rq, v.t, x, v.t[x].priority)
  {
    hide Inv, Known, RunqueueAdd, StatusSet, QueuedBehind, RunqueueOk;
    InRunning(v);
    RunqueueFine(v, x);
    NotAsleep(v, x);
    StatusShape(v, x, Idle);
    JoinsBehind(v.rq, v.t, v.t[x := v.t[x].(status := Idle)], x);
  }

  lemma RunqueueFine(v: View, x: Task)
    requires Inv(v) && x in v.t && !Runnable(v.t[x].status)
    ensures RunqueueOk(v.rq, v.t) && x !in v.rq
  {
    hide ObjectsOk, BacksOk;
  }

  /** A started task is IDLE at its new priority with nothing pending, queued behind its equals, and off the
      waitqueue; nothing else changes. */
  lemma StartsOnly(v: View, x: Task, p: nat)
    requires Inv(v) && Enabled(v, Start(x, p))
    ensures Known(v) && x in v.t
    ensures var w := Step(v, Start(x, p));
      && x in w.t && w == v.(t := v.t[x := w.t[x]], rq := w.rq, wq := Without(v.wq, x))
      && w.t[x] == TaskV(Idle, p, 0, FLAG_NONE, NoObj, 0, v.t[x].ret, NoCall)
      && QueuedBehind(v.rq, w.rq, v.t, x, p)
  {
    InRunning(v);
    RunqueueFine(v, x);
    WithoutAbsent(v.rq, x);
    JoinsBehind(v.rq, v.t, Restart(v, x, p).t, x);
    hide Inv, Known, RunqueueAdd, WaitqueueAdd, Without;
  }

  /** A task that aborts or panics is on neither queue and has lost the processor. */
  lemma QuitsFor(v: View, a: Action)
    requires Inv(v) && Enabled(v, a) && (a.Abort? || a.PanicCall?)
    ensures Known(v)
    ensures var w, x := Step(v, a), v.running;
      && x in w.t && w.t[x].status == (if a.Abort? then Aborted else Panic)
      && x !in w.rq && x !in w.wq && w.running != x
  {
    hide Inv, Step, Enabled, Blocks;
    InRunning(v);
    QuitStatus(v, a);
    BlockingYields(v, a);
    OffQueues(Step(v, a), v.running);
  }

  lemma QuitStatus(v: View, a: Action)
    requires Inv(v) && Enabled(v, a) && (a.Abort? || a.PanicCall?)
    ensures Known(v) && v.running in Step(v, a).t
    ensures Step(v, a).t[v.running].status == (if a.Abort? then Aborted else Panic)
    ensures Blocks(v, a)
  {
    hide Inv, Ready, Schedule, Return, StatusSet, Quit;
    InRunning(v);
    var st := if a.Abort? then Aborted else Panic;
    QuitReady(v, st, a.now);
    StatusIs(v, v.running, st);
    ScheduleEnded(StatusSet(v, v.running, st), a.now, st);
    ReturnKeeps(v, Out(Schedule(StatusSet(v, v.running, st), a.now), Status0(OSS_SUCCESS)));
  }

  lemma StatusIs(v: View, x: Task, st: Status)
    requires Known(v) && x in v.t
    ensures x in StatusSet(v, x, st).t && StatusSet(v, x, st).t[x].status == st
    ensures StatusSet(v, x, st).running == v.running
  {
  }

  lemma ReturnKeeps(v: View, o: Out)
    requires v.running in o.v.t
    ensures v.running in Return(v, o).t && Return(v, o).t[v.running].status == o.v.t[v.running].status
  {
  }

  /** The scheduler does not change what has become of a caller that has ended. */
  lemma ScheduleEnded(b: View, now: nat, st: Status)
    requires Ready(b) && b.t[b.running].status == st && Ended(st)
    ensures Known(b) && Schedule(b, now).t[b.running].status == st
  {
    hide Schedule, Dispatch, Pick, SchedOk, ObjectsOk;
    ScheduleParts(b, now);
    WakeReady(b, now);
    WakeCarried(b, now);
    var v1 := Wake(b, now);
    if Pick(v1) != b.running { DispatchEffect(v1, Pick(v1)); }
  }

  lemma OffQueues(w: View, x: Task)
    requires Inv(w) && x in w.t && Ended(w.t[x].status)
    ensures x !in w.rq && x !in w.wq
  {
    hide ObjectsOk, BacksOk;
  }
}
