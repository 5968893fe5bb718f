/** Where the code does not keep the invariant: for each such call, exactly when it does. */
module Limits {
  import opened Types
  import opened Sequences
  import opened Spec
  import opened Invariants
  import opened Scheduling
  import opened Steps
  import opened Frames
  import opened MutexSteps
  import opened RwLockSteps
  import opened TaskSteps

  // ------------------------------------------------------ granting a woken reader

  /** Adding a task that is already queued drops everything behind it, so the runqueue keeps its
      members exactly when the task is absent or last. */
  lemma AddAgainExact(s: seq<Task>, ts: map<Task, TaskV>, x: Task)
    requires x in ts && Among(s, ts.Keys) && Distinct(s)
    ensures (forall y :: y in s ==> y in RunqueueAdd(s, ts, x)) <==> (x in s ==> s[|s| - 1] == x)
  {
    var i := IndexOf(s, x);
    if x !in s {
      InsertMembers(s, PriorityPos(s, ts, ts[x].priority), x);
    } else {
      var last := s[|s| - 1];
      var r := RunqueueAdd(s, ts, x);
      assert r == s[..i + 1];
      assert last in s;
      if i == |s| - 1 { assert r == s; }
      else { assert forall k :: 0 <= k < |r| ==> r[k] == s[k] && r[k] != last; }
    }
  }

  lemma IdleBehind(v: View, x: Task)
    requires Inv(v) && x in v.rq && x != v.idle
    ensures v.idle !in v.rq[..IndexOf(v.rq, x) + 1]
  {
    var i := IndexOf(v.rq, x);
    assert v.t[v.rq[i]].priority > PRIORITY_IDLE;
    assert forall k :: 0 <= k < i ==> v.t[v.rq[k]].priority >= v.t[v.rq[i]].priority;
    assert forall k :: 0 <= k < |v.rq[..i + 1]| ==> v.rq[..i + 1][k] == v.rq[k] != v.idle;
  }

  lemma WokenReaderLosesIdle(v: View, r: RwLock, now: nat)
    requires Inv(v) && RwLockKnown(v, r) && !ReaderStillWaits(v, r)
    ensures v.idle !in Return(v, RwRelease(v, r, now)).rq
    ensures Return(v, RwRelease(v, r, now)).idle == v.idle
  {
    var list := v.lists[OnRwLock(r)];
    var i := FirstReader(list, v.t);
    var x := list[i];
    assert x in list;
    Facts(v, OnRwLock(r));
    assert TaskOk(v.t[x]) && v.t[x].back == OnRwLock(r) && v.t[x].status.Idle?;
    assert x in v.rq && x != v.idle;
    IdleBehind(v, x);
    hide Inv, ObjectOk, Known, DispatchOrQueue, Among, FirstReader;
  }

  /** A release keeps the invariant exactly when the reader it grants, if it grants one, is
      still in WAIT. A reader whose timeout has already made it runnable is added to the
      runqueue a second time, and the idle task drops off. */
  lemma UnlockExact(v: View, r: RwLock, now: nat)
    requires Inv(v) && RwLockKnown(v, r)
    requires v.running in v.rwlocks[r].holds || v.rwlocks[r].writer == v.running
    ensures Inv(Return(v, RwRelease(v, r, now))) <==> ReaderStillWaits(v, r)
  {
    if ReaderStillWaits(v, r) {
      hide Inv, Return, RwRelease, Undisturbed, Answered, FramesKept, ObjectOk;
      UnlockInv(v, r, now);
    } else {
      WokenReaderLosesIdle(v, r, now);
      hide Return, RwRelease, ObjectsOk;
    }
  }

  // ------------------------------------------------------------ 16-bit counters

  /** The guard against overflow compares a 16-bit level with a 32-bit limit and never fires: an
      acquire keeps the accounting exactly when its caller is not already at level 65535. */
  lemma AcquireExact(v: View, m: Mutex, to: nat, now: nat)
    requires Inv(v) && MutexKnown(v, m) && CanBlock(v, to, now)
    ensures Inv(Return(v, MutexAcquire(v, m, to, now)))
       <==> !(v.mutexes[m].owner == v.running && v.mutexes[m].level == UINT16_LIMIT - 1)
  {
    Facts(v, OnMutex(m));
    if v.mutexes[m].owner == v.running && v.mutexes[m].level == UINT16_LIMIT - 1 {
      assert MutexAcquire(v, m, to, now).v.mutexes[m].level == 0;
      assert Return(v, MutexAcquire(v, m, to, now)).mutexes[m] == MutexAcquire(v, m, to, now).v.mutexes[m];
      assert Return(v, MutexAcquire(v, m, to, now)).objs == v.objs;
      FreeWithOwner(Return(v, MutexAcquire(v, m, to, now)), m);
    } else {
      hide Inv, Return, MutexAcquire, Undisturbed, Answered, FramesKept, ObjectOk;
      AcquireInv(v, m, to, now);
    }
  }

  lemma FreeWithOwner(w: View, m: Mutex)
    requires OnMutex(m) in w.objs && m in w.mutexes && w.mutexes[m].level == 0 && w.mutexes[m].owner != null
    ensures !Inv(w)
  {
    if Inv(w) { FreeHasNoOwner(w, m); }
  }

  lemma FreeHasNoOwner(w: View, m: Mutex)
    requires Inv(w) && OnMutex(m) in w.objs && m in w.mutexes
    ensures w.mutexes[m].level == 0 <==> w.mutexes[m].owner == null
  {
    assert ObjectOk(w, OnMutex(m));
  }

  /** The reader count wraps the same way, unguarded. */
  lemma ReadExact(v: View, r: RwLock, to: nat, now: nat)
    requires Inv(v) && RwLockKnown(v, r) && CanBlock(v, to, now)
    ensures Inv(Return(v, AcquireRead(v, r, to, now))) <==> v.rwlocks[r].readers < UINT16_LIMIT - 1
  {
    hide Inv, Return, AcquireRead, Stage, Undisturbed, Answered, FramesKept, LinksKept;
    Facts(v, OnRwLock(r));
    if v.rwlocks[r].readers < UINT16_LIMIT - 1 {
      AcquireReadInv(v, r, to, now);
    } else {
      CountWraps(v, r, to, now);
      HeldByNone(Return(v, AcquireRead(v, r, to, now)), r, v.running);
    }
  }

  lemma CountWraps(v: View, r: RwLock, to: nat, now: nat)
    requires Known(v) && RwLockKnown(v, r) && v.rwlocks[r].writers == 0 && v.rwlocks[r].readers == UINT16_LIMIT - 1
    ensures var w := Return(v, AcquireRead(v, r, to, now));
      r in w.rwlocks && w.rwlocks[r].readers == 0 && v.running in w.rwlocks[r].holds && w.objs == v.objs
  {
  }

  lemma HeldByNone(w: View, r: RwLock, x: Task)
    requires OnRwLock(r) in w.objs && r in w.rwlocks && w.rwlocks[r].readers == 0 && x in w.rwlocks[r].holds
    ensures !Inv(w)
  {
    if Inv(w) { ReadersCountHolds(w, r); }
  }

  lemma ReadersCountHolds(w: View, r: RwLock)
    requires Inv(w) && OnRwLock(r) in w.objs && r in w.rwlocks
    ensures w.rwlocks[r].readers == |w.rwlocks[r].holds|
  {
    assert ObjectOk(w, OnRwLock(r));
  }

  // -------------------------------------------------- restarting the running task

  /** Making a suspended task runnable is right exactly when it is not the one still on the
      processor: that one would be IDLE while it runs, and the scheduler refuses to switch away
      from an IDLE task. */
  lemma ResumeExact(v: View, x: Task)
    requires Inv(v) && x in v.t && v.t[x].status.Suspended?
    ensures Inv(StatusSet(v, x, Idle)) <==> x != v.running
    ensures x == v.running ==> forall now: nat ::
      Known(StatusSet(v, x, Idle)) && Schedule(StatusSet(v, x, Idle), now) == StatusSet(v, x, Idle)
  {
    StatusSetKnown(v, x, Idle);
    if x != v.running { ResumeGood(v, x); }
    hide SchedOk, ObjectsOk, BacksOk, RetsKept, Framed, Highest, Outcome;
  }

  /** os_task_start_options clears the link of the task's blocked list: on a list, everything behind drops off. */
  function StartAgain(v: View, x: Task, p: nat): View
    requires Known(v) && x in v.t
  {
    var w, o := Restart(v, x, p), v.t[x].back;
    if OnItsList(v, x) then w.(lists := v.lists[o := v.lists[o][..IndexOf(v.lists[o], x) + 1]]) else w
  }

  /** Starting a task again is right exactly when it is neither still on the processor nor on a blocked list,
      where it would stay without a back pointer. */
  lemma StartExact(v: View, x: Task, p: nat)
    requires Inv(v) && x in v.t && !Runnable(v.t[x].status) && PRIORITY_IDLE < p
    ensures Known(v) && (Inv(StartAgain(v, x, p)) <==> x != v.running && !OnItsList(v, x))
  {
    hide StartAgain, Restart, OnItsList;
    if OnItsList(v, x) { StaysListed(v, x, p); } else { StartUnlisted(v, x, p); }
  }

  lemma StartUnlisted(v: View, x: Task, p: nat)
    requires Inv(v) && x in v.t && !Runnable(v.t[x].status) && PRIORITY_IDLE < p && !OnItsList(v, x)
    ensures Known(v) && (Inv(StartAgain(v, x, p)) <==> x != v.running)
  {
    hide SchedOk, ObjectsOk, BacksOk, RunqueueAdd, Without;
    IdleRuns(v);
    if x != v.running { RestartMid(v, x, p); }
  }

  lemma IdleRuns(v: View)
    requires Inv(v)
    ensures v.idle in v.t && Runnable(v.t[v.idle].status)
  {
    assert v.idle in v.rq;
  }

  lemma StaysListed(v: View, x: Task, p: nat)
    requires Inv(v) && x in v.t && OnItsList(v, x)
    ensures Known(v) && !Inv(StartAgain(v, x, p))
  {
    hide Inv, Restart;
    Facts(v, v.t[x].back);
    RestartBack(v, x, p);
    var w, o := StartAgain(v, x, p), v.t[x].back;
    assert w.lists[o][IndexOf(v.lists[o], x)] == x && w.t[x].back == NoObj;
    if Inv(w) { Facts(w, o); }
  }

  lemma RestartBack(v: View, x: Task, p: nat)
    requires Known(v) && x in v.t
    ensures x in Restart(v, x, p).t && Restart(v, x, p).t[x].back == NoObj
  {
  }

  // ------------------------------------------------------------- delays of zero

  /** Another task may run at once: one that is due, or a runnable one that the caller does not outrank. */
  ghost predicate OtherCanRun(v: View, now: nat)
    requires Known(v)
  {
    || (exists i :: 0 <= i < |v.wq| && v.t[v.wq[i]].delay <= now)
    || (exists i :: 0 <= i < |v.rq| && v.rq[i] != v.running && v.t[v.rq[i]].priority >= v.t[v.running].priority)
  }

  /** With nobody due, a caller whose deadline is now goes to the head of the waitqueue. */
  lemma ZeroGoesFirst(wq: seq<Task>, ts: map<Task, TaskV>, x: Task, now: nat)
    requires Among(wq, ts.Keys) && x in ts && ts[x].delay == now && ByDeadline(wq, ts)
    ensures (exists i :: 0 <= i < |wq| && ts[wq[i]].delay <= now) ==>
      |wq| > 0 && ts[wq[0]].delay <= now && |WaitqueueAdd(wq, ts, x)| > 0 && WaitqueueAdd(wq, ts, x)[0] == wq[0]
    ensures !(exists i :: 0 <= i < |wq| && ts[wq[i]].delay <= now) ==> WaitqueueAdd(wq, ts, x) == [x] + wq
  {
    var p := DeadlinePos(wq, ts, now);
    if i :| 0 <= i < |wq| && ts[wq[i]].delay <= now {
      assert i > 0 ==> ts[wq[0]].delay <= ts[wq[i]].delay;
      assert p > 0;
    } else {
      assert p == 0;
    }
  }

  lemma AddedHere(s: seq<Task>, ts: map<Task, TaskV>, x: Task)
    requires Among(s, ts.Keys) && x in ts && x !in s
    ensures var p, r := PriorityPos(s, ts, ts[x].priority), RunqueueAdd(s, ts, x);
      && |r| == |s| + 1 && IndexOf(r, x) == p && r[p] == x
      && (forall j :: 0 <= j < p ==> r[j] == s[j]) && (forall j :: p <= j < |s| ==> r[j + 1] == s[j])
  {
    hide PriorityPos, IndexOf, Among;
    var p := PriorityPos(s, ts, ts[x].priority);
    InsertedAt(s, p, x);
  }

  lemma InsertedAt(s: seq<Task>, p: nat, x: Task)
    requires p <= |s| && x !in s
    ensures var r := InsertAt(s, p, x);
      && |r| == |s| + 1 && IndexOf(r, x) == p && r[p] == x
      && (forall j :: 0 <= j < p ==> r[j] == s[j]) && (forall j :: p <= j < |s| ==> r[j + 1] == s[j])
  {
    var r := InsertAt(s, p, x);
    var i := IndexOf(r, x);
    assert forall j :: 0 <= j < p ==> r[j] == s[j];
  }

  /** A runnable caller just put back on the runqueue is chosen exactly when it outranks all others. */
  lemma OnlyChoice(s: seq<Task>, ts: map<Task, TaskV>, x: Task)
    requires Among(s, ts.Keys) && x in ts && x !in s && ByPriority(s, ts)
    ensures var r := RunqueueAdd(s, ts, x);
      var next := NextWrapped(r, x);
      && |r| > 0 && Among(r, ts.Keys)
      && ((if ts[r[0]].priority > ts[x].priority then r[0]
           else if ts[next].priority == ts[x].priority then next else r[0]) == x
          <==> forall i :: 0 <= i < |s| ==> ts[s[i]].priority < ts[x].priority)
  {
    var p := PriorityPos(s, ts, ts[x].priority);
    var r := RunqueueAdd(s, ts, x);
    AddAmong(s, ts, x);
    AddedHere(s, ts, x);
    hide RunqueueAdd, IndexOf, PriorityPos;
    if p > 0 {
      assert r[0] == s[0] && ts[s[0]].priority >= ts[x].priority;
      if p + 1 < |r| { assert r[p + 1] == s[p] && ts[s[p]].priority < ts[x].priority; }
    } else if |s| > 0 {
      assert r[1] == s[0];
      assert forall i :: 0 <= i < |s| ==> ts[s[0]].priority >= ts[s[i]].priority;
    }
  }

  /** The state in which a delay of zero calls the scheduler. */
  ghost predicate Drowsy(v: View, b: View, now: nat) {
    && Known(v) && Known(b) && b.running == v.running && b.scheduled == null && b.idle == v.idle
    && SameBut(v.t, b.t, v.running) && b.t[v.running] == v.t[v.running].(status := Wait, delay := now)
    && b.rq == Without(v.rq, v.running) && b.wq == WaitqueueAdd(v.wq, b.t, v.running)
    && b == v.(t := b.t, rq := b.rq, wq := b.wq)
  }

  lemma ZeroShape(v: View, now: nat)
    requires Known(v) && v.scheduled == null && now < UINT32_MAX
    ensures Drowsy(v, Asleep(v, 0, now), now) && Delay(v, 0, now) == Schedule(Asleep(v, 0, now), now)
  {
    hide Schedule, Without, WaitqueueAdd;
  }

  lemma ZeroQueues(v: View, b: View, now: nat)
    requires SchedOk(v.rq, v.wq, v.t, v.idle) && Drowsy(v, b, now) && !v.t[v.running].status.Wait?
    ensures RunqueueOk(b.rq, b.t) && WaitqueueOk(b.wq, b.t)
    ensures Among(v.wq, b.t.Keys) && ByDeadline(v.wq, b.t) && v.running !in v.wq && v.running !in b.rq
  {
    var me := v.running;
    LeaveRunqueue(v.rq, v.t, b.t, me);
    JoinWaitqueue(v.wq, v.t, b.t, me);
    WithoutMembers(v.rq, me);
    OrderFrame(v.wq, v.t, b.t, me);
  }

  lemma ZeroAsleep(v: View, now: nat)
    requires Inv(v) && v.running != v.idle && now < UINT32_MAX && !v.t[v.running].status.Wait?
    ensures var b := Asleep(v, 0, now);
      && Delay(v, 0, now) == Schedule(b, now) && Ready(b) && Drowsy(v, b, now)
      && Among(v.wq, b.t.Keys) && ByDeadline(v.wq, b.t) && v.running !in v.wq && v.running !in b.rq
  {
    InvHanded(v);
    var b, me := Asleep(v, 0, now), v.running;
    assert TaskOk(v.t[me]);
    ZeroShape(v, now);
    ZeroQueues(v, b, now);
    ZeroReady(v, b, now);
    hide Inv, Mid, Schedule, Delay, Asleep, Ready, Drowsy;
  }

  lemma ZeroReady(v: View, b: View, now: nat)
    requires Inv(v) && v.running != v.idle && Drowsy(v, b, now)
    requires now < UINT32_MAX && TaskOk(v.t[v.running]) && v.t[v.running].back == NoObj
    requires RunqueueOk(b.rq, b.t) && WaitqueueOk(b.wq, b.t)
    ensures Ready(b)
  {
    WithoutMembers(v.rq, v.running);
    hide RunqueueOk, WaitqueueOk, ObjectsOk, BacksOk;
    MidFrame(v, b, v.running);
  }

  lemma DispatchSchedules(v: View, x: Task)
    requires Mid(v) && x in v.t && x != v.running
    ensures Dispatch(v, x).scheduled == x
  {
    DispatchEffect(v, x);
    hide Dispatch;
  }

  lemma SelfPick(b: View, v1: View)
    requires Known(b) && Known(v1) && v1 == StatusSet(b, b.running, Idle) && ByPriority(b.rq, b.t) && b.running !in b.rq
    ensures v1.running == b.running && v1.scheduled == b.scheduled && v1.t.Keys == b.t.Keys && |v1.rq| > 0
    ensures Pick(v1) == b.running
       <==> forall i :: 0 <= i < |b.rq| ==> b.t[b.rq[i]].priority < b.t[b.running].priority
  {
    var x := b.running;
    assert SameBut(b.t, v1.t, x);
    OrderFrame(b.rq, b.t, v1.t, x);
    hide ByPriority, RunqueueAdd, NextWrapped, Without;
    OnlyChoice(b.rq, v1.t, x);
    assert forall i :: 0 <= i < |b.rq| ==> v1.t[b.rq[i]].priority == b.t[b.rq[i]].priority;
  }

  /** A caller that is woken before it has left schedules another exactly when one does not rank below it. */
  lemma ZeroSelf(b: View, v1: View, now: nat)
    requires Ready(b) && Mid(v1) && v1 == Wake(b, now) && v1 == StatusSet(b, b.running, Idle)
    requires b.t[b.running].status.Wait? && b.running !in b.rq && RunqueueOk(b.rq, b.t)
    ensures Schedule(b, now).scheduled == null
       <==> forall i :: 0 <= i < |b.rq| ==> b.t[b.rq[i]].priority < b.t[b.running].priority
  {
    hide SchedOk, ObjectsOk, BacksOk, Schedule, Wake;
    ScheduleParts(b, now);
    SelfPick(b, v1);
    hide StatusSet, Pick, RunqueueAdd;
    if Pick(v1) != b.running { DispatchSchedules(v1, Pick(v1)); }
  }

  lemma WakesOther(b: View, now: nat)
    requires Mid(b) && b.t[b.running].status.Wait? && |b.wq| > 0 && b.wq[0] != b.running
    ensures var v1 := Wake(b, now); v1.running == b.running && b.running in v1.t && v1.t[b.running].status.Wait?
  {
  }

  lemma WaiterNotQueued(v: View)
    requires Mid(v) && v.t[v.running].status.Wait?
    ensures v.running !in v.rq
  {
    hide ObjectsOk;
  }

  /** Another task is woken instead: the caller waits on, and the head of the runqueue gets the processor. */
  lemma ZeroOther(b: View, now: nat)
    requires Ready(b) && b.t[b.running].status.Wait? && |b.wq| > 0 && b.wq[0] != b.running
    ensures Schedule(b, now).scheduled != null
  {
    hide SchedOk, ObjectsOk, BacksOk, Wake, Schedule, Pick;
    ScheduleParts(b, now);
    WakesOther(b, now);
    var v1 := Wake(b, now);
    WaiterNotQueued(v1);
    DispatchSchedules(v1, Pick(v1));
  }

  lemma OthersBelow(s: seq<Task>, ts0: map<Task, TaskV>, ts1: map<Task, TaskV>, x: Task)
    requires Among(s, ts0.Keys) && Distinct(s) && x in ts0 && SameBut(ts0, ts1, x) && ts1[x].priority == ts0[x].priority
    ensures Among(Without(s, x), ts1.Keys)
    ensures (forall i :: 0 <= i < |Without(s, x)| ==> ts1[Without(s, x)[i]].priority < ts1[x].priority)
       <==> !(exists i :: 0 <= i < |s| && s[i] != x && ts0[s[i]].priority >= ts0[x].priority)
  {
    WithoutAmong(s, x, ts1.Keys);
    WithoutMembers(s, x);
    var r := Without(s, x);
    if forall i :: 0 <= i < |r| ==> ts1[r[i]].priority < ts1[x].priority {
      forall i | 0 <= i < |s| && s[i] != x
        ensures ts0[s[i]].priority < ts0[x].priority
      {
        assert s[i] in r;
      }
    } else {
      var i :| 0 <= i < |r| && ts1[r[i]].priority >= ts1[x].priority;
      assert r[i] in s;
    }
  }

  lemma ReadyIsMid(b: View)
    requires Ready(b)
    ensures Mid(b) && Known(b) && RunqueueOk(b.rq, b.t)
  {
    hide ObjectsOk;
  }

  lemma SelfWoken(b: View, x: Task, rest: seq<Task>, now: nat)
    requires Ready(b) && b.running == x && b.wq == [x] + rest && b.t[x].delay == now < UINT32_MAX && b.t[x].status.Wait?
    ensures Known(Wake(b, now)) && Mid(Wake(b, now)) && Wake(b, now) == StatusSet(b, x, Idle)
  {
    WakeMid(b, now);
    hide SchedOk, ObjectsOk, BacksOk, StatusSet;
  }

  /** A delay of zero finds nobody to switch to, and so fails the assertion after scheduling, exactly
      when no other task may run at once. */
  lemma ZeroDelayExact(v: View, now: nat)
    requires Inv(v) && v.running != v.idle && now < UINT32_MAX && Executing(v)
    ensures Known(v) && (Delay(v, 0, now).scheduled == null <==> !OtherCanRun(v, now))
  {
    hide Inv, Mid, Schedule, Delay, Asleep, Wake, StatusSet, ByDeadline, Ready, WaitqueueAdd, RunqueueOk, Without;
    InvHanded(v);
    ReadyIsMid(v);
    ZeroAsleep(v, now);
    var b, x := Asleep(v, 0, now), v.running;
    ReadyIsMid(b);
    ZeroGoesFirst(v.wq, b.t, x, now);
    assert forall i :: 0 <= i < |v.wq| ==> b.t[v.wq[i]] == v.t[v.wq[i]];
    if exists i :: 0 <= i < |v.wq| && v.t[v.wq[i]].delay <= now {
      ZeroOther(b, now);
    } else {
      SelfWoken(b, x, v.wq, now);
      ZeroSelf(b, Wake(b, now), now);
      assert Among(v.rq, v.t.Keys) && Distinct(v.rq) by { RunqueueIs(v.rq, v.t); }
      OthersBelow(v.rq, v.t, b.t, x);
    }
  }

  lemma RunqueueIs(s: seq<Task>, ts: map<Task, TaskV>)
    requires RunqueueOk(s, ts)
    ensures Among(s, ts.Keys) && Distinct(s)
  {
  }
}
