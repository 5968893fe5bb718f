/** Time passing and control of tasks keep the invariant. */
module TaskSteps {
  import opened Types
  import opened Sequences
  import opened Spec
  import opened Invariants
  import opened Scheduling
  import opened Steps
  import opened Frames

  lemma TickGood(v: View, now: nat)
    requires Inv(v)
    ensures Good(v, NoObj, Switch(Schedule(v, now))) && Highest(Switch(Schedule(v, now)))
  {
    var s := Schedule(v, now);
    InvHanded(v);
    StageSelf(v);
    assert !v.t[v.running].status.Wait? && Known(v);
    hide Inv, Mid, Schedule, Switch, Stage;
    ScheduleHanded(v, now);
    ScheduleCarried(v, now);
    assert s.running == v.running;
    ServeCaller(v, s, v.running);
    hide Carried, Handed, CallerSettled, Highest, Outranks, Ready;
    SwitchInv(s);
    TickHighest(s);
    StageSwitch(v, v, s, NoObj);
  }

  lemma StageSelf(v: View)
    requires Known(v)
    ensures Stage(v, v, NoObj)
  {
  }

  lemma TickHighest(s: View)
    requires Handed(s) && (s.scheduled == null ==> Outranks(s, s.running))
    ensures Known(Switch(s)) && Highest(Switch(s))
  {
    if s.scheduled != null { SwitchHighest(s); }
    else { assert forall y :: y in s.t && Runnable(s.t[y].status) ==> y in s.rq; }
  }

  /** The state in which svc_delay calls the scheduler. */
  function Asleep(v: View, ms: nat, now: nat): (b: View)
    requires Known(v)
    ensures Known(b) && b.running == v.running
  {
    var me := v.running;
    var v1 := v.(t := v.t[me := v.t[me].(delay := Deadline(ms, now))]);
    assert v1.t.Keys == v.tasks;
    StatusSetKnown(v1, me, Wait);
    StatusSet(v1, me, Wait)
  }

  lemma AsleepMid(v: View, ms: nat, now: nat)
    requires Inv(v) && CanWait(v, ms, now)
    ensures Ready(Asleep(v, ms, now))
  {
    InvHanded(v);
    var b, me := Asleep(v, ms, now), v.running;
    assert TaskOk(v.t[me]) && SameBut(v.t, b.t, me);
    LeaveRunqueue(v.rq, v.t, b.t, me);
    JoinWaitqueue(v.wq, v.t, b.t, me);
    WithoutMembers(v.rq, me);
    hide RunqueueOk, WaitqueueOk, ObjectsOk, BacksOk;
    MidFrame(v, b, me);
  }

  /** A change of one task's record and the queues is a stage of no call. */
  lemma SoloStage(v: View, w: View, x: Task)
    requires Known(v) && Known(w) && w == v.(t := w.t, rq := w.rq, wq := w.wq) && x in v.t
    requires SameBut(v.t, w.t, x)
    requires x == v.running || (w.t[x].back == v.t[x].back && w.t[x].call == v.t[x].call && w.t[x].ret == v.t[x].ret)
    ensures Stage(v, w, NoObj)
  {
    forall y | y in v.t && y != v.running
      ensures SameWait(v, w, NoObj, y)
    {
    }
  }

  lemma SleepGood(v: View, ms: nat, now: nat)
    requires Inv(v) && CanWait(v, ms, now)
    ensures Yields(v, Asleep(v, ms, now), NoObj, Return(v, Out(Delay(v, ms, now), Status0(OSS_ERROR_TO))))
  {
    InvHanded(v);
    hide Inv, Ready, Return, Delay, Schedule, Asleep, Mid, Handed;
    AsleepMid(v, ms, now);
    AsleepCaller(v, ms, now);
    YieldGood(v, Asleep(v, ms, now), NoObj, now, Status0(OSS_ERROR_TO));
  }

  lemma AsleepCaller(v: View, ms: nat, now: nat)
    requires Inv(v) && CanWait(v, ms, now)
    ensures var b := Asleep(v, ms, now);
      && b.t[b.running].back == NoObj && b.t[b.running].status.Wait? && !Expired(b.t[b.running], now)
      && Delay(v, ms, now) == Schedule(b, now) && Stage(v, b, NoObj)
  {
    InvHanded(v);
    hide Inv, Mid, Schedule, Stage, SameWait;
    SoloStage(v, Asleep(v, ms, now), v.running);
  }

  lemma QuitGood(v: View, st: Status, now: nat)
    requires Inv(v) && Ended(st) && v.running != v.idle
    ensures Yields(v, StatusSet(v, v.running, st), NoObj, Return(v, Out(Quit(v, st, now), Status0(OSS_SUCCESS))))
  {
    QuitReady(v, st, now);
    hide Inv, Ready, StatusSet, Return, Quit, Schedule, Stage;
    YieldGood(v, StatusSet(v, v.running, st), NoObj, now, Status0(OSS_SUCCESS));
  }

  lemma QuitReady(v: View, st: Status, now: nat)
    requires Inv(v) && Ended(st) && v.running != v.idle
    ensures var b := StatusSet(v, v.running, st);
      && Ready(b) && b.running == v.running && b.t[b.running].back == NoObj
      && b.t[b.running].status == st && Stage(v, b, NoObj)
      && Quit(v, st, now) == Schedule(b, now)
  {
    InvHanded(v);
    StatusSetOff(v, v.running, st);
    StatusSetCarried(v, v.running, st);
    hide Carried, Schedule, SchedOk, ObjectsOk, BacksOk, Stage;
    SoloStage(v, StatusSet(v, v.running, st), v.running);
    assert ActiveOnly(StatusSet(v, v.running, st).t, v.running);
  }

  /** A step that changes one task's status and does not schedule. */
  lemma StatusGood(v: View, x: Task, st: Status)
    requires Inv(v) && x in v.t && Inv(StatusSet(v, x, st))
    ensures Good(v, NoObj, StatusSet(v, x, st))
  {
    var w := StatusSet(v, x, st);
    InvHanded(w);
    InvHanded(v);
    StatusSetCarried(v, x, st);
    hide Inv, Mid, Handed, Stage, Carried;
    SoloStage(v, w, x);
    hide StatusSet;
    CarriedSelf(w);
    hide Inv, Mid, Handed;
    StageSwitch(v, w, w, NoObj);
  }

  lemma OffGood(v: View, x: Task, st: Status)
    requires Inv(v) && x in v.t && x != v.idle && v.t[x].back == NoObj && Runnable(v.t[x].status)
    requires st.Suspended? || (st.Finished? && x == v.running)
    ensures Good(v, NoObj, StatusSet(v, x, st))
  {
    InvHanded(v);
    StatusSetOff(v, x, st);
    assert Inv(StatusSet(v, x, st)) by { hide SchedOk, ObjectsOk, BacksOk; }
    hide Inv, StatusSet;
    StatusGood(v, x, st);
  }

  lemma ResumeGood(v: View, x: Task)
    requires Inv(v) && x in v.t && x != v.running && v.t[x].status.Suspended?
    ensures Good(v, NoObj, StatusSet(v, x, Idle))
  {
    StatusSetIdle(v, x);
    StatusSetCarried(v, x, Idle);
    assert Inv(StatusSet(v, x, Idle)) by { hide SchedOk, ObjectsOk, BacksOk, Carried; }
    hide Inv, StatusSet, Carried, Mid;
    StatusGood(v, x, Idle);
  }

  /** The task is on the list of the object its back pointer names. */
  predicate OnItsList(v: View, x: Task)
    requires x in v.t
  {
    v.t[x].back in v.lists && x in v.lists[v.t[x].back]
  }

  lemma RestartMid(v: View, x: Task, p: nat)
    requires Inv(v) && x in v.t && x != v.idle && !Runnable(v.t[x].status)
    requires !OnItsList(v, x) && PRIORITY_IDLE < p
    ensures Mid(Restart(v, x, p))
  {
    var w := Restart(v, x, p);
    assert SameBut(v.t, w.t, x);
    WithoutAbsent(v.rq, x);
    JoinRunqueue(v.rq, v.t, w.t, x);
    InsertMembers(v.rq, PriorityPos(v.rq, w.t, w.t[x].priority), x);
    LeaveWaitqueue(v.wq, v.t, w.t, x);
    SameButBacks(v.t, w.t, v.objs, x);
    hide RunqueueOk, WaitqueueOk, BacksOk;
    RestartObjects(v, w, x);
    AddAmong(v.rq, w.t, x);
    WithoutAmong(v.wq, x, v.tasks);
    assert IdleLowest(w.t, w.idle) && TasksOk(w.t);
  }

  lemma RestartObjects(v: View, w: View, x: Task)
    requires Known(v) && ObjectsOk(v) && BacksOk(v.t, v.objs) && x in v.t && !OnItsList(v, x)
    requires Known(w) && w == v.(t := w.t, rq := w.rq, wq := w.wq) && SameBut(v.t, w.t, x)
    requires w.t[x].back == NoObj
    ensures ObjectsOk(w)
  {
    forall o | o in w.objs
      ensures ObjectOk(w, o)
    {
      assert ObjectOk(v, o);
      if v.t[x].back == o { ForgetObject(v, w, o, x); } else { OtherObject(v, w, o, x); }
    }
  }

  /** An object that a task has left does not mind its forgetting the wait. */
  lemma ForgetObject(v: View, w: View, o: Obj, x: Task)
    requires Known(v) && Known(w) && o in v.objs && ObjectOk(v, o)
    requires x in v.t && v.t[x].back == o != NoObj && !OnItsList(v, x)
    requires w == v.(t := w.t, rq := w.rq, wq := w.wq) && SameBut(v.t, w.t, x) && w.t[x].back == NoObj
    ensures ObjectOk(w, o)
  {
    var list := v.lists[o];
    assert ListOk(list, w.t, o) && RetsOk(list, w.t, o, v.running);
    match o
    case OnMutex(m) => assert MutexOk(w.mutexes[m], list, w.t, o);
    case OnQueue(q) => QueueFrame(v.queues[q], list, v.t, w.t, x);
    case OnRwLock(r) => assert RwLockOk(w.rwlocks[r], list, w.t, o);
  }

  lemma RestartGood(v: View, x: Task, p: nat)
    requires Inv(v) && x in v.t && x != v.running && x != v.idle && !Runnable(v.t[x].status)
    requires v.t[x].back == NoObj && PRIORITY_IDLE < p
    ensures Good(v, NoObj, Restart(v, x, p))
  {
    RestartMid(v, x, p);
    var w := Restart(v, x, p);
    assert Inv(w) by { hide SchedOk, ObjectsOk, BacksOk; }
    RestartStage(v, x, p);
    hide Restart, Stage;
    InvHanded(w);
    CarriedSelf(w);
    hide Inv, Mid, Handed, Carried;
    StageSwitch(v, w, w, NoObj);
  }

  lemma RestartStage(v: View, x: Task, p: nat)
    requires Known(v) && x in v.t && v.t[x].back == NoObj && Known(Restart(v, x, p))
    requires v.t[x].call == NoCall || x == v.running
    ensures Stage(v, Restart(v, x, p), NoObj)
  {
    hide Stage;
    assert SameBut(v.t, Restart(v, x, p).t, x);
    SoloStage(v, Restart(v, x, p), x);
  }
}
