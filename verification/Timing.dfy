/** A task that waits for a time waits that long: neither its deadline nor its waking is anyone else's doing. */
module Timing {
  import opened Types
  import opened Sequences
  import opened Spec
  import opened Invariants
  import opened Scheduling
  import opened Steps
  import opened Frames
  import opened MutexSteps
  import opened QueueSteps
  import opened RwLockSteps
  import opened TaskSteps
  import opened Preservation
  import opened Runs
  import opened Waits
  import opened Locks
  import opened Laws
  import opened Ledgers

  /** How long the call is willing to wait. */
  function Patience(a: Action): nat {
    match a
    case Sleep(ms, _) => ms
    case Acquire(_, to, _) => to
    case SendTo(_, _, to, _) => to
    case ReceiveFrom(_, to, _) => to
    case ReadLock(_, to, _) => to
    case WriteLock(_, to, _) => to
    case _ => 0
  }

  predicate Timed(a: Action) {
    !a.Finish? && !a.Suspend? && !a.Resume? && !a.Start?
  }

  /** The caller goes to sleep, or blocks. */
  ghost predicate Waiting(v: View, a: Action)
    requires Known(v) && Enabled(v, a)
  {
    a.Sleep? || (Blocks(v, a) && ObjectOf(a) != NoObj)
  }

  /** When a wait that begins now is over: UINT32_MAX is for ever. */
  function Until(a: Action): nat
    requires Timed(a)
  {
    if Patience(a) == UINT32_MAX then UINT32_MAX else a.now + Patience(a)
  }

  predicate Sleeping(ts: map<Task, TaskV>, y: Task, until: nat) {
    y in ts && ts[y].status.Wait? && ts[y].delay == until
  }

  /** ... or, if `due`, awake: but not asleep with another deadline. */
  predicate Rests(ts: map<Task, TaskV>, y: Task, until: nat, due: bool) {
    y in ts && (ts[y].status.Wait? ==> ts[y].delay == until) && (due || ts[y].status.Wait?)
  }

  predicate Due(until: nat, now: nat) {
    until != UINT32_MAX && until <= now
  }

  // ------------------------------------------------------------- the scheduler

  lemma ScheduleLeaves(b: View, now: nat, y: Task, until: nat, due: bool)
    requires Mid(b) && b.scheduled == null && !b.t[b.running].status.Idle?
    requires Rests(b.t, y, until, due) && (due || !Due(until, now))
    ensures Rests(Schedule(b, now).t, y, until, due)
  {
    hide Schedule, Dispatch, Pick, SchedOk, ObjectsOk;
    ScheduleParts(b, now);
    WakeLeaves(b, now, y, until, due);
    var v1 := Wake(b, now);
    PickedRuns(v1);
    if Pick(v1) != b.running { DispatchEffect(v1, Pick(v1)); }
  }

  lemma WakeLeaves(b: View, now: nat, y: Task, until: nat, due: bool)
    requires Mid(b) && Rests(b.t, y, until, due) && (due || !Due(until, now))
    ensures Rests(Wake(b, now).t, y, until, due) && Wake(b, now).running == b.running
    ensures b.t[b.running].status.Active? && |b.wq| > 0 ==> b.running != b.wq[0]
  {
    if |b.wq| > 0 { WaiterWaits(b, b.wq[0]); }
    hide SchedOk, ObjectsOk, BacksOk;
  }

  lemma PickedRuns(v: View)
    requires Mid(v) && |v.rq| > 0
    ensures Pick(v) in v.t && Runnable(v.t[Pick(v)].status)
  {
    PickIsHighest(v);
    hide Pick, ObjectsOk, BacksOk;
  }

  lemma GrantLeaves(m: View, z: Task, now: nat, y: Task, until: nat, due: bool)
    requires Ready(m) && Grantee(m, z) && !m.t[m.running].status.Wait? && (due || y != z)
    requires Rests(m.t, y, until, due) && (due || !Due(until, now))
    ensures Rests(DispatchOrQueue(m, z, now).t, y, until, due)
  {
    hide Schedule, Dispatch, SchedOk, ObjectsOk;
    if HasHigher(m, z) {
      if Runnable(m.t[z].status) {
        ScheduleLeaves(m, now, y, until, due);
      } else {
        QueueGrantee(m, z);
        ScheduleLeaves(StatusSet(m, z, Idle), now, y, until, due);
      }
    } else {
      DispatchEffect(m, z);
    }
  }

  // ------------------------------------------------------- going to sleep

  /** The caller is parked until the given time, and nobody else is touched. */
  ghost predicate ParkedUntil(v: View, b: View, until: nat) {
    && Ready(b) && b.running == v.running && Sleeping(b.t, v.running, until)
    && SameBut(v.t, b.t, v.running)
  }

  lemma ParkedShape(v: View, w: View, o: Obj, call: Call, ms: nat, now: nat)
    requires Inv(v) && Prepares(v, w, o) && CallFits(o, call) && CanWait(v, ms, now)
    requires ObjectOk(ParkedState(w, o, call, ms, now), o)
    ensures v.scheduled == null && Block(w, o, call, ms, now) == Schedule(ParkedState(w, o, call, ms, now), now)
    ensures ParkedUntil(v, ParkedState(w, o, call, ms, now), if ms == UINT32_MAX then UINT32_MAX else now + ms)
  {
    hide Inv, Ready, Block, Schedule, ObjectOk, ParkedState, Prepares, Parked;
    PreparesKnown(v, w, o);
    Facts(v, o);
    BlockIsSchedule(w, o, call, ms, now);
    PreparedParked(v, w, o, call, ms, now);
    var b := ParkedState(w, o, call, ms, now);
    ParkedReady(v, b, o, ms, now);
    ParkedTimed(v, b, o, ms, now);
  }

  lemma PreparesKnown(v: View, w: View, o: Obj)
    requires Prepares(v, w, o)
    ensures Known(v) && Known(w) && o in v.objs && w.objs == v.objs && o in v.lists
    ensures w.scheduled == v.scheduled && w.running == v.running
  {
  }

  lemma ParkedTimed(v: View, b: View, o: Obj, ms: nat, now: nat)
    requires Parked(v, b, o, ms, now) && CanWait(v, ms, now)
    ensures b.running == v.running && SameBut(v.t, b.t, v.running)
    ensures Sleeping(b.t, v.running, if ms == UINT32_MAX then UINT32_MAX else now + ms)
  {
  }

  /** What the call has made of its object when it parks. */
  function Offered(v: View, a: Action): View
    requires Known(v) && Enabled(v, a)
  {
    match a
    case SendTo(q, msg, _, _) => OfferBlocked(v, q, msg)
    case ReceiveFrom(q, _, _) => Awaiting(v, q)
    case ReadLock(_, _, _) => Worded(v, v.running, DESIRED_READ)
    case WriteLock(_, _, _) => Worded(v, v.running, DESIRED_WRITE)
    case _ => v
  }

  lemma OfferPrepares(v: View, a: Action)
    requires Inv(v) && Enabled(v, a) && Blocks(v, a) && ObjectOf(a) != NoObj && ObjectOf(a) in v.lists
    ensures Known(v) && Prepares(v, Offered(v, a), ObjectOf(a)) && CallFits(ObjectOf(a), CallOf(a))
    ensures CanWait(v, Patience(a), a.now) && Timed(a)
  {
    hide Inv, ListOk, RetsOk, MutexOk, QueueOk, RwLockOk;
    Facts(v, ObjectOf(a));
  }

  lemma OfferParks(v: View, a: Action)
    requires Known(v) && Enabled(v, a) && Blocks(v, a) && ObjectOf(a) != NoObj && Known(Offered(v, a)) && Timed(a)
    requires ObjectOf(a) in v.objs && Offered(v, a).objs == v.objs && v.scheduled == null
    ensures Middle(v, a) == ParkedState(Offered(v, a), ObjectOf(a), CallOf(a), Patience(a), a.now)
    ensures Step(v, a) ==
      Return(v, Out(Block(Offered(v, a), ObjectOf(a), CallOf(a), Patience(a), a.now), Status0(OSS_ERROR_TO)))
  {
    hide Block, ParkedState, Known, SendMid, EnqueueIsr, Return;
  }

  /** A call that blocks parks its caller until the time it has asked for. */
  lemma BlockedShape(v: View, a: Action)
    requires Inv(v) && Enabled(v, a) && Blocks(v, a) && ObjectOf(a) != NoObj
    ensures Known(v) && Timed(a) && ParkedUntil(v, Middle(v, a), Until(a)) && !Due(Until(a), a.now)
    ensures Known(Middle(v, a)) && Step(v, a) == Return(v, Out(Schedule(Middle(v, a), a.now), Status0(OSS_ERROR_TO)))
  {
    hide Inv, Step, Enabled, Blocks, Middle, Block, Schedule, ParkedState, Prepares, Offered, ParkedUntil, Return;
    ListsKnown(v, a);
    OfferPrepares(v, a);
    PreparesKnown(v, Offered(v, a), ObjectOf(a));
    InvScheduled(v);
    OfferParks(v, a);
    MiddleFine(v, a);
    ParkedShape(v, Offered(v, a), ObjectOf(a), CallOf(a), Patience(a), a.now);
    ParkedKnown(v, Middle(v, a), Until(a));
  }

  lemma ParkedKnown(v: View, b: View, until: nat)
    requires ParkedUntil(v, b, until)
    ensures Known(b)
  {
  }

  lemma InvScheduled(v: View)
    requires Inv(v)
    ensures v.scheduled == null && Known(v)
  {
  }

  lemma ListsKnown(v: View, a: Action)
    requires Inv(v) && Enabled(v, a) && ObjectOf(a) != NoObj
    ensures Known(v) && ObjectOf(a) in v.lists
  {
    hide Inv;
    InvScheduled(v);
  }

  lemma MiddleFine(v: View, a: Action)
    requires Inv(v) && Enabled(v, a) && ObjectOf(a) != NoObj
    ensures Known(v)
    ensures var m, o := Middle(v, a), ObjectOf(a); Known(m) && o in m.objs && ObjectOk(m, o) && m.running == v.running
  {
    StepGood(v, a);
    hide Inv, Step, Enabled, Middle, Good, Stage, Undisturbed, Answered, FramesKept, LinksKept, ObjectOk;
    assert Known(v) by { InvScheduled(v); }
  }

  // ---------------------------------------------------------------- law of sleep

  lemma ReturnLeaves(v: View, o: Out, y: Task, until: nat, due: bool)
    requires v.running in o.v.t && Rests(o.v.t, y, until, due)
    ensures Rests(Return(v, o).t, y, until, due)
  {
  }

  lemma SleepShape(v: View, ms: nat, now: nat)
    requires Inv(v) && Enabled(v, Sleep(ms, now))
    ensures Known(v) && ParkedUntil(v, Asleep(v, ms, now), Until(Sleep(ms, now))) && !Due(Until(Sleep(ms, now)), now)
    ensures Delay(v, ms, now) == Schedule(Asleep(v, ms, now), now)
  {
    hide Inv, Ready, Schedule, Delay, WaitqueueAdd, Without;
    InvScheduled(v);
    AsleepMid(v, ms, now);
    AsleepCaller(v, ms, now);
  }

  /** A caller that sleeps or blocks is on the waitqueue when its step is over, with exactly the deadline it has
      asked for. */
  lemma SleepsFor(v: View, a: Action)
    requires Inv(v) && Enabled(v, a) && (a.Sleep? || (Blocks(v, a) && ObjectOf(a) != NoObj))
    ensures Known(v) && Timed(a)
    ensures var w, x := Step(v, a), v.running;
      && x in w.wq && x in w.t
      && w.t[x].delay == if Patience(a) == UINT32_MAX then UINT32_MAX else a.now + Patience(a)
  {
    hide Inv, Enabled, Blocks, Middle, Schedule, Asleep, Delay, ParkedUntil, Return;
    StepKnown(v, a);
    if a.Sleep? {
      SleepShape(v, a.ms, a.now);
      ParkedLeaves(v, Asleep(v, a.ms, a.now), a.now, Until(a), Status0(OSS_ERROR_TO));
    } else {
      hide Step;
      BlockedShape(v, a);
      ParkedLeaves(v, Middle(v, a), a.now, Until(a), Status0(OSS_ERROR_TO));
    }
    SleeperQueued(Step(v, a), v.running, Until(a));
  }

  lemma ParkedLeaves(v: View, b: View, now: nat, until: nat, r: Ret)
    requires ParkedUntil(v, b, until) && !Due(until, now)
    ensures Known(b) && v.running in Schedule(b, now).t
    ensures Sleeping(Return(v, Out(Schedule(b, now), r)).t, v.running, until)
  {
    hide Schedule, Return, SchedOk, ObjectsOk, BacksOk;
    ScheduleLeaves(b, now, v.running, until, false);
    ReturnLeaves(v, Out(Schedule(b, now), r), v.running, until, false);
  }

  lemma SleeperQueued(w: View, y: Task, until: nat)
    requires Inv(w) && y in w.t
    ensures y in w.wq <==> w.t[y].status.Wait?
  {
    hide ObjectsOk, BacksOk;
  }

  // ------------------------------------------------------------- those asleep

  lemma ServeLeaves(v: View, m: View, o: Obj, z: Task, now: nat, y: Task, until: nat, due: bool)
    requires Inv(v) && Touches(v, m, o, z) && ObjectOk(m, o) && v.t[z].back == o && (due || y != z)
    requires Sleeping(v.t, y, until) && (due || !Due(until, now))
    ensures Known(m) && z in m.t && Rests(DispatchOrQueue(m, z, now).t, y, until, due)
  {
    hide Inv, DispatchOrQueue, ObjectOk, Ready, Handed;
    TouchReady(v, m, o, z);
    ServeGrantee(v, m, o, z);
    GrantLeaves(m, z, now, y, until, due);
  }

  lemma SleeperIsNot(v: View, y: Task, until: nat)
    requires Inv(v) && Sleeping(v.t, y, until)
    ensures v.running in v.t && y != v.running && Mid(v) && v.scheduled == null
    ensures !v.t[v.running].status.Idle? && y in v.wq
  {
    hide ObjectsOk, BacksOk;
  }

  lemma TimeLeaves(v: View, a: Action, y: Task, until: nat, due: bool)
    requires Inv(v) && Enabled(v, a) && Sleeping(v.t, y, until) && (a.Tick? || a.Sleep? || a.Abort? || a.PanicCall?)
    requires due || !Due(until, a.now)
    ensures Known(v) && Rests(Step(v, a).t, y, until, due)
  {
    hide Inv, Schedule, Mid, Ready, StatusSet, Asleep, Delay, Quit, Return;
    SleeperIsNot(v, y, until);
    InvScheduled(v);
    match a
    case Tick(now) => ScheduleLeaves(v, now, y, until, due);
    case Sleep(ms, now) =>
      SleepShape(v, ms, now);
      ReadyLeaves(v, Asleep(v, ms, now), now, Status0(OSS_ERROR_TO), y, until, due);
    case Abort(now) =>
      QuitReady(v, Aborted, now);
      StatusOthers(v, v.running, Aborted);
      ReadyLeaves(v, StatusSet(v, v.running, Aborted), now, Status0(OSS_SUCCESS), y, until, due);
    case PanicCall(now) =>
      QuitReady(v, Panic, now);
      StatusOthers(v, v.running, Panic);
      ReadyLeaves(v, StatusSet(v, v.running, Panic), now, Status0(OSS_SUCCESS), y, until, due);
    case _ =>
  }

  lemma StatusOthers(v: View, x: Task, st: Status)
    requires Known(v) && x in v.t
    ensures SameBut(v.t, StatusSet(v, x, st).t, x)
  {
  }

  lemma ReadyLeaves(v: View, b: View, now: nat, r: Ret, y: Task, until: nat, due: bool)
    requires Ready(b) && b.running == v.running && y != v.running
    requires Sleeping(v.t, y, until) && (due || !Due(until, now))
    requires SameBut(v.t, b.t, v.running)
    ensures Known(b) && v.running in Schedule(b, now).t && Rests(Return(v, Out(Schedule(b, now), r)).t, y, until, due)
  {
    hide Schedule, Return, SchedOk, ObjectsOk, BacksOk;
    ScheduleLeaves(b, now, y, until, due);
    ReturnLeaves(v, Out(Schedule(b, now), r), y, until, due);
  }

  lemma ControlLeaves(v: View, a: Action, y: Task, until: nat, due: bool)
    requires Inv(v) && Enabled(v, a) && Sleeping(v.t, y, until) && (a.Finish? || a.Suspend? || a.Resume? || a.Start?)
    requires a.Start? ==> a.x != y
    ensures Known(v) && Rests(Step(v, a).t, y, until, due)
  {
    hide Inv, RunqueueAdd, Without, WaitqueueAdd;
    InvScheduled(v);
    SleeperIsNot(v, y, until);
  }

  /** A waiter that a call does not tell anything is still on the list. */
  lemma NotServed(v: View, a: Action, o: Obj, y: Task)
    requires Inv(v) && Enabled(v, a) && ObjectOf(a) == o && o != NoObj
    ensures Known(v) && o in v.lists && o in Middle(v, a).lists
    ensures y in v.lists[o] && !Granted(v, a, o, y) ==> y in Middle(v, a).lists[o]
  {
    hide Inv, Step, Enabled, Middle;
    ListsKnown(v, a);
    MiddleLists(v, a, o);
    if y in v.lists[o] { ServedFrame(v, a, o, y); }
  }

  /** The head of a list is not among the others, and waits at the object. */
  lemma HeadOf(v: View, o: Obj)
    requires Inv(v) && o in v.lists && |v.lists[o]| > 0
    ensures v.lists[o][0] !in v.lists[o][1..] && v.lists[o][0] in v.t && v.t[v.lists[o][0]].back == o
  {
    hide Inv;
    HeadOnly(v, o, v.lists[o][0]);
    WaiterAt(v, o, v.lists[o][0]);
  }

  /** What is assumed of a call on an object while `y` sleeps on. */
  ghost predicate Undisturbing(v: View, a: Action, y: Task, until: nat, due: bool)
    requires Known(v) && Enabled(v, a)
  {
    && Sleeping(v.t, y, until) && ObjectOf(a) != NoObj && Timed(a)
    && (due || (!Due(until, a.now) && !Granted(v, a, ObjectOf(a), y)))
  }

  lemma AcquireLeaves(v: View, a: Action, y: Task, until: nat, due: bool)
    requires Inv(v) && Known(v) && Enabled(v, a) && Undisturbing(v, a, y, until, due)
    requires (a.Acquire? || a.ReadLock? || a.WriteLock?) && !Blocks(v, a)
    ensures Rests(Step(v, a).t, y, until, due)
  {
    hide Inv, Step, Blocks, Middle, Granted, Enabled;
    SleeperIsNot(v, y, until);
    StaysOn(v, a);
    match a
    case Acquire(m, to, now) => AcquireAnswers(v, m, to, now);
    case ReadLock(r, to, now) => ReadAnswers(v, r, to, now);
    case WriteLock(r, to, now) => WriteAnswers(v, r, to, now);
    case _ =>
  }

  lemma ReleaseLeaves(v: View, m: Mutex, now: nat, y: Task, until: nat, due: bool)
    requires Inv(v) && Known(v) && Enabled(v, Release(m, now)) && Undisturbing(v, Release(m, now), y, until, due)
    ensures Rests(Step(v, Release(m, now)).t, y, until, due)
  {
    hide Inv, Step, Middle, Grant, Granted, DispatchOrQueue, Touches, Return, ObjectOk;
    var a, o := Release(m, now), OnMutex(m);
    SleeperIsNot(v, y, until);
    if v.mutexes[m].level > 1 || |v.lists[o]| == 0 {
      ReleaseUnwinds(v, m, now);
    } else {
      var x := v.lists[o][0];
      NotServed(v, a, o, y);
      HeadOf(v, o);
      ReleaseMiddle(v, m, now);
      ReleaseIsGrant(v, m, now);
      ReleaseObject(v, m);
      var g := Grant(Freed(v, m), m);
      ServeLeaves(v, g, o, x, now, y, until, due);
      ReturnLeaves(v, Out(DispatchOrQueue(g, x, now), Status0(OSS_SUCCESS)), y, until, due);
    }
  }

  lemma ReleaseIsGrant(v: View, m: Mutex, now: nat)
    requires Known(v) && Enabled(v, Release(m, now)) && v.mutexes[m].level == 1 && |v.lists[OnMutex(m)]| > 0
    ensures var g, x := Grant(Freed(v, m), m), v.lists[OnMutex(m)][0];
      && Known(g) && x in g.t
      && Step(v, Release(m, now)) == Return(v, Out(DispatchOrQueue(g, x, now), Status0(OSS_SUCCESS)))
  {
    hide DispatchOrQueue, Return;
  }

  lemma ReleaseObject(v: View, m: Mutex)
    requires Inv(v) && Known(v) && MutexKnown(v, m) && v.mutexes[m].level == 1 && v.mutexes[m].owner == v.running
    requires |v.lists[OnMutex(m)]| > 0
    ensures var g, o := Grant(Freed(v, m), m), OnMutex(m);
      Known(g) && o in g.objs && Touches(v, g, o, v.lists[o][0]) && ObjectOk(g, o)
  {
    hide Inv, Grant, Touches, ObjectOk;
    Facts(v, OnMutex(m));
    GrantObject(v, m);
    TouchesKnown(v, Grant(Freed(v, m), m), OnMutex(m), v.lists[OnMutex(m)][0]);
  }

  lemma TouchesKnown(v: View, w: View, o: Obj, x: Task)
    requires Touches(v, w, o, x)
    ensures Known(w) && o in w.objs
  {
  }

  /** A call on a queue that changes no task but for its caller's frame. */
  lemma PlainLeaves(v: View, o: Out, y: Task, until: nat, due: bool)
    requires o.v.t == v.t && v.running in v.t && Rests(v.t, y, until, due) && o.v.running == v.running
    ensures Rests(Return(v, o).t, y, until, due) && (o.v.scheduled == null ==> Rests(Switch(o.v).t, y, until, due))
  {
  }

  lemma SendLeaves(v: View, a: Action, y: Task, until: nat, due: bool)
    requires Inv(v) && Known(v) && Enabled(v, a) && Undisturbing(v, a, y, until, due)
    requires (a.SendTo? && !Blocks(v, a)) || a.SendIsr?
    ensures Rests(Step(v, a).t, y, until, due)
  {
    hide Inv, Middle, HandOver, Granted, DispatchOrQueue, Touches, Return, ObjectOk, Switch, Block, EnqueueIsr, Known;
    var o, q := OnQueue(a.q), a.q;
    SleeperIsNot(v, y, until);
    EnqueueIs(v, q, a.msg, a.now);
    SendsNow(v, a);
    if ReceiverWaits(v, q) {
      var x, h := v.lists[o][0], HandOver(v, q, a.msg);
      NotServed(v, a, o, y);
      HeadOf(v, o);
      MiddleHand(v, a);
      HandObject(v, q, a.msg);
      assert x in v.lists[o];
      ServeLeaves(v, h, o, x, a.now, y, until, due);
      ReturnLeaves(v, Out(DispatchOrQueue(h, x, a.now), Status0(OSS_SUCCESS)), y, until, due);
      SwitchLeaves(DispatchOrQueue(h, x, a.now), y, until, due);
    } else {
      PlainLeaves(v, EnqueueIsr(v, q, a.msg, a.now), y, until, due);
    }
  }

  lemma SwitchLeaves(s: View, y: Task, until: nat, due: bool)
    requires Rests(s.t, y, until, due)
    ensures Rests(Switch(s).t, y, until, due)
  {
  }

  lemma EnqueueIs(v: View, q: Queue, msg: Word, now: nat)
    requires Known(v) && QueueKnown(v, q)
    ensures var e := EnqueueIsr(v, q, msg, now);
      if ReceiverWaits(v, q)
      then
        && Known(HandOver(v, q, msg)) && v.lists[OnQueue(q)][0] in HandOver(v, q, msg).t
        && e == Out(DispatchOrQueue(HandOver(v, q, msg), v.lists[OnQueue(q)][0], now), Status0(OSS_SUCCESS))
      else e.v.t == v.t && e.v.running == v.running && e.v.scheduled == v.scheduled
  {
    hide DispatchOrQueue;
    if ReceiverWaits(v, q) { HandOverKnown(v, q, msg); }
  }

  lemma SendsNow(v: View, a: Action)
    requires Known(v) && Enabled(v, a) && ((a.SendTo? && !Blocks(v, a)) || a.SendIsr?)
    ensures a.SendTo? ==> Step(v, a) == Return(v, EnqueueIsr(v, a.q, a.msg, a.now))
    ensures a.SendIsr? ==> Step(v, a) == Switch(EnqueueIsr(v, a.q, a.msg, a.now).v)
  {
    hide EnqueueIsr, Return, Switch, Block, Known;
  }

  lemma MiddleHand(v: View, a: Action)
    requires Known(v) && Enabled(v, a) && (a.SendTo? || a.SendIsr?) && ReceiverWaits(v, a.q)
    ensures var m, o := Middle(v, a), OnQueue(a.q); o in m.lists && m.lists[o] == v.lists[o][1..]
  {
    hide Known;
  }

  lemma HandObject(v: View, q: Queue, msg: Word)
    requires Inv(v) && Known(v) && QueueKnown(v, q) && ReceiverWaits(v, q)
    ensures var g, o := HandOver(v, q, msg), OnQueue(q);
      Known(g) && o in g.objs && Touches(v, g, o, v.lists[o][0]) && ObjectOk(g, o)
  {
    hide Inv, HandOver, Touches, ObjectOk;
    Facts(v, OnQueue(q));
    HandOverObject(v, q, msg);
    TouchesKnown(v, HandOver(v, q, msg), OnQueue(q), v.lists[OnQueue(q)][0]);
  }

  lemma DequeueIs(v: View, q: Queue, to: nat, now: nat)
    requires Known(v) && QueueKnown(v, q) && (v.queues[q].number > 0 || to == 0)
    ensures var d := Dequeue(v, q, to, now);
      if v.queues[q].number > 0 && SenderWaits(v, q)
      then
        && QueueKnown(Taken(v, q), q) && Known(Admit(Taken(v, q), q))
        && v.lists[OnQueue(q)][0] in Admit(Taken(v, q), q).t
        && d.v == DispatchOrQueue(Admit(Taken(v, q), q), v.lists[OnQueue(q)][0], now)
      else d.v.t == v.t && d.v.running == v.running && d.v.scheduled == v.scheduled
  {
    hide DispatchOrQueue;
    if v.queues[q].number > 0 && SenderWaits(v, q) { AdmitKnown(Taken(v, q), q); }
  }

  lemma AdmitsObject(v: View, q: Queue)
    requires Inv(v) && Known(v) && QueueKnown(v, q) && SenderWaits(v, q) && v.queues[q].number > 0
    ensures QueueKnown(Taken(v, q), q)
    ensures var g, o := Admit(Taken(v, q), q), OnQueue(q);
      Known(g) && o in g.objs && Touches(v, g, o, v.lists[o][0]) && ObjectOk(g, o)
  {
    hide Inv, Admit, Touches, ObjectOk;
    Facts(v, OnQueue(q));
    AdmitObject(v, q);
    TouchesKnown(v, Admit(Taken(v, q), q), OnQueue(q), v.lists[OnQueue(q)][0]);
  }

  lemma MiddleAdmits(v: View, a: Action)
    requires Known(v) && Enabled(v, a) && a.ReceiveFrom? && v.queues[a.q].number > 0 && SenderWaits(v, a.q)
    ensures var m, o := Middle(v, a), OnQueue(a.q); o in m.lists && m.lists[o] == v.lists[o][1..]
  {
    hide Known;
  }

  lemma ReceiveLeaves(v: View, a: Action, y: Task, until: nat, due: bool)
    requires Inv(v) && Known(v) && Enabled(v, a) && Undisturbing(v, a, y, until, due) && a.ReceiveFrom? && !Blocks(v, a)
    ensures Rests(Step(v, a).t, y, until, due)
  {
    hide Inv, Middle, Admit, Taken, Granted, DispatchOrQueue, Touches, Return, ObjectOk, Block, Dequeue, Known;
    var o, q := OnQueue(a.q), a.q;
    SleeperIsNot(v, y, until);
    DequeueIs(v, q, a.to, a.now);
    var d := Dequeue(v, q, a.to, a.now);
    if v.queues[q].number > 0 && SenderWaits(v, q) {
      NotServed(v, a, o, y);
      HeadOf(v, o);
      MiddleAdmits(v, a);
      AdmitsObject(v, q);
      assert v.lists[o][0] in v.lists[o];
      ServeLeaves(v, Admit(Taken(v, q), q), o, v.lists[o][0], a.now, y, until, due);
      ReturnLeaves(v, d, y, until, due);
    } else {
      PlainLeaves(v, d, y, until, due);
    }
  }

  lemma UnlockIs(v: View, r: RwLock, now: nat)
    requires Known(v) && RwLockKnown(v, r)
    ensures var d, list, u := Dropped(v, r), v.lists[OnRwLock(r)], RwRelease(v, r, now).v;
      var i, m := FirstReader(list, v.t), UnlockMid(v, r, now);
      && Known(d) && RwLockKnown(d, r) && Known(m) && m.t.Keys == v.t.Keys && m.running == v.running
      && (if EntersLoop(v, r)
          then u == if i == |list| then m else StatusSet(m, list[i], Idle)
          else u == if |list| == 0 then m else DispatchOrQueue(m, list[0], now))
      && (EntersLoop(v, r) ==> m == if i == |list| then d else GrantRead(d, r, i))
      && (!EntersLoop(v, r) ==> m == if |list| == 0 then d else GrantWrite(d, r))
      && d.t == v.t && d.running == v.running
  {
    hide FirstReader, DropHold, StatusSet, DispatchOrQueue;
    var d, list := Dropped(v, r), v.lists[OnRwLock(r)];
    if |list| > 0 {
      GrantKnown(d, r, 0);
      if FirstReader(list, v.t) < |list| { GrantKnown(d, r, FirstReader(list, v.t)); }
    }
  }

  lemma LockTouched(v: View, r: RwLock)
    requires Inv(v) && Known(v) && RwLockKnown(v, r) && |v.lists[OnRwLock(r)]| > 0
    requires v.running in v.rwlocks[r].holds || v.rwlocks[r].writer == v.running
    ensures Known(Dropped(v, r)) && RwLockKnown(Dropped(v, r), r)
    ensures var d, o, list := Dropped(v, r), OnRwLock(r), v.lists[OnRwLock(r)];
      && (!EntersLoop(v, r) ==>
            && Known(GrantWrite(d, r)) && o in GrantWrite(d, r).objs
            && Touches(v, GrantWrite(d, r), o, list[0]) && ObjectOk(GrantWrite(d, r), o))
  {
    hide Inv, GrantWrite, Touches, ObjectOk, HoldsOk;
    Facts(v, OnRwLock(r));
    if !EntersLoop(v, r) {
      GrantWriteObject(v, r);
      TouchesKnown(v, GrantWrite(Dropped(v, r), r), OnRwLock(r), v.lists[OnRwLock(r)][0]);
    }
  }

  lemma GrantReadLeaves(d: View, r: RwLock, i: nat, y: Task, until: nat, due: bool)
    requires Known(d) && RwLockKnown(d, r) && i < |d.lists[OnRwLock(r)]| && (due || y != d.lists[OnRwLock(r)][i])
    requires Rests(d.t, y, until, due)
    ensures var g, x := GrantRead(d, r, i), d.lists[OnRwLock(r)][i];
      Known(g) && x in g.t && Rests(StatusSet(g, x, Idle).t, y, until, due)
  {
    GrantKnown(d, r, i);
  }

  lemma UnlockLeaves(v: View, r: RwLock, now: nat, y: Task, until: nat, due: bool)
    requires Inv(v) && Known(v) && Enabled(v, Unlock(r, now)) && Undisturbing(v, Unlock(r, now), y, until, due)
    ensures Rests(Step(v, Unlock(r, now)).t, y, until, due)
  {
    hide Inv, Step, Middle, GrantWrite, GrantRead, Dropped, UnlockMid, Granted, DispatchOrQueue, Touches,
      Return, ObjectOk,
      StatusSet, FirstReader, RwRelease, EntersLoop, Known, ReaderStillWaits;
    var a, o, list := Unlock(r, now), OnRwLock(r), v.lists[OnRwLock(r)];
    SleeperIsNot(v, y, until);
    UnlockReturns(v, r, now);
    StepIsUnlock(v, r, now);
    UnlockIs(v, r, now);
    NotServed(v, a, o, y);
    ListedOnce(v, r);
    MidList(v, r, now, y);
    LoopOrHead(v, r);
    var u := RwRelease(v, r, now).v;
    if |list| == 0 {
      ReturnLeaves(v, Out(u, Status0(OSS_SUCCESS)), y, until, due);
    } else if EntersLoop(v, r) {
      var i := FirstReader(list, v.t);
      if i < |list| {
        assert list[i] in list;
        DroppedList(v, r);
        GrantReadLeaves(Dropped(v, r), r, i, y, until, due);
      }
      ReturnLeaves(v, Out(u, Status0(OSS_SUCCESS)), y, until, due);
    } else {
      assert list[0] in list;
      LockTouched(v, r);
      HeadOf(v, o);
      ServeLeaves(v, UnlockMid(v, r, now), o, list[0], now, y, until, due);
      ReturnLeaves(v, Out(u, Status0(OSS_SUCCESS)), y, until, due);
    }
  }

  lemma DroppedList(v: View, r: RwLock)
    requires r in v.rwlocks
    ensures Dropped(v, r).lists == v.lists
  {
  }

  lemma LoopOrHead(v: View, r: RwLock)
    requires Known(v) && RwLockKnown(v, r)
    ensures var list, d := v.lists[OnRwLock(r)], DropHold(v.rwlocks[r], v.running);
      |list| > 0 ==> (EntersLoop(v, r) <==> !(d.readers == 0 && v.t[list[0]].c == DESIRED_WRITE))
  {
  }

  lemma StepIsUnlock(v: View, r: RwLock, now: nat)
    requires Known(v) && Enabled(v, Unlock(r, now))
    ensures v.running in RwRelease(v, r, now).v.t
    ensures Step(v, Unlock(r, now)) == Return(v, Out(RwRelease(v, r, now).v, Status0(OSS_SUCCESS)))
  {
    hide FirstReader, DispatchOrQueue, StatusSet, GrantRead, GrantWrite, Return;
  }

  // --------------------------------------------------------------- law of waking

  /** What may end a wait: the task is started again, a call on the object it waits for tells it SUCCESS, or the
      time is past. */
  ghost predicate MayWake(v: View, a: Action, y: Task, until: nat)
    requires Known(v) && Enabled(v, a)
  {
    || (a.Start? && a.x == y)
    || (ObjectOf(a) != NoObj && Granted(v, a, ObjectOf(a), y))
    || (Timed(a) && until != UINT32_MAX && until <= a.now)
  }

  lemma ObjectLeaves(v: View, a: Action, y: Task, until: nat, due: bool)
    requires Inv(v) && Known(v) && Enabled(v, a) && ObjectOf(a) != NoObj && Sleeping(v.t, y, until)
    requires due || !MayWake(v, a, y, until)
    ensures Rests(Step(v, a).t, y, until, due)
  {
    hide Inv, Step, Enabled, Blocks, Middle, Granted, Return, Schedule, Known;
    SleeperIsNot(v, y, until);
    assert Undisturbing(v, a, y, until, due);
    if Blocks(v, a) {
      BlockedShape(v, a);
      ParkedIs(v, Middle(v, a), Until(a));
      ReadyLeaves(v, Middle(v, a), a.now, Status0(OSS_ERROR_TO), y, until, due);
    } else {
      hide Undisturbing;
      match a
      case Acquire(_, _, _) => AcquireLeaves(v, a, y, until, due);
      case ReadLock(_, _, _) => AcquireLeaves(v, a, y, until, due);
      case WriteLock(_, _, _) => AcquireLeaves(v, a, y, until, due);
      case Release(m, now) => ReleaseLeaves(v, m, now, y, until, due);
      case SendTo(_, _, _, _) => SendLeaves(v, a, y, until, due);
      case SendIsr(_, _, _) => SendLeaves(v, a, y, until, due);
      case ReceiveFrom(_, _, _) => ReceiveLeaves(v, a, y, until, due);
      case Unlock(r, now) => UnlockLeaves(v, r, now, y, until, due);
      case _ =>
    }
  }

  lemma ParkedIs(v: View, b: View, until: nat)
    requires ParkedUntil(v, b, until)
    ensures Ready(b) && b.running == v.running && SameBut(v.t, b.t, v.running)
  {
  }

  /** Any step leaves a waiting task waiting, unless it may wake it; and as long as it waits it keeps its
      deadline. */
  lemma SleepsOn(v: View, a: Action, y: Task)
    requires Inv(v) && Enabled(v, a) && y in v.wq
    ensures Known(v) && y in v.t && y in Step(v, a).t
    ensures y in Step(v, a).wq || MayWake(v, a, y, v.t[y].delay)
    ensures y in Step(v, a).wq && !(a.Start? && a.x == y) ==> Step(v, a).t[y].delay == v.t[y].delay
    ensures a.Start? && a.x == y ==> y !in Step(v, a).wq
  {
    hide Inv, Step, Enabled, Granted;
    QueuedSleeps(v, y);
    InvScheduled(v);
    var until := v.t[y].delay;
    var due := MayWake(v, a, y, until);
    StepKnown(v, a);
    if a.Start? && a.x == y { StartedRuns(v, a); }
    else if ObjectOf(a) != NoObj { ObjectLeaves(v, a, y, until, due); }
    else if Timed(a) { TimeLeaves(v, a, y, until, due); }
    else { ControlLeaves(v, a, y, until, due); }
    SleeperQueued(Step(v, a), y, until);
  }

  lemma StartedRuns(v: View, a: Action)
    requires Known(v) && Enabled(v, a) && a.Start?
    ensures a.x in Step(v, a).t && Step(v, a).t[a.x].status.Idle?
  {
    hide Known;
  }

  lemma QueuedSleeps(v: View, y: Task)
    requires Inv(v) && y in v.wq
    ensures y in v.t && Sleeping(v.t, y, v.t[y].delay)
  {
    hide ObjectsOk, BacksOk;
  }

  /** As long as the task is on the waitqueue nothing is asked; the action that takes it off may wake it. */
  ghost predicate WakesInTime(v: View, run: seq<Action>, y: Task, until: nat)
    requires Legal(v, run)
    decreases |run|
  {
    run != [] ==>
      if y in Step(v, run[0]).wq then WakesInTime(Step(v, run[0]), run[1..], y, until)
      else MayWake(v, run[0], y, until)
  }

  lemma {:induction false} WaitsOn(v: View, run: seq<Action>, y: Task, until: nat)
    requires Inv(v) && Legal(v, run) && y in v.wq && y in v.t && v.t[y].delay == until
    ensures WakesInTime(v, run, y, until)
    decreases |run|
  {
    hide Inv, Step, Enabled, MayWake;
    if run != [] {
      SleepsOn(v, run[0], y);
      StepKnown(v, run[0]);
      if y in Step(v, run[0]).wq { WaitsOn(Step(v, run[0]), run[1..], y, until); }
    }
  }

  /** A task that sleeps or blocks for a time leaves the waitqueue only in an action at or past the end of that time,
      or when it is started again or told SUCCESS by a call on what it waits for; and with UINT32_MAX never by time. */
  lemma SleepsUntil(v: View, a: Action, run: seq<Action>)
    requires Inv(v) && Enabled(v, a) && (a.Sleep? || (Blocks(v, a) && ObjectOf(a) != NoObj)) && Legal(Step(v, a), run)
    ensures Timed(a)
    ensures WakesInTime(Step(v, a), run, v.running,
                        if Patience(a) == UINT32_MAX then UINT32_MAX else a.now + Patience(a))
  {
    hide Inv, Step, Enabled, Blocks, Legal, WakesInTime;
    SleepsFor(v, a);
    StepKnown(v, a);
    WaitsOn(Step(v, a), run, v.running, Until(a));
  }
}
