/** The scheduler keeps the invariants: status changes, dispatch, the timeout test and the
    choice of the next task. */
module Scheduling {
  import opened Types
  import opened Sequences
  import opened Spec
  import opened Invariants

  /** `w` differs from `v` only in the queues, in what is scheduled and in the record of `x`. */
  ghost predicate QueuesOnly(v: View, w: View, x: Task) {
    && w.tasks == v.tasks && w.objs == v.objs && w.running == v.running && w.idle == v.idle
    && w.lists == v.lists && w.mutexes == v.mutexes && w.queues == v.queues && w.rwlocks == v.rwlocks
    && x in v.t && SameBut(v.t, w.t, x) && w.t[x].priority == v.t[x].priority
  }

  lemma ObjectsFrame(v: View, w: View, x: Task)
    requires Known(v) && ObjectsOk(v) && Known(w) && QueuesOnly(v, w, x)
    requires SameFrame(v, w, x)
    ensures ObjectsOk(w)
  {
    forall o | o in w.objs
      ensures ObjectOk(w, o)
    {
      assert ObjectOk(v, o);
      OtherObject(v, w, o, x);
    }
  }

  lemma MidFrame(v: View, w: View, x: Task)
    requires Mid(v) && Known(w) && QueuesOnly(v, w, x)
    requires SameFrame(v, w, x) && TaskOk(w.t[x])
    requires RunqueueOk(w.rq, w.t) && WaitqueueOk(w.wq, w.t) && w.idle in w.rq
    ensures Mid(w)
  {
    ObjectsFrame(v, w, x);
  }

  lemma StatusSetIdle(v: View, x: Task)
    requires Mid(v) && x in v.t && !Runnable(v.t[x].status)
    ensures Mid(StatusSet(v, x, Idle))
  {
    var w := StatusSet(v, x, Idle);
    StatusSetKnown(v, x, Idle);
    JoinRunqueue(v.rq, v.t, w.t, x);
    if v.t[x].status.Wait? { LeaveWaitqueue(v.wq, v.t, w.t, x); }
    else { KeepWaitqueue(v.wq, v.t, w.t, x); }
    InsertMembers(v.rq, PriorityPos(v.rq, w.t, w.t[x].priority), x);
    MidFrame(v, w, x);
  }

  /** Ending, or suspending, a task that is not idle and has nothing pending. */
  lemma StatusSetOff(v: View, x: Task, st: Status)
    requires Mid(v) && x in v.t && x != v.idle && v.t[x].back == NoObj
    requires st.Suspended? || (Ended(st) && !v.t[x].status.Wait?)
    ensures Mid(StatusSet(v, x, st))
  {
    var w := StatusSet(v, x, st);
    StatusSetKnown(v, x, st);
    LeaveRunqueue(v.rq, v.t, w.t, x);
    WithoutMembers(v.rq, x);
    if st.Suspended? { LeaveWaitqueue(v.wq, v.t, w.t, x); }
    else { KeepWaitqueue(v.wq, v.t, w.t, x); }
    MidFrame(v, w, x);
  }

  // ---------------------------------------------------------------- dispatch

  lemma SchedKeep(rq: seq<Task>, wq: seq<Task>, ts0: map<Task, TaskV>, ts1: map<Task, TaskV>, idle: Task, x: Task)
    requires SchedOk(rq, wq, ts0, idle) && x in ts0 && SameBut(ts0, ts1, x) && TaskOk(ts1[x])
    requires ts1[x].status == ts0[x].status && ts1[x].priority == ts0[x].priority
    requires ts1[x].delay == ts0[x].delay
    requires x == idle ==> ts1[x].back == NoObj
    ensures SchedOk(rq, wq, ts1, idle)
  {
    KeepRunqueue(rq, ts0, ts1, x);
    KeepWaitqueue(wq, ts0, ts1, x);
  }

  lemma SameButBacks(ts0: map<Task, TaskV>, ts1: map<Task, TaskV>, objs: set<Obj>, x: Task)
    requires BacksOk(ts0, objs) && x in ts0 && SameBut(ts0, ts1, x)
    requires ts1[x].back == NoObj || ts1[x].back in objs
    ensures BacksOk(ts1, objs)
  {
  }

  /** What leaving a blocked list does to the records. */
  lemma UnblockEffect(v: View, x: Task)
    requires Known(v) && BacksOk(v.t, v.objs) && x in v.t && TaskOk(v.t[x])
    ensures var w := Unblock(v, x);
      && Known(w) && w.rq == v.rq && w.wq == v.wq && w.idle == v.idle && w.objs == v.objs
      && SameBut(v.t, w.t, x) && TaskOk(w.t[x]) && w.t[x].back == NoObj
      && w.t[x].status == v.t[x].status && w.t[x].priority == v.t[x].priority
      && w.t[x].delay == v.t[x].delay
  {
    UnblockKnown(v, x);
  }

  lemma UnblockMid(v: View, x: Task)
    requires Mid(v) && x in v.t && x != v.running
    ensures Mid(Unblock(v, x))
  {
    UnblockObjects(v, x);
    UnblockEffect(v, x);
    var w := Unblock(v, x);
    SameButBacks(v.t, w.t, v.objs, x);
    hide ObjectsOk, SchedOk, BacksOk, Unblock;
    SchedKeep(v.rq, v.wq, v.t, w.t, v.idle, x);
  }

  lemma UnblockOther(v: View, x: Task, p: Obj)
    requires Known(v) && BacksOk(v.t, v.objs)
    requires p in v.objs && ObjectOk(v, p) && x in v.t && p != v.t[x].back
    ensures Known(Unblock(v, x)) && ObjectOk(Unblock(v, x), p)
  {
    UnblockKnown(v, x);
    OtherObject(v, Unblock(v, x), p, x);
  }

  lemma UnblockObjects(v: View, x: Task)
    requires Known(v) && BacksOk(v.t, v.objs) && ObjectsOk(v) && x in v.t && x != v.running
    ensures Known(Unblock(v, x)) && ObjectsOk(Unblock(v, x))
  {
    UnblockKnown(v, x);
    assert Unblock(v, x).objs == v.objs;
    hide ObjectOk, Unblock;
    forall p | p in v.objs
      ensures ObjectOk(Unblock(v, x), p)
    {
      if p == v.t[x].back { UnblockSelf(v, x); } else { UnblockOther(v, x, p); }
    }
  }

  lemma ListLeave(list: seq<Task>, ts0: map<Task, TaskV>, ts1: map<Task, TaskV>, o: Obj, x: Task, me: Task)
    requires ListOk(list, ts0, o) && RetsOk(list, ts0, o, me) && x in ts0 && SameBut(ts0, ts1, x)
    requires ts1[x].back == NoObj && o != NoObj
    ensures ListOk(Without(list, x), ts1, o) && RetsOk(Without(list, x), ts1, o, me)
  {
    WithoutMembers(list, x);
  }

  /** The object a task leaves keeps its invariant. */
  lemma UnblockSelf(v: View, x: Task)
    requires Known(v) && x in v.t && x != v.running && v.t[x].back in v.objs && v.t[x].back != NoObj
    requires ObjectOk(v, v.t[x].back)
    ensures Known(Unblock(v, x)) && ObjectOk(Unblock(v, x), v.t[x].back)
  {
    UnblockKnown(v, x);
    var w, o := Unblock(v, x), v.t[x].back;
    var list := v.lists[o];
    assert SameBut(v.t, w.t, x);
    ListLeave(list, v.t, w.t, o, x, v.running);
    match o
    case NoObj =>
    case OnMutex(m) => UnblockMutex(v.mutexes[m], list, v.t, w.t, o, x);
    case OnQueue(q) => UnblockQueue(v.queues[q], list, v.t, w.t, x);
    case OnRwLock(r) => UnblockRwLock(v.rwlocks[r], list, v.t, w.t, o, x);
  }

  lemma UnblockMutex(mv: MutexV, list: seq<Task>, ts0: map<Task, TaskV>, ts1: map<Task, TaskV>, o: Obj, x: Task)
    requires MutexOk(mv, list, ts0, o) && ListOk(list, ts0, o) && x in ts0 && SameBut(ts0, ts1, x)
    requires ts1[x].back == NoObj && o != NoObj
    ensures MutexOk(mv, Without(list, x), ts1, o)
  {
    WithoutMembers(list, x);
  }

  lemma UnblockRwLock(rv: RwLockV, list: seq<Task>, ts0: map<Task, TaskV>, ts1: map<Task, TaskV>, o: Obj, x: Task)
    requires RwLockOk(rv, list, ts0, o) && ListOk(list, ts0, o) && x in ts0 && SameBut(ts0, ts1, x)
    requires ts1[x].back == NoObj && o != NoObj
    ensures RwLockOk(rv, Without(list, x), ts1, o)
  {
    WithoutMembers(list, x);
  }

  lemma MessagesSame(s: seq<Task>, ts0: map<Task, TaskV>, ts1: map<Task, TaskV>, x: Task)
    requires Among(s, ts0.Keys) && SameBut(ts0, ts1, x) && forall i :: 0 <= i < |s| ==> s[i] != x
    ensures Among(s, ts1.Keys) && Messages(s, ts1) == Messages(s, ts0)
  {
  }

  lemma MessagesSpliced(s: seq<Task>, ts: map<Task, TaskV>, i: nat)
    requires Among(s, ts.Keys) && i < |s|
    ensures Among(s[..i] + s[i + 1..], ts.Keys)
    ensures Messages(s[..i] + s[i + 1..], ts) == Messages(s, ts)[..i] + Messages(s, ts)[i + 1..]
  {
  }

  lemma WithoutMessages(list: seq<Task>, ts0: map<Task, TaskV>, ts1: map<Task, TaskV>, x: Task)
    requires Among(list, ts0.Keys) && Distinct(list) && x in list && SameBut(ts0, ts1, x)
    ensures var i, all := IndexOf(list, x), Messages(list, ts0);
      Among(Without(list, x), ts1.Keys)
      && Messages(Without(list, x), ts1) == all[..i] + all[i + 1..]
  {
    hide Messages, SameBut, Among;
    var i := IndexOf(list, x);
    var rest := Without(list, x);
    assert rest == list[..i] + list[i + 1..];
    MessagesSpliced(list, ts0, i);
    assert forall j :: 0 <= j < |rest| ==> rest[j] != x;
    MessagesSame(rest, ts0, ts1, x);
  }

  /** A sender that times out takes exactly its own message out of what is still owed. */
  lemma WithdrawOwed(qv: QueueV, list: seq<Task>, ts0: map<Task, TaskV>, ts1: map<Task, TaskV>, x: Task)
    requires QueueOk(qv, list, ts0) && Distinct(list) && x in ts0 && SameBut(ts0, ts1, x)
    requires qv.status.BlockedSend? && x in list
    ensures var i, all := IndexOf(list, x), Messages(list, ts0);
      Among(Without(list, x), ts1.Keys)
      && Withdraw(qv, list, x).sent == qv.got + (Ring(qv) + (all[..i] + all[i + 1..]))
      && Messages(Without(list, x), ts1) == all[..i] + all[i + 1..]
  {
    WithoutMembers(list, x);
    WithoutMessages(list, ts0, ts1, x);
    hide Ring, Messages, Without;
    DropInThird(qv.got, Ring(qv), Messages(list, ts0), IndexOf(list, x));
  }

  lemma UnblockQueue(qv: QueueV, list: seq<Task>, ts0: map<Task, TaskV>, ts1: map<Task, TaskV>, x: Task)
    requires QueueOk(qv, list, ts0) && Distinct(list) && x in ts0 && SameBut(ts0, ts1, x)
    ensures QueueOk(Withdraw(qv, list, x), Without(list, x), ts1)
  {
    WithoutMembers(list, x);
    var w, rest := Withdraw(qv, list, x), Without(list, x);
    assert Ring(w) == Ring(qv);
    if qv.status.BlockedSend? {
      if x in list { WithdrawOwed(qv, list, ts0, ts1, x); }
      else { assert Messages(rest, ts1) == Messages(list, ts0); }
    }
  }

  /** Outside a waiting or runnable caller there is nothing left to unlink. */
  lemma RetireEffect(v: View)
    requires Known(v) && RunqueueOk(v.rq, v.t)
    ensures var st := v.t[v.running].status;
      Retire(v) == if st.Active? then v.(t := v.t[v.running := v.t[v.running].(status := Idle)]) else v
  {
    if !Runnable(v.t[v.running].status) { WithoutAbsent(v.rq, v.running); }
  }

  lemma RetireMid(v: View)
    requires Mid(v)
    ensures Mid(Retire(v))
  {
    RetireEffect(v);
    RetireKnown(v);
    var w, x := Retire(v), v.running;
    if v.t[x].status.Active? {
      assert SameBut(v.t, w.t, x);
      hide Retire, ObjectsOk;
      KeepRunqueue(v.rq, v.t, w.t, x);
      KeepWaitqueue(v.wq, v.t, w.t, x);
      hide RunqueueOk, WaitqueueOk;
      MidFrame(v, w, x);
    }
  }

  lemma PromoteMid(v: View, x: Task)
    requires Mid(v) && x in v.t && v.t[x].back == NoObj
    requires v.t[x].status.Wait? || v.t[x].status.Idle?
    ensures Mid(Promote(v, x))
  {
    var w := Promote(v, x);
    PromoteKnown(v, x);
    PromoteQueues(v, x);
    hide RunqueueOk, WaitqueueOk, ObjectsOk, BacksOk, RunqueueAdd, Without;
    MidFrame(v, w, x);
  }

  lemma PromoteQueues(v: View, x: Task)
    requires Mid(v) && x in v.t && (v.t[x].status.Wait? || v.t[x].status.Idle?)
    ensures var w := Promote(v, x);
      Known(w) && RunqueueOk(w.rq, w.t) && WaitqueueOk(w.wq, w.t) && w.idle in w.rq
  {
    hide ObjectsOk, BacksOk, RunqueueOk, WaitqueueOk;
    var w := Promote(v, x);
    PromoteKnown(v, x);
    if v.t[x].status.Wait? {
      JoinRunqueue(v.rq, v.t, w.t, x);
      InsertMembers(v.rq, PriorityPos(v.rq, w.t, w.t[x].priority), x);
      LeaveWaitqueue(v.wq, v.t, w.t, x);
    } else {
      KeepRunqueue(v.rq, v.t, w.t, x);
      KeepWaitqueue(v.wq, v.t, w.t, x);
    }
  }

  /** The parts of a dispatch, without what they do to the queues. */
  lemma DispatchParts(v: View, x: Task)
    requires Known(v) && BacksOk(v.t, v.objs) && x in v.t && x != v.running
    ensures var u := Unblock(v, x);
      Known(u) && u.t[x].back == NoObj && u.t[x].status == v.t[x].status && u.running == v.running
    ensures var r := Retire(Unblock(v, x));
      Known(r) && r.t[x].back == NoObj && r.t[x].status == v.t[x].status && r.running == v.running
    ensures Dispatch(v, x) == Promote(Retire(Unblock(v, x)), x)
  {
    UnblockKnown(v, x);
    RetireKnown(Unblock(v, x));
  }

  /** What osi_dispatch does to the tasks: `x` is scheduled with nothing pending, and the
      caller is no longer ACTIVE. */
  lemma DispatchEffect(v: View, x: Task)
    requires Known(v) && BacksOk(v.t, v.objs) && x in v.t && x != v.running
    ensures var w := Dispatch(v, x);
      && w.running == v.running && w.idle == v.idle && w.tasks == v.tasks && w.objs == v.objs
      && w.t.Keys == v.t.Keys && w.scheduled == x && w.lists.Keys == v.lists.Keys
      && w.mutexes == v.mutexes && w.rwlocks == v.rwlocks
      && w.t[x] == v.t[x].(status := Active, delay := 0, flags := FLAG_NONE, back := NoObj,
                           call := w.t[x].call, c := w.t[x].c)
      && (v.t[v.running].status.Active? ==> w.t[v.running] == v.t[v.running].(status := Idle))
      && (!v.t[v.running].status.Active? ==> w.t[v.running] == v.t[v.running])
      && (forall y :: y in v.t && y != x && y != v.running ==> w.t[y] == v.t[y])
      && (ActiveOnly(v.t, v.running) ==> ActiveOnly(w.t, x))
  {
  }

  lemma DispatchMid(v: View, x: Task)
    requires Mid(v) && x in v.t && x != v.running
    requires v.t[x].status.Wait? || v.t[x].status.Idle?
    ensures Mid(Dispatch(v, x))
  {
    DispatchParts(v, x);
    hide Mid, Unblock, Retire, Promote, Dispatch;
    UnblockMid(v, x);
    RetireMid(Unblock(v, x));
    PromoteMid(Retire(Unblock(v, x)), x);
  }

  // --------------------------------------------------------------- selection

  /** The choice is a runnable task that no runnable task outranks. */
  lemma PickIsHighest(v: View)
    requires Known(v) && SchedOk(v.rq, v.wq, v.t, v.idle)
    ensures |v.rq| > 0 && Pick(v) in v.rq
    ensures forall y :: y in v.rq ==> v.t[y].priority <= v.t[Pick(v)].priority
    ensures Pick(v) == v.idle ==> v.rq == [v.idle]
  {
    var head, me := v.rq[0], v.t[v.running];
    assert forall k :: 0 <= k < |v.rq| ==> v.t[v.rq[k]].priority <= v.t[head].priority;
    if Runnable(me.status) { assert v.running in v.rq; }
    if Pick(v) == v.idle {
      assert forall k :: 0 <= k < |v.rq| ==> v.t[v.rq[k]].priority == PRIORITY_IDLE;
      assert forall k :: 0 <= k < |v.rq| ==> v.rq[k] == v.idle;
      ConstantIsSingle(v.rq, v.idle);
    }
  }

  /** Testing only the head of the waitqueue loses nothing: if any task is due, it is. */
  lemma HeadIsDueFirst(v: View, now: nat, k: nat)
    requires Known(v) && SchedOk(v.rq, v.wq, v.t, v.idle)
    requires k < |v.wq| && Expired(v.t[v.wq[k]], now)
    ensures Expired(v.t[v.wq[0]], now)
  {
    assert TaskOk(v.t[v.wq[k]]);
    if k > 0 { assert v.t[v.wq[0]].delay <= v.t[v.wq[k]].delay; }
  }

  lemma WakeMid(v: View, now: nat)
    requires Mid(v)
    ensures Mid(Wake(v, now))
  {
    hide RunqueueOk, ObjectsOk;
    if |v.wq| > 0 && Expired(v.t[v.wq[0]], now) {
      assert v.wq[0] in v.wq;
      StatusSetIdle(v, v.wq[0]);
    }
  }

  /** A record as the scheduler may leave it: links and frame as before, except that the task
      it schedules has nothing pending any more. */
  predicate CarriedRecord(a: TaskV, b: TaskV, chosen: bool) {
    && b.ret == a.ret && b.priority == a.priority
    && (!chosen ==> b.back == a.back && b.c == a.c && b.delay == a.delay && b.call == a.call)
  }

  ghost predicate CarriedTasks(ts0: map<Task, TaskV>, ts1: map<Task, TaskV>, chosen: Task?) {
    && ts1.Keys == ts0.Keys
    && forall y :: y in ts0 ==> CarriedRecord(ts0[y], ts1[y], y == chosen)
  }

  /** Blocked lists as the scheduler may leave them: without the task it schedules. */
  ghost predicate CarriedLists(l0: map<Obj, seq<Task>>, l1: map<Obj, seq<Task>>, chosen: Task?) {
    && l1.Keys == l0.Keys
    && forall o :: o in l0 ==> l1[o] == if chosen != null then Without<Task>(l0[o], chosen) else l0[o]
  }

  /** Queues as the scheduler may leave them: a sender that runs without having been served
      withdraws its message. */
  ghost predicate CarriedQueues(v: View, w: View) {
    forall q :: q in v.queues && OnQueue(q) in v.lists ==>
      q in w.queues
      && w.queues[q] == if w.scheduled != null then Withdraw(v.queues[q], v.lists[OnQueue(q)], w.scheduled)
                        else v.queues[q]
  }

  ghost predicate Carried(v: View, w: View) {
    && w.running == v.running && w.idle == v.idle && w.tasks == v.tasks && w.objs == v.objs
    && CarriedTasks(v.t, w.t, w.scheduled)
    && CarriedLists(v.lists, w.lists, w.scheduled)
    && CarriedQueues(v, w)
    && w.mutexes == v.mutexes && w.rwlocks == v.rwlocks
  }

  lemma DispatchLists(v: View, x: Task)
    requires Known(v) && x in v.t && x != v.running
    ensures var o := v.t[x].back;
      Dispatch(v, x).lists == if o !in v.lists then v.lists else v.lists[o := Without(v.lists[o], x)]
  {
  }

  lemma NotListed(v: View, x: Task, o: Obj)
    requires Known(v) && o in v.objs && ObjectOk(v, o) && x in v.t && v.t[x].back != o
    ensures x !in v.lists[o] && Without(v.lists[o], x) == v.lists[o]
  {
    WithoutAbsent(v.lists[o], x);
  }

  lemma OthersNotListed(v: View, x: Task)
    requires Known(v) && ObjectsOk(v) && x in v.t
    ensures forall o :: o in v.lists && o != v.t[x].back ==> Without(v.lists[o], x) == v.lists[o]
  {
    hide ObjectOk, Without, Among;
    forall o | o in v.lists && o != v.t[x].back
      ensures Without(v.lists[o], x) == v.lists[o]
    {
      NotListed(v, x, o);
    }
  }

  lemma DispatchCarriedLists(v: View, x: Task)
    requires Known(v) && BacksOk(v.t, v.objs) && ObjectsOk(v) && x in v.t && x != v.running
    ensures CarriedLists(v.lists, Dispatch(v, x).lists, x)
  {
    hide ObjectsOk, Dispatch, Without, Known, BacksOk;
    DispatchLists(v, x);
    OthersNotListed(v, x);
  }

  lemma DispatchCarriedQueues(v: View, x: Task)
    requires Known(v) && BacksOk(v.t, v.objs) && ObjectsOk(v) && x in v.t && x != v.running
    ensures CarriedQueues(v, Dispatch(v, x))
  {
    var w, o := Dispatch(v, x), v.t[x].back;
    forall q | q in v.queues && OnQueue(q) in v.lists
      ensures q in w.queues && w.queues[q] == Withdraw(v.queues[q], v.lists[OnQueue(q)], x)
    {
      assert ObjectOk(v, OnQueue(q));
      if o != OnQueue(q) { NotListed(v, x, OnQueue(q)); }
    }
  }

  lemma DispatchCarried(v: View, x: Task)
    requires Known(v) && BacksOk(v.t, v.objs) && ObjectsOk(v) && x in v.t && x != v.running
    ensures Carried(v, Dispatch(v, x))
  {
    DispatchEffect(v, x);
    DispatchCarriedLists(v, x);
    DispatchCarriedQueues(v, x);
    hide ObjectsOk, Dispatch, CarriedLists, CarriedQueues;
  }

  lemma StatusSetCarried(v: View, x: Task, st: Status)
    requires Known(v) && x in v.t && v.scheduled == null
    ensures var w := StatusSet(v, x, st);
      Known(w) && Carried(v, w) && w.scheduled == null && SameBut(v.t, w.t, x) && w.t[x].status == st
  {
    StatusSetKnown(v, x, st);
    hide RunqueueAdd, WaitqueueAdd, Without;
  }

  lemma WakeCarried(v: View, now: nat)
    requires Known(v) && v.scheduled == null
    ensures Known(Wake(v, now)) && Carried(v, Wake(v, now)) && Wake(v, now).scheduled == null
  {
    if |v.wq| > 0 { StatusSetCarried(v, v.wq[0], Idle); }
    hide StatusSet;
  }

  lemma ScheduleParts(v: View, now: nat)
    requires Mid(v) && v.scheduled == null && !v.t[v.running].status.Idle?
    ensures var v1 := Wake(v, now);
      Mid(v1) && |v1.rq| > 0 && Pick(v1) in v1.rq
      && Schedule(v, now) == if Pick(v1) == v.running then v1 else Dispatch(v1, Pick(v1))
  {
    WakeMid(v, now);
    WakeCarried(v, now);
    hide SchedOk, ObjectsOk;
    PickIsHighest(Wake(v, now));
  }

  lemma CarriedThrough(v: View, v1: View, w: View)
    requires Carried(v, v1) && v1.scheduled == null && Carried(v1, w)
    ensures Carried(v, w)
  {
    forall y | y in v.t
      ensures CarriedRecord(v.t[y], w.t[y], y == w.scheduled)
    {
      assert CarriedRecord(v.t[y], v1.t[y], false) && CarriedRecord(v1.t[y], w.t[y], y == w.scheduled);
    }
    hide CarriedRecord;
  }

  lemma ScheduleCarried(v: View, now: nat)
    requires Mid(v) && v.scheduled == null
    ensures Carried(v, Schedule(v, now))
  {
    if !v.t[v.running].status.Idle? {
      ScheduleParts(v, now);
      WakeCarried(v, now);
      var v1 := Wake(v, now);
      assert v1.running == v.running;
      hide SchedOk, ObjectsOk, BacksOk, Wake, Schedule, Dispatch, Carried;
      if Pick(v1) != v1.running {
        DispatchCarried(v1, Pick(v1));
        CarriedThrough(v, v1, Dispatch(v1, Pick(v1)));
      }
    }
  }

  // ------------------------------------------------- handing over the processor

  /** Before osi_schedule or osi_dispatch_or_queue is called. */
  ghost predicate Ready(v: View) {
    Mid(v) && v.scheduled == null && ActiveOnly(v.t, v.running) && !v.t[v.running].status.Idle?
  }

  /** After it has returned: the caller goes on, or another task is scheduled and ACTIVE. */
  ghost predicate Handed(v: View) {
    && Mid(v)
    && if v.scheduled == null
       then ActiveOnly(v.t, v.running) && StillRunning(v.t[v.running].status)
       else v.scheduled != v.running && ActiveOnly(v.t, v.scheduled) && v.t[v.scheduled].status.Active?
            && Outranks(v, v.scheduled)
  }

  /** No queued task has a higher priority than `x`, and if `x` is idle, no other is queued. */
  ghost predicate Outranks(v: View, x: Task)
    requires Known(v) && x in v.t
  {
    && (forall i :: 0 <= i < |v.rq| ==> v.t[v.rq[i]].priority <= v.t[x].priority)
    && (x == v.idle ==> v.rq == [v.idle])
  }

  predicate StillRunning(st: Status) {
    st.Active? || st.Suspended? || st.Finished?
  }

  lemma DispatchQueue(v: View, x: Task)
    requires Mid(v) && x in v.t && x != v.running && (v.t[x].status.Wait? || v.t[x].status.Idle?)
    ensures forall i :: 0 <= i < |Dispatch(v, x).rq| ==> Dispatch(v, x).rq[i] == x || Dispatch(v, x).rq[i] in v.rq
    ensures v.t[x].status.Idle? ==> Dispatch(v, x).rq == v.rq
  {
    DispatchParts(v, x);
    UnblockMid(v, x);
    hide Mid;
    UnblockRq(v, x);
    var r := Retire(Unblock(v, x));
    assert r.rq == v.rq;
    hide Retire, Unblock, Dispatch;
    if v.t[x].status.Wait? { AddedMembers(r.rq, Promote(r, x).t, x); }
  }

  lemma AddedMembers(s: seq<Task>, ts: map<Task, TaskV>, x: Task)
    requires x in ts && Among(s, ts.Keys)
    ensures var r := RunqueueAdd(s, ts, x); forall i :: 0 <= i < |r| ==> r[i] == x || r[i] in s
  {
  }

  lemma UnblockRq(v: View, x: Task)
    requires x in v.t && Mid(Unblock(v, x))
    ensures Retire(Unblock(v, x)).rq == Unblock(v, x).rq
  {
    RetireEffect(Unblock(v, x));
  }

  lemma OutranksStill(v: View, w: View, x: Task)
    requires Known(v) && Known(w) && x in v.t && Outranks(v, x) && w.idle == v.idle
    requires CarriedTasks(v.t, w.t, x)
    requires forall i :: 0 <= i < |w.rq| ==> w.rq[i] == x || w.rq[i] in v.rq
    requires x == v.idle ==> w.rq == v.rq
    ensures Outranks(w, x)
  {
    forall i | 0 <= i < |w.rq|
      ensures w.t[w.rq[i]].priority <= w.t[x].priority
    {
      var y := w.rq[i];
      assert CarriedRecord(v.t[x], w.t[x], true);
      if y != x {
        var k :| 0 <= k < |v.rq| && v.rq[k] == y;
        assert CarriedRecord(v.t[y], w.t[y], false);
      }
    }
  }

  lemma DispatchOutranks(v: View, x: Task)
    requires Mid(v) && x in v.t && x != v.running && (v.t[x].status.Wait? || v.t[x].status.Idle?)
    requires Outranks(v, x)
    ensures Known(Dispatch(v, x)) && Outranks(Dispatch(v, x), x)
  {
    DispatchMid(v, x);
    DispatchEffect(v, x);
    DispatchQueue(v, x);
    DispatchCarried(v, x);
    if x == v.idle { IdleIsRunnable(v); }
    hide Dispatch, SchedOk, ObjectsOk, BacksOk, CarriedTasks, CarriedLists, CarriedQueues, Outranks;
    OutranksStill(v, Dispatch(v, x), x);
  }

  lemma IdleIsRunnable(v: View)
    requires Mid(v)
    ensures !v.t[v.idle].status.Wait?
  {
  }

  lemma DispatchHanded(v: View, x: Task)
    requires Ready(v) && x in v.t && x != v.running && (v.t[x].status.Wait? || v.t[x].status.Idle?)
    requires Outranks(v, x)
    ensures Handed(Dispatch(v, x)) && Dispatch(v, x).scheduled == x
  {
    DispatchMid(v, x);
    DispatchEffect(v, x);
    DispatchOutranks(v, x);
    hide Dispatch, SchedOk, ObjectsOk, Outranks;
  }

  lemma WakeReady(v: View, now: nat)
    requires Ready(v) && (v.t[v.running].status.Wait? ==> !Expired(v.t[v.running], now))
    ensures Ready(Wake(v, now)) && Wake(v, now).t[v.running] == v.t[v.running]
  {
    hide SchedOk, ObjectsOk, BacksOk;
    WakeMid(v, now);
    if |v.wq| > 0 && Expired(v.t[v.wq[0]], now) { WaiterWaits(v, v.wq[0]); }
  }

  lemma WaiterWaits(v: View, x: Task)
    requires Mid(v) && x in v.wq
    ensures x in v.t && v.t[x].status.Wait?
  {
    hide ObjectsOk, BacksOk;
  }

  /** Scheduling hands over correctly, and a caller that can no longer run always yields, to
      the head of the runqueue. */
  lemma ScheduleHanded(v: View, now: nat)
    requires Ready(v) && (v.t[v.running].status.Wait? ==> !Expired(v.t[v.running], now))
    ensures Handed(Schedule(v, now)) && Schedule(v, now).running == v.running
    ensures Schedule(v, now).scheduled == null ==> Outranks(Schedule(v, now), v.running)
    ensures !Runnable(v.t[v.running].status) ==>
      |Wake(v, now).rq| > 0 && Schedule(v, now).scheduled == Wake(v, now).rq[0]
  {
    ScheduleParts(v, now);
    WakeReady(v, now);
    WakeCarried(v, now);
    var v1 := Wake(v, now);
    var x := Pick(v1);
    assert Runnable(v1.t[x].status) by { assert SchedOk(v1.rq, v1.wq, v1.t, v1.idle); }
    assert Outranks(v1, x) by { PickIsHighest(v1); }
    hide SchedOk, ObjectsOk, Wake, Schedule;
    if x != v.running { DispatchHanded(v1, x); }
  }

  /** A task that has just been granted what it waited for. */
  ghost predicate Grantee(v: View, x: Task) {
    && x in v.t && x != v.running && x != v.idle
    && (v.t[x].status.Wait? || v.t[x].status.Idle?)
  }

  lemma QueueGrantee(v: View, x: Task)
    requires Ready(v) && Grantee(v, x) && v.t[x].status.Wait?
    ensures var w := StatusSet(v, x, Idle);
      Ready(w) && Carried(v, w) && w.t[v.running] == v.t[v.running] && w.running == v.running
  {
    StatusSetIdle(v, x);
    StatusSetCarried(v, x, Idle);
    hide Mid, StatusSet, CarriedLists, CarriedTasks, CarriedQueues;
  }

  lemma NoneHigher(v: View, x: Task)
    requires Mid(v) && Grantee(v, x) && !HasHigher(v, x)
    ensures Outranks(v, x)
  {
    forall i | 0 <= i < |v.rq|
      ensures v.t[v.rq[i]].priority <= v.t[x].priority
    {
      assert v.rq[i] in v.rq;
    }
  }

  lemma DispatchOrQueueHanded(v: View, x: Task, now: nat)
    requires Ready(v) && Grantee(v, x) && !v.t[v.running].status.Wait?
    ensures Handed(DispatchOrQueue(v, x, now))
    ensures Carried(v, DispatchOrQueue(v, x, now))
  {
    if HasHigher(v, x) {
      var v1 := if Runnable(v.t[x].status) then v else StatusSet(v, x, Idle);
      if !Runnable(v.t[x].status) { QueueGrantee(v, x); }
      assert v1.t[v1.running] == v.t[v.running];
      hide SchedOk, ObjectsOk, StatusSet, Schedule, Carried, Handed;
      ScheduleHanded(v1, now);
      ScheduleCarried(v1, now);
      if !Runnable(v.t[x].status) { CarriedThrough(v, v1, Schedule(v1, now)); }
    } else {
      assert Outranks(v, x) by { NoneHigher(v, x); }
      hide SchedOk, ObjectsOk, Dispatch, Carried, Handed;
      DispatchHanded(v, x);
      DispatchCarried(v, x);
    }
  }

  /** The caller of a blocking call is still listed when it gives up the processor. */
  ghost predicate CallerSettled(v: View)
    requires Known(v)
  {
    var o := v.t[v.running].back;
    o != NoObj ==> o in v.objs && v.running in v.lists[o] && v.t[v.running].ret.status == OSS_ERROR_TO
  }

  lemma SwitchRets(v: View, o: Obj)
    requires Handed(v) && CallerSettled(v) && o in v.objs
    ensures Known(Switch(v)) && ObjectOk(Switch(v), o)
  {
    assert ObjectOk(v, o);
    if v.scheduled != null {
      assert TaskOk(v.t[v.scheduled]) by { assert SchedOk(v.rq, v.wq, v.t, v.idle); }
    }
  }

  /** No runnable task has a higher priority than the running one, which is not the idle task
      unless every other task is off the runqueue. */
  ghost predicate Highest(v: View)
    requires Known(v)
  {
    && (forall y :: y in v.t && Runnable(v.t[y].status) ==> v.t[y].priority <= v.t[v.running].priority)
    && (v.running == v.idle ==> v.rq == [v.idle])
  }

  lemma SwitchHighest(v: View)
    requires Handed(v) && v.scheduled != null
    ensures Known(Switch(v)) && Highest(Switch(v))
  {
    assert RunqueueOk(v.rq, v.t);
    forall y | y in v.t && Runnable(v.t[y].status)
      ensures v.t[y].priority <= v.t[v.scheduled].priority
    {
      assert y in v.rq;
    }
  }

  /** The context switch completes a step. */
  lemma SwitchInv(v: View)
    requires Handed(v) && CallerSettled(v)
    ensures Inv(Switch(v))
  {
    forall o | o in v.objs
      ensures Known(Switch(v)) && ObjectOk(Switch(v), o)
    {
      SwitchRets(v, o);
    }
    hide SchedOk, ObjectOk;
  }
}
