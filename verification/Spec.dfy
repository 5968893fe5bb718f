/** What each kernel entry point does to a `View`. The imperative modules are proved to
    compute these functions; the invariants and the properties of whole runs are proved
    about them. */
module Spec {
  import opened Types
  import opened Sequences

  // ------------------------------------------------------------------ queues

  ghost predicate Among(s: seq<Task>, tasks: set<Task>) {
    forall i :: 0 <= i < |s| ==> s[i] in tasks
  }

  /** Every task the view refers to outside the blocked lists has a record, and every object
      has a list. */
  ghost predicate Known(v: View) {
    && v.t.Keys == v.tasks && v.lists.Keys == v.objs
    && v.idle in v.tasks && v.running in v.tasks
    && (v.scheduled != null ==> v.scheduled in v.tasks)
    && Among(v.rq, v.tasks) && Among(v.wq, v.tasks)
  }

  ghost predicate MutexKnown(v: View, m: Mutex) {
    && OnMutex(m) in v.lists && m in v.mutexes
    && v.mutexes[m].balance.Keys == v.t.Keys
    && Among(v.lists[OnMutex(m)], v.t.Keys)
  }

  ghost predicate QueueKnown(v: View, q: Queue) {
    && OnQueue(q) in v.lists && q in v.queues
    && QueueShape(v.queues[q])
    && Among(v.lists[OnQueue(q)], v.t.Keys)
  }

  ghost predicate RwLockKnown(v: View, r: RwLock) {
    && OnRwLock(r) in v.lists && r in v.rwlocks
    && Among(v.lists[OnRwLock(r)], v.t.Keys)
  }

  /** First position whose task has a priority below `p`. */
  function PriorityPos(s: seq<Task>, ts: map<Task, TaskV>, p: nat): (i: nat)
    requires Among(s, ts.Keys)
    ensures i <= |s|
    ensures forall j :: 0 <= j < i ==> p <= ts[s[j]].priority
    ensures i < |s| ==> ts[s[i]].priority < p
  {
    if s == [] || ts[s[0]].priority < p then 0
    else
      var i := PriorityPos(s[1..], ts, p);
      assert forall j :: 1 <= j < i + 1 ==> s[j] == s[1..][j - 1];
      1 + i
  }

  /** First position whose task has a deadline after `d`. */
  function DeadlinePos(s: seq<Task>, ts: map<Task, TaskV>, d: nat): (i: nat)
    requires Among(s, ts.Keys)
    ensures i <= |s|
    ensures forall j :: 0 <= j < i ==> ts[s[j]].delay <= d
    ensures i < |s| ==> d < ts[s[i]].delay
  {
    if s == [] || d < ts[s[0]].delay then 0
    else
      var i := DeadlinePos(s[1..], ts, d);
      assert forall j :: 1 <= j < i + 1 ==> s[j] == s[1..][j - 1];
      1 + i
  }

  /** runqueue_add. A task that is already queued has its link cleared before it is found,
      so everything behind it drops off the queue. */
  function RunqueueAdd(s: seq<Task>, ts: map<Task, TaskV>, x: Task): seq<Task>
    requires x in ts && Among(s, ts.Keys)
  {
    if x in s then s[..IndexOf(s, x) + 1]
    else InsertAt(s, PriorityPos(s, ts, ts[x].priority), x)
  }

  /** waitqueue_add of a task that is not queued. */
  function WaitqueueAdd(s: seq<Task>, ts: map<Task, TaskV>, x: Task): seq<Task>
    requires x in ts && Among(s, ts.Keys)
  {
    InsertAt(s, DeadlinePos(s, ts, ts[x].delay), x)
  }

  lemma WithoutAmong(s: seq<Task>, x: Task, tasks: set<Task>)
    requires Among(s, tasks)
    ensures Among(Without(s, x), tasks)
  {
  }

  lemma AddAmong(s: seq<Task>, ts: map<Task, TaskV>, x: Task)
    requires x in ts && Among(s, ts.Keys)
    ensures Among(RunqueueAdd(s, ts, x), ts.Keys)
    ensures Among(WaitqueueAdd(s, ts, x), ts.Keys)
  {
  }

  predicate Ended(st: Status) {
    st.Finished? || st.Panic? || st.Aborted?
  }

  /** osi_task_status_set */
  function StatusSet(v: View, x: Task, st: Status): (w: View)
    requires x in v.t && Among(v.rq, v.t.Keys) && Among(v.wq, v.t.Keys)
    ensures w.t.Keys == v.t.Keys
  {
    var ts := v.t[x := v.t[x].(status := st)];
    v.(t := ts,
       rq := if st.Idle? then RunqueueAdd(v.rq, ts, x)
             else if st.Active? then v.rq
             else Without(v.rq, x),
       wq := if st.Wait? then WaitqueueAdd(v.wq, ts, x)
             else if st.Suspended? || (st.Idle? && v.t[x].status.Wait?) then Without(v.wq, x)
             else v.wq)
  }

  // --------------------------------------------------------------- scheduler

  /** The messages of a queue's blocked senders, in blocking order. */
  function Messages(s: seq<Task>, ts: map<Task, TaskV>): seq<Word>
    requires Among(s, ts.Keys)
  {
    seq(|s|, i requires 0 <= i < |s| => ts[s[i]].c)
  }

  /** A sender that leaves a queue's list without being accepted withdraws its message. */
  function Withdraw(qv: QueueV, list: seq<Task>, x: Task): QueueV {
    var i := IndexOf(list, x);
    var k := |qv.got| + qv.number + i;
    if qv.status.BlockedSend? && i < |list| && k < |qv.sent|
    then qv.(sent := qv.sent[..k] + qv.sent[k + 1..])
    else qv
  }

  /** The first part of osi_dispatch: leave the blocked list, drop back pointer and flags. */
  function Unblock(v: View, x: Task): (w: View)
    requires x in v.t
    ensures w.t.Keys == v.t.Keys
  {
    var tv := v.t[x];
    var o := tv.back;
    v.(t := if o !in v.lists then v.t
            else v.t[x := tv.(back := NoObj, flags := FLAG_NONE, call := NoCall,
                              c := if o.OnRwLock? then DESIRED_NONE else tv.c)],
       lists := if o !in v.lists then v.lists else v.lists[o := Without(v.lists[o], x)],
       queues := if o in v.lists && o.OnQueue? && o.q in v.queues
                 then v.queues[o.q := Withdraw(v.queues[o.q], v.lists[o], x)]
                 else v.queues)
  }

  /** What osi_dispatch does to the task that is giving up the processor. */
  function Retire(v: View): (w: View)
    requires v.running in v.t
    ensures w.t.Keys == v.t.Keys
  {
    var tv := v.t[v.running];
    v.(t := if tv.status.Active? then v.t[v.running := tv.(status := Idle)] else v.t,
       rq := if Ended(tv.status) || tv.status.Suspended? then Without(v.rq, v.running) else v.rq)
  }

  /** What osi_dispatch does to the task that gets it. */
  function Promote(v: View, x: Task): (w: View)
    requires x in v.t && Among(v.rq, v.t.Keys) && Among(v.wq, v.t.Keys)
    ensures w.t.Keys == v.t.Keys
  {
    var tv := v.t[x];
    var ts := v.t[x := tv.(delay := 0, flags := FLAG_NONE, status := Active)];
    v.(t := ts,
       rq := if tv.status.Wait? then RunqueueAdd(v.rq, ts, x) else v.rq,
       wq := if tv.status.Wait? then Without(v.wq, x) else v.wq,
       scheduled := x)
  }

  lemma UnblockKnown(v: View, x: Task)
    requires Known(v) && x in v.t
    ensures Known(Unblock(v, x))
  {
  }

  lemma RetireKnown(v: View)
    requires Known(v)
    ensures Known(Retire(v))
  {
    WithoutAmong(v.rq, v.running, v.tasks);
  }

  lemma PromoteKnown(v: View, x: Task)
    requires Known(v) && x in v.t
    ensures Known(Promote(v, x))
  {
    WithoutAmong(v.wq, x, v.tasks);
    var ts := v.t[x := v.t[x].(delay := 0, flags := FLAG_NONE, status := Active)];
    assert ts.Keys == v.tasks;
    AddAmong(v.rq, ts, x);
  }

  /** osi_dispatch */
  function Dispatch(v: View, x: Task): (w: View)
    requires Known(v) && x in v.t
    ensures w.t.Keys == v.t.Keys
  {
    if v.running == x then v
    else
      UnblockKnown(v, x);
      RetireKnown(Unblock(v, x));
      Promote(Retire(Unblock(v, x)), x)
  }

  /** The task after `x` in `s`, or the first one when `x` is last or absent. */
  function NextWrapped(s: seq<Task>, x: Task): Task
    requires |s| > 0
  {
    var i := IndexOf(s, x);
    if i + 1 < |s| then s[i + 1] else s[0]
  }

  /** find_new_task: a runnable caller yields to a task of higher priority, else to the next
      of its own; a caller that is not runnable yields to the head of the queue. */
  function Pick(v: View): Task
    requires Known(v) && |v.rq| > 0
  {
    var me := v.t[v.running];
    if !Runnable(me.status) || v.t[v.rq[0]].priority > me.priority then v.rq[0]
    else
      var next := NextWrapped(v.rq, v.running);
      if v.t[next].priority == me.priority then next else v.rq[0]
  }

  predicate Expired(tv: TaskV, now: nat) {
    tv.delay != UINT32_MAX && now >= tv.delay
  }

  /** The timeout test of osi_schedule, at the head of the waitqueue. */
  function Wake(v: View, now: nat): (w: View)
    requires Known(v)
    ensures w.t.Keys == v.t.Keys
  {
    if |v.wq| > 0 && Expired(v.t[v.wq[0]], now) then StatusSet(v, v.wq[0], Idle) else v
  }

  lemma WakeKnown(v: View, now: nat)
    requires Known(v)
    ensures Known(Wake(v, now))
  {
    if |v.wq| > 0 && Expired(v.t[v.wq[0]], now) { StatusSetKnown(v, v.wq[0], Idle); }
  }

  lemma StatusSetKnown(v: View, x: Task, st: Status)
    requires Known(v) && x in v.t
    ensures Known(StatusSet(v, x, st))
  {
    WithoutAmong(v.rq, x, v.tasks);
    WithoutAmong(v.wq, x, v.tasks);
    var ts := v.t[x := v.t[x].(status := st)];
    assert ts.Keys == v.tasks;
    AddAmong(v.rq, ts, x);
    AddAmong(v.wq, ts, x);
  }

  /** osi_schedule */
  function Schedule(v: View, now: nat): (w: View)
    requires Known(v)
    ensures w.t.Keys == v.t.Keys
  {
    if v.t[v.running].status.Idle? || v.scheduled != null then v
    else
      WakeKnown(v, now);
      var v1 := Wake(v, now);
      if |v1.rq| == 0 then v1
      else
        var next := Pick(v1);
        if next == v1.running then v1 else Dispatch(v1, next)
  }

  /** runqueue_has_higher_priority */
  predicate HasHigher(v: View, x: Task)
    requires Known(v) && x in v.t
  {
    exists i :: 0 <= i < |v.rq| && Runnable(v.t[v.rq[i]].status) && v.t[v.rq[i]].priority > v.t[x].priority
  }

  /** osi_dispatch_or_queue */
  function DispatchOrQueue(v: View, x: Task, now: nat): (w: View)
    requires Known(v) && x in v.t
    ensures w.t.Keys == v.t.Keys
  {
    if HasHigher(v, x) then
      StatusSetKnown(v, x, Idle);
      var v1 := if Runnable(v.t[x].status) then v else StatusSet(v, x, Idle);
      if v1.scheduled == null then Schedule(v1, now) else v1
    else Dispatch(v, x)
  }

  /** The context switch: PendSV, or the tail of the service call handler. */
  function Switch(v: View): View {
    if v.scheduled == null then v else v.(running := v.scheduled, scheduled := null)
  }

  // ----------------------------------------------------------- service calls

  /** A service call's effect and the value it leaves in its caller's frame. */
  datatype Out = Out(v: View, r: Ret)

  function Status0(s: nat): Ret { Ret(s, 0) }

  function SetRet(v: View, x: Task, r: Ret): (w: View)
    requires x in v.t
    ensures w.t.Keys == v.t.Keys
  {
    v.(t := v.t[x := v.t[x].(ret := r)])
  }

  function Deadline(ms: nat, now: nat): nat {
    if ms == UINT32_MAX then UINT32_MAX else (now + ms) % (UINT32_MAX + 1)
  }

  /** svc_delay */
  function Delay(v: View, ms: nat, now: nat): (w: View)
    requires Known(v)
    ensures w.t.Keys == v.t.Keys
  {
    var me := v.running;
    var v1 := v.(t := v.t[me := v.t[me].(delay := Deadline(ms, now))]);
    StatusSetKnown(v1, me, Wait);
    var v2 := StatusSet(v1, me, Wait);
    if v2.scheduled == null then Schedule(v2, now) else v2
  }

  function Raise(flags: bv32, f: bv32): bv32 {
    flags | f
  }

  /** blocked_enq on any object, then the flag part of svc_block. */
  function Enlist(v: View, o: Obj, call: Call): View
    requires Known(v) && o in v.lists
  {
    var me := v.running;
    v.(t := v.t[me := v.t[me].(back := o, flags := Raise(v.t[me].flags, FlagOf(o)), call := call)],
       lists := v.lists[o := v.lists[o] + [me]])
  }

  function Block(v: View, o: Obj, call: Call, ms: nat, now: nat): (w: View)
    requires Known(v) && o in v.lists
    ensures w.t.Keys == v.t.Keys
  {
    var v1 := Enlist(v, o, call);
    assert Known(v1);
    Delay(v1, ms, now)
  }

  /** osi_mutex_acquire */
  function MutexAcquire(v: View, m: Mutex, to: nat, now: nat): (o: Out)
    requires Known(v) && MutexKnown(v, m)
    ensures o.v.t.Keys == v.t.Keys
  {
    var me, mv := v.running, v.mutexes[m];
    if mv.level == 0 then
      Out(v.(mutexes := v.mutexes[m := MutexV(me, 1, mv.balance[me := mv.balance[me] + 1])]),
          Status0(OSS_SUCCESS))
    else if mv.owner == me then
      if mv.level == UINT32_MAX then Out(v, Status0(OSS_ERROR))
      else
        Out(v.(mutexes := v.mutexes[m := MutexV(me, (mv.level + 1) % UINT16_LIMIT,
                                                mv.balance[me := mv.balance[me] + 1])]),
            Status0(OSS_SUCCESS))
    else if to == 0 then Out(v, Status0(OSS_ERROR_TO))
    else Out(Block(v, OnMutex(m), Lock, to, now), Status0(OSS_ERROR_TO))
  }

  /** blocked_deq: the head of a list leaves it; its back pointer stays until dispatch. */
  function PopBlocked(v: View, o: Obj): View
    requires o in v.lists && |v.lists[o]| > 0
  {
    v.(lists := v.lists[o := v.lists[o][1..]])
  }

  function Grant(v: View, m: Mutex): (w: View)
    requires Known(v) && MutexKnown(v, m) && |v.lists[OnMutex(m)]| > 0
    ensures w.t.Keys == v.t.Keys
  {
    var x, mv := v.lists[OnMutex(m)][0], v.mutexes[m];
    SetRet(PopBlocked(v, OnMutex(m)), x, v.t[x].ret.(status := OSS_SUCCESS))
      .(mutexes := v.mutexes[m := MutexV(x, 1, mv.balance[x := mv.balance[x] + 1])])
  }

  /** The last release, before the waiters are looked at. */
  function Freed(v: View, m: Mutex): (w: View)
    requires Known(v) && MutexKnown(v, m)
    ensures Known(w) && MutexKnown(w, m) && w.lists == v.lists && w.t == v.t
  {
    var bal := v.mutexes[m].balance;
    v.(mutexes := v.mutexes[m := MutexV(null, 0, bal[v.running := bal[v.running] - 1])])
  }

  /** osi_mutex_release by the owner */
  function MutexRelease(v: View, m: Mutex, now: nat): (o: Out)
    requires Known(v) && MutexKnown(v, m) && v.mutexes[m].level > 0
    ensures o.v.t.Keys == v.t.Keys
  {
    var me, mv := v.running, v.mutexes[m];
    if mv.level - 1 != 0 then
      var less := mv.balance[me := mv.balance[me] - 1];
      Out(v.(mutexes := v.mutexes[m := MutexV(mv.owner, mv.level - 1, less)]), Status0(OSS_SUCCESS))
    else
      var v1 := Freed(v, m);
      var list := v.lists[OnMutex(m)];
      if |list| == 0 then Out(v1, Status0(OSS_SUCCESS))
      else
        var v2 := Grant(v1, m);
        assert Known(v2);
        Out(DispatchOrQueue(v2, list[0], now), Status0(OSS_SUCCESS))
  }

  // ------------------------------------------------------------------ queues

  predicate QueueShape(qv: QueueV) {
    && 1 <= qv.size == |qv.messages| && qv.number <= qv.size
    && qv.first < qv.size && qv.last < qv.size
  }

  function Bump(i: nat, size: nat): nat {
    if i + 1 == size then 0 else i + 1
  }

  /** Store a message at `first`. */
  function Put(qv: QueueV, msg: Word): QueueV
    requires QueueShape(qv)
  {
    qv.(messages := qv.messages[qv.first := msg], number := qv.number + 1,
        first := Bump(qv.first, qv.size))
  }

  /** Discard the message at `last`. */
  function Take(qv: QueueV): QueueV
    requires QueueShape(qv) && qv.number > 0
  {
    qv.(last := Bump(qv.last, qv.size), number := qv.number - 1)
  }

  /** Hand `msg` to the first blocked receiver through its stacked return. */
  function HandOver(v: View, q: Queue, msg: Word): (w: View)
    requires Known(v) && QueueKnown(v, q) && |v.lists[OnQueue(q)]| > 0
    ensures w.t.Keys == v.t.Keys
  {
    var x, qv := v.lists[OnQueue(q)][0], v.queues[q];
    SetRet(PopBlocked(v, OnQueue(q)), x, Ret(OSS_SUCCESS, msg))
      .(queues := v.queues[q := qv.(sent := qv.sent + [msg], got := qv.got + [msg])])
  }

  lemma HandOverKnown(v: View, q: Queue, msg: Word)
    requires Known(v) && QueueKnown(v, q) && |v.lists[OnQueue(q)]| > 0
    ensures Known(HandOver(v, q, msg))
  {
  }

  predicate ReceiverWaits(v: View, q: Queue)
    requires q in v.queues && OnQueue(q) in v.lists
  {
    |v.lists[OnQueue(q)]| > 0 && v.queues[q].status.BlockedReceive?
  }

  predicate SenderWaits(v: View, q: Queue)
    requires q in v.queues && OnQueue(q) in v.lists
  {
    |v.lists[OnQueue(q)]| > 0 && v.queues[q].status.BlockedSend?
  }

  /** osi_queue_enqueue_isr */
  function EnqueueIsr(v: View, q: Queue, msg: Word, now: nat): (o: Out)
    requires Known(v) && QueueKnown(v, q)
    ensures o.v.t.Keys == v.t.Keys
  {
    var qv := v.queues[q];
    if ReceiverWaits(v, q) then
      HandOverKnown(v, q, msg);
      Out(DispatchOrQueue(HandOver(v, q, msg), v.lists[OnQueue(q)][0], now), Status0(OSS_SUCCESS))
    else if qv.number == qv.size then Out(v, Status0(OSS_ERROR_MEM))
    else
      Out(v.(queues := v.queues[q := Put(qv, msg).(status := Fine, sent := qv.sent + [msg])]),
          Status0(OSS_SUCCESS))
  }

  /** The blocking branch of osi_queue_enqueue, up to the call of svc_block. */
  function OfferBlocked(v: View, q: Queue, msg: Word): (w: View)
    requires Known(v) && QueueKnown(v, q)
    ensures w.t.Keys == v.t.Keys
  {
    var me, qv := v.running, v.queues[q];
    v.(t := v.t[me := v.t[me].(c := msg)],
       queues := v.queues[q := qv.(status := BlockedSend, sent := qv.sent + [msg])])
  }

  /** osi_queue_enqueue */
  function Enqueue(v: View, q: Queue, msg: Word, to: nat, now: nat): (o: Out)
    requires Known(v) && QueueKnown(v, q)
    ensures o.v.t.Keys == v.t.Keys
  {
    var qv := v.queues[q];
    if ReceiverWaits(v, q) || qv.number < qv.size || to == 0 then EnqueueIsr(v, q, msg, now)
    else
      var v1 := OfferBlocked(v, q, msg);
      assert Known(v1);
      Out(Block(v1, OnQueue(q), Send, to, now), Status0(OSS_ERROR_TO))
  }

  /** The first blocked sender's message moves into the slot just freed. */
  function Admit(v: View, q: Queue): (w: View)
    requires Known(v) && QueueKnown(v, q) && |v.lists[OnQueue(q)]| > 0
    ensures w.t.Keys == v.t.Keys
  {
    var x := v.lists[OnQueue(q)][0];
    var v1 := PopBlocked(v, OnQueue(q)).(queues := v.queues[q := Put(v.queues[q], v.t[x].c)]);
    v1.(t := v.t[x := v.t[x].(c := 0, ret := Ret(OSS_SUCCESS, 0))])
  }

  lemma AdmitKnown(v: View, q: Queue)
    requires Known(v) && QueueKnown(v, q) && |v.lists[OnQueue(q)]| > 0
    ensures Known(Admit(v, q))
  {
  }

  /** The oldest message has been handed to the caller. */
  function Taken(v: View, q: Queue): (w: View)
    requires Known(v) && QueueKnown(v, q) && v.queues[q].number > 0
    ensures Known(w) && QueueKnown(w, q) && w.lists == v.lists && w.t == v.t
  {
    var qv := v.queues[q];
    v.(queues := v.queues[q := Take(qv).(got := qv.got + [qv.messages[qv.last]])])
  }

  /** osi_queue_dequeue */
  function Dequeue(v: View, q: Queue, to: nat, now: nat): (o: Out)
    requires Known(v) && QueueKnown(v, q)
    ensures o.v.t.Keys == v.t.Keys
  {
    var qv := v.queues[q];
    if qv.number > 0 then
      var msg := qv.messages[qv.last];
      var v1 := Taken(v, q);
      if SenderWaits(v1, q) then
        AdmitKnown(v1, q);
        Out(DispatchOrQueue(Admit(v1, q), v.lists[OnQueue(q)][0], now), Ret(OSS_SUCCESS, msg))
      else Out(v1, Ret(OSS_SUCCESS, msg))
    else if to == 0 then Out(v, Status0(OSS_ERROR_MEM))
    else
      var v1 := v.(queues := v.queues[q := qv.(status := BlockedReceive)]);
      assert Known(v1);
      Out(Block(v1, OnQueue(q), Receive, to, now), Status0(OSS_ERROR_TO))
  }

  // --------------------------------------------------------- reader/writer lock

  /** osi_rwlock_acquire_read */
  function AcquireRead(v: View, r: RwLock, to: nat, now: nat): (o: Out)
    requires Known(v) && RwLockKnown(v, r)
    ensures o.v.t.Keys == v.t.Keys
  {
    var me, rv := v.running, v.rwlocks[r];
    if rv.writers == 0 then
      Out(v.(rwlocks := v.rwlocks[r := rv.(readers := (rv.readers + 1) % UINT16_LIMIT,
                                           holds := rv.holds + multiset{me})]),
          Status0(OSS_SUCCESS))
    else if to == 0 then Out(v, Status0(OSS_ERROR_TO))
    else
      var v1 := v.(t := v.t[me := v.t[me].(c := DESIRED_READ)]);
      assert Known(v1);
      Out(Block(v1, OnRwLock(r), Read, to, now), Status0(OSS_ERROR_TO))
  }

  /** osi_rwlock_acquire_write */
  function AcquireWrite(v: View, r: RwLock, to: nat, now: nat): (o: Out)
    requires Known(v) && RwLockKnown(v, r)
    ensures o.v.t.Keys == v.t.Keys
  {
    var me, rv := v.running, v.rwlocks[r];
    if rv.readers == 0 && rv.writers == 0 then
      Out(v.(rwlocks := v.rwlocks[r := rv.(writers := rv.writers + 1, writer := me)]),
          Status0(OSS_SUCCESS))
    else if to == 0 then Out(v, Status0(OSS_ERROR_TO))
    else
      var v1 := v.(t := v.t[me := v.t[me].(c := DESIRED_WRITE)]);
      assert Known(v1);
      Out(Block(v1, OnRwLock(r), Write, to, now), Status0(OSS_ERROR_TO))
  }

  /** Position of the first task in the list that wants to read, or the list's length. */
  function FirstReader(s: seq<Task>, ts: map<Task, TaskV>): (i: nat)
    requires Among(s, ts.Keys)
    ensures i <= |s|
    ensures forall j :: 0 <= j < i ==> ts[s[j]].c != DESIRED_READ
    ensures i < |s| ==> ts[s[i]].c == DESIRED_READ
  {
    if s == [] || ts[s[0]].c == DESIRED_READ then 0
    else
      var i := FirstReader(s[1..], ts);
      assert forall j :: 1 <= j < i + 1 ==> s[j] == s[1..][j - 1];
      1 + i
  }

  /** The holds given up by a release: one read hold of the caller, or the write hold. */
  function DropHold(rv: RwLockV, me: Task): RwLockV {
    var r1 := if rv.readers > 0
              then rv.(readers := rv.readers - 1, holds := rv.holds - multiset{me})
              else rv;
    if r1.writers > 0 then r1.(writer := null, writers := r1.writers - 1) else r1
  }

  function GrantWrite(v: View, r: RwLock): (w: View)
    requires Known(v) && RwLockKnown(v, r) && |v.lists[OnRwLock(r)]| > 0
    ensures w.t.Keys == v.t.Keys
  {
    var x, rv := v.lists[OnRwLock(r)][0], v.rwlocks[r];
    PopBlocked(v, OnRwLock(r)).(
      t := v.t[x := v.t[x].(c := DESIRED_NONE, ret := v.t[x].ret.(status := OSS_SUCCESS))],
      rwlocks := v.rwlocks[r := rv.(writers := rv.writers + 1, writer := x)])
  }

  /** The reader at position `i` leaves the list and gets its hold; it is not yet runnable. */
  function GrantRead(v: View, r: RwLock, i: nat): (w: View)
    requires Known(v) && RwLockKnown(v, r) && i < |v.lists[OnRwLock(r)]|
    ensures w.t.Keys == v.t.Keys
  {
    var x, rv, list := v.lists[OnRwLock(r)][i], v.rwlocks[r], v.lists[OnRwLock(r)];
    v.(t := v.t[x := v.t[x].(c := DESIRED_NONE, ret := v.t[x].ret.(status := OSS_SUCCESS))],
       lists := v.lists[OnRwLock(r) := list[..i] + list[i + 1..]],
       rwlocks := v.rwlocks[r := rv.(readers := (rv.readers + 1) % UINT16_LIMIT,
                                     holds := rv.holds + multiset{x})])
  }

  lemma GrantKnown(v: View, r: RwLock, i: nat)
    requires Known(v) && RwLockKnown(v, r) && i < |v.lists[OnRwLock(r)]|
    ensures Known(GrantRead(v, r, i))
    ensures i == 0 ==> Known(GrantWrite(v, r))
  {
  }

  /** The part of osi_rwlock_release before the waiters are looked at. */
  function Dropped(v: View, r: RwLock): (w: View)
    requires r in v.rwlocks
    ensures w.t.Keys == v.t.Keys
  {
    v.(rwlocks := v.rwlocks[r := DropHold(v.rwlocks[r], v.running)])
  }

  /** osi_rwlock_release by a holder: at most one waiter is served. */
  function RwRelease(v: View, r: RwLock, now: nat): (o: Out)
    requires Known(v) && RwLockKnown(v, r)
    ensures o.v.t.Keys == v.t.Keys
  {
    var v1 := Dropped(v, r);
    assert Known(v1);
    var list := v.lists[OnRwLock(r)];
    if |list| == 0 then Out(v1, Status0(OSS_SUCCESS))
    else
      GrantKnown(v1, r, 0);
      if v1.rwlocks[r].readers == 0 && v1.t[list[0]].c == DESIRED_WRITE then
        Out(DispatchOrQueue(GrantWrite(v1, r), list[0], now), Status0(OSS_SUCCESS))
      else
        var i := FirstReader(list, v1.t);
        if i == |list| then Out(v1, Status0(OSS_SUCCESS))
        else
          GrantKnown(v1, r, i);
          Out(StatusSet(GrantRead(v1, r, i), list[i], Idle), Status0(OSS_SUCCESS))
  }
}
