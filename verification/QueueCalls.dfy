/** queue.c, in place on the heap, for queues that hand messages over directly. */
module QueueCalls {
  import opened Types
  import opened Spec
  import opened Invariants
  import opened Heap
  import opened Scheduling
  import opened Steps
  import opened Frames
  import opened QueueSteps
  import opened Os
  import opened Dispatching
  import opened Service
  import opened Calls

  // ------------------------------------------------------------------ the ring

  /** Store a message at `first`. */
  method StoreMessage(queue: Queue, message: Word, ghost queues: map<Queue, QueueV>, ghost rings: set<array<Word>>)
    requires OwnRings(queues.Keys, rings) && RingsHold(queues, rings) && queue in queues && QueueShape(queues[queue])
    modifies queue`number, queue`first, queue.messages
    ensures RingsHold(queues[queue := Put(queues[queue], message)], rings)
  {
    assert QueueHolds(queue, queues[queue]);
    queue.messages[queue.first] := message;
    queue.number := queue.number + 1;
    if queue.first + 1 == queue.size {
      queue.first := 0;
    } else {
      queue.first := queue.first + 1;
    }
    assert QueueHolds(queue, Put(queues[queue], message));
    assert forall q :: q in queues && q != queue ==> QueueHolds(q, queues[q]);
  }

  /** Read the message at `last` and discard it. */
  method TakeMessage(queue: Queue, ghost queues: map<Queue, QueueV>, ghost rings: set<array<Word>>)
    returns (message: Word)
    requires OwnRings(queues.Keys, rings) && RingsHold(queues, rings) && queue in queues && QueueShape(queues[queue])
    requires queues[queue].number > 0
    modifies queue`number, queue`last
    ensures RingsHold(queues[queue := Take(queues[queue])], rings)
    ensures message == queues[queue].messages[queues[queue].last]
  {
    assert QueueHolds(queue, queues[queue]);
    message := queue.messages[queue.last];
    if queue.last + 1 == queue.size {
      queue.last := 0;
    } else {
      queue.last := queue.last + 1;
    }
    queue.number := queue.number - 1;
  }

  method SetQueueStatus(queue: Queue, st: QueueStatus, ghost queues: map<Queue, QueueV>, ghost rings: set<array<Word>>)
    requires OwnRings(queues.Keys, rings) && RingsHold(queues, rings) && queue in queues
    modifies queue`status
    ensures RingsHold(queues[queue := queues[queue].(status := st)], rings)
  {
    assert QueueHolds(queue, queues[queue]);
    queue.status := st;
  }

  // --------------------------------------------------------------- blocked list

  method SetQueueLink(task: Task, queue: Queue, ghost ts0: map<Task, TaskV>, ghost ts1: map<Task, TaskV>)
    requires TasksHold(ts0) && task in ts0 && ts0[task].back == NoObj && task in ts1 && ts1 == ts0[task := ts1[task]]
    requires ts1[task] == ts0[task].(back := OnQueue(queue), call := ts1[task].call)
    modifies task`queue
    ensures TasksHold(ts1)
  {
    assert Holds(task, ts0[task]);
    assert task.queue == null;
    task.queue := queue;
  }

  /** blocked_enq */
  method BlockedEnq(k: Globals, queue: Queue, task: Task, ghost v: View, ghost call: Call)
    requires Core(k, v) && task == v.running && OnQueue(queue) in v.lists
    requires task in v.t && v.t[task].back == NoObj
    modifies k.cells, v.tasks`nblocked, task`queue
    ensures Core(k, Attach(v, OnQueue(queue), call))
  {
    hide Known, OwnCells, QueuesHold, TasksHold, ListsHold, Attach;
    ghost var o := OnQueue(queue);
    AttachFacts(v, o, call);
    KnownTasks(v);
    ghost var a := Attach(v, o, call);
    CellKnown(o, v.lists.Keys, k.cells);
    AppendTo(queue.blocked, task, o, v.lists, v.t, a.t, k.cells);
    SetQueueLink(task, queue, v.t, a.t);
  }

  /** blocked_deq */
  method BlockedDeq(k: Globals, queue: Queue, ghost v: View) returns (task: Task?)
    requires Core(k, v) && OnQueue(queue) in v.lists
    modifies k.cells, v.tasks`nblocked
    ensures v.lists[OnQueue(queue)] == [] ==> task == null && Core(k, v)
    ensures v.lists[OnQueue(queue)] != [] ==>
      task == v.lists[OnQueue(queue)][0] && Core(k, PopBlocked(v, OnQueue(queue)))
  {
    hide Known, OwnCells, QueuesHold, TasksHold, ListsHold;
    ghost var o := OnQueue(queue);
    KnownTasks(v);
    CellKnown(o, v.lists.Keys, k.cells);
    assert ListHolds(o, v.lists[o], v.t) by { HeldList(o, v.lists, v.t, k.cells); }
    task := queue.blocked.tasks;
    if task == null {
      return;
    }
    assert Holds(task, v.t[task]) by { TaskHeld(task, v.t); }
    assert task.queue == queue;
    PopKnown(v, o);
    task := PopFrom(queue.blocked, o, v.lists, v.t, k.cells);
  }

  method Park(k: Globals, queue: Queue, to: nat, now: nat, ghost v: View, ghost call: Call)
    requires Core(k, v) && Known(v) && v.running in v.t && OnQueue(queue) in v.lists
    requires v.t[v.running].back == NoObj && MayPark(Enlist(v, OnQueue(queue), call), to, now)
    modifies k`runqueue, k`waitqueue, k`scheduled, k.cells, v.tasks
    ensures Core(k, Block(v, OnQueue(queue), call, to, now))
  {
    hide Core, Block, Enlist, MayPark, Attach, Known;
    CoreRunning(k, v);
    BlockedEnq(k, queue, k.running, v, call);
    SvcBlock(k, to, FLAG_QUEUE, now, v, OnQueue(queue), call);
  }

  method ParkWith(k: Globals, queue: Queue, to: nat, now: nat, ghost w: View, ghost call: Call)
    requires Rep(k, w) && Known(w) && w.running in w.t && OnQueue(queue) in w.lists
    requires w.t[w.running].back == NoObj && MayPark(Enlist(w, OnQueue(queue), call), to, now)
    requires SameObjects(w, Block(w, OnQueue(queue), call, to, now))
    modifies k`runqueue, k`waitqueue, k`scheduled, k.cells, w.tasks
    ensures Rep(k, Block(w, OnQueue(queue), call, to, now))
  {
    hide Core, ObjectsHold, Known, Block, Enlist, MayPark, SameObjects;
    Park(k, queue, to, now, w, call);
    ObjectsSame(k, w, Block(w, OnQueue(queue), call, to, now));
  }

  // -------------------------------------------------------------------- fields

  /** What the queue calls look at. */
  lemma QueueFields(k: Globals, v: View, q: Queue)
    requires Inv(v) && Rep(k, v) && QueueKnown(v, q)
    ensures q in v.queues && OnQueue(q) in v.lists && QueueShape(v.queues[q]) && QueueHolds(q, v.queues[q])
    ensures v.queues[q].number <= v.queues[q].size
    ensures k.running == v.running && v.running in v.t && v.t[v.running].back == NoObj && v.running.nblocked == null
    ensures v.scheduled == null && Known(v) && v.t.Keys == v.tasks
    ensures q.blocked.tasks == null <==> v.lists[OnQueue(q)] == []
  {
    InvHanded(v);
    HeadHeld(k, v, OnQueue(q));
    NotLinked(v.lists, v.t, OnQueue(q), v.running, k.cells);
    hide Mid;
  }

  // -------------------------------------------------------------------- sending

  /** A receiver leaves the list with the message in its frame. */
  function Delivered(v: View, q: Queue, x: Task, msg: Word): View
    requires OnQueue(q) in v.lists && |v.lists[OnQueue(q)]| > 0 && x in v.t
  {
    SetRet(PopBlocked(v, OnQueue(q)), x, Ret(OSS_SUCCESS, msg))
  }

  lemma HandOverSteps(v: View, q: Queue, msg: Word)
    requires Known(v) && QueueKnown(v, q) && |v.lists[OnQueue(q)]| > 0
    ensures var x := v.lists[OnQueue(q)][0];
      && x in v.t && x in PopBlocked(v, OnQueue(q)).t && x in v.tasks && HandOver(v, q, msg).tasks == v.tasks
      && HandOver(v, q, msg) == Delivered(v, q, x, msg).(queues := HandOver(v, q, msg).queues)
  {
  }

  lemma QueueIn(v: View, q: Queue)
    requires QueueKnown(v, q)
    ensures OnQueue(q) in v.lists && q in v.queues && QueueShape(v.queues[q])
  {
  }

  /** Hand the message to the first receiver, through its frame. */
  method DeliverHead(k: Globals, queue: Queue, message: Word, ghost v: View) returns (receiver: Task)
    requires Core(k, v) && Known(v) && QueueKnown(v, queue) && |v.lists[OnQueue(queue)]| > 0
    modifies k.cells, v.tasks`nblocked, v.tasks`ret
    ensures receiver == v.lists[OnQueue(queue)][0] && Core(k, HandOver(v, queue, message))
  {
    hide Core, HandOver, Known, QueueKnown, PopBlocked, SetRet, SameObjects;
    QueueIn(v, queue);
    HandOverSteps(v, queue, message);
    receiver := BlockedDeq(k, queue, v);
    Answer(k, receiver, Ret(OSS_SUCCESS, message), PopBlocked(v, OnQueue(queue)));
    CoreSame(k, Delivered(v, queue, receiver, message), HandOver(v, queue, message));
  }

  /** The message has gone into the ring. */
  function Kept(v: View, q: Queue, msg: Word): View
    requires q in v.queues && QueueShape(v.queues[q])
  {
    v.(queues := v.queues[q := Put(v.queues[q], msg).(status := Fine, sent := v.queues[q].sent + [msg])])
  }

  lemma KeptSteps(v: View, q: Queue, msg: Word, rings: set<array<Word>>)
    requires q in v.queues && QueueShape(v.queues[q])
    ensures var f := v.queues[q].(status := Fine);
      var m := v.queues[q := f];
      && QueueShape(f) && m[q] == f && m.Keys == v.queues.Keys
      && Kept(v, q, msg).queues == m[q := Put(f, msg)][q := Put(f, msg).(sent := v.queues[q].sent + [msg])]
  {
  }

  /** History does not show in the ring. */
  lemma RingsHistory(queues: map<Queue, QueueV>, q: Queue, qv: QueueV, rings: set<array<Word>>)
    requires OwnRings(queues.Keys, rings) && RingsHold(queues, rings) && q in queues
    requires qv == queues[q].(sent := qv.sent, got := qv.got)
    ensures queues[q := qv].Keys == queues.Keys && RingsHold(queues[q := qv], rings)
  {
    assert QueueHolds(q, queues[q]);
  }

  method Deliver(k: Globals, queue: Queue, message: Word, ghost v: View) returns (receiver: Task)
    requires Rep(k, v) && Known(v) && QueueKnown(v, queue) && |v.lists[OnQueue(queue)]| > 0
    modifies k.cells, v.tasks`nblocked, v.tasks`ret
    ensures receiver == v.lists[OnQueue(queue)][0] && Rep(k, HandOver(v, queue, message))
  {
    hide Core, OwnRings, MutexesHold, RingsHold, RwLocksHold, HandOver, Known, QueueKnown;
    QueueIn(v, queue);
    HandOverOthers(v, queue, message);
    receiver := DeliverHead(k, queue, message, v);
    ghost var w := HandOver(v, queue, message);
    RingsHistory(v.queues, queue, w.queues[queue], k.rings);
  }

  lemma HandOverOthers(v: View, q: Queue, msg: Word)
    requires Known(v) && QueueKnown(v, q) && |v.lists[OnQueue(q)]| > 0
    ensures var w := HandOver(v, q, msg);
      && w.mutexes == v.mutexes && w.rwlocks == v.rwlocks && w.tasks == v.tasks
      && q in v.queues && q in w.queues && w.queues == v.queues[q := w.queues[q]]
      && w.queues[q] == v.queues[q].(sent := w.queues[q].sent, got := w.queues[q].got)
  {
  }

  /** There is room: the message goes to the end of the ring. */
  method Keep(k: Globals, queue: Queue, message: Word, ghost v: View)
    requires Rep(k, v) && queue in v.queues && QueueShape(v.queues[queue])
    modifies queue`status, queue`number, queue`first, queue.messages
    ensures Rep(k, Kept(v, queue, message))
  {
    hide Core, OwnRings, MutexesHold, RingsHold, RwLocksHold, Put;
    CoreSame(k, v, Kept(v, queue, message));
    KeptSteps(v, queue, message, k.rings);
    ghost var f := v.queues[queue].(status := Fine);
    ghost var m := v.queues[queue := f];
    SetQueueStatus(queue, Fine, v.queues, k.rings);
    StoreMessage(queue, message, m, k.rings);
    assert m[queue := Put(f, message)].Keys == v.queues.Keys;
    RingsHistory(m[queue := Put(f, message)], queue, Put(f, message).(sent := v.queues[queue].sent + [message]),
                 k.rings);
  }

  lemma DeliverReady(v: View, q: Queue, msg: Word)
    requires Inv(v) && QueueKnown(v, q) && ReceiverWaits(v, q)
    ensures var w, x := HandOver(v, q, msg), v.lists[OnQueue(q)][0];
      Known(w) && Mid(w) && Grantee(w, x) && w.tasks == v.tasks
  {
    hide Inv, DispatchOrQueue, HandOver, Touches, Ready, ObjectOk, QueueKnown;
    QueueIn(v, q);
    var o, list := OnQueue(q), v.lists[OnQueue(q)];
    Facts(v, o);
    HandOverObject(v, q, msg);
    assert list[0] in list;
    WaitersHere(v, o, list[0]);
    var w := HandOver(v, q, msg);
    TouchReady(v, w, o, list[0]);
    ServeGrantee(v, w, o, list[0]);
    ReadyMid(w);
    TouchTasks(v, w, o, list[0]);
  }

  lemma EnqueueCases(v: View, q: Queue, msg: Word, now: nat)
    requires Inv(v) && QueueKnown(v, q)
    ensures Known(v) && q in v.queues && OnQueue(q) in v.lists
    ensures ReceiverWaits(v, q) ==>
      && Known(HandOver(v, q, msg)) && v.lists[OnQueue(q)][0] in HandOver(v, q, msg).t
      && EnqueueIsr(v, q, msg, now) ==
        Out(DispatchOrQueue(HandOver(v, q, msg), v.lists[OnQueue(q)][0], now), Status0(OSS_SUCCESS))
    ensures !ReceiverWaits(v, q) && v.queues[q].number == v.queues[q].size ==>
      EnqueueIsr(v, q, msg, now) == Out(v, Status0(OSS_ERROR_MEM))
    ensures !ReceiverWaits(v, q) && v.queues[q].number < v.queues[q].size ==>
      EnqueueIsr(v, q, msg, now) == Out(Kept(v, q, msg), Status0(OSS_SUCCESS))
  {
    if ReceiverWaits(v, q) { HandOverKnown(v, q, msg); }
    hide Inv, HandOver, DispatchOrQueue, Put;
  }

  /** A waiting receiver gets the message, and perhaps the processor. */
  method DeliverAndServe(k: Globals, queue: Queue, message: Word, now: nat, ghost v: View)
    requires Inv(v) && Rep(k, v) && QueueKnown(v, queue) && ReceiverWaits(v, queue)
    modifies k`runqueue, k`waitqueue, k`scheduled, k.cells, v.tasks
    ensures Rep(k, EnqueueIsr(v, queue, message, now).v)
    ensures EnqueueIsr(v, queue, message, now).r == Status0(OSS_SUCCESS)
  {
    hide Inv, Rep, Known, QueueKnown, EnqueueIsr, DispatchOrQueue, HandOver, Grantee, Mid;
    EnqueueCases(v, queue, message, now);
    DeliverReady(v, queue, message);
    var receiver := Deliver(k, queue, message, v);
    ServeWaiter(k, receiver, now, HandOver(v, queue, message));
  }

  /** osi_queue_enqueue_isr */
  method EnqueueFromIsr(k: Globals, queue: Queue, message: Word, now: nat, ghost v: View) returns (status: nat)
    requires Inv(v) && Rep(k, v) && QueueKnown(v, queue)
    modifies k`runqueue, k`waitqueue, k`scheduled, k.cells, v.tasks
    modifies queue`status, queue`number, queue`first, queue.messages
    ensures Rep(k, EnqueueIsr(v, queue, message, now).v) && EnqueueIsr(v, queue, message, now).r == Status0(status)
  {
    hide Inv, Rep, Known, QueueKnown, EnqueueIsr, DispatchOrQueue, HandOver, Kept, QueueShape;
    QueueFields(k, v, queue);
    EnqueueCases(v, queue, message, now);
    if queue.blocked.tasks != null && queue.status == BlockedReceive {
      DeliverAndServe(k, queue, message, now, v);
      return OSS_SUCCESS;
    }
    if queue.number == queue.size {
      return OSS_ERROR_MEM;
    }
    Keep(k, queue, message, v);
    return OSS_SUCCESS;
  }

  // ----------------------------------------------------------- sending, blocked

  lemma OfferSteps(v: View, q: Queue, msg: Word)
    requires Known(v) && QueueKnown(v, q) && v.running in v.t
    ensures var st := v.queues[q].(status := BlockedSend);
      && OfferBlocked(v, q, msg) == Worded(v, v.running, msg).(queues := OfferBlocked(v, q, msg).queues)
      && OfferBlocked(v, q, msg).queues == v.queues[q := st][q := st.(sent := v.queues[q].sent + [msg])]
      && OfferBlocked(v, q, msg).queues.Keys == v.queues[q := st].Keys == v.queues.Keys
      && OfferBlocked(v, q, msg).mutexes == v.mutexes && OfferBlocked(v, q, msg).rwlocks == v.rwlocks
  {
  }

  /** The message waits in the sender's own word. */
  method Offer(k: Globals, queue: Queue, message: Word, ghost v: View)
    requires Rep(k, v) && Known(v) && QueueKnown(v, queue) && queue in v.queues && v.running in v.t
    modifies v.running`c, queue`status
    ensures Rep(k, OfferBlocked(v, queue, message))
  {
    hide Core, OwnRings, MutexesHold, RingsHold, RwLocksHold, OfferBlocked, QueueKnown, Known;
    OfferSteps(v, queue, message);
    CoreRunning(k, v);
    SetWordIn(k, k.running, message, v);
    CoreSame(k, Worded(v, v.running, message), OfferBlocked(v, queue, message));
    SetQueueStatus(queue, BlockedSend, v.queues, k.rings);
    ghost var st := v.queues[queue].(status := BlockedSend);
    RingsHistory(v.queues[queue := st], queue, st.(sent := v.queues[queue].sent + [message]), k.rings);
  }

  lemma OfferParks(v: View, q: Queue, msg: Word, to: nat, now: nat)
    requires Inv(v) && QueueKnown(v, q) && CanWait(v, to, now) && to > 0
    requires v.queues[q].number == v.queues[q].size && !ReceiverWaits(v, q)
    ensures var w := OfferBlocked(v, q, msg);
      && Known(w) && w.running == v.running && w.tasks == v.tasks && v.running in w.t && w.t[v.running].back == NoObj
      && OnQueue(q) in w.lists && MayPark(Enlist(w, OnQueue(q), Send), to, now)
      && SameObjects(w, Block(w, OnQueue(q), Send, to, now))
      && Enqueue(v, q, msg, to, now) == Out(Block(w, OnQueue(q), Send, to, now), Status0(OSS_ERROR_TO))
  {
    hide Inv, Yields, Block, MayPark, Enlist, SameObjects, ParkedState, Return;
    var o := OnQueue(q);
    QueueIn(v, q);
    Facts(v, o);
    var w := OfferBlocked(v, q, msg);
    EnqueueParks(v, q, msg, to, now);
    ParkFacts(v, w, o, Send, to, now, Return(v, Out(Block(w, o, Send, to, now), Status0(OSS_ERROR_TO))));
  }

  method AwaitRoom(k: Globals, queue: Queue, message: Word, to: nat, now: nat, ghost v: View)
    requires Inv(v) && Rep(k, v) && QueueKnown(v, queue) && CanWait(v, to, now)
    requires v.queues[queue].number == v.queues[queue].size && !ReceiverWaits(v, queue)
    modifies k`runqueue, k`waitqueue, k`scheduled, k.cells, v.tasks, queue`status
    ensures Rep(k, Enqueue(v, queue, message, to, now).v)
    ensures Enqueue(v, queue, message, to, now).r == Status0(OSS_ERROR_TO)
  {
    hide Inv, Rep, Known, QueueKnown, Enqueue, OfferBlocked, Block, Enlist, MayPark, SameObjects;
    QueueFields(k, v, queue);
    OfferParks(v, queue, message, to, now);
    Offer(k, queue, message, v);
    ParkWith(k, queue, to, now, OfferBlocked(v, queue, message), Send);
  }

  lemma EnqueueIsNow(v: View, q: Queue, msg: Word, to: nat, now: nat)
    requires Known(v) && QueueKnown(v, q)
    requires ReceiverWaits(v, q) || v.queues[q].number < v.queues[q].size || to == 0
    ensures Enqueue(v, q, msg, to, now) == EnqueueIsr(v, q, msg, now)
  {
  }

  /** osi_queue_enqueue */
  method EnqueueFromTask(k: Globals, queue: Queue, message: Word, to: nat, now: nat, ghost v: View)
    returns (status: nat)
    requires Inv(v) && Rep(k, v) && QueueKnown(v, queue) && CanBlock(v, to, now)
    modifies k`runqueue, k`waitqueue, k`scheduled, k.cells, v.tasks
    modifies queue`status, queue`number, queue`first, queue.messages
    ensures Rep(k, Enqueue(v, queue, message, to, now).v) && Enqueue(v, queue, message, to, now).r == Status0(status)
  {
    hide Inv, Rep, Known, QueueKnown, Enqueue, EnqueueIsr, DispatchOrQueue, HandOver, Kept, QueueShape;
    QueueFields(k, v, queue);
    assert k.running.nblocked == null;
    EnqueueCases(v, queue, message, now);
    if ReceiverWaits(v, queue) || v.queues[queue].number < v.queues[queue].size || to == 0 {
      EnqueueIsNow(v, queue, message, to, now);
    }
    if queue.blocked.tasks != null && queue.status == BlockedReceive {
      DeliverAndServe(k, queue, message, now, v);
      return OSS_SUCCESS;
    }
    if queue.number == queue.size {
      if to == 0 {
        return OSS_ERROR_MEM;
      }
      AwaitRoom(k, queue, message, to, now, v);
      return OSS_ERROR_TO;
    }
    Keep(k, queue, message, v);
    return OSS_SUCCESS;
  }

  // ------------------------------------------------------------------ receiving

  lemma TakenSteps(v: View, q: Queue)
    requires Known(v) && QueueKnown(v, q) && v.queues[q].number > 0
    ensures var t, qv := Take(v.queues[q]), v.queues[q];
      && v.queues[q := t].Keys == v.queues.Keys == Taken(v, q).queues.Keys
      && Taken(v, q).queues == v.queues[q := t][q := t.(got := qv.got + [qv.messages[qv.last]])]
      && Taken(v, q).mutexes == v.mutexes && Taken(v, q).rwlocks == v.rwlocks && Taken(v, q).tasks == v.tasks
      && Taken(v, q) == v.(queues := Taken(v, q).queues)
  {
  }

  /** The oldest message leaves the ring. */
  method TakeOldest(k: Globals, queue: Queue, ghost v: View) returns (message: Word)
    requires Rep(k, v) && Known(v) && QueueKnown(v, queue) && queue in v.queues && v.queues[queue].number > 0
    requires QueueShape(v.queues[queue])
    modifies queue`number, queue`last
    ensures Rep(k, Taken(v, queue)) && message == v.queues[queue].messages[v.queues[queue].last]
  {
    hide Core, OwnRings, MutexesHold, RingsHold, RwLocksHold, Taken, Take, QueueKnown, Known;
    TakenSteps(v, queue);
    CoreSame(k, v, Taken(v, queue));
    ghost var qv := v.queues[queue];
    message := TakeMessage(queue, v.queues, k.rings);
    RingsHistory(v.queues[queue := Take(qv)], queue, Take(qv).(got := qv.got + [qv.messages[qv.last]]), k.rings);
  }

  /** A sender that has left the list: its message goes into the ring, its word is cleared, and its
      frame says so. */
  function Admitted(p: View, q: Queue, x: Task): View
    requires q in p.queues && QueueShape(p.queues[q]) && x in p.t
  {
    SetRet(Worded(p.(queues := p.queues[q := Put(p.queues[q], p.t[x].c)]), x, 0), x, Ret(OSS_SUCCESS, 0))
  }

  lemma AdmitSteps(v: View, q: Queue)
    requires Known(v) && QueueKnown(v, q) && |v.lists[OnQueue(q)]| > 0
    ensures var x, p := v.lists[OnQueue(q)][0], PopBlocked(v, OnQueue(q));
      && x in v.t && x in p.t && x in v.tasks && p.queues == v.queues && q in p.queues && QueueShape(p.queues[q])
      && Admit(v, q) == Admitted(p, q, x) && Admit(v, q).tasks == v.tasks
      && Admit(v, q).mutexes == v.mutexes && Admit(v, q).rwlocks == v.rwlocks
      && Admit(v, q).queues.Keys == v.queues.Keys
  {
    var x := v.lists[OnQueue(q)][0];
    SetTwice(v.t, x, v.t[x].(c := 0), v.t[x].(c := 0, ret := Ret(OSS_SUCCESS, 0)));
  }

  method AdmitTask(k: Globals, queue: Queue, x: Task, ghost p: View)
    requires Core(k, p) && OwnRings(p.queues.Keys, k.rings) && RingsHold(p.queues, k.rings)
    requires queue in p.queues && QueueShape(p.queues[queue]) && x in p.t
    modifies x`c, x`ret, queue`number, queue`first, queue.messages
    ensures Core(k, Admitted(p, queue, x))
    ensures Admitted(p, queue, x).queues.Keys == p.queues.Keys && RingsHold(Admitted(p, queue, x).queues, k.rings)
  {
    hide Core, OwnRings, RingsHold, QueueShape, Put;
    RetHeld(k, p, x);
    ghost var p2 := p.(queues := p.queues[queue := Put(p.queues[queue], p.t[x].c)]);
    CoreSame(k, p, p2);
    assert p2.queues.Keys == p.queues.Keys;
    StoreMessage(queue, x.c, p.queues, k.rings);
    SetWordIn(k, x, 0, p2);
    Answer(k, x, Ret(OSS_SUCCESS, 0), Worded(p2, x, 0));
  }

  method AdmitHead(k: Globals, queue: Queue, ghost v: View) returns (sender: Task)
    requires Core(k, v) && OwnRings(v.queues.Keys, k.rings) && RingsHold(v.queues, k.rings)
    requires Known(v) && QueueKnown(v, queue) && |v.lists[OnQueue(queue)]| > 0
    modifies k.cells, v.tasks`nblocked, v.tasks`ret, v.tasks`c, queue`number, queue`first, queue.messages
    ensures sender == v.lists[OnQueue(queue)][0] && Core(k, Admit(v, queue))
    ensures Admit(v, queue).queues.Keys == v.queues.Keys && RingsHold(Admit(v, queue).queues, k.rings)
  {
    hide Core, OwnRings, RingsHold, Admit, Admitted, Known, QueueKnown, PopBlocked, QueueShape;
    QueueIn(v, queue);
    AdmitSteps(v, queue);
    sender := BlockedDeq(k, queue, v);
    AdmitTask(k, queue, sender, PopBlocked(v, OnQueue(queue)));
  }

  /** The first blocked sender's message takes the free slot. */
  method AdmitFirst(k: Globals, queue: Queue, ghost v: View) returns (sender: Task)
    requires Rep(k, v) && Known(v) && QueueKnown(v, queue) && |v.lists[OnQueue(queue)]| > 0
    modifies k.cells, v.tasks`nblocked, v.tasks`ret, v.tasks`c, queue`number, queue`first, queue.messages
    ensures sender == v.lists[OnQueue(queue)][0] && Rep(k, Admit(v, queue))
  {
    hide Core, OwnRings, MutexesHold, RingsHold, RwLocksHold, Admit, Known, QueueKnown, QueueShape;
    AdmitSteps(v, queue);
    sender := AdmitHead(k, queue, v);
  }

  lemma AdmitReady(v: View, q: Queue)
    requires Inv(v) && QueueKnown(v, q) && SenderWaits(v, q) && v.queues[q].number > 0
    ensures Known(v) && Known(Taken(v, q)) && QueueKnown(Taken(v, q), q)
    ensures Taken(v, q).lists == v.lists && Taken(v, q).tasks == v.tasks
    ensures var w, x := Admit(Taken(v, q), q), v.lists[OnQueue(q)][0];
      Known(w) && Mid(w) && Grantee(w, x) && w.tasks == v.tasks
  {
    hide Inv, DispatchOrQueue, Admit, Touches, Ready, ObjectOk, QueueKnown, Taken;
    QueueIn(v, q);
    var o, list := OnQueue(q), v.lists[OnQueue(q)];
    Facts(v, o);
    TakenSteps(v, q);
    AdmitObject(v, q);
    assert list[0] in list;
    WaitersHere(v, o, list[0]);
    var w := Admit(Taken(v, q), q);
    TouchReady(v, w, o, list[0]);
    ServeGrantee(v, w, o, list[0]);
    ReadyMid(w);
    TouchTasks(v, w, o, list[0]);
  }

  lemma DequeueCases(v: View, q: Queue, to: nat, now: nat)
    requires Inv(v) && QueueKnown(v, q)
    ensures Known(v) && q in v.queues && OnQueue(q) in v.lists && QueueShape(v.queues[q])
    ensures v.queues[q].number > 0 ==>
      var msg := v.queues[q].messages[v.queues[q].last];
      && Known(Taken(v, q)) && Taken(v, q).tasks == v.tasks && Taken(v, q).lists == v.lists
      && q in Taken(v, q).queues && Taken(v, q).queues[q].status == v.queues[q].status
      && (!SenderWaits(v, q) ==> Dequeue(v, q, to, now) == Out(Taken(v, q), Ret(OSS_SUCCESS, msg)))
      && (SenderWaits(v, q) ==>
            && QueueKnown(Taken(v, q), q)
            && Known(Admit(Taken(v, q), q)) && v.lists[OnQueue(q)][0] in Admit(Taken(v, q), q).t
            && Dequeue(v, q, to, now) ==
               Out(DispatchOrQueue(Admit(Taken(v, q), q), v.lists[OnQueue(q)][0], now), Ret(OSS_SUCCESS, msg)))
    ensures v.queues[q].number == 0 && to == 0 ==> Dequeue(v, q, to, now) == Out(v, Status0(OSS_ERROR_MEM))
  {
    if v.queues[q].number > 0 && SenderWaits(v, q) { AdmitKnown(Taken(v, q), q); }
    hide Inv, Admit, DispatchOrQueue;
  }

  lemma AwaitParks(v: View, q: Queue, to: nat, now: nat)
    requires Inv(v) && QueueKnown(v, q) && CanWait(v, to, now) && v.queues[q].number == 0
    ensures var w := Awaiting(v, q);
      && Known(w) && w.running == v.running && w.tasks == v.tasks && w.running in w.t && w.t == v.t
      && OnQueue(q) in w.lists && MayPark(Enlist(w, OnQueue(q), Receive), to, now)
      && SameObjects(w, Block(w, OnQueue(q), Receive, to, now))
      && Dequeue(v, q, to, now) == Out(Block(w, OnQueue(q), Receive, to, now), Status0(OSS_ERROR_TO))
  {
    hide Inv, Yields, Block, MayPark, Enlist, SameObjects, ParkedState, Return;
    var o := OnQueue(q);
    QueueIn(v, q);
    Facts(v, o);
    var w := Awaiting(v, q);
    DequeueParks(v, q, to, now);
    ParkFacts(v, w, o, Receive, to, now, Return(v, Dequeue(v, q, to, now)));
  }

  method MarkWaiting(k: Globals, queue: Queue, ghost v: View)
    requires Rep(k, v) && queue in v.queues
    modifies queue`status
    ensures Rep(k, Awaiting(v, queue))
  {
    hide Core, OwnRings, MutexesHold, RingsHold, RwLocksHold;
    CoreSame(k, v, Awaiting(v, queue));
    assert Awaiting(v, queue).queues.Keys == v.queues.Keys;
    SetQueueStatus(queue, BlockedReceive, v.queues, k.rings);
  }

  lemma SenderHeld(k: Globals, queue: Queue, v: View)
    requires Rep(k, v) && queue in v.queues && OnQueue(queue) in v.lists
    ensures queue.blocked.tasks != null && queue.status == BlockedSend <==> SenderWaits(v, queue)
  {
    assert QueueHolds(queue, v.queues[queue]);
    HeadHeld(k, v, OnQueue(queue));
  }

  /** osi_queue_dequeue */
  method DequeueFromTask(k: Globals, queue: Queue, to: nat, now: nat, ghost v: View)
    returns (status: nat, message: Word)
    requires Inv(v) && Rep(k, v) && QueueKnown(v, queue) && CanBlock(v, to, now)
    modifies k`runqueue, k`waitqueue, k`scheduled, k.cells, v.tasks
    modifies queue`status, queue`number, queue`first, queue`last, queue.messages
    ensures Rep(k, Dequeue(v, queue, to, now).v) && Dequeue(v, queue, to, now).r == Ret(status, message)
  {
    hide Inv, Rep, Known, QueueKnown, Dequeue, DispatchOrQueue, Admit, Taken, QueueShape, Awaiting, Block, Enlist,
      MayPark, SameObjects, Grantee, Mid;
    message := 0;
    QueueFields(k, v, queue);
    assert k.running.nblocked == null;
    DequeueCases(v, queue, to, now);
    if queue.number > 0 {
      QueueIn(v, queue);
      message := TakeOldest(k, queue, v);
      SenderHeld(k, queue, Taken(v, queue));
      if queue.blocked.tasks != null && queue.status == BlockedSend {
        AdmitReady(v, queue);
        var sender := AdmitFirst(k, queue, Taken(v, queue));
        ServeWaiter(k, sender, now, Admit(Taken(v, queue), queue));
      }
      return OSS_SUCCESS, message;
    }
    if to == 0 {
      return OSS_ERROR_MEM, message;
    }
    AwaitParks(v, queue, to, now);
    MarkWaiting(k, queue, v);
    ParkWith(k, queue, to, now, Awaiting(v, queue), Receive);
    return OSS_ERROR_TO, message;
  }
}
