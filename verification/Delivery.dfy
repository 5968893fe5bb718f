/** A message queue, with its ring and its blocked senders, is one first-in first-out queue. */
module Delivery {
  import opened Types
  import opened Sequences
  import opened Spec
  import opened Invariants
  import opened Scheduling
  import opened Steps
  import opened Frames
  import opened Preservation
  import opened Runs

  /** What the queue owes its receivers: the ring, then the blocked senders' messages. */
  function Owed(v: View, q: Queue): seq<Word>
    requires QueueKnown(v, q)
  {
    Contents(v.queues[q], v.lists[OnQueue(q)], v.t)
  }

  lemma QueueAt(v: View, q: Queue)
    requires Inv(v) && OnQueue(q) in v.lists
    ensures Known(v) && QueueKnown(v, q) && QueueOk(v.queues[q], v.lists[OnQueue(q)], v.t)
  {
    hide Inv;
    Facts(v, OnQueue(q));
  }

  /** Nothing is lost and nothing is made up: in every reachable state, what has been offered
      and not withdrawn is what has been delivered followed by what is still owed. */
  lemma Conservation(v: View, run: seq<Action>, q: Queue)
    requires Inv(v) && Legal(v, run) && OnQueue(q) in Run(v, run).lists
    ensures var w := Run(v, run);
      QueueKnown(w, q) && w.queues[q].sent == w.queues[q].got + Owed(w, q)
  {
    hide Inv, Run;
    RunInv(v, run);
    QueueAt(Run(v, run), q);
  }

  /** Waiters are of one kind: senders only at a full queue, receivers only at an empty one. */
  lemma WaitersAgree(v: View, run: seq<Action>, q: Queue)
    requires Inv(v) && Legal(v, run) && OnQueue(q) in Run(v, run).lists
    requires |Run(v, run).lists[OnQueue(q)]| > 0
    ensures QueueKnown(Run(v, run), q)
    ensures var w := Run(v, run);
      var qv, list := w.queues[q], w.lists[OnQueue(q)];
      && (|| (qv.status.BlockedSend? && qv.number == qv.size && forall x :: x in list ==> w.t[x].call == Send)
          || (qv.status.BlockedReceive? && qv.number == 0 && forall x :: x in list ==> w.t[x].call == Receive))
  {
    hide Inv, Run;
    RunInv(v, run);
    QueueAt(Run(v, run), q);
  }

  // ------------------------------------------------------------- a single step

  /** The queue as the step's call leaves it, before the scheduler is involved. */
  function Called(v: View, a: Action, q: Queue): View
    requires Known(v) && Enabled(v, a)
  {
    if ObjectOf(a) == OnQueue(q) then Middle(v, a) else v
  }

  /** `owed` is `core`, less the message of a sender that resumes because its wait timed out: the one
      behind the ring and behind the messages of the senders listed before it. */
  ghost predicate LessTimedOut(m: View, w: View, q: Queue, core: seq<Word>, owed: seq<Word>)
    requires QueueKnown(m, q)
  {
    var x, list := w.running, m.lists[OnQueue(q)];
    if m.queues[q].status.BlockedSend? && x in list then
      var k := m.queues[q].number + IndexOf(list, x);
      && x != m.running && x in m.t && x in w.t
      && m.t[x].back == OnQueue(q) && m.t[x].call == Send && w.t[x].ret.status == OSS_ERROR_TO
      && k < |core| && core[k] == m.t[x].c && owed == core[..k] + core[k + 1..]
    else owed == core
  }

  lemma OwedParts(v: View, q: Queue)
    requires Known(v) && QueueKnown(v, q) && QueueOk(v.queues[q], v.lists[OnQueue(q)], v.t)
    ensures v.queues[q].sent == v.queues[q].got + Owed(v, q)
    ensures |Owed(v, q)| >= v.queues[q].number
    ensures v.queues[q].status.BlockedSend? ==>
      && |Owed(v, q)| == v.queues[q].number + |v.lists[OnQueue(q)]|
      && forall i :: 0 <= i < |v.lists[OnQueue(q)]| ==>
        Owed(v, q)[v.queues[q].number + i] == v.t[v.lists[OnQueue(q)][i]].c
  {
    assert |Ring(v.queues[q])| == v.queues[q].number;
  }

  lemma WithdrawnAt(m: View, w: View, q: Queue)
    requires Known(m) && OnQueue(q) in m.objs && ObjectOk(m, OnQueue(q)) && Known(w)
    requires QueueKnown(w, q) && QueueOk(w.queues[q], w.lists[OnQueue(q)], w.t)
    requires Undisturbed(m, w, OnQueue(q)) && Answered(m, w, OnQueue(q))
    requires m.running !in m.lists[OnQueue(q)] || w.running != m.running
    ensures QueueKnown(m, q) && LessTimedOut(m, w, q, Owed(m, q), Owed(w, q))
    ensures w.queues[q].got == m.queues[q].got
  {
    hide Owed, QueueOk, QueueKnown, Known, ObjectOk;
    FineQueue(m, q);
    OwedParts(m, q);
    OwedParts(w, q);
    var qv, list, x := m.queues[q], m.lists[OnQueue(q)], w.running;
    var i := IndexOf(list, x);
    if qv.status.BlockedSend? && i < |list| {
      var k := qv.number + i;
      assert |qv.got| + k < |qv.sent|;
      DropAfter(qv.got, Owed(m, q), k);
      SamePrefix(qv.got, Owed(w, q), Owed(m, q)[..k] + Owed(m, q)[k + 1..]);
      assert x in list && Owed(m, q)[k] == m.t[x].c;
      assert m.t[x].call == Send by { SendersSend(m, q, x); }
    } else {
      SamePrefix(qv.got, Owed(w, q), Owed(m, q));
    }
  }

  lemma FineQueue(v: View, q: Queue)
    requires Known(v) && OnQueue(q) in v.objs && ObjectOk(v, OnQueue(q))
    ensures OnQueue(q) in v.lists && QueueKnown(v, q) && QueueOk(v.queues[q], v.lists[OnQueue(q)], v.t)
    ensures forall x :: x in v.lists[OnQueue(q)] ==> x in v.t && v.t[x].back == OnQueue(q)
  {
  }

  lemma SendersSend(v: View, q: Queue, x: Task)
    requires Known(v) && QueueKnown(v, q) && QueueOk(v.queues[q], v.lists[OnQueue(q)], v.t) && x in v.lists[OnQueue(q)]
    ensures x in v.t && v.queues[q].status.BlockedSend? ==> v.t[x].call == Send
  {
  }

  lemma DropAfter<T>(a: seq<T>, b: seq<T>, k: nat)
    requires k < |b|
    ensures (a + b)[..|a| + k] + (a + b)[|a| + k + 1..] == a + (b[..k] + b[k + 1..])
  {
  }

  lemma SamePrefix<T>(a: seq<T>, b: seq<T>, c: seq<T>)
    requires a + b == a + c
    ensures b == c
  {
    assert (a + b)[|a|..] == b && (a + c)[|a|..] == c;
  }

  lemma StepSettles(v: View, a: Action, q: Queue)
    requires Inv(v) && Enabled(v, a) && OnQueue(q) in v.lists
    ensures var m, w, o := Called(v, a, q), Step(v, a), OnQueue(q);
      && Known(m) && o in m.objs && ObjectOk(m, o) && Undisturbed(m, w, o) && Answered(m, w, o)
      && m.running == v.running && Inv(w) && o in w.lists
      && (w.running != v.running || v.running !in m.lists[o])
  {
    StepGood(v, a);
    Facts(v, OnQueue(q));
    RunningUnlisted(v);
    if ObjectOf(a) != OnQueue(q) { OtherAnswered(v, a, OnQueue(q)); }
    hide Inv, Step, Enabled, Middle, RetsKept, Highest, ObjectOk, Answered;
  }

  lemma OtherAnswered(v: View, a: Action, o: Obj)
    requires Inv(v) && Enabled(v, a) && o in v.lists && o.OnQueue? && ObjectOf(a) != o
    requires Good(v, ObjectOf(a), Step(v, a))
    ensures Answered(v, Step(v, a), o)
  {
    assert Known(Step(v, a));
    hide Inv, Step, Enabled, RetsKept, Framed, Highest;
  }

  /** One step changes what a queue owes only by what the call does, and by withdrawing the
      message of a sender that times out in it. */
  lemma StepOwed(v: View, a: Action, q: Queue)
    requires Inv(v) && Enabled(v, a) && OnQueue(q) in v.lists
    ensures var m, w := Called(v, a, q), Step(v, a);
      QueueKnown(m, q) && QueueKnown(w, q) && LessTimedOut(m, w, q, Owed(m, q), Owed(w, q))
      && w.queues[q].got == m.queues[q].got
  {
    StepSettles(v, a, q);
    var m, w := Called(v, a, q), Step(v, a);
    hide Inv, Step, Enabled, Called, ObjectOk, Undisturbed, Answered, QueueOk;
    QueueAt(w, q);
    WithdrawnAt(m, w, q);
  }

  // ---------------------------------------------------------- what calls deliver

  /** What is owed follows from what has been offered and delivered. */
  lemma OwedBy(m: View, q: Queue, got: seq<Word>, owed: seq<Word>)
    requires Known(m) && OnQueue(q) in m.objs && ObjectOk(m, OnQueue(q)) && q in m.queues
    requires m.queues[q].got == got && m.queues[q].sent == got + owed
    ensures QueueKnown(m, q) && Owed(m, q) == owed
  {
    SamePrefix(got, Owed(m, q), owed);
  }

  lemma CallFacts(v: View, a: Action, q: Queue)
    requires Inv(v) && Enabled(v, a) && ObjectOf(a) == OnQueue(q) && OnQueue(q) in v.lists
    ensures var m, w := Middle(v, a), Step(v, a);
      && Known(m) && OnQueue(q) in m.objs && ObjectOk(m, OnQueue(q)) && FramesKept(m, w)
      && m.running == v.running && Known(w) && w.t.Keys == v.t.Keys
      && QueueKnown(v, q) && v.queues[q].sent == v.queues[q].got + Owed(v, q)
  {
    StepGood(v, a);
    QueueAt(v, q);
    assert Inv(Step(v, a)) && Known(Step(v, a));
    hide Inv, Step, Enabled, Middle, RetsKept, Framed, Highest, Outcome, ObjectOk, FramesKept, Undisturbed, Answered;
  }

  /** A service call leaves its result in its caller's frame. */
  lemma ReturnFrame(v: View, o: Out)
    requires v.running in o.v.t
    ensures v.running in Return(v, o).t && Return(v, o).t[v.running].ret == o.r
  {
  }

  /** Sending to a queue with a waiting receiver: nothing was owed, and the message goes into
      the frame of the receiver that has waited longest. */
  lemma SendHandsOver(v: View, q: Queue, msg: Word, to: nat, now: nat)
    requires Inv(v) && Enabled(v, SendTo(q, msg, to, now)) && OnQueue(q) in v.lists
    requires ReceiverWaits(v, q)
    ensures var a := SendTo(q, msg, to, now);
      var m, w, x := Middle(v, a), Step(v, a), v.lists[OnQueue(q)][0];
      && QueueKnown(v, q) && QueueKnown(m, q) && Owed(v, q) == [] && Owed(m, q) == []
      && m.queues[q].got == v.queues[q].got + [msg]
      && v.running in w.t && w.t[v.running].ret == Status0(OSS_SUCCESS)
      && x in w.t && w.t[x].ret == Ret(OSS_SUCCESS, msg)
  {
    var a, x := SendTo(q, msg, to, now), v.lists[OnQueue(q)][0];
    CallFacts(v, a, q);
    RunningUnlisted(v);
    assert x in v.lists[OnQueue(q)] && x != v.running;
    QueueAt(v, q);
    hide Inv, ObjectOk, DispatchOrQueue;
    var m := Middle(v, a);
    assert m == HandOver(v, q, msg);
    assert x in m.t && m.t[x].ret == Ret(OSS_SUCCESS, msg);
    OwedBy(m, q, v.queues[q].got + [msg], []);
    ReturnFrame(v, Enqueue(v, q, msg, to, now));
  }

  lemma SendHistory(v: View, q: Queue, msg: Word, to: nat, now: nat)
    requires Known(v) && QueueKnown(v, q) && !ReceiverWaits(v, q) && v.scheduled == null
    ensures var m, qv := EnqueueMid(v, q, msg, to, now), v.queues[q];
      && q in m.queues && m.queues[q].got == qv.got
      && (if qv.number < qv.size || to > 0 then m.queues[q].sent == qv.sent + [msg] else m == v)
    ensures var qv := v.queues[q];
      Enqueue(v, q, msg, to, now).r == Status0(if qv.number < qv.size then OSS_SUCCESS
                                               else if to > 0 then OSS_ERROR_TO else OSS_ERROR_MEM)
  {
    hide Block;
  }

  lemma ReceiveHistory(v: View, q: Queue, to: nat, now: nat)
    requires Known(v) && QueueKnown(v, q) && v.queues[q].number > 0
    ensures var m, qv := DequeueMid(v, q, to, now), v.queues[q];
      && q in m.queues && m.queues[q].got == qv.got + [qv.messages[qv.last]] && m.queues[q].sent == qv.sent
    ensures Dequeue(v, q, to, now).r == Ret(OSS_SUCCESS, v.queues[q].messages[v.queues[q].last])
  {
    hide DispatchOrQueue;
  }

  lemma MiddleOf(v: View, a: Action)
    requires Known(v) && Enabled(v, a)
    ensures a.SendTo? ==> Middle(v, a) == EnqueueMid(v, a.q, a.msg, a.to, a.now)
    ensures a.SendTo? ==> Step(v, a) == Return(v, Enqueue(v, a.q, a.msg, a.to, a.now))
    ensures a.ReceiveFrom? ==>
      Middle(v, a) == DequeueMid(v, a.q, a.to, a.now) && Step(v, a) == Return(v, Dequeue(v, a.q, a.to, a.now))
  {
    hide EnqueueMid, DequeueMid, Enqueue, Dequeue, Return;
  }

  lemma OwedHead(v: View, q: Queue)
    requires QueueKnown(v, q) && v.queues[q].number > 0
    ensures |Owed(v, q)| > 0 && Owed(v, q)[0] == v.queues[q].messages[v.queues[q].last]
  {
    assert Ring(v.queues[q])[0] == v.queues[q].messages[v.queues[q].last];
  }

  lemma Apart(s: seq<Word>, got: seq<Word>, owed: seq<Word>, msg: Word)
    requires s == got + owed
    ensures s + [msg] == got + (owed + [msg])
    ensures |owed| > 0 ==> s == (got + [owed[0]]) + owed[1..]
  {
  }

  /** Sending to a queue with no waiting receiver: the message is added at the end of what is
      owed, in the ring if there is room, with its blocked sender otherwise; a sender that does
      not want to wait at a full queue is refused. */
  lemma SendAppends(v: View, q: Queue, msg: Word, to: nat, now: nat)
    requires Inv(v) && Enabled(v, SendTo(q, msg, to, now)) && OnQueue(q) in v.lists
    requires !ReceiverWaits(v, q)
    ensures var a, qv := SendTo(q, msg, to, now), v.queues[q];
      var m, w := Middle(v, a), Step(v, a);
      && QueueKnown(v, q) && QueueKnown(m, q) && v.running in w.t
      && (if qv.number < qv.size || to > 0 then Owed(m, q) == Owed(v, q) + [msg] else m == v)
      && w.t[v.running].ret == Status0(if qv.number < qv.size then OSS_SUCCESS
                                       else if to > 0 then OSS_ERROR_TO else OSS_ERROR_MEM)
  {
    var a, qv := SendTo(q, msg, to, now), v.queues[q];
    CallFacts(v, a, q);
    Facts(v, OnQueue(q));
    MiddleOf(v, a);
    hide Inv, ObjectOk, Step, Middle, Return, FramesKept;
    SendHistory(v, q, msg, to, now);
    hide EnqueueMid, Enqueue;
    ReturnFrame(v, Enqueue(v, q, msg, to, now));
    if qv.number < qv.size || to > 0 {
      Apart(qv.sent, qv.got, Owed(v, q), msg);
      OwedBy(Middle(v, a), q, qv.got, Owed(v, q) + [msg]);
    }
  }

  /** Receiving: the caller gets the oldest message owed, and the rest stays owed in the same
      order, although a blocked sender's message may have moved into the ring. */
  lemma ReceiveTakesFirst(v: View, q: Queue, to: nat, now: nat)
    requires Inv(v) && Enabled(v, ReceiveFrom(q, to, now)) && OnQueue(q) in v.lists
    requires v.queues[q].number > 0
    ensures var a := ReceiveFrom(q, to, now);
      var m, w := Middle(v, a), Step(v, a);
      && QueueKnown(v, q) && QueueKnown(m, q) && |Owed(v, q)| > 0
      && v.running in w.t && w.t[v.running].ret == Ret(OSS_SUCCESS, Owed(v, q)[0])
      && Owed(m, q) == Owed(v, q)[1..]
      && m.queues[q].got == v.queues[q].got + [Owed(v, q)[0]]
  {
    var a, qv := ReceiveFrom(q, to, now), v.queues[q];
    CallFacts(v, a, q);
    MiddleOf(v, a);
    hide Inv, ObjectOk, Step, Middle, Return, FramesKept, Owed;
    OwedHead(v, q);
    ReceiveHistory(v, q, to, now);
    hide DequeueMid, Dequeue;
    ReturnFrame(v, Dequeue(v, q, to, now));
    Apart(qv.sent, qv.got, Owed(v, q), 0);
    OwedBy(Middle(v, a), q, qv.got + [Owed(v, q)[0]], Owed(v, q)[1..]);
  }

  /** An interrupt sends exactly as a task that does not want to wait. */
  lemma InterruptSendsAlike(v: View, q: Queue, msg: Word, now: nat)
    requires Known(v) && QueueKnown(v, q)
    ensures SendMid(v, q, msg, now) == EnqueueMid(v, q, msg, 0, now)
    ensures EnqueueIsr(v, q, msg, now) == Enqueue(v, q, msg, 0, now)
  {
    hide DispatchOrQueue, HandOver;
  }

  // --------------------------------------------------------------- whole runs

  lemma CallDelivers(v: View, a: Action, q: Queue)
    requires Inv(v) && Enabled(v, a) && ObjectOf(a) == OnQueue(q) && OnQueue(q) in v.lists
    ensures q in v.queues && q in Middle(v, a).queues && v.queues[q].got <= Middle(v, a).queues[q].got
  {
    hide Inv, ObjectOk, DispatchOrQueue, Block, Known;
    Facts(v, OnQueue(q));
  }

  lemma StepDelivers(v: View, a: Action, q: Queue)
    requires Inv(v) && Enabled(v, a) && OnQueue(q) in v.lists
    ensures OnQueue(q) in Step(v, a).lists && q in v.queues && q in Step(v, a).queues
    ensures v.queues[q].got <= Step(v, a).queues[q].got
  {
    StepOwed(v, a, q);
    QueueAt(v, q);
    hide Inv, Step, Enabled, Middle, LessTimedOut, QueueOk;
    if ObjectOf(a) == OnQueue(q) { CallDelivers(v, a, q); }
  }

  /** Deliveries are never taken back: with Conservation, the messages delivered by any point of
      any run are the first ones of those offered and not withdrawn, in order, each once. */
  lemma {:induction false} DeliveredInOrder(v: View, run: seq<Action>, q: Queue)
    requires Inv(v) && Legal(v, run) && OnQueue(q) in v.lists
    ensures var w := Run(v, run);
      && q in v.queues && OnQueue(q) in w.lists && QueueKnown(w, q)
      && v.queues[q].got <= w.queues[q].got <= w.queues[q].sent
      && w.queues[q].sent[|w.queues[q].got|..] == Owed(w, q)
    decreases |run|
  {
    hide Inv, Step, Enabled, QueueOk, Owed;
    QueueAt(v, q);
    if run != [] {
      StepDelivers(v, run[0], q);
      StepInv(v, run[0]);
      DeliveredInOrder(Step(v, run[0]), run[1..], q);
    } else {
      Conservation(v, run, q);
    }
  }
}
