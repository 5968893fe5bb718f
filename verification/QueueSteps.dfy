/** Calls on a queue keep the invariant. */
module QueueSteps {
  import opened Types
  import opened Sequences
  import opened Spec
  import opened Invariants
  import opened Steps
  import opened Frames

  lemma RingPut(qv: QueueV, msg: Word)
    requires QueueShape(qv) && qv.number < qv.size && qv.first == Slot(qv.last, qv.number, qv.size)
    ensures QueueShape(Put(qv, msg)) && Ring(Put(qv, msg)) == Ring(qv) + [msg]
    ensures var w := Put(qv, msg); w.first == Slot(w.last, w.number, w.size)
  {
  }

  lemma RingTake(qv: QueueV)
    requires QueueShape(qv) && qv.number > 0 && qv.first == Slot(qv.last, qv.number, qv.size)
    ensures QueueShape(Take(qv)) && Ring(qv) == [qv.messages[qv.last]] + Ring(Take(qv))
    ensures var w := Take(qv); w.first == Slot(w.last, w.number, w.size)
  {
  }

  lemma QueuePut(qv: QueueV, list: seq<Task>, ts: map<Task, TaskV>, msg: Word)
    requires QueueOk(qv, list, ts) && qv.number < qv.size
    requires list == [] || !qv.status.BlockedReceive?
    ensures QueueOk(Put(qv, msg).(status := Fine, sent := qv.sent + [msg]), list, ts)
  {
    RingPut(qv, msg);
  }

  lemma QueueHandOver(qv: QueueV, list: seq<Task>, ts0: map<Task, TaskV>, ts1: map<Task, TaskV>, msg: Word)
    requires QueueOk(qv, list, ts0) && Distinct(list) && |list| > 0 && qv.status.BlockedReceive?
    requires SameBut(ts0, ts1, list[0])
    ensures QueueOk(qv.(sent := qv.sent + [msg], got := qv.got + [msg]), list[1..], ts1)
  {
    assert forall x :: x in list[1..] ==> x in list && x != list[0];
  }

  /** A sender parks on a full queue: its message joins the end of what is owed. */
  lemma QueueParkSend(qv: QueueV, list: seq<Task>, ts0: map<Task, TaskV>, ts1: map<Task, TaskV>, x: Task, msg: Word)
    requires QueueOk(qv, list, ts0) && qv.number == qv.size
    requires x in ts0 && x !in list && SameBut(ts0, ts1, x) && ts1[x].c == msg && ts1[x].call == Send
    ensures QueueOk(qv.(status := BlockedSend, sent := qv.sent + [msg]), list + [x], ts1)
  {
    AppendMembers(list, x);
    assert Messages(list + [x], ts1) == Messages(list, ts0) + [msg];
    assert !qv.status.BlockedSend? ==> Messages(list, ts0) == [];
    assert qv.sent == qv.got + (Ring(qv) + Messages(list, ts0));
  }

  /** A receiver parks on an empty queue. */
  lemma QueueParkReceive(qv: QueueV, list: seq<Task>, ts0: map<Task, TaskV>, ts1: map<Task, TaskV>, x: Task)
    requires QueueOk(qv, list, ts0) && qv.number == 0
    requires x in ts0 && x !in list && SameBut(ts0, ts1, x) && ts1[x].call == Receive
    ensures QueueOk(qv.(status := BlockedReceive), list + [x], ts1)
  {
    AppendMembers(list, x);
  }

  lemma QueueTake(qv: QueueV, list: seq<Task>, ts: map<Task, TaskV>)
    requires QueueOk(qv, list, ts) && qv.number > 0 && (list == [] || !qv.status.BlockedSend?)
    ensures QueueOk(Take(qv).(got := qv.got + [qv.messages[qv.last]]), list, ts)
  {
    RingTake(qv);
    assert Messages(list, ts) == [] || list != [];
  }

  lemma MessagesTail(list: seq<Task>, ts0: map<Task, TaskV>, ts1: map<Task, TaskV>)
    requires Among(list, ts0.Keys) && Distinct(list) && |list| > 0 && SameBut(ts0, ts1, list[0])
    ensures Messages(list, ts0) == [ts0[list[0]].c] + Messages(list[1..], ts1)
  {
    assert forall k :: 1 <= k < |list| ==> list[k] != list[0] && ts1[list[k]] == ts0[list[k]];
  }

  lemma MoveAcross(got: seq<Word>, head: Word, ring: seq<Word>, msg: Word, rest: seq<Word>)
    ensures got + (([head] + ring) + ([msg] + rest)) == (got + [head]) + ((ring + [msg]) + rest)
  {
  }

  /** Taking from a full queue with waiting senders: the first one's message moves in. */
  lemma QueueTakeAdmit(qv: QueueV, list: seq<Task>, ts0: map<Task, TaskV>, ts1: map<Task, TaskV>)
    requires QueueOk(qv, list, ts0) && Distinct(list) && |list| > 0 && qv.status.BlockedSend?
    requires SameBut(ts0, ts1, list[0])
    ensures qv.number > 0
    ensures QueueOk(Put(Take(qv).(got := qv.got + [qv.messages[qv.last]]), ts0[list[0]].c), list[1..], ts1)
  {
    RingTake(qv);
    var msg := ts0[list[0]].c;
    var w := Take(qv).(got := qv.got + [qv.messages[qv.last]]);
    assert Ring(w) == Ring(Take(qv));
    RingPut(w, msg);
    assert forall x :: x in list[1..] ==> x in list && x != list[0];
    MessagesTail(list, ts0, ts1);
    MoveAcross(qv.got, qv.messages[qv.last], Ring(w), msg, Messages(list[1..], ts1));
  }

  /** A queue changed with no task involved. */
  lemma QueueReturn(v: View, q: Queue, qv: QueueV, r: Ret)
    requires Inv(v) && QueueKnown(v, q) && QueueOk(qv, v.lists[OnQueue(q)], v.t)
    ensures Settles(v, v.(queues := v.queues[q := qv]), OnQueue(q), Return(v, Out(v.(queues := v.queues[q := qv]), r)))
    ensures Settles(v, v.(queues := v.queues[q := qv]), OnQueue(q), Switch(v.(queues := v.queues[q := qv])))
  {
    hide Inv, QueueOk, Return, Switch, Settles;
    var w, o := v.(queues := v.queues[q := qv]), OnQueue(q);
    Facts(v, o);
    TouchReturn(v, w, o, v.running, r);
    TouchSwitch(v, w, o, v.running);
  }

  lemma HandOverTouches(v: View, q: Queue, msg: Word)
    requires Known(v) && QueueKnown(v, q) && |v.lists[OnQueue(q)]| > 0 && OnQueue(q) in v.objs
    requires v.t[v.lists[OnQueue(q)][0]].back == OnQueue(q)
    ensures var w, o := HandOver(v, q, msg), OnQueue(q);
      var x, qv := v.lists[o][0], v.queues[q];
      && Touches(v, w, o, x) && Known(w) && w.running == v.running && w.objs == v.objs
      && SameBut(v.t, w.t, x) && w.t[x].back == o && w.t[x].ret == Ret(OSS_SUCCESS, msg)
      && w.lists[o] == v.lists[o][1..] && q in w.queues
      && w.queues[q] == qv.(sent := qv.sent + [msg], got := qv.got + [msg])
  {
  }

  lemma HandOverObject(v: View, q: Queue, msg: Word)
    requires Known(v) && QueueKnown(v, q) && OnQueue(q) in v.objs && ObjectOk(v, OnQueue(q))
    requires ReceiverWaits(v, q)
    ensures Touches(v, HandOver(v, q, msg), OnQueue(q), v.lists[OnQueue(q)][0])
    ensures ObjectOk(HandOver(v, q, msg), OnQueue(q))
  {
    hide HandOver, Touches, ObjectOk, QueueOk, RetsOk;
    var o, list := OnQueue(q), v.lists[OnQueue(q)];
    QueueParts(v, q);
    assert list[0] in list;
    HandOverTouches(v, q, msg);
    var w := HandOver(v, q, msg);
    assert list[..0] + list[1..] == list[1..];
    ListServe(list, v.t, w.t, o, v.running, 0);
    QueueHandOver(v.queues[q], list, v.t, w.t, msg);
    hide ListOk;
    QueueParts(w, q);
  }

  /** Both ways of sending without waiting: from a task and from an interrupt. */
  lemma EnqueueNow(v: View, q: Queue, msg: Word, now: nat)
    requires Inv(v) && QueueKnown(v, q)
    ensures Settles(v, SendMid(v, q, msg, now), OnQueue(q), Return(v, EnqueueIsr(v, q, msg, now)))
    ensures Settles(v, SendMid(v, q, msg, now), OnQueue(q), Switch(EnqueueIsr(v, q, msg, now).v))
  {
    hide Inv, Return, Switch, DispatchOrQueue, HandOver, Touches, ObjectOk, QueueOk, Settles;
    var o, qv, list := OnQueue(q), v.queues[q], v.lists[OnQueue(q)];
    Facts(v, o);
    QueueParts(v, q);
    if ReceiverWaits(v, q) {
      HandOverObject(v, q, msg);
      assert list[0] in list;
      ServeReturn(v, HandOver(v, q, msg), o, list[0], now, Status0(OSS_SUCCESS));
    } else if qv.number == qv.size {
      assert v.queues[q := qv] == v.queues;
      QueueReturn(v, q, qv, Status0(OSS_ERROR_MEM));
    } else {
      QueuePut(qv, list, v.t, msg);
      QueueReturn(v, q, Put(qv, msg).(status := Fine, sent := qv.sent + [msg]), Status0(OSS_SUCCESS));
    }
  }

  lemma EnqueueParks(v: View, q: Queue, msg: Word, to: nat, now: nat)
    requires Inv(v) && QueueKnown(v, q) && CanWait(v, to, now)
    requires v.queues[q].number == v.queues[q].size
    ensures Known(OfferBlocked(v, q, msg))
    ensures Yields(v, ParkedState(OfferBlocked(v, q, msg), OnQueue(q), Send, to, now), OnQueue(q),
                   Return(v, Out(Block(OfferBlocked(v, q, msg), OnQueue(q), Send, to, now), Status0(OSS_ERROR_TO))))
  {
    hide Inv, Block, Return, ObjectOk, QueueOk, RetsOk, ListOk;
    var o := OnQueue(q);
    Facts(v, o);
    var w := OfferBlocked(v, q, msg);
    QueueParts(v, q);
    assert Prepares(v, w, o);
    PreparedList(v, w, o, Send, to, now);
    var b := ParkedState(w, o, Send, to, now);
    assert b.lists[o] == v.lists[o] + [v.running];
    QueueParkSend(v.queues[q], v.lists[o], v.t, b.t, v.running, msg);
    hide Prepares;
    QueueParts(b, q);
    BlockReturn(v, w, o, Send, to, now);
  }

  lemma EnqueueInv(v: View, q: Queue, msg: Word, to: nat, now: nat)
    requires Inv(v) && QueueKnown(v, q) && CanBlock(v, to, now)
    ensures Settles(v, EnqueueMid(v, q, msg, to, now), OnQueue(q), Return(v, Enqueue(v, q, msg, to, now)))
  {
    hide Inv, Return, Block, EnqueueIsr, SendMid, Settles, Good, ParkedState;
    if ReceiverWaits(v, q) || v.queues[q].number < v.queues[q].size || to == 0 {
      EnqueueNow(v, q, msg, now);
    } else {
      EnqueueParks(v, q, msg, to, now);
    }
  }

  lemma AdmitTouches(v: View, q: Queue)
    requires Known(v) && QueueKnown(v, q) && |v.lists[OnQueue(q)]| > 0 && OnQueue(q) in v.objs
    requires v.t[v.lists[OnQueue(q)][0]].back == OnQueue(q) && v.queues[q].number > 0
    ensures QueueKnown(Taken(v, q), q)
    ensures var w, o := Admit(Taken(v, q), q), OnQueue(q);
      var x, qv := v.lists[o][0], v.queues[q];
      && Touches(v, w, o, x) && Known(w) && w.running == v.running && w.objs == v.objs
      && SameBut(v.t, w.t, x) && w.t[x].back == o && w.t[x].ret == Ret(OSS_SUCCESS, 0)
      && w.lists[o] == v.lists[o][1..] && q in w.queues
      && w.queues[q] == Put(Take(qv).(got := qv.got + [qv.messages[qv.last]]), v.t[x].c)
  {
  }

  lemma AdmitObject(v: View, q: Queue)
    requires Known(v) && QueueKnown(v, q) && OnQueue(q) in v.objs && ObjectOk(v, OnQueue(q))
    requires SenderWaits(v, q) && v.queues[q].number > 0
    ensures QueueKnown(Taken(v, q), q)
    ensures Touches(v, Admit(Taken(v, q), q), OnQueue(q), v.lists[OnQueue(q)][0])
    ensures ObjectOk(Admit(Taken(v, q), q), OnQueue(q))
  {
    hide Admit, Touches, ObjectOk, QueueOk, RetsOk, Taken;
    var o, list := OnQueue(q), v.lists[OnQueue(q)];
    QueueParts(v, q);
    assert list[0] in list;
    AdmitTouches(v, q);
    var w := Admit(Taken(v, q), q);
    assert list[..0] + list[1..] == list[1..];
    ListServe(list, v.t, w.t, o, v.running, 0);
    QueueTakeAdmit(v.queues[q], list, v.t, w.t);
    hide ListOk;
    QueueParts(w, q);
  }

  lemma DequeueNow(v: View, q: Queue, to: nat, now: nat)
    requires Inv(v) && QueueKnown(v, q) && v.queues[q].number > 0
    ensures Settles(v, DequeueMid(v, q, to, now), OnQueue(q), Return(v, Dequeue(v, q, to, now)))
  {
    hide Inv, Return, DispatchOrQueue, Admit, Touches, ObjectOk, QueueOk, Settles;
    var o, qv, list := OnQueue(q), v.queues[q], v.lists[OnQueue(q)];
    Facts(v, o);
    QueueParts(v, q);
    var r := Ret(OSS_SUCCESS, qv.messages[qv.last]);
    if SenderWaits(v, q) {
      AdmitObject(v, q);
      assert list[0] in list;
      ServeReturn(v, Admit(Taken(v, q), q), o, list[0], now, r);
    } else {
      QueueTake(qv, list, v.t);
      QueueReturn(v, q, Take(qv).(got := qv.got + [qv.messages[qv.last]]), r);
    }
  }

  lemma DequeueParks(v: View, q: Queue, to: nat, now: nat)
    requires Inv(v) && QueueKnown(v, q) && CanWait(v, to, now) && v.queues[q].number == 0
    ensures Known(Awaiting(v, q))
    ensures Yields(v, ParkedState(Awaiting(v, q), OnQueue(q), Receive, to, now), OnQueue(q),
                   Return(v, Dequeue(v, q, to, now)))
  {
    hide Inv, Block, Return, ObjectOk, QueueOk, RetsOk, ListOk;
    var o := OnQueue(q);
    Facts(v, o);
    QueueParts(v, q);
    var w := Awaiting(v, q);
    assert Prepares(v, w, o);
    PreparedList(v, w, o, Receive, to, now);
    var b := ParkedState(w, o, Receive, to, now);
    assert b.lists[o] == v.lists[o] + [v.running];
    QueueParkReceive(v.queues[q], v.lists[o], v.t, b.t, v.running);
    hide Prepares;
    QueueParts(b, q);
    BlockReturn(v, w, o, Receive, to, now);
  }

  lemma DequeueInv(v: View, q: Queue, to: nat, now: nat)
    requires Inv(v) && QueueKnown(v, q) && CanBlock(v, to, now)
    ensures Settles(v, DequeueMid(v, q, to, now), OnQueue(q), Return(v, Dequeue(v, q, to, now)))
  {
    hide Inv, Return, Block, DispatchOrQueue, Admit, Settles, Good, ParkedState;
    var qv := v.queues[q];
    if qv.number > 0 {
      DequeueNow(v, q, to, now);
    } else if to == 0 {
      Facts(v, OnQueue(q));
      hide ObjectOk;
      TouchReturn(v, v, OnQueue(q), v.running, Status0(OSS_ERROR_MEM));
    } else {
      DequeueParks(v, q, to, now);
    }
  }
}
