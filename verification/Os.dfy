/** The scheduler of os.c, in place on the heap. */
module Os {
  import opened Types
  import opened Sequences
  import opened Spec
  import opened Invariants
  import opened Heap
  import RunQueue
  import WaitQueue

  // ------------------------------------------------------------ status changes

  /** What a change of status needs of the queues. */
  ghost predicate CanSet(v: View, x: Task, st: Status) {
    && x in v.t && RunqueueOk(v.rq, v.t) && WaitqueueOk(v.wq, v.t)
    && (st.Wait? ==> !v.t[x].status.Wait?)
    && (st.Idle? ==> !Runnable(v.t[x].status))
  }

  lemma StillApart(a: seq<Task>, b: seq<Task>, x: Task)
    requires Apart(a, b)
    ensures Apart(Without(a, x), b)
  {
  }

  /** Unlink a task from one queue: the other one is as it was. */
  method Unlink(head: Task?, x: Task, ghost other: Task?, ghost s: seq<Task>, ghost rest: seq<Task>,
                ghost tasks: set<Task>)
    returns (h: Task?)
    requires Among(s, tasks) && Queued(head, s) && Distinct(s) && Queued(other, rest) && Apart(s, rest)
    requires forall y {:trigger y.nrp} :: y in tasks && y !in s && y !in rest ==> y.nrp == null
    modifies tasks`nrp
    ensures Queued(h, Without(s, x)) && Queued(other, rest)
    ensures forall y {:trigger y.nrp} :: y in tasks && y !in Without(s, x) && y !in rest ==> y.nrp == null
  {
    hide Without;
    WithoutMembers(s, x);
    h := RunQueue.Remove(head, x, s);
    hide Distinct;
  }

  /** What is left of two queues when a task has gone from the first. */
  lemma UnlinkHolds(s: seq<Task>, rest: seq<Task>, x: Task, tasks: set<Task>)
    requires Among(s, tasks) && Among(rest, tasks) && Distinct(s) && Apart(s, rest)
    ensures Among(Without(s, x), tasks) && Distinct(Without(s, x))
    ensures Apart(Without(s, x), rest) && Apart(rest, Without(s, x)) && Apart(rest, s)
  {
    WithoutMembers(s, x);
    WithoutAmong(s, x, tasks);
    StillApart(s, rest, x);
    ApartBack(s, rest);
    ApartBack(Without(s, x), rest);
    hide Without, Distinct;
  }

  /** Take a task off the runqueue. */
  method TakeOffRunqueue(k: Globals, x: Task, ghost rq: seq<Task>, ghost wq: seq<Task>, ghost tasks: set<Task>)
    requires Among(rq, tasks) && Among(wq, tasks) && QueuesHold(k.runqueue, k.waitqueue, rq, wq, tasks)
    modifies k`runqueue, tasks`nrp
    ensures Among(Without(rq, x), tasks) && QueuesHold(k.runqueue, k.waitqueue, Without(rq, x), wq, tasks)
  {
    hide Without, Distinct, Apart;
    UnlinkHolds(rq, wq, x, tasks);
    k.runqueue := Unlink(k.runqueue, x, k.waitqueue, rq, wq, tasks);
    hide Queued;
  }

  method TakeOffWaitqueue(k: Globals, x: Task, ghost rq: seq<Task>, ghost wq: seq<Task>, ghost tasks: set<Task>)
    requires Among(rq, tasks) && Among(wq, tasks) && QueuesHold(k.runqueue, k.waitqueue, rq, wq, tasks)
    modifies k`waitqueue, tasks`nrp
    ensures Among(Without(wq, x), tasks) && QueuesHold(k.runqueue, k.waitqueue, rq, Without(wq, x), tasks)
  {
    hide Without, Distinct, Apart, Queued;
    ApartBack(rq, wq);
    UnlinkHolds(wq, rq, x, tasks);
    k.waitqueue := Unlink(k.waitqueue, x, k.runqueue, wq, rq, tasks);
  }

  lemma ApartBack(a: seq<Task>, b: seq<Task>)
    ensures Apart(a, b) <==> Apart(b, a)
  {
  }

  lemma InsertHolds(a: seq<Task>, b: seq<Task>, p: nat, x: Task)
    requires p <= |a| && Distinct(a) && Apart(a, b) && x !in a && x !in b
    ensures Distinct(InsertAt(a, p, x)) && Apart(InsertAt(a, p, x), b) && Apart(b, InsertAt(a, p, x))
    ensures forall y :: y in InsertAt(a, p, x) <==> y in a || y == x
  {
    InsertMembers(a, p, x);
  }

  lemma RunqueueHolds(rq: seq<Task>, wq: seq<Task>, ts: map<Task, TaskV>, x: Task)
    requires Among(rq, ts.Keys) && Distinct(rq) && Apart(rq, wq) && x in ts && x !in rq && x !in wq
    ensures var w := RunqueueAdd(rq, ts, x);
      && Among(w, ts.Keys) && Distinct(w) && Apart(w, wq)
      && forall y :: y in w <==> y in rq || y == x
  {
    AddAmong(rq, ts, x);
    InsertHolds(rq, wq, PriorityPos(rq, ts, ts[x].priority), x);
    hide InsertAt;
  }

  /** Put a task that is on neither queue on the runqueue. */
  method PutOnRunqueue(k: Globals, x: Task, ghost rq: seq<Task>, ghost wq: seq<Task>, ghost ts: map<Task, TaskV>)
    requires Among(rq, ts.Keys) && Among(wq, ts.Keys) && QueuesHold(k.runqueue, k.waitqueue, rq, wq, ts.Keys)
    requires x in ts && x !in rq && x !in wq && ByPriority(rq, ts)
    requires RunQueue.PrioritiesOf(rq, ts) && x.priority == ts[x].priority
    requires !x.status.Wait? && !x.status.Finished?
    modifies k`runqueue, ts.Keys`nrp
    ensures Among(RunqueueAdd(rq, ts, x), ts.Keys)
    ensures QueuesHold(k.runqueue, k.waitqueue, RunqueueAdd(rq, ts, x), wq, ts.Keys)
  {
    hide RunqueueAdd, Distinct, ByPriority, RunQueue.PrioritiesOf;
    RunqueueHolds(rq, wq, ts, x);
    k.runqueue := RunQueue.Add(k.runqueue, x, rq, ts);
    hide Apart;
  }

  lemma WaitqueueHolds(rq: seq<Task>, wq: seq<Task>, ts: map<Task, TaskV>, x: Task)
    requires Among(wq, ts.Keys) && Distinct(wq) && Apart(rq, wq) && x in ts && x !in rq && x !in wq
    ensures var w := WaitqueueAdd(wq, ts, x);
      && Among(w, ts.Keys) && Distinct(w) && Apart(rq, w)
      && forall y :: y in w <==> y in wq || y == x
  {
    AddAmong(wq, ts, x);
    ApartBack(rq, wq);
    InsertHolds(wq, rq, DeadlinePos(wq, ts, ts[x].delay), x);
    hide InsertAt;
  }

  /** Put a task that is on neither queue on the waitqueue. */
  method PutOnWaitqueue(k: Globals, x: Task, ghost rq: seq<Task>, ghost wq: seq<Task>, ghost ts: map<Task, TaskV>)
    requires Among(rq, ts.Keys) && Among(wq, ts.Keys) && QueuesHold(k.runqueue, k.waitqueue, rq, wq, ts.Keys)
    requires x in ts && x !in rq && x !in wq
    requires WaitQueue.DelaysOf(wq, ts) && x.delay == ts[x].delay
    modifies k`waitqueue, ts.Keys`nrp
    ensures Among(WaitqueueAdd(wq, ts, x), ts.Keys)
    ensures QueuesHold(k.runqueue, k.waitqueue, rq, WaitqueueAdd(wq, ts, x), ts.Keys)
  {
    hide WaitqueueAdd, Distinct, WaitQueue.DelaysOf;
    WaitqueueHolds(rq, wq, ts, x);
    k.waitqueue := WaitQueue.Add(k.waitqueue, x, wq, ts);
    hide Apart;
  }

  lemma SamePriorities(s: seq<Task>, ts0: map<Task, TaskV>, ts1: map<Task, TaskV>, x: Task)
    requires Among(s, ts0.Keys) && SameBut(ts0, ts1, x) && x in ts0 && ts1[x].priority == ts0[x].priority
    ensures ByPriority(s, ts0) ==> ByPriority(s, ts1)
  {
  }

  lemma FieldsOf(s: seq<Task>, ts: map<Task, TaskV>)
    requires Among(s, ts.Keys) && TasksHold(ts)
    ensures RunQueue.PrioritiesOf(s, ts) && WaitQueue.DelaysOf(s, ts)
  {
  }

  lemma SetFacts(v: View, x: Task, st: Status, ts: map<Task, TaskV>)
    requires Known(v) && CanSet(v, x, st) && ts == v.t[x := v.t[x].(status := st)]
    ensures x !in Without(v.rq, x) && x !in Without(v.wq, x)
    ensures st.Wait? ==> x !in v.wq
    ensures st.Idle? ==> x !in v.rq && (!v.t[x].status.Wait? ==> x !in v.wq)
    ensures Among(Without(v.wq, x), v.tasks) && Among(Without(v.rq, x), v.tasks)
    ensures ts.Keys == v.t.Keys == v.tasks && ByPriority(v.rq, ts)
  {
    WithoutMembers(v.rq, x);
    WithoutMembers(v.wq, x);
    WithoutAmong(v.rq, x, v.tasks);
    WithoutAmong(v.wq, x, v.tasks);
    SamePriorities(v.rq, v.t, ts, x);
  }

  lemma StatusHeld(x: Task, ts: map<Task, TaskV>)
    requires x in ts && TasksHold(ts)
    ensures x.status == ts[x].status && x.priority == ts[x].priority && x.delay == ts[x].delay
  {
    assert Holds(x, ts[x]);
  }

  method SetStatus(x: Task, st: Status, ghost ts: map<Task, TaskV>)
    requires x in ts && TasksHold(ts)
    modifies x`status
    ensures TasksHold(ts[x := ts[x].(status := st)]) && x.status == st
  {
    assert Holds(x, ts[x]);
    x.status := st;
  }

  /** From the runqueue, if there, to the waitqueue. */
  method MoveToWait(k: Globals, x: Task, ghost rq: seq<Task>, ghost wq: seq<Task>, ghost ts: map<Task, TaskV>)
    requires Among(rq, ts.Keys) && Among(wq, ts.Keys) && QueuesHold(k.runqueue, k.waitqueue, rq, wq, ts.Keys)
    requires x in ts && TasksHold(ts) && x !in Without(rq, x) && x !in wq
    modifies k`runqueue, k`waitqueue, ts.Keys`nrp
    ensures Among(Without(rq, x), ts.Keys) && Among(WaitqueueAdd(wq, ts, x), ts.Keys)
    ensures QueuesHold(k.runqueue, k.waitqueue, Without(rq, x), WaitqueueAdd(wq, ts, x), ts.Keys)
  {
    hide Without, WaitqueueAdd, QueuesHold, TasksHold, Among, WaitQueue.DelaysOf;
    TakeOffRunqueue(k, x, rq, wq, ts.Keys);
    FieldsOf(wq, ts);
    StatusHeld(x, ts);
    PutOnWaitqueue(k, x, Without(rq, x), wq, ts);
  }

  /** From the waitqueue to the runqueue. */
  method MoveToRun(k: Globals, x: Task, ghost rq: seq<Task>, ghost wq: seq<Task>, ghost ts: map<Task, TaskV>)
    requires Among(rq, ts.Keys) && Among(wq, ts.Keys) && QueuesHold(k.runqueue, k.waitqueue, rq, wq, ts.Keys)
    requires x in ts && TasksHold(ts) && x !in rq && x !in Without(wq, x) && ByPriority(rq, ts)
    requires Runnable(ts[x].status)
    modifies k`runqueue, k`waitqueue, ts.Keys`nrp
    ensures Among(Without(wq, x), ts.Keys) && Among(RunqueueAdd(rq, ts, x), ts.Keys)
    ensures QueuesHold(k.runqueue, k.waitqueue, RunqueueAdd(rq, ts, x), Without(wq, x), ts.Keys)
  {
    hide Without, RunqueueAdd, QueuesHold, TasksHold, Among, ByPriority, RunQueue.PrioritiesOf;
    TakeOffWaitqueue(k, x, rq, wq, ts.Keys);
    FieldsOf(rq, ts);
    StatusHeld(x, ts);
    PutOnRunqueue(k, x, rq, Without(wq, x), ts);
  }

  /** Off both queues. */
  method TakeOffBoth(k: Globals, x: Task, ghost rq: seq<Task>, ghost wq: seq<Task>, ghost tasks: set<Task>)
    requires Among(rq, tasks) && Among(wq, tasks) && QueuesHold(k.runqueue, k.waitqueue, rq, wq, tasks)
    modifies k`runqueue, k`waitqueue, tasks`nrp
    ensures Among(Without(wq, x), tasks) && Among(Without(rq, x), tasks)
    ensures QueuesHold(k.runqueue, k.waitqueue, Without(rq, x), Without(wq, x), tasks)
  {
    hide Without, QueuesHold, Among;
    TakeOffWaitqueue(k, x, rq, wq, tasks);
    TakeOffRunqueue(k, x, rq, Without(wq, x), tasks);
  }

  lemma SetResult(v: View, x: Task, st: Status)
    requires Known(v) && x in v.t
    ensures var w := StatusSet(v, x, st);
      && w.t == v.t[x := v.t[x].(status := st)] && Known(w)
      && (st.Wait? ==> w.rq == Without(v.rq, x) && w.wq == WaitqueueAdd(v.wq, w.t, x))
      && (Ended(st) ==> w.rq == Without(v.rq, x) && w.wq == v.wq)
      && (st.Suspended? ==> w.rq == Without(v.rq, x) && w.wq == Without(v.wq, x))
      && (st.Idle? ==> w.rq == RunqueueAdd(v.rq, w.t, x))
      && (st.Idle? ==> w.wq == if v.t[x].status.Wait? then Without(v.wq, x) else v.wq)
      && (st.Active? ==> w.rq == v.rq && w.wq == v.wq)
  {
    StatusSetKnown(v, x, st);
  }

  /** osi_task_status_set, as far as status and queues go. */
  method Requeue(k: Globals, x: Task, st: Status, ghost v: View)
    requires Known(v) && x in v.t && CanSet(v, x, st)
    requires QueuesHold(k.runqueue, k.waitqueue, v.rq, v.wq, v.tasks) && TasksHold(v.t)
    modifies k`runqueue, k`waitqueue, v.tasks`nrp, x`status
    ensures Known(StatusSet(v, x, st)) && TasksHold(StatusSet(v, x, st).t)
    ensures QueuesHold(k.runqueue, k.waitqueue, StatusSet(v, x, st).rq, StatusSet(v, x, st).wq, v.tasks)
  {
    hide Distinct, Without, RunqueueAdd, WaitqueueAdd, QueuesHold, CanSet, TasksHold, Among, ByPriority, Known,
      StatusSet, RunQueue.PrioritiesOf, WaitQueue.DelaysOf;
    KnownTasks(v);
    ghost var ts := v.t[x := v.t[x].(status := st)];
    SetFacts(v, x, st, ts);
    SetResult(v, x, st);
    StatusHeld(x, v.t);
    var was := x.status;
    SetStatus(x, st, v.t);
    if st.Wait? {
      MoveToWait(k, x, v.rq, v.wq, ts);
    } else if Ended(st) {
      TakeOffRunqueue(k, x, v.rq, v.wq, ts.Keys);
    } else if st.Suspended? {
      TakeOffBoth(k, x, v.rq, v.wq, ts.Keys);
    } else if st.Idle? {
      if was.Wait? {
        MoveToRun(k, x, v.rq, v.wq, ts);
      } else {
        FieldsOf(v.rq, ts);
        StatusHeld(x, ts);
        PutOnRunqueue(k, x, v.rq, v.wq, ts);
      }
    }
  }

  /** Lists do not depend on anything but back pointers. */
  lemma ListsKeep(lists: map<Obj, seq<Task>>, ts0: map<Task, TaskV>, ts1: map<Task, TaskV>, cells: set<Blocked>)
    requires OwnCells(lists.Keys, cells) && ListsHold(lists, ts0, cells) && ts1.Keys == ts0.Keys
    requires forall x :: x in ts0 ==> ts1[x].back == ts0[x].back
    ensures ListsHold(lists, ts1, cells)
  {
    hide Distinct, Chained;
    forall o | o in lists
      ensures ListHolds(o, lists[o], ts1)
    {
      assert ListHolds(o, lists[o], ts0);
    }
  }

  lemma KnownTasks(v: View)
    requires Known(v)
    ensures Among(v.rq, v.t.Keys) && Among(v.wq, v.t.Keys) && v.t.Keys == v.tasks && v.lists.Keys == v.objs
    ensures v.running in v.t && v.idle in v.t
  {
  }

  /** What a change of status leaves alone. */
  lemma StatusSetSame(v: View, x: Task, st: Status)
    requires Known(v) && x in v.t
    ensures var w := StatusSet(v, x, st);
      && w.t == v.t[x := v.t[x].(status := st)]
      && w.tasks == v.tasks && w.objs == v.objs && w.lists == v.lists
      && w.mutexes == v.mutexes && w.queues == v.queues && w.rwlocks == v.rwlocks
      && w.running == v.running && w.scheduled == v.scheduled && w.idle == v.idle
      && forall y :: y in v.t ==> w.t[y].back == v.t[y].back
  {
  }

  /** osi_task_status_set. No caller sets ACTIVE; osi_dispatch does that itself. */
  method TaskStatusSet(k: Globals, x: Task, st: Status, ghost v: View)
    requires Core(k, v) && x in v.t && CanSet(v, x, st) && !st.Active?
    modifies k`runqueue, k`waitqueue, v.tasks`nrp, x`status
    ensures Core(k, StatusSet(v, x, st))
  {
    hide RunqueueAdd, WaitqueueAdd, CanSet, Among, QueuesHold, ListsHold, TasksHold, OwnCells, StatusSet, Known;
    KnownTasks(v);
    StatusSetSame(v, x, st);
    Requeue(k, x, st, v);
    ListsKeep(v.lists, v.t, StatusSet(v, x, st).t, k.cells);
  }
}
