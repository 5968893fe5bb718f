/** What the calls on mutexes, queues and reader/writer locks have in common. */
module Calls {
  import opened Types
  import opened Sequences
  import opened Spec
  import opened Invariants
  import opened Heap
  import opened Scheduling
  import opened Steps
  import opened Frames
  import opened TaskSteps
  import opened Os
  import opened Dispatching
  import opened Scheduler
  import opened Service

  // ------------------------------------------------- what the scheduler leaves alone

  /** The objects of `w` are those of `v`, but for the history of the messages. */
  ghost predicate SameObjects(v: View, w: View) {
    && w.tasks == v.tasks && w.mutexes == v.mutexes && w.rwlocks == v.rwlocks && w.queues.Keys == v.queues.Keys
    && forall q :: q in v.queues ==> w.queues[q] == v.queues[q].(sent := w.queues[q].sent, got := w.queues[q].got)
  }

  lemma SameThrough(u: View, v: View, w: View)
    requires SameObjects(u, v) && SameObjects(v, w)
    ensures SameObjects(u, w)
  {
  }

  lemma DispatchSame(v: View, x: Task)
    requires Known(v) && x in v.t
    ensures SameObjects(v, Dispatch(v, x))
  {
    if v.running != x {
      UnblockKnown(v, x);
      RetireKnown(Unblock(v, x));
    }
  }

  lemma ScheduleSame(v: View, now: nat)
    requires Known(v)
    ensures SameObjects(v, Schedule(v, now))
  {
    if !v.t[v.running].status.Idle? && v.scheduled == null {
      WakeKnown(v, now);
      var v1 := Wake(v, now);
      assert SameObjects(v, v1);
      if |v1.rq| > 0 && Pick(v1) != v1.running {
        assert Pick(v1) in v1.t;
        DispatchSame(v1, Pick(v1));
        hide Dispatch, Wake, Pick;
        SameThrough(v, v1, Dispatch(v1, Pick(v1)));
      }
    }
  }

  lemma DispatchOrQueueSame(v: View, x: Task, now: nat)
    requires Known(v) && x in v.t
    ensures SameObjects(v, DispatchOrQueue(v, x, now))
  {
    if HasHigher(v, x) {
      StatusSetKnown(v, x, Idle);
      var v1 := if Runnable(v.t[x].status) then v else StatusSet(v, x, Idle);
      assert SameObjects(v, v1);
      hide StatusSet, Schedule;
      ScheduleSame(v1, now);
      if v1.scheduled == null { SameThrough(v, v1, Schedule(v1, now)); }
    } else {
      DispatchSame(v, x);
    }
  }

  lemma BlockSame(v: View, o: Obj, call: Call, ms: nat, now: nat)
    requires Known(v) && o in v.objs && v.scheduled == null
    ensures SameObjects(v, Block(v, o, call, ms, now))
  {
    BlockIsSchedule(v, o, call, ms, now);
    var b := ParkedState(v, o, call, ms, now);
    assert SameObjects(v, b);
    hide ParkedState, Block, Schedule;
    ScheduleSame(b, now);
    SameThrough(v, b, Schedule(b, now));
  }

  lemma ObjectsSame(k: Globals, v: View, w: View)
    requires ObjectsHold(k, v) && SameObjects(v, w)
    ensures ObjectsHold(k, w)
  {
    forall q | q in w.queues
      ensures QueueHolds(q, w.queues[q])
    {
      assert QueueHolds(q, v.queues[q]);
    }
  }

  /** The scheduler's part of the heap does not hold the objects. */
  lemma CoreSame(k: Globals, v: View, w: View)
    requires Core(k, v) && w == v.(mutexes := w.mutexes, queues := w.queues, rwlocks := w.rwlocks)
    ensures Core(k, w)
  {
    hide QueuesHold, TasksHold, ListsHold, OwnCells;
  }

  // ------------------------------------------------------------- blocked lists

  /** A task with no back pointer is on no list, and its link is null. */
  lemma NotLinked(lists: map<Obj, seq<Task>>, ts: map<Task, TaskV>, o: Obj, x: Task, cells: set<Blocked>)
    requires OwnCells(lists.Keys, cells) && ListsHold(lists, ts, cells) && o in lists && x in ts && ts[x].back == NoObj
    ensures x.nblocked == null && x !in lists[o] && ListHolds(o, lists[o], ts) && CellOf(o) in cells
  {
    assert ListHolds(o, lists[o], ts);
    assert x.nblocked == null;
  }

  lemma CellKnown(o: Obj, objs: set<Obj>, cells: set<Blocked>)
    requires OwnCells(objs, cells) && o in objs
    ensures o != NoObj && CellOf(o) in cells
  {
  }

  lemma PopKnown(v: View, o: Obj)
    requires Known(v) && o in v.lists && v.lists[o] != []
    ensures Known(PopBlocked(v, o)) && PopBlocked(v, o).lists.Keys == v.lists.Keys
  {
  }

  lemma AppendFits(o: Obj, s: seq<Task>, ts0: map<Task, TaskV>, ts1: map<Task, TaskV>, x: Task)
    requires ListFits(o, s, ts0) && x in ts0 && x !in s && SameBut(ts0, ts1, x) && ts1[x].back == o
    ensures ListFits(o, s + [x], ts1)
  {
    AppendMembers(s, x);
  }

  lemma OtherFits(p: Obj, s: seq<Task>, ts0: map<Task, TaskV>, ts1: map<Task, TaskV>, x: Task)
    requires ListFits(p, s, ts0) && x in ts0 && SameBut(ts0, ts1, x) && ts0[x].back == NoObj && p != NoObj
    ensures ListFits(p, s, ts1)
  {
  }

  /** blocked_append, seen from all the lists: `task` joins that of `o`, at the end. */
  method AppendTo(blocked: Blocked, task: Task, ghost o: Obj, ghost lists: map<Obj, seq<Task>>,
                  ghost ts0: map<Task, TaskV>, ghost ts1: map<Task, TaskV>, ghost cells: set<Blocked>)
    requires OwnCells(lists.Keys, cells) && ListsHold(lists, ts0, cells)
    requires o in lists && o != NoObj && blocked == CellOf(o) && task in ts0 && ts0[task].back == NoObj
    requires SameBut(ts0, ts1, task) && ts1[task].back == o
    modifies blocked, ts0.Keys`nblocked
    ensures lists[o := lists[o] + [task]].Keys == lists.Keys
    ensures ListsHold(lists[o := lists[o] + [task]], ts1, cells)
  {
    hide Distinct, Chained, ListFits, Among;
    ghost var s := lists[o];
    NotLinked(lists, ts0, o, task, cells);
    FitsAmong(o, s, ts0);
    AppendFits(o, s, ts0, ts1, task);
    forall p | p in lists && p != o
      ensures CellOf(p) != blocked && Apart(lists[p], s)
      ensures ListFits(p, lists[p], ts1) && Chained(CellOf(p).tasks, lists[p])
    {
      assert ListHolds(p, lists[p], ts0);
      ListsApart(lists, ts0, o, p);
      OtherFits(p, lists[p], ts0, ts1, task);
    }
    InFits(o, s, ts0);
    BlockedList.Append(blocked, task, s);
    forall p | p in lists && p != o
      ensures ListHolds(p, lists[p], ts1)
    {
    }
    assert ListHolds(o, s + [task], ts1);
    forall x | x in ts1 && !(ts1[x].back in lists && x in (if ts1[x].back == o then s + [task] else lists[ts1[x].back]))
      ensures x.nblocked == null
    {
      assert x != task && x !in s;
    }
  }

  lemma InFits(o: Obj, s: seq<Task>, ts: map<Task, TaskV>)
    requires ListFits(o, s, ts)
    ensures forall x :: x in s ==> x in ts && ts[x].back == o
  {
  }

  /** Unlink the task found at position `i`, behind `previous`, from the list of `o`. */
  method UnhookFrom(blocked: Blocked, previous: Task?, task: Task, ghost i: nat, ghost o: Obj,
                    ghost lists: map<Obj, seq<Task>>, ghost ts: map<Task, TaskV>, ghost cells: set<Blocked>)
    requires OwnCells(lists.Keys, cells) && ListsHold(lists, ts, cells)
    requires o in lists && o != NoObj && blocked == CellOf(o)
    requires i < |lists[o]| && task == lists[o][i] && previous == At(lists[o], i - 1)
    modifies blocked, ts.Keys`nblocked
    ensures task.nblocked == null && ListsHold(lists[o := Without(lists[o], task)], ts, cells)
  {
    hide Distinct, Chained, Without, ListFits;
    ghost var s := lists[o];
    assert ListHolds(o, s, ts);
    WithoutFits(o, s, task, ts);
    assert Among(s, ts.Keys) && Distinct(s) by { FitsAmong(o, s, ts); }
    forall p | p in lists && p != o
      ensures CellOf(p) != blocked && Apart(lists[p], s)
      ensures ListFits(p, lists[p], ts) && Chained(CellOf(p).tasks, lists[p])
    {
      assert ListHolds(p, lists[p], ts);
      ListsApart(lists, ts, o, p);
    }
    InFits(o, s, ts);
    BlockedList.Unhook(blocked, previous, task, s, i);
    forall p | p in lists && p != o
      ensures ListHolds(p, lists[p], ts)
    {
    }
    assert ListHolds(o, Without(s, task), ts);
    forall x | x in ts && !(ts[x].back in lists
                            && x in (if ts[x].back == o then Without(s, task) else lists[ts[x].back]))
      ensures x.nblocked == null
    {
      assert x in s ==> x == task;
    }
  }

  lemma RetHeld(k: Globals, v: View, x: Task)
    requires Core(k, v) && x in v.t
    ensures x.ret == v.t[x].ret && x.c == v.t[x].c
  {
    assert Holds(x, v.t[x]);
  }

  /** A list is empty exactly when its head is null. */
  lemma HeadHeld(k: Globals, v: View, o: Obj)
    requires Core(k, v) && o in v.lists && o != NoObj
    ensures CellOf(o).tasks == null <==> v.lists[o] == []
  {
    assert ListHolds(o, v.lists[o], v.t);
  }

  lemma WaitersHere(v: View, o: Obj, x: Task)
    requires Known(v) && o in v.objs && ObjectOk(v, o) && x in v.lists[o]
    ensures x in v.t && v.t[x].back == o
  {
  }

  lemma ReadyMid(v: View)
    requires Ready(v)
    ensures Mid(v) && Known(v)
  {
  }

  lemma TouchTasks(v: View, w: View, o: Obj, x: Task)
    requires Touches(v, w, o, x)
    ensures w.tasks == v.tasks
  {
  }

  lemma GranteeIs(v: View, x: Task)
    requires Grantee(v, x)
    ensures x in v.t && x != v.idle && (v.t[x].status.Wait? || v.t[x].status.Idle?)
  {
  }

  // ------------------------------------------------------------------ parking

  /** A caller whose object is fine with it listed may park. */
  lemma ParkReady(v: View, w: View, o: Obj, call: Call, ms: nat, now: nat)
    requires Inv(v) && Prepares(v, w, o) && CallFits(o, call) && CanWait(v, ms, now)
    requires ObjectOk(ParkedState(w, o, call, ms, now), o)
    ensures o in w.lists && MayPark(Enlist(w, o, call), ms, now)
  {
    InvHanded(v);
    assert TaskOk(v.t[v.running]) by { assert SchedOk(v.rq, v.wq, v.t, v.idle); }
    PreparedParked(v, w, o, call, ms, now);
    ParkedReady(v, ParkedState(w, o, call, ms, now), o, ms, now);
    EnlistIsParked(w, o, call, ms, now);
    EnlistQueues(v, w, o, call);
    hide Inv, Prepares, ObjectOk, Ready, ParkedState, Parked, RunqueueOk, WaitqueueOk, Asleep, Enlist;
  }

  lemma ParkedKnown(w: View, o: Obj, call: Call, ms: nat, now: nat)
    requires Known(w) && o in w.objs
    ensures o in ParkedState(w, o, call, ms, now).lists
  {
  }

  lemma PrepareKnown(v: View, w: View, o: Obj)
    requires Inv(v) && Prepares(v, w, o)
    ensures Known(w) && o in w.objs && w.scheduled == null
  {
  }

  /** What a call that parks needs: it may, and it leaves the objects alone from there. */
  lemma ParkFacts(v: View, w: View, o: Obj, call: Call, ms: nat, now: nat, z: View)
    requires Inv(v) && Prepares(v, w, o) && CallFits(o, call) && CanWait(v, ms, now)
    requires Yields(v, ParkedState(w, o, call, ms, now), o, z)
    ensures Known(w) && o in w.lists && MayPark(Enlist(w, o, call), ms, now)
    ensures SameObjects(w, Block(w, o, call, ms, now))
  {
    hide Inv, MayPark, Block, Good, Undisturbed, Answered, FramesKept, ObjectOk, ParkedState, Enlist, SameObjects,
      Prepares;
    PrepareKnown(v, w, o);
    ParkedKnown(w, o, call, ms, now);
    ParkReady(v, w, o, call, ms, now);
    BlockSame(w, o, call, ms, now);
  }

  lemma EnlistIsParked(w: View, o: Obj, call: Call, ms: nat, now: nat)
    requires Known(w) && o in w.objs && w.scheduled == null
    ensures o in w.lists && Known(Enlist(w, o, call))
    ensures Asleep(Enlist(w, o, call), ms, now) == ParkedState(w, o, call, ms, now)
  {
    var me, e, b := w.running, Enlist(w, o, call), ParkedState(w, o, call, ms, now);
    hide Raise, FlagOf, WaitqueueAdd, Without, Deadline;
    assert Asleep(e, ms, now).t == b.t;
    assert Asleep(e, ms, now) == b;
  }

  lemma EnlistQueues(v: View, w: View, o: Obj, call: Call)
    requires Inv(v) && Prepares(v, w, o) && o in w.lists
    ensures var e := Enlist(w, o, call);
      e.running == v.running && e.scheduled == null && e.idle == v.idle && Known(e)
      && RunqueueOk(e.rq, e.t) && WaitqueueOk(e.wq, e.t) && !e.t[e.running].status.Wait?
  {
    hide ObjectsOk, Raise, FlagOf;
    var e := Enlist(w, o, call);
    assert SameBut(v.t, e.t, v.running);
    KeepRunqueue(v.rq, v.t, e.t, v.running);
    KeepWaitqueue(v.wq, v.t, e.t, v.running);
  }

  // ------------------------------------------------------------------- serving

  /** A waiter that has been given the object gets the processor, or is queued for it. */
  method ServeWaiter(k: Globals, x: Task, now: nat, ghost w: View)
    requires Rep(k, w) && Mid(w) && Grantee(w, x)
    modifies k`runqueue, k`waitqueue, k`scheduled, k.cells, w.tasks
    ensures Known(w) && x in w.t && Rep(k, DispatchOrQueue(w, x, now))
  {
    hide Core, ObjectsHold, SameObjects, Known, DispatchOrQueue, Mid, Grantee;
    CoreRunning(k, w);
    GranteeIs(w, x);
    DispatchOrQueueSame(w, x, now);
    DispatchOrQueueTask(k, x, now, w);
    ObjectsSame(k, w, DispatchOrQueue(w, x, now));
  }

  // ------------------------------------------------------------------ the word

  method SetWord(task: Task, c: Word, ghost ts: map<Task, TaskV>)
    requires TasksHold(ts) && task in ts
    modifies task`c
    ensures TasksHold(ts[task := ts[task].(c := c)])
  {
    assert Holds(task, ts[task]);
    task.c := c;
  }

  lemma WordedSame(v: View, x: Task, c: Word)
    requires Known(v) && x in v.t
    ensures Known(Worded(v, x, c)) && forall y :: y in v.t ==> Worded(v, x, c).t[y].back == v.t[y].back
  {
  }

  method SetWordIn(k: Globals, task: Task, c: Word, ghost v: View)
    requires Core(k, v) && task in v.t
    modifies task`c
    ensures Core(k, Worded(v, task, c))
  {
    hide Known, OwnCells, QueuesHold, TasksHold, ListsHold;
    KnownTasks(v);
    WordedSame(v, task, c);
    ListsKeep(v.lists, v.t, Worded(v, task, c).t, k.cells);
    SetWord(task, c, v.t);
  }
}
