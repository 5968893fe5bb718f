/** osi_dispatch of os.c, in place on the heap. */
module Dispatching {
  import opened Types
  import opened Sequences
  import opened Spec
  import opened Invariants
  import opened Heap
  import opened Scheduling
  import opened Os
  import BlockedList

  // -------------------------------------------------- leaving the blocked list

  lemma ListsApart(lists: map<Obj, seq<Task>>, ts: map<Task, TaskV>, o: Obj, p: Obj)
    requires o in lists && p in lists && o != p
    requires ListFits(o, lists[o], ts) && ListFits(p, lists[p], ts)
    ensures Apart(lists[p], lists[o])
  {
  }

  lemma OthersApart(lists: map<Obj, seq<Task>>, ts: map<Task, TaskV>, o: Obj, cells: set<Blocked>)
    requires OwnCells(lists.Keys, cells) && ListsHold(lists, ts, cells) && o in lists
    ensures forall p :: p in lists && p != o ==>
      p != NoObj && CellOf(p) != CellOf(o) && Apart(lists[p], lists[o]) && ListFits(p, lists[p], ts)
        && Chained(CellOf(p).tasks, lists[p])
  {
    hide Chained, Apart, ListFits;
    forall p | p in lists && p != o
      ensures Apart(lists[p], lists[o]) && ListHolds(p, lists[p], ts)
    {
      assert ListHolds(p, lists[p], ts) && ListHolds(o, lists[o], ts);
      ListsApart(lists, ts, o, p);
    }
  }

  lemma WithoutFits(o: Obj, s: seq<Task>, x: Task, ts: map<Task, TaskV>)
    requires ListFits(o, s, ts)
    ensures ListFits(o, Without(s, x), ts)
    ensures forall y :: y in Without(s, x) <==> y in s && y != x
  {
    WithoutMembers(s, x);
    WithoutAmong(s, x, ts.Keys);
  }

  /** Unlink `task` from the list of `o`, if it is there. */
  method Unlink(blocked: Blocked, task: Task, ghost o: Obj, ghost lists: map<Obj, seq<Task>>,
                ghost ts: map<Task, TaskV>, ghost cells: set<Blocked>)
    requires OwnCells(lists.Keys, cells) && ListsHold(lists, ts, cells)
    requires o in lists && o != NoObj && blocked == CellOf(o) && task in ts && ts[task].back == o
    modifies blocked, ts.Keys`nblocked
    ensures ListsHold(lists[o := Without(lists[o], task)], ts, cells)
  {
    hide Distinct, Chained, Without, ListFits;
    ghost var s := lists[o];
    assert ListHolds(o, s, ts);
    WithoutFits(o, s, task, ts);
    assert Among(s, ts.Keys) && Distinct(s) by { FitsAmong(o, s, ts); }
    forall p | p in lists && p != o
      ensures CellOf(p) != blocked && Apart(lists[p], s)
      ensures ListFits(p, lists[p], ts) && Chained(CellOf(p).tasks, lists[p])
    {
      assert ListHolds(p, lists[p], ts);
      ListsApart(lists, ts, o, p);
    }
    var removed := BlockedList.Remove(blocked, task, s);
    forall p | p in lists && p != o
      ensures ListHolds(p, lists[p], ts)
    {
    }
    assert ListHolds(o, Without(s, task), ts);
    forall x | x in ts && !(ts[x].back in lists
                            && x in (if ts[x].back == o then Without(s, task) else lists[ts[x].back]))
      ensures x.nblocked == null
    {
      if x in s {
        var i :| 0 <= i < |s| && s[i] == x;
        assert ts[s[i]].back == o by { FitsBack(o, s, ts, i); }
      }
    }
  }

  lemma FitsBack(o: Obj, s: seq<Task>, ts: map<Task, TaskV>, i: nat)
    requires ListFits(o, s, ts) && i < |s|
    ensures s[i] in ts && ts[s[i]].back == o
  {
  }

  lemma FitsAmong(o: Obj, s: seq<Task>, ts: map<Task, TaskV>)
    requires ListFits(o, s, ts)
    ensures Among(s, ts.Keys) && Distinct(s)
  {
  }

  lemma TailFits(o: Obj, s: seq<Task>, ts: map<Task, TaskV>)
    requires ListFits(o, s, ts) && s != []
    ensures ListFits(o, s[1..], ts) && Without(s, s[0]) == s[1..]
    ensures forall y :: y in s[1..] <==> y in s && y != s[0]
  {
    WithoutFits(o, s, s[0], ts);
    assert Without(s, s[0]) == s[1..];
  }

  /** Unlink the first task from the list of `o`. */
  method PopFrom(blocked: Blocked, ghost o: Obj, ghost lists: map<Obj, seq<Task>>, ghost ts: map<Task, TaskV>,
                 ghost cells: set<Blocked>) returns (task: Task)
    requires OwnCells(lists.Keys, cells) && ListsHold(lists, ts, cells)
    requires o in lists && o != NoObj && blocked == CellOf(o) && lists[o] != []
    modifies blocked, ts.Keys`nblocked
    ensures task == lists[o][0] && task.nblocked == null
    ensures ListsHold(lists[o := lists[o][1..]], ts, cells)
  {
    hide Distinct, Chained, ListFits;
    ghost var s := lists[o];
    assert ListHolds(o, s, ts);
    TailFits(o, s, ts);
    assert Among(s, ts.Keys) && Distinct(s) by { FitsAmong(o, s, ts); }
    OthersApart(lists, ts, o, cells);
    task := BlockedList.Pop(blocked, s);
    hide OwnCells, CellOf;
    RestHolds(lists, o, s[1..], ts, cells);
  }

  /** What the objects' lists are when one of them has changed. */
  lemma RestHolds(lists: map<Obj, seq<Task>>, o: Obj, rest: seq<Task>, ts: map<Task, TaskV>, cells: set<Blocked>)
    requires OwnCells(lists.Keys, cells) && o in lists && o != NoObj
    requires forall p :: p in lists && p != o ==> ListHolds(p, lists[p], ts)
    requires ListFits(o, lists[o], ts) && ListFits(o, rest, ts) && Chained(CellOf(o).tasks, rest)
    requires forall x :: x in lists[o] && x !in rest ==> x.nblocked == null
    requires forall x {:trigger x.nblocked} :: x in ts && !(ts[x].back in lists && x in lists[ts[x].back]) ==>
      x.nblocked == null
    ensures ListsHold(lists[o := rest], ts, cells)
  {
    hide Chained, ListFits;
    forall x | x in ts && !(ts[x].back in lists && x in (if ts[x].back == o then rest else lists[ts[x].back]))
      ensures x.nblocked == null
    {
      if x in lists[o] {
        var i :| 0 <= i < |lists[o]| && lists[o][i] == x;
        assert ts[lists[o][i]].back == o by { FitsBack(o, lists[o], ts, i); }
      }
    }
  }

  /** The mutex branch of osi_dispatch unlinks a head twice; the second time finds nothing. */
  method UnlinkHeadFirst(blocked: Blocked, task: Task, ghost o: Obj, ghost lists: map<Obj, seq<Task>>,
                         ghost ts: map<Task, TaskV>, ghost cells: set<Blocked>)
    requires OwnCells(lists.Keys, cells) && ListsHold(lists, ts, cells)
    requires o in lists && o != NoObj && blocked == CellOf(o) && task in ts && ts[task].back == o
    modifies blocked, ts.Keys`nblocked
    ensures ListsHold(lists[o := Without(lists[o], task)], ts, cells)
  {
    hide ListsHold, Without, OwnCells, Among, Distinct, ListFits;
    ghost var s := lists[o];
    assert ListHolds(o, s, ts) by { HeldList(o, lists, ts, cells); }
    assert blocked.tasks == task ==> s != [] && s[0] == task;
    if blocked.tasks == task {
      assert Without(s, task) == s[1..] && Without(s[1..], task) == s[1..] by {
        TailFits(o, s, ts);
        WithoutAbsent(s[1..], task);
      }
      var head := PopFrom(blocked, o, lists, ts, cells);
      ghost var lists1 := lists[o := s[1..]];
      assert lists1.Keys == lists.Keys;
      Unlink(blocked, task, o, lists1, ts, cells);
      assert lists1[o := s[1..]] == lists1;
    } else {
      Unlink(blocked, task, o, lists, ts, cells);
    }
  }

  lemma HeldList(o: Obj, lists: map<Obj, seq<Task>>, ts: map<Task, TaskV>, cells: set<Blocked>)
    requires OwnCells(lists.Keys, cells) && ListsHold(lists, ts, cells) && o in lists && o != NoObj
    ensures ListHolds(o, lists[o], ts)
  {
  }

  /** A task on no list may change its back pointer. */
  lemma ListsForget(lists: map<Obj, seq<Task>>, ts0: map<Task, TaskV>, ts1: map<Task, TaskV>, x: Task,
                    cells: set<Blocked>)
    requires OwnCells(lists.Keys, cells) && ListsHold(lists, ts0, cells)
    requires x in ts0 && SameBut(ts0, ts1, x) && (ts0[x].back in lists ==> x !in lists[ts0[x].back])
    requires ts1[x].back == NoObj
    ensures ListsHold(lists, ts1, cells)
  {
    hide Chained, Distinct;
    forall o | o in lists
      ensures ListHolds(o, lists[o], ts1)
    {
      assert ListHolds(o, lists[o], ts0);
    }
    assert x.nblocked == null;
  }

  /** A task as Unblock leaves it. */
  function Cleared(tv: TaskV): TaskV {
    tv.(back := NoObj, flags := FLAG_NONE, call := NoCall, c := if tv.back.OnRwLock? then DESIRED_NONE else tv.c)
  }

  lemma UnblockSame(v: View, x: Task)
    requires Known(v) && x in v.t
    ensures var w, o := Unblock(v, x), v.t[x].back;
      && Known(w) && w.t == (if o in v.lists then v.t[x := Cleared(v.t[x])] else v.t)
      && w.lists == (if o in v.lists then v.lists[o := Without(v.lists[o], x)] else v.lists)
      && w.tasks == v.tasks && w.objs == v.objs && w.rq == v.rq && w.wq == v.wq
      && w.mutexes == v.mutexes && w.rwlocks == v.rwlocks && w.queues.Keys == v.queues.Keys
      && w.running == v.running && w.scheduled == v.scheduled && w.idle == v.idle
  {
    UnblockKnown(v, x);
  }

  lemma LeaveFacts(k: Globals, x: Task, v: View)
    requires Core(k, v) && x in v.t && v.t[x].back != NoObj && v.t[x].back in v.lists
    ensures var w, o := Unblock(v, x), v.t[x].back;
      && Known(w) && w.t == v.t[x := Cleared(v.t[x])] && w.lists == v.lists[o := Without(v.lists[o], x)]
      && w.lists.Keys == v.lists.Keys == v.objs && w.tasks == v.tasks && w.objs == v.objs && w.rq == v.rq
      && w.wq == v.wq
      && w.mutexes == v.mutexes && w.rwlocks == v.rwlocks && w.queues.Keys == v.queues.Keys
      && w.running == v.running && w.scheduled == v.scheduled && w.idle == v.idle
      && v.t.Keys == v.tasks && CellOf(o) in k.cells && Holds(x, v.t[x])
  {
    UnblockSame(v, x);
  }

  lemma NotAgain(o: Obj, x: Task, lists: map<Obj, seq<Task>>, ts: map<Task, TaskV>, cells: set<Blocked>)
    requires OwnCells(lists.Keys, cells) && ListsHold(lists, ts, cells) && o in lists
    ensures x !in Without(lists[o], x)
  {
    assert ListHolds(o, lists[o], ts);
    WithoutMembers(lists[o], x);
  }

  method ClearMutex(task: Task, ghost ts: map<Task, TaskV>)
    requires TasksHold(ts) && task in ts && ts[task].back.OnMutex?
    modifies task`mutex, task`flags
    ensures TasksHold(ts[task := Cleared(ts[task])]) && task.flags == FLAG_NONE
  {
    assert Holds(task, ts[task]);
    task.mutex := null;
    task.flags := FLAG_NONE;
  }

  method OffMutex(task: Task, ghost o: Obj, ghost lists: map<Obj, seq<Task>>, ghost ts: map<Task, TaskV>,
                  ghost cells: set<Blocked>)
    requires OwnCells(lists.Keys, cells) && ListsHold(lists, ts, cells) && TasksHold(ts)
    requires task in ts && ts[task].back == o && o.OnMutex? && o in lists && CellOf(o) in cells
    modifies cells, ts.Keys`nblocked, task`mutex, task`flags
    ensures ListsHold(lists[o := Without(lists[o], task)], ts[task := Cleared(ts[task])], cells)
    ensures TasksHold(ts[task := Cleared(ts[task])]) && task.flags == FLAG_NONE
  {
    hide OwnCells, TasksHold, ListsHold, Without;
    assert Holds(task, ts[task]) by { TaskHeld(task, ts); }
    assert task !in Without(lists[o], task) by { NotAgain(o, task, lists, ts, cells); }
    assert task.mutex != null && task.queue == null && task.rwlock == null;
    UnlinkHeadFirst(task.mutex.blocked, task, o, lists, ts, cells);
    ClearMutex(task, ts);
    assert lists[o := Without(lists[o], task)].Keys == lists.Keys;
    ListsForget(lists[o := Without(lists[o], task)], ts, ts[task := Cleared(ts[task])], task, cells);
  }

  method LeaveMutex(k: Globals, task: Task, ghost v: View)
    requires Core(k, v) && task in v.t && v.t[task].back.OnMutex? && v.t[task].back in v.lists
    modifies k.cells, v.tasks`nblocked, task`mutex, task`flags
    ensures Core(k, Unblock(v, task)) && task.flags == FLAG_NONE
  {
    hide Known, OwnCells, QueuesHold, TasksHold, ListsHold, Unblock, Without;
    LeaveFacts(k, task, v);
    OffMutex(task, v.t[task].back, v.lists, v.t, k.cells);
  }

  method ClearQueue(task: Task, ghost ts: map<Task, TaskV>)
    requires TasksHold(ts) && task in ts && ts[task].back.OnQueue?
    modifies task`queue, task`flags
    ensures TasksHold(ts[task := Cleared(ts[task])]) && task.flags == FLAG_NONE
  {
    assert Holds(task, ts[task]);
    task.queue := null;
    task.flags := FLAG_NONE;
  }

  method OffQueue(task: Task, ghost o: Obj, ghost lists: map<Obj, seq<Task>>, ghost ts: map<Task, TaskV>,
                  ghost cells: set<Blocked>)
    requires OwnCells(lists.Keys, cells) && ListsHold(lists, ts, cells) && TasksHold(ts)
    requires task in ts && ts[task].back == o && o.OnQueue? && o in lists && CellOf(o) in cells
    modifies cells, ts.Keys`nblocked, task`queue, task`flags
    ensures ListsHold(lists[o := Without(lists[o], task)], ts[task := Cleared(ts[task])], cells)
    ensures TasksHold(ts[task := Cleared(ts[task])]) && task.flags == FLAG_NONE
  {
    hide OwnCells, TasksHold, ListsHold, Without;
    assert Holds(task, ts[task]) by { TaskHeld(task, ts); }
    assert task !in Without(lists[o], task) by { NotAgain(o, task, lists, ts, cells); }
    assert task.mutex == null && task.queue != null && task.rwlock == null;
    Unlink(task.queue.blocked, task, o, lists, ts, cells);
    ClearQueue(task, ts);
    assert lists[o := Without(lists[o], task)].Keys == lists.Keys;
    ListsForget(lists[o := Without(lists[o], task)], ts, ts[task := Cleared(ts[task])], task, cells);
  }

  method LeaveQueue(k: Globals, task: Task, ghost v: View)
    requires Core(k, v) && task in v.t && v.t[task].back.OnQueue? && v.t[task].back in v.lists
    modifies k.cells, v.tasks`nblocked, task`queue, task`flags
    ensures Core(k, Unblock(v, task)) && task.flags == FLAG_NONE
  {
    hide Known, OwnCells, QueuesHold, TasksHold, ListsHold, Unblock, Without;
    LeaveFacts(k, task, v);
    OffQueue(task, v.t[task].back, v.lists, v.t, k.cells);
  }

  method ClearRwLock(task: Task, ghost ts: map<Task, TaskV>)
    requires TasksHold(ts) && task in ts && ts[task].back.OnRwLock?
    modifies task`rwlock, task`flags, task`c
    ensures TasksHold(ts[task := Cleared(ts[task])]) && task.flags == FLAG_NONE
  {
    assert Holds(task, ts[task]);
    task.c := DESIRED_NONE;
    task.rwlock := null;
    task.flags := FLAG_NONE;
  }

  method OffRwLock(task: Task, ghost o: Obj, ghost lists: map<Obj, seq<Task>>, ghost ts: map<Task, TaskV>,
                  ghost cells: set<Blocked>)
    requires OwnCells(lists.Keys, cells) && ListsHold(lists, ts, cells) && TasksHold(ts)
    requires task in ts && ts[task].back == o && o.OnRwLock? && o in lists && CellOf(o) in cells
    modifies cells, ts.Keys`nblocked, task`rwlock, task`flags, task`c
    ensures ListsHold(lists[o := Without(lists[o], task)], ts[task := Cleared(ts[task])], cells)
    ensures TasksHold(ts[task := Cleared(ts[task])]) && task.flags == FLAG_NONE
  {
    hide OwnCells, TasksHold, ListsHold, Without;
    assert Holds(task, ts[task]) by { TaskHeld(task, ts); }
    assert task !in Without(lists[o], task) by { NotAgain(o, task, lists, ts, cells); }
    assert task.mutex == null && task.queue == null && task.rwlock != null;
    Unlink(task.rwlock.blocked, task, o, lists, ts, cells);
    ClearRwLock(task, ts);
    assert lists[o := Without(lists[o], task)].Keys == lists.Keys;
    ListsForget(lists[o := Without(lists[o], task)], ts, ts[task := Cleared(ts[task])], task, cells);
  }

  method LeaveRwLock(k: Globals, task: Task, ghost v: View)
    requires Core(k, v) && task in v.t && v.t[task].back.OnRwLock? && v.t[task].back in v.lists
    modifies k.cells, v.tasks`nblocked, task`rwlock, task`flags, task`c
    ensures Core(k, Unblock(v, task)) && task.flags == FLAG_NONE
  {
    hide Known, OwnCells, QueuesHold, TasksHold, ListsHold, Unblock, Without;
    LeaveFacts(k, task, v);
    OffRwLock(task, v.t[task].back, v.lists, v.t, k.cells);
  }

  /** The first part of osi_dispatch: whatever the task was blocked on, it leaves the list and
      forgets. The semaphore branch is not taken: no flags but these three are set. */
  method LeaveBlocked(k: Globals, task: Task, ghost v: View)
    requires Core(k, v) && task in v.t && TaskOk(v.t[task]) && (v.t[task].back != NoObj ==> v.t[task].back in v.lists)
    modifies k.cells, v.tasks`nblocked, task`mutex, task`queue, task`rwlock, task`flags, task`c
    ensures Core(k, Unblock(v, task))
  {
    hide Known, Unblock, Core;
    assert Holds(task, v.t[task]) && NoObj !in v.lists by { CoreTask(k, v, task); }
    UnblockNothing(v, task);
    if task.flags & FLAG_MUTEX == FLAG_MUTEX {
      LeaveMutex(k, task, v);
    }
    if task.flags & FLAG_QUEUE == FLAG_QUEUE {
      LeaveQueue(k, task, v);
    }
    if task.flags & FLAG_RWLOCK == FLAG_RWLOCK {
      LeaveRwLock(k, task, v);
    }
  }

  lemma CoreTask(k: Globals, v: View, x: Task)
    requires Core(k, v) && x in v.t
    ensures Holds(x, v.t[x]) && NoObj !in v.lists && Known(v)
  {
  }

  lemma UnblockNothing(v: View, x: Task)
    requires x in v.t
    ensures v.t[x].back !in v.lists ==> Unblock(v, x) == v
  {
  }

  lemma TaskHeld(x: Task, ts: map<Task, TaskV>)
    requires x in ts && TasksHold(ts)
    ensures Holds(x, ts[x])
  {
  }

  // -------------------------------------------------------- changing processor

  lemma RetireSame(v: View)
    requires Known(v)
    ensures var w, x := Retire(v), v.running;
      && Known(w) && w.t.Keys == v.t.Keys == v.tasks == w.tasks && w.objs == v.objs && w.lists == v.lists
      && w.wq == v.wq
      && w.lists.Keys == w.objs && w.running == v.running && w.scheduled == v.scheduled && w.idle == v.idle
      && (forall y :: y in v.t ==> w.t[y].back == v.t[y].back)
      && match v.t[x].status
         case Active => w.t == v.t[x := v.t[x].(status := Idle)] && w.rq == v.rq
         case Idle => w.t == v.t && w.rq == v.rq
         case Wait => w.t == v.t && w.rq == v.rq
         case _ => w.t == v.t && w.rq == Without(v.rq, x)
  {
    RetireKnown(v);
  }

  /** What osi_dispatch does to the task that gives up the processor. */
  method RetireRunning(k: Globals, ghost v: View)
    requires Core(k, v)
    modifies k`runqueue, v.tasks`nrp, v.running`status
    ensures Core(k, Retire(v))
  {
    hide Known, OwnCells, QueuesHold, TasksHold, ListsHold, Retire, Without, Among;
    RetireSame(v);
    KnownTasks(v);
    var running := k.running;
    StatusHeld(running, v.t);
    ListsKeep(v.lists, v.t, Retire(v).t, k.cells);
    match running.status
    case Active => SetStatus(running, Idle, v.t);
    case Idle =>
    case Wait =>
    case _ => TakeOffRunqueue(k, running, v.rq, v.wq, v.tasks);
  }

  function Promoted(tv: TaskV): TaskV {
    tv.(delay := 0, flags := FLAG_NONE, status := Active)
  }

  lemma PromoteSame(v: View, x: Task)
    requires Known(v) && x in v.t
    ensures var w := Promote(v, x);
      && Known(w) && w.t == v.t[x := Promoted(v.t[x])] && w.t.Keys == v.tasks == w.tasks
      && w.objs == v.objs && w.lists == v.lists && w.lists.Keys == w.objs
      && w.running == v.running && w.scheduled == x && w.idle == v.idle
      && w.rq == (if v.t[x].status.Wait? then RunqueueAdd(v.rq, w.t, x) else v.rq)
      && w.wq == (if v.t[x].status.Wait? then Without(v.wq, x) else v.wq)
      && (forall y :: y in v.t ==> w.t[y].back == v.t[y].back)
  {
    PromoteKnown(v, x);
  }

  /** A waiting task that is made runnable can be moved over. */
  lemma PromoteFacts(v: View, x: Task)
    requires Known(v) && x in v.t && RunqueueOk(v.rq, v.t) && WaitqueueOk(v.wq, v.t) && v.t[x].status.Wait?
    ensures x !in v.rq && x !in Without(v.wq, x) && ByPriority(v.rq, v.t[x := Promoted(v.t[x])])
  {
    WithoutMembers(v.wq, x);
    SamePriorities(v.rq, v.t, v.t[x := Promoted(v.t[x])], x);
  }

  method SetActive(task: Task, ghost ts: map<Task, TaskV>)
    requires TasksHold(ts) && task in ts
    modifies task`delay, task`flags, task`status
    ensures TasksHold(ts[task := Promoted(ts[task])])
  {
    assert Holds(task, ts[task]);
    task.delay := 0;
    task.flags := FLAG_NONE;
    task.status := Active;
  }

  /** The task that gets the processor becomes ACTIVE and, if it waited, changes queues. */
  method Activate(k: Globals, task: Task, ghost v: View)
    requires Known(v) && task in v.t && RunqueueOk(v.rq, v.t) && WaitqueueOk(v.wq, v.t)
    requires QueuesHold(k.runqueue, k.waitqueue, v.rq, v.wq, v.tasks) && TasksHold(v.t)
    modifies k`runqueue, k`waitqueue, v.tasks`nrp, task`delay, task`flags, task`status
    ensures var w := Promote(v, task);
      Known(w) && QueuesHold(k.runqueue, k.waitqueue, w.rq, w.wq, w.tasks) && TasksHold(w.t)
  {
    hide Known, QueuesHold, TasksHold, Promote, Without, RunqueueAdd, RunqueueOk, WaitqueueOk, Among;
    PromoteSame(v, task);
    KnownTasks(v);
    ghost var ts := v.t[task := Promoted(v.t[task])];
    var was := task.status;
    StatusHeld(task, v.t);
    SetActive(task, v.t);
    if was.Wait? {
      PromoteFacts(v, task);
      MoveToRun(k, task, v.rq, v.wq, ts);
    }
  }

  /** osi_dispatch asserts that the idle task gets the processor only when nothing else is queued. */
  method CheckAlone(k: Globals, task: Task, ghost rq: seq<Task>)
    requires task == k.idle ==> Queued(k.runqueue, rq) && rq == [k.idle]
  {
    if task == k.idle {
      var length := RunQueue.Length(k.runqueue, rq);
      assert length == 1;
    }
  }

  /** What osi_dispatch does to the task that gets the processor. */
  method PromoteTask(k: Globals, task: Task, ghost v: View)
    requires Core(k, v) && task in v.t && RunqueueOk(v.rq, v.t) && WaitqueueOk(v.wq, v.t)
    requires task == v.idle ==> v.rq == [v.idle] && !v.t[v.idle].status.Wait?
    modifies k`runqueue, k`waitqueue, k`scheduled, v.tasks`nrp, task`delay, task`flags, task`status
    ensures Core(k, Promote(v, task))
  {
    hide Known, OwnCells, QueuesHold, TasksHold, ListsHold, Promote, Promoted, Without, Queued, RunqueueAdd,
      RunqueueOk, WaitqueueOk, Among;
    KnownTasks(v);
    ghost var w := Promote(v, task);
    PromoteSame(v, task);
    ListsKeep(v.lists, v.t, w.t, k.cells);
    Activate(k, task, v);
    RunqueueHeld(k, w);
    CheckAlone(k, task, w.rq);
    k.scheduled := task;
  }

  lemma RunqueueHeld(k: Globals, v: View)
    requires Known(v) && QueuesHold(k.runqueue, k.waitqueue, v.rq, v.wq, v.tasks)
    ensures Queued(k.runqueue, v.rq) && Queued(k.waitqueue, v.wq)
  {
  }

  lemma DispatchFacts(v: View, x: Task)
    requires Mid(v) && x in v.t && x != v.running
    ensures var u := Unblock(v, x);
      Known(u) && Mid(u) && u.running == v.running && u.t[x].status == v.t[x].status && u.idle == v.idle
      && u.tasks == v.tasks
    ensures var r := Retire(Unblock(v, x));
      && Known(r) && Mid(r) && x in r.t && r.t[x].status == v.t[x].status && r.idle == v.idle
      && r.rq == v.rq && r.tasks == v.tasks && Dispatch(v, x) == Promote(r, x)
    ensures TaskOk(v.t[x]) && (v.t[x].back != NoObj ==> v.t[x].back in v.lists)
    ensures !v.t[v.idle].status.Wait?
  {
    DispatchParts(v, x);
    UnblockMid(v, x);
    RetireMid(Unblock(v, x));
    UnblockRq(v, x);
    IdleIsRunnable(v);
    hide ObjectsOk;
  }

  /** osi_dispatch */
  method DispatchTask(k: Globals, task: Task, ghost v: View)
    requires Core(k, v) && Mid(v) && task in v.t
    requires task == v.idle && task != v.running ==> v.rq == [v.idle]
    modifies k`runqueue, k`waitqueue, k`scheduled, k.cells, v.tasks
    ensures Core(k, Dispatch(v, task))
  {
    hide Core, Mid, Known, Unblock, Retire, Promote, Dispatch;
    CoreRunning(k, v);
    if k.running == task {
      assert Dispatch(v, task) == v by { DispatchNone(v); }
      return;
    }
    DispatchFacts(v, task);
    LeaveBlocked(k, task, v);
    RetireRunning(k, Unblock(v, task));
    assert Known(Retire(Unblock(v, task)));
    MidQueues(Retire(Unblock(v, task)));
    PromoteTask(k, task, Retire(Unblock(v, task)));
  }

  lemma CoreRunning(k: Globals, v: View)
    requires Core(k, v)
    ensures k.running == v.running && k.scheduled == v.scheduled
    ensures Known(v) && v.running in v.tasks && v.t.Keys == v.tasks
  {
  }

  lemma DispatchNone(v: View)
    requires Known(v)
    ensures Dispatch(v, v.running) == v
  {
  }

  lemma MidQueues(v: View)
    requires Mid(v)
    ensures RunqueueOk(v.rq, v.t) && WaitqueueOk(v.wq, v.t)
  {
  }
}
