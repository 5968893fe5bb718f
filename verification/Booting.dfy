/** os_task_initialize_options for every task, then os_start: the heap the kernel starts with. */
module Booting {
  import opened Types
  import opened Sequences
  import opened Spec
  import opened Invariants
  import opened Runs
  import opened Heap
  import opened Os

  /** A task as os_task_initialize_options leaves it, before it is queued. */
  method InitializeTask(task: Task, priority: nat, status: Status, ghost ts: map<Task, TaskV>)
    requires task !in ts && TasksHold(ts)
    modifies task
    ensures TasksHold(ts[task := FreshTask(priority, status)])
    ensures task.nblocked == null && task.nrp == null && task.status == status && task.priority == priority
  {
    task.status := status;
    task.delay := 0;
    task.flags := FLAG_NONE;
    task.queue := null;
    task.mutex := null;
    task.nblocked := null;
    task.rwlock := null;
    task.c := 0;
    task.nrp := null;
    task.priority := priority;
    task.ret := Ret(0, 0);
    assert Holds(task, FreshTask(priority, status));
    assert forall x :: x in ts ==> Holds(x, ts[x]);
  }

  /** The tasks initialised so far, and the runqueue they make. */
  ghost predicate Laid(head: Task?, ts: map<Task, TaskV>, rq: seq<Task>)
    reads ts.Keys
  {
    && Among(rq, ts.Keys) && Queued(head, rq) && Distinct(rq) && TasksHold(ts)
    && forall x :: x in ts ==> x.nblocked == null && (x !in rq ==> x.nrp == null)
  }

  lemma AddedOnce(rq: seq<Task>, ts: map<Task, TaskV>, x: Task)
    requires x in ts && Among(rq, ts.Keys) && Distinct(rq) && x !in rq
    ensures Distinct(RunqueueAdd(rq, ts, x))
    ensures forall y :: y in RunqueueAdd(rq, ts, x) <==> y in rq || y == x
  {
    InsertMembers(rq, PriorityPos(rq, ts, ts[x].priority), x);
  }

  lemma LaidQueued(ts: map<Task, TaskV>, rq: seq<Task>, x: Task, h: Task?)
    requires Among(rq, ts.Keys) && x in ts && Distinct(rq) && x !in rq && TasksHold(ts)
    requires Queued(h, RunqueueAdd(rq, ts, x))
    requires forall y :: y in ts ==> y.nblocked == null && (y !in rq && y != x ==> y.nrp == null)
    ensures Laid(h, ts, RunqueueAdd(rq, ts, x))
  {
    AddedOnce(rq, ts, x);
    AddAmong(rq, ts, x);
  }

  /** One call of os_task_initialize_options. */
  method AddTask(head: Task?, init: Init, ghost ts: map<Task, TaskV>, ghost rq: seq<Task>) returns (h: Task?)
    requires Laid(head, ts, rq) && init.x !in ts && ByPriority(rq, ts)
    modifies init.x, rq`nrp
    ensures var ts1 := ts[init.x := FreshTask(init.priority, if init.suspended then Suspended else Idle)];
      Among(rq, ts1.Keys) && Laid(h, ts1, if init.suspended then rq else RunqueueAdd(rq, ts1, init.x))
  {
    hide Distinct, RunqueueAdd, TasksHold, ByPriority, Queued, FreshTask;
    ghost var ts1 := ts[init.x := FreshTask(init.priority, if init.suspended then Suspended else Idle)];
    assert init.x !in rq;
    assert forall y :: y in rq ==> y in ts;
    SameOrder(rq, ts, init.x, FreshTask(init.priority, if init.suspended then Suspended else Idle));
    InitializeTask(init.x, init.priority, if init.suspended then Suspended else Idle, ts);
    h := head;
    if !init.suspended {
      FieldsOf(rq, ts1);
      StatusHeld(init.x, ts1);
      h := RunQueue.Add(head, init.x, rq, ts1);
      LaidQueued(ts1, rq, init.x, h);
    }
  }

  lemma SameOrder(rq: seq<Task>, ts: map<Task, TaskV>, x: Task, tv: TaskV)
    requires Among(rq, ts.Keys) && ByPriority(rq, ts) && x !in ts
    ensures Among(rq, ts[x := tv].Keys) && ByPriority(rq, ts[x := tv])
  {
  }

  // ------------------------------------------------------------------ os_start

  /** Objects as their constructors leave them, with a list head and a ring each. */
  ghost predicate Created(mutexes: set<Mutex>, queues: map<Queue, nat>, rwlocks: set<RwLock>, cells: set<Blocked>,
                          rings: set<array<Word>>)
    reads mutexes, queues.Keys, rwlocks, cells, rings
  {
    var objs := Objects(mutexes, queues, rwlocks);
    && OwnCells(objs, cells) && OwnRings(queues.Keys, rings)
    && (forall o :: o in objs ==> CellOf(o).tasks == null)
    && (forall m :: m in mutexes ==> m.owner == null && m.level == 0)
    && (forall q :: q in queues ==>
          && q.size == queues[q] == q.messages.Length && q.number == q.first == q.last == 0 && q.status == Fine
          && forall i :: 0 <= i < q.size ==> q.messages[i] == 0)
    && (forall r :: r in rwlocks ==> r.readers == r.writers == 0 && r.writer == null)
  }

  function Objects(mutexes: set<Mutex>, queues: map<Queue, nat>, rwlocks: set<RwLock>): set<Obj> {
    (set m | m in mutexes :: OnMutex(m)) + (set q | q in queues :: OnQueue(q)) + (set r | r in rwlocks :: OnRwLock(r))
  }

  lemma StartHolds(k: Globals, v: View, mutexes: set<Mutex>, queues: map<Queue, nat>, rwlocks: set<RwLock>)
    requires Created(mutexes, queues, rwlocks, k.cells, k.rings)
    requires v == Assemble(v.t, v.rq, v.idle, mutexes, queues, rwlocks) && v.idle in v.t && Laid(k.runqueue, v.t, v.rq)
    requires forall x :: x in v.t ==> v.t[x].back == NoObj
    requires k.idle == k.running == v.idle && k.scheduled == null && k.waitqueue == null
    ensures Rep(k, v)
  {
    assert v.objs == Objects(mutexes, queues, rwlocks);
    forall q | q in v.queues
      ensures QueueHolds(q, v.queues[q])
    {
      assert q.messages[..] == v.queues[q].messages;
    }
    assert ListsHold(v.lists, v.t, k.cells);
  }

  lemma BootIs(idle: Task, inits: seq<Init>, mutexes: set<Mutex>, queues: map<Queue, nat>, rwlocks: set<RwLock>)
    requires Bootable(idle, inits, queues)
    ensures var r := Initialize(map[idle := FreshTask(PRIORITY_IDLE, Idle)], [idle], inits);
      var v := Boot(idle, inits, mutexes, queues, rwlocks);
      && Building(r.0, r.1, idle) && idle in r.0 && r.0[idle].status.Idle?
      && v == Assemble(r.0[idle := r.0[idle].(status := Active)], r.1, idle, mutexes, queues, rwlocks)
      && (forall x :: x in v.t ==> v.t[x].back == NoObj)
  {
    var ts0 := map[idle := FreshTask(PRIORITY_IDLE, Idle)];
    InitializeOk(ts0, [idle], inits, idle);
    hide Initialize, RunqueueOk;
  }

  lemma InitializeStep(ts: map<Task, TaskV>, rq: seq<Task>, inits: seq<Init>, idle: Task)
    requires Building(ts, rq, idle) && inits != [] && inits[0].x !in ts && inits[0].priority > PRIORITY_IDLE
    ensures var tv := FreshTask(inits[0].priority, if inits[0].suspended then Suspended else Idle);
      var ts1 := ts[inits[0].x := tv];
      && Among(rq, ts1.Keys) && ByPriority(rq, ts)
      && (var rq1 := if inits[0].suspended then rq else RunqueueAdd(rq, ts1, inits[0].x);
          && Building(ts1, rq1, idle) && Among(rq1, ts1.Keys)
          && Initialize(ts, rq, inits) == Initialize(ts1, rq1, inits[1..]))
  {
    BuildOne(ts, rq, inits[0].x, FreshTask(inits[0].priority, if inits[0].suspended then Suspended else Idle), idle);
  }

  ghost function Named(inits: seq<Init>): set<Task> {
    set i | 0 <= i < |inits| :: inits[i].x
  }

  /** The tasks in the order they are initialised. */
  method AddTasks(head: Task?, inits: seq<Init>, idle: Task, ghost ts: map<Task, TaskV>, ghost rq: seq<Task>)
    returns (h: Task?)
    requires Building(ts, rq, idle) && Laid(head, ts, rq)
    requires forall i :: 0 <= i < |inits| ==> inits[i].x !in ts && inits[i].priority > PRIORITY_IDLE
    requires forall i, j :: 0 <= i < j < |inits| ==> inits[i].x != inits[j].x
    modifies Named(inits), ts.Keys`nrp
    ensures Among(rq, ts.Keys) && Laid(h, Initialize(ts, rq, inits).0, Initialize(ts, rq, inits).1)
    decreases |inits|
  {
    hide Building, Laid, Initialize, RunqueueAdd, ByPriority, FreshTask;
    h := head;
    if inits == [] {
      assert Among(rq, ts.Keys) && Initialize(ts, rq, inits) == (ts, rq) by { NoneToAdd(ts, rq, idle); }
    } else {
      InitializeStep(ts, rq, inits, idle);
      ghost var ts1 := ts[inits[0].x := FreshTask(inits[0].priority, if inits[0].suspended then Suspended else Idle)];
      ghost var rq1 := if inits[0].suspended then rq else RunqueueAdd(rq, ts1, inits[0].x);
      assert inits[0].x in Named(inits) && Named(inits[1..]) <= Named(inits);
      assert forall i :: 0 <= i < |inits[1..]| ==> inits[1..][i] == inits[i + 1];
      assert forall y :: y in rq ==> y in ts by { LaidAmong(head, ts, rq); }
      h := AddTask(head, inits[0], ts, rq);
      h := AddTasks(h, inits[1..], idle, ts1, rq1);
    }
  }

  lemma NoneToAdd(ts: map<Task, TaskV>, rq: seq<Task>, idle: Task)
    requires Building(ts, rq, idle)
    ensures Among(rq, ts.Keys) && Initialize(ts, rq, []) == (ts, rq)
  {
  }

  lemma LaidAmong(head: Task?, ts: map<Task, TaskV>, rq: seq<Task>)
    requires Laid(head, ts, rq)
    ensures forall y :: y in rq ==> y in ts
  {
  }

  lemma FirstLaid(idle: Task)
    requires TasksHold(map[idle := FreshTask(PRIORITY_IDLE, Idle)]) && idle.nrp == null && idle.nblocked == null
    ensures Laid(idle, map[idle := FreshTask(PRIORITY_IDLE, Idle)], [idle])
    ensures Building(map[idle := FreshTask(PRIORITY_IDLE, Idle)], [idle], idle)
  {
  }

  method ActivateIdle(k: Globals, ghost ts: map<Task, TaskV>, ghost rq: seq<Task>)
    requires k.running in ts && Laid(k.runqueue, ts, rq)
    modifies k.running`status
    ensures Laid(k.runqueue, ts[k.running := ts[k.running].(status := Active)], rq)
  {
    assert Holds(k.running, ts[k.running]);
    k.running.status := Active;
  }

  /** The idle task first, then the others, then os_start: the heap holds the state the runs start from. */
  method BootKernel(idle: Task, inits: seq<Init>, ghost mutexes: set<Mutex>, ghost queues: map<Queue, nat>,
                    ghost rwlocks: set<RwLock>, ghost cells: set<Blocked>, ghost rings: set<array<Word>>)
    returns (k: Globals)
    requires Bootable(idle, inits, queues) && Created(mutexes, queues, rwlocks, cells, rings)
    modifies idle, Named(inits)
    ensures fresh(k) && k.cells == cells && k.rings == rings
    ensures Inv(Boot(idle, inits, mutexes, queues, rwlocks)) && Rep(k, Boot(idle, inits, mutexes, queues, rwlocks))
  {
    hide Initialize, Laid, Building, Inv, Rep, Boot, Assemble, Created, TasksHold;
    BootInv(idle, inits, mutexes, queues, rwlocks);
    BootIs(idle, inits, mutexes, queues, rwlocks);
    ghost var ts0 := map[idle := FreshTask(PRIORITY_IDLE, Idle)];
    NoTasks();
    InitializeTask(idle, PRIORITY_IDLE, Idle, map[]);
    assert TasksHold(ts0);
    FirstLaid(idle);
    k := new Globals(idle, cells, rings);
    k.runqueue := AddTasks(idle, inits, idle, ts0, [idle]);
    ghost var r := Initialize(ts0, [idle], inits);
    assert idle in r.0;
    ActivateIdle(k, r.0, r.1);
    ghost var v := Boot(idle, inits, mutexes, queues, rwlocks);
    AssembleIs(r.0[idle := r.0[idle].(status := Active)], r.1, idle, mutexes, queues, rwlocks);
    StartHolds(k, v, mutexes, queues, rwlocks);
  }

  lemma NoTasks()
    ensures TasksHold(map[])
  {
  }

  lemma AssembleIs(ts: map<Task, TaskV>, rq: seq<Task>, idle: Task, mutexes: set<Mutex>, queues: map<Queue, nat>,
                   rwlocks: set<RwLock>)
    ensures var v := Assemble(ts, rq, idle, mutexes, queues, rwlocks);
      v.t == ts && v.rq == rq && v.idle == idle && v.tasks == ts.Keys
  {
  }
}
