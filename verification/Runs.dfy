/** Runs of the kernel: the state the system starts in, and any legal sequence of steps. */
module Runs {
  import opened Types
  import opened Sequences
  import opened Spec
  import opened Invariants
  import opened Steps
  import opened Preservation

  // --------------------------------------------------------------------- boot

  /** One call of os_task_initialize: the task, its priority, and whether it starts suspended. */
  datatype Init = Init(x: Task, priority: nat, suspended: bool)

  function FreshTask(p: nat, st: Status): TaskV {
    TaskV(st, p, 0, FLAG_NONE, NoObj, 0, Ret(0, 0), NoCall)
  }

  /** Records and runqueue after initialising `inits` in order, behind those of `ts` and `rq`. */
  function Initialize(ts: map<Task, TaskV>, rq: seq<Task>, inits: seq<Init>): (r: (map<Task, TaskV>, seq<Task>))
    requires Among(rq, ts.Keys)
    ensures Among(r.1, r.0.Keys)
    decreases |inits|
  {
    if inits == [] then (ts, rq)
    else
      var i := inits[0];
      var ts1 := ts[i.x := FreshTask(i.priority, if i.suspended then Suspended else Idle)];
      AddAmong(rq, ts1, i.x);
      Initialize(ts1, if i.suspended then rq else RunqueueAdd(rq, ts1, i.x), inits[1..])
  }

  /** Objects as their create functions leave them. */
  function FreshMutex(tasks: set<Task>): MutexV {
    MutexV(null, 0, map x | x in tasks :: 0)
  }

  function FreshQueue(size: nat): QueueV {
    QueueV(size, seq(size, _ => 0), 0, 0, 0, Fine, [], [])
  }

  function FreshRwLock(): RwLockV {
    RwLockV(0, 0, null, multiset{})
  }

  /** The objects as created, with nobody waiting. */
  function Assemble(ts: map<Task, TaskV>, rq: seq<Task>, idle: Task, mutexes: set<Mutex>,
                    queues: map<Queue, nat>, rwlocks: set<RwLock>): View
  {
    var objs := (set m | m in mutexes :: OnMutex(m)) + (set q | q in queues :: OnQueue(q))
                + (set r | r in rwlocks :: OnRwLock(r));
    View(ts.Keys, objs, idle, null, idle, rq, [], ts,
         map o | o in objs :: [],
         map m | m in mutexes :: FreshMutex(ts.Keys),
         map q | q in queues :: FreshQueue(queues[q]),
         map r | r in rwlocks :: FreshRwLock())
  }

  /** The state after os_start: `idle` was initialised first, then `inits`. */
  function Boot(idle: Task, inits: seq<Init>, mutexes: set<Mutex>, queues: map<Queue, nat>, rwlocks: set<RwLock>): View
  {
    var (ts, rq) := Initialize(map[idle := FreshTask(PRIORITY_IDLE, Idle)], [idle], inits);
    BootKeepsIdle(map[idle := FreshTask(PRIORITY_IDLE, Idle)], [idle], inits, idle);
    Assemble(ts[idle := ts[idle].(status := Active)], rq, idle, mutexes, queues, rwlocks)
  }

  lemma BootKeepsIdle(ts: map<Task, TaskV>, rq: seq<Task>, inits: seq<Init>, idle: Task)
    requires idle in ts && Among(rq, ts.Keys)
    ensures idle in Initialize(ts, rq, inits).0
    decreases |inits|
  {
    if inits != [] {
      var i := inits[0];
      var ts1 := ts[i.x := FreshTask(i.priority, if i.suspended then Suspended else Idle)];
      AddAmong(rq, ts1, i.x);
      BootKeepsIdle(ts1, if i.suspended then rq else RunqueueAdd(rq, ts1, i.x), inits[1..], idle);
    }
  }

  /** Tasks are distinct, none is the idle task, and none has its priority. */
  ghost predicate Bootable(idle: Task, inits: seq<Init>, queues: map<Queue, nat>) {
    && (forall i :: 0 <= i < |inits| ==> inits[i].x != idle && inits[i].priority > PRIORITY_IDLE)
    && (forall i, j :: 0 <= i < j < |inits| ==> inits[i].x != inits[j].x)
    && (forall q :: q in queues ==> queues[q] >= 1)
  }

  /** A record as initialisation leaves it. */
  predicate Unused(tv: TaskV) {
    tv.back == NoObj && TaskOk(tv) && (tv.status.Idle? || tv.status.Suspended?)
  }

  ghost predicate Building(ts: map<Task, TaskV>, rq: seq<Task>, idle: Task) {
    RunqueueOk(rq, ts) && idle in rq && IdleLowest(ts, idle) && forall x :: x in ts ==> Unused(ts[x])
  }

  lemma BuildOne(ts: map<Task, TaskV>, rq: seq<Task>, x: Task, tv: TaskV, idle: Task)
    requires Building(ts, rq, idle) && x !in ts && Unused(tv) && tv.priority > PRIORITY_IDLE
    ensures var ts1 := ts[x := tv];
      Among(rq, ts1.Keys) && Building(ts1, if tv.status.Suspended? then rq else RunqueueAdd(rq, ts1, x), idle)
  {
    var ts0, ts1 := ts[x := tv.(status := Suspended)], ts[x := tv];
    assert RunqueueOk(rq, ts0);
    assert SameBut(ts0, ts1, x);
    if tv.status.Idle? {
      JoinRunqueue(rq, ts0, ts1, x);
      InsertMembers(rq, PriorityPos(rq, ts1, tv.priority), x);
    }
    hide RunqueueOk;
  }

  lemma {:induction false} InitializeOk(ts: map<Task, TaskV>, rq: seq<Task>, inits: seq<Init>, idle: Task)
    requires Building(ts, rq, idle)
    requires forall i :: 0 <= i < |inits| ==> inits[i].x !in ts && inits[i].priority > PRIORITY_IDLE
    requires forall i, j :: 0 <= i < j < |inits| ==> inits[i].x != inits[j].x
    ensures var r := Initialize(ts, rq, inits); Building(r.0, r.1, idle)
    decreases |inits|
  {
    if inits != [] {
      var i := inits[0];
      var tv := FreshTask(i.priority, if i.suspended then Suspended else Idle);
      BuildOne(ts, rq, i.x, tv, idle);
      hide Building, RunqueueAdd;
      InitializeOk(ts[i.x := tv], if i.suspended then rq else RunqueueAdd(rq, ts[i.x := tv], i.x), inits[1..], idle);
    }
  }

  lemma BootObject(v: View, o: Obj)
    requires Known(v) && o in v.objs && v.lists[o] == []
    requires forall x :: x in v.t ==> v.t[x].back == NoObj
    requires match o
      case NoObj => false
      case OnMutex(m) => m in v.mutexes && v.mutexes[m] == FreshMutex(v.t.Keys)
      case OnQueue(q) => q in v.queues && v.queues[q].size >= 1 && v.queues[q] == FreshQueue(v.queues[q].size)
      case OnRwLock(r) => r in v.rwlocks && v.rwlocks[r] == FreshRwLock()
    ensures ObjectOk(v, o)
  {
  }

  lemma BootSched(r: (map<Task, TaskV>, seq<Task>), ts: map<Task, TaskV>, idle: Task)
    requires Building(r.0, r.1, idle) && r.0[idle].status.Idle?
    requires ts == r.0[idle := r.0[idle].(status := Active)]
    ensures SchedOk(r.1, [], ts, idle) && ActiveOnly(ts, idle) && forall x :: x in ts ==> ts[x].back == NoObj
  {
    assert SameBut(r.0, ts, idle);
    KeepRunqueue(r.1, r.0, ts, idle);
  }

  lemma AssembleObjects(ts: map<Task, TaskV>, rq: seq<Task>, idle: Task, mutexes: set<Mutex>,
                        queues: map<Queue, nat>, rwlocks: set<RwLock>)
    requires idle in ts && Among(rq, ts.Keys) && forall q :: q in queues ==> queues[q] >= 1
    requires forall x :: x in ts ==> ts[x].back == NoObj
    ensures var v := Assemble(ts, rq, idle, mutexes, queues, rwlocks);
      Known(v) && BacksOk(v.t, v.objs) && ObjectsOk(v)
  {
    var v := Assemble(ts, rq, idle, mutexes, queues, rwlocks);
    forall o | o in v.objs
      ensures ObjectOk(v, o)
    {
      BootObject(v, o);
    }
    hide ObjectOk;
  }

  /** The state in which the kernel starts satisfies the invariant. */
  lemma BootInv(idle: Task, inits: seq<Init>, mutexes: set<Mutex>, queues: map<Queue, nat>, rwlocks: set<RwLock>)
    requires Bootable(idle, inits, queues)
    ensures Inv(Boot(idle, inits, mutexes, queues, rwlocks))
  {
    var ts0 := map[idle := FreshTask(PRIORITY_IDLE, Idle)];
    var r := Initialize(ts0, [idle], inits);
    InitializeOk(ts0, [idle], inits, idle);
    assert r.0[idle].status.Idle? by { assert idle in r.1; }
    hide Initialize, SchedOk, ObjectsOk, BacksOk;
    var ts := r.0[idle := r.0[idle].(status := Active)];
    BootSched(r, ts, idle);
    AssembleObjects(ts, r.1, idle, mutexes, queues, rwlocks);
  }

  /** A task as it was asked for, with nothing pending. */
  predicate AsAsked(tv: TaskV, i: Init) {
    tv == TaskV(if i.suspended then Suspended else Idle, i.priority, 0, FLAG_NONE, NoObj, 0, Ret(0, 0), NoCall)
  }

  lemma {:induction false} InitializedAs(ts: map<Task, TaskV>, rq: seq<Task>, inits: seq<Init>)
    requires Among(rq, ts.Keys)
    requires forall i :: 0 <= i < |inits| ==> inits[i].x !in ts
    requires forall i, j :: 0 <= i < j < |inits| ==> inits[i].x != inits[j].x
    ensures var r := Initialize(ts, rq, inits).0;
      && (forall y :: y in r <==> y in ts || exists i :: 0 <= i < |inits| && inits[i].x == y)
      && (forall y :: y in ts ==> r[y] == ts[y])
      && (forall i :: 0 <= i < |inits| ==> AsAsked(r[inits[i].x], inits[i]))
    decreases |inits|
  {
    if inits != [] {
      var i, rest := inits[0], inits[1..];
      var ts1 := ts[i.x := FreshTask(i.priority, if i.suspended then Suspended else Idle)];
      AddAmong(rq, ts1, i.x);
      assert forall j :: 0 <= j < |rest| ==> rest[j] == inits[j + 1];
      hide RunqueueAdd;
      InitializedAs(ts1, if i.suspended then rq else RunqueueAdd(rq, ts1, i.x), rest);
      assert forall j :: 1 <= j < |inits| ==> inits[j] == rest[j - 1];
    }
  }

  /** The kernel starts on the idle task, with every other task as it was asked for, nothing pending, and every object
      free and empty. */
  lemma BootState(idle: Task, inits: seq<Init>, mutexes: set<Mutex>, queues: map<Queue, nat>, rwlocks: set<RwLock>)
    requires Bootable(idle, inits, queues)
    ensures var v := Boot(idle, inits, mutexes, queues, rwlocks);
      && v.running == v.idle == idle && v.scheduled == null && v.wq == []
      && (forall y :: y in v.t <==> y == idle || exists i :: 0 <= i < |inits| && inits[i].x == y)
      && v.t[idle] == TaskV(Active, PRIORITY_IDLE, 0, FLAG_NONE, NoObj, 0, Ret(0, 0), NoCall)
      && (forall i :: 0 <= i < |inits| ==> AsAsked(v.t[inits[i].x], inits[i]))
      && (forall o :: o in v.lists ==> v.lists[o] == [])
      && (forall m :: m in mutexes ==> m in v.mutexes && v.mutexes[m].owner == null && v.mutexes[m].level == 0)
      && (forall q :: q in queues ==> q in v.queues && v.queues[q].size == queues[q] && v.queues[q].number == 0)
      && (forall r :: r in rwlocks ==> r in v.rwlocks && v.rwlocks[r] == RwLockV(0, 0, null, multiset{}))
  {
    hide Initialize;
    InitializedAs(map[idle := FreshTask(PRIORITY_IDLE, Idle)], [idle], inits);
  }

  // --------------------------------------------------------------------- runs

  /** Each action is enabled in the state the ones before it lead to. */
  ghost predicate Legal(v: View, run: seq<Action>)
    decreases |run|
  {
    Known(v) && (run == [] || (Enabled(v, run[0]) && Legal(Step(v, run[0]), run[1..])))
  }

  function Run(v: View, run: seq<Action>): View
    requires Legal(v, run)
    decreases |run|
  {
    if run == [] then v else Run(Step(v, run[0]), run[1..])
  }

  /** The invariant holds in every state of every run. */
  lemma {:induction false} RunInv(v: View, run: seq<Action>)
    requires Inv(v) && Legal(v, run)
    ensures Inv(Run(v, run))
    decreases |run|
  {
    hide Inv, Step, Enabled;
    if run != [] {
      StepInv(v, run[0]);
      RunInv(Step(v, run[0]), run[1..]);
    }
  }
}
