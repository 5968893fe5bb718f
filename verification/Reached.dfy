/** Runs from boot: for each call of `Limits` that can break the invariant, one to a state in which it does,
    and one that holds a whole wait. Three tasks, a mutex and a reader/writer lock are enough. */
module Reached {
  import opened Types
  import opened Sequences
  import opened Spec
  import opened Invariants
  import opened Steps
  import opened Frames
  import opened Preservation
  import opened Runs
  import opened RwLockSteps
  import opened TaskSteps
  import opened Limits
  import opened Waits
  import RunQueue

  datatype Cast = Cast(idle: Task, a: Task, b: Task, c: Task, m: Mutex, r: RwLock)

  predicate Apart(k: Cast) {
    k.idle != k.a && k.idle != k.b && k.idle != k.c && k.a != k.b && k.a != k.c && k.b != k.c
  }

  function Start(k: Cast): View {
    Boot(k.idle, [Init(k.a, 3, false), Init(k.b, 2, false), Init(k.c, 1, false)], {k.m}, map[], {k.r})
  }

  /** The run leads from boot to `v`. */
  ghost predicate Leads(k: Cast, run: seq<Action>, v: View) {
    Legal(Start(k), run) && Run(Start(k), run) == v
  }

  lemma StartInv(k: Cast)
    requires Apart(k)
    ensures Inv(Start(k)) && Known(Start(k)) && Leads(k, [], Start(k))
  {
    BootInv(k.idle, [Init(k.a, 3, false), Init(k.b, 2, false), Init(k.c, 1, false)], {k.m}, map[], {k.r});
    hide Start;
    InvKnown(Start(k));
  }

  lemma {:induction false} Longer(v: View, run: seq<Action>, a: Action)
    requires Inv(v) && Legal(v, run) && Known(Run(v, run)) && Enabled(Run(v, run), a)
    ensures Legal(v, run + [a]) && Run(v, run + [a]) == Step(Run(v, run), a)
    decreases |run|
  {
    hide Inv, Enabled, Step;
    if run == [] {
      assert run + [a] == [a];
      assert Known(Step(v, a)) by { StepInv(v, a); InvKnown(Step(v, a)); }
      assert [a][1..] == [];
    } else {
      StepInv(v, run[0]);
      Longer(Step(v, run[0]), run[1..], a);
      assert (run + [a])[1..] == run[1..] + [a];
    }
  }

  lemma InvKnown(v: View)
    requires Inv(v)
    ensures Known(v)
  {
  }

  /** The action leads from one state to the other. */
  ghost predicate Goes(v: View, a: Action, w: View) {
    Known(v) && Enabled(v, a) && Step(v, a) == w
  }

  lemma OneMore(k: Cast, run: seq<Action>, v: View, a: Action)
    requires Apart(k) && Leads(k, run, v) && Known(v) && Enabled(v, a)
    ensures Inv(v) && Inv(Step(v, a)) && Known(Step(v, a)) && Leads(k, run + [a], Step(v, a))
  {
    hide Start, Inv, Enabled, Step;
    StartInv(k);
    RunInv(Start(k), run);
    StepInv(v, a);
    InvKnown(Step(v, a));
    Longer(Start(k), run, a);
  }

  /** A state of the three tasks. */
  function World(k: Cast, ti: TaskV, ta: TaskV, tb: TaskV, tc: TaskV, running: Task, rq: seq<Task>, wq: seq<Task>,
                 list: seq<Task>, mv: MutexV, rv: RwLockV): View
  {
    View({k.idle, k.a, k.b, k.c}, {OnMutex(k.m), OnRwLock(k.r)}, running, null, k.idle, rq, wq,
         map[k.idle := ti, k.a := ta, k.b := tb, k.c := tc],
         map[OnMutex(k.m) := [], OnRwLock(k.r) := list], map[k.m := mv], map[], map[k.r := rv])
  }

  lemma StartIs(k: Cast)
    requires Apart(k)
    ensures Start(k) == World(k, FreshTask(0, Active), FreshTask(3, Idle), FreshTask(2, Idle), FreshTask(1, Idle),
                              k.idle,
                              [k.a, k.b, k.c, k.idle], [], [], FreshMutex({k.idle, k.a, k.b, k.c}), FreshRwLock())
  {
    hide Initialize, RunqueueAdd, Assemble;
    StartQueue(k);
    var ts: map<Task, TaskV> := map[k.idle := FreshTask(0, Idle), k.a := FreshTask(3, Idle),
                                    k.b := FreshTask(2, Idle), k.c := FreshTask(1, Idle)];
    var ts1: map<Task, TaskV> := ts[k.idle := FreshTask(0, Active)];
    assert ts1 == map[k.idle := FreshTask(0, Active), k.a := FreshTask(3, Idle), k.b := FreshTask(2, Idle),
                      k.c := FreshTask(1, Idle)];
    Assembled(k, ts1, [k.a, k.b, k.c, k.idle]);
  }

  lemma Assembled(k: Cast, ts: map<Task, TaskV>, rq: seq<Task>)
    requires Apart(k) && ts.Keys == {k.idle, k.a, k.b, k.c}
    ensures Assemble(ts, rq, k.idle, {k.m}, map[], {k.r})
      == World(k, ts[k.idle], ts[k.a], ts[k.b], ts[k.c], k.idle, rq, [], [], FreshMutex({k.idle, k.a, k.b, k.c}),
               FreshRwLock())
  {
    var v := Assemble(ts, rq, k.idle, {k.m}, map[], {k.r});
    var w := World(k, ts[k.idle], ts[k.a], ts[k.b], ts[k.c], k.idle, rq, [], [], FreshMutex({k.idle, k.a, k.b, k.c}),
                   FreshRwLock());
    assert v.objs == w.objs;
    assert v.t == w.t;
    assert v.lists == w.lists;
    assert v.mutexes == w.mutexes;
    assert v.queues == w.queues;
    assert v.rwlocks == w.rwlocks;
  }

  lemma StartQueue(k: Cast)
    requires Apart(k)
    ensures Initialize(map[k.idle := FreshTask(0, Idle)], [k.idle],
                       [Init(k.a, 3, false), Init(k.b, 2, false), Init(k.c, 1, false)])
      == (map[k.idle := FreshTask(0, Idle), k.a := FreshTask(3, Idle), k.b := FreshTask(2, Idle),
              k.c := FreshTask(1, Idle)],
          [k.a, k.b, k.c, k.idle])
  {
    hide Initialize;
    var ts: map<Task, TaskV> := map[k.idle := FreshTask(0, Idle)];
    var ia, ib, ic := Init(k.a, 3, false), Init(k.b, 2, false), Init(k.c, 1, false);
    var ts1: map<Task, TaskV> := ts[k.a := FreshTask(3, Idle)];
    var ts2: map<Task, TaskV> := ts1[k.b := FreshTask(2, Idle)];
    var ts3: map<Task, TaskV> := ts2[k.c := FreshTask(1, Idle)];
    OneInit(ts, [k.idle], ia, [ib, ic], 0);
    assert InsertAt([k.idle], 0, k.a) == [k.a, k.idle];
    OneInit(ts1, [k.a, k.idle], ib, [ic], 1);
    assert InsertAt([k.a, k.idle], 1, k.b) == [k.a, k.b, k.idle];
    OneInit(ts2, [k.a, k.b, k.idle], ic, [], 2);
    assert InsertAt([k.a, k.b, k.idle], 2, k.c) == [k.a, k.b, k.c, k.idle];
    NoInit(ts3, [k.a, k.b, k.c, k.idle]);
    assert [ia] + [ib, ic] == [ia, ib, ic] && [ib] + [ic] == [ib, ic] && [ic] + [] == [ic];
    assert ts3 == map[k.idle := FreshTask(0, Idle), k.a := FreshTask(3, Idle), k.b := FreshTask(2, Idle),
                      k.c := FreshTask(1, Idle)];
  }

  lemma NoInit(ts: map<Task, TaskV>, rq: seq<Task>)
    requires Among(rq, ts.Keys)
    ensures Initialize(ts, rq, []) == (ts, rq)
  {
  }

  /** Initialising a task puts it behind the first `p`. */
  lemma OneInit(ts: map<Task, TaskV>, rq: seq<Task>, i: Init, rest: seq<Init>, p: nat)
    requires Among(rq, ts.Keys) && i.x !in ts && i.x !in rq && !i.suspended && p < |rq|
    requires forall j :: 0 <= j < p ==> ts[rq[j]].priority >= i.priority
    requires ts[rq[p]].priority < i.priority
    ensures var ts1 := ts[i.x := FreshTask(i.priority, Idle)];
      && Among(InsertAt(rq, p, i.x), ts1.Keys)
      && Initialize(ts, rq, [i] + rest) == Initialize(ts1, InsertAt(rq, p, i.x), rest)
  {
    var ts1 := ts[i.x := FreshTask(i.priority, Idle)];
    RunQueue.AddedAt(rq, ts1, i.x, p);
    AddAmong(rq, ts1, i.x);
    assert ([i] + rest)[1..] == rest;
    hide RunqueueAdd, InsertAt;
  }

  // ------------------------------------------------------------------- one step

  function Running(tv: TaskV): TaskV {
    tv.(delay := 0, flags := FLAG_NONE, status := Active)
  }

  /** Nobody is due, and the head of the runqueue gets the processor. */
  lemma HeadRuns(v: View, now: nat)
    requires Known(v) && v.scheduled == null && |v.rq| > 0 && v.rq[0] != v.running
    requires |v.wq| > 0 ==> !Expired(v.t[v.wq[0]], now)
    requires v.t[v.running].status.Wait?
      || (v.t[v.running].status.Active? && v.t[v.rq[0]].priority > v.t[v.running].priority)
    requires v.t[v.rq[0]].status.Idle? && v.t[v.rq[0]].back !in v.lists
    ensures var me, x := v.running, v.rq[0];
      var ts := if v.t[me].status.Active? then v.t[me := v.t[me].(status := Idle)] else v.t;
      Schedule(v, now) == v.(t := ts[x := Running(v.t[x])], scheduled := x)
  {
    var me, x := v.running, v.rq[0];
    var ts := if v.t[me].status.Active? then v.t[me := v.t[me].(status := Idle)] else v.t;
    assert Pick(v) == x;
    assert Unblock(v, x) == v;
    assert Retire(v) == v.(t := ts);
    assert Promote(v.(t := ts), x) == v.(t := ts[x := Running(v.t[x])], scheduled := x);
    hide Pick;
  }

  function NoMutex(k: Cast): MutexV {
    FreshMutex({k.idle, k.a, k.b, k.c})
  }

  /** The task of highest priority has been given the processor. */
  function Begun(k: Cast): View {
    World(k, FreshTask(0, Idle), FreshTask(3, Active), FreshTask(2, Idle), FreshTask(1, Idle), k.a,
          [k.a, k.b, k.c, k.idle], [], [], NoMutex(k), FreshRwLock())
  }

  lemma Begins(k: Cast)
    requires Apart(k)
    ensures Leads(k, [Tick(0)], Begun(k)) && Inv(Begun(k)) && Known(Begun(k))
  {
    hide Inv, Leads, Schedule, Start;
    StartInv(k);
    StartIs(k);
    var v := Start(k);
    HeadRuns(v, 0);
    OneMore(k, [], v, Tick(0));
    assert [] + [Tick(0)] == [Tick(0)];
    assert Step(v, Tick(0)).t == Begun(k).t;
  }

  // ------------------------------------------------------- after the first tick

  /** A delay of zero with nobody else of the same priority: see ZeroDelayExact. */
  lemma ZeroDelayFails(k: Cast, now: nat)
    requires Apart(k)
    ensures Leads(k, [Tick(0)], Begun(k)) && Inv(Begun(k)) && Executing(Begun(k))
    ensures now < UINT32_MAX ==> Delay(Begun(k), 0, now).scheduled == null
  {
    hide Inv, Leads, Delay;
    Begins(k);
    if now < UINT32_MAX {
      assert !OtherCanRun(Begun(k), now);
      ZeroDelayExact(Begun(k), now);
    }
  }

  /** The running task suspends itself and is resumed by an interrupt before the switch: see ResumeExact. */
  lemma ResumeFails(k: Cast)
    requires Apart(k)
    ensures var run, w := [Tick(0), Suspend(k.a)], StatusSet(Begun(k), k.a, Suspended);
      && Leads(k, run, w) && Inv(w) && w.running == k.a && w.t[k.a].status.Suspended? && !Inv(StatusSet(w, k.a, Idle))
  {
    hide Inv, Leads;
    Begins(k);
    OneMore(k, [Tick(0)], Begun(k), Suspend(k.a));
    assert [Tick(0)] + [Suspend(k.a)] == [Tick(0), Suspend(k.a)];
    hide StatusSet;
    ResumeExact(StatusSet(Begun(k), k.a, Suspended), k.a);
  }

  /** The running task returns from its handler and is started again before the switch: see StartExact. */
  lemma StartFails(k: Cast, p: nat)
    requires Apart(k) && PRIORITY_IDLE < p
    ensures var run, w := [Tick(0), Finish], StatusSet(Begun(k), k.a, Finished);
      && Leads(k, run, w) && Inv(w) && Known(w) && w.running == k.a && w.t[k.a].status.Finished?
      && !Inv(StartAgain(w, k.a, p))
  {
    hide Inv, Leads;
    Begins(k);
    OneMore(k, [Tick(0)], Begun(k), Finish);
    assert [Tick(0)] + [Finish] == [Tick(0), Finish];
    hide StatusSet, StartAgain;
    StartExact(StatusSet(Begun(k), k.a, Finished), k.a, p);
  }

  // ------------------------------------------------------------------- counters

  /** The running task makes the same call `n` times. */
  function Repeated(a: Action, n: nat): (run: seq<Action>) {
    [Tick(0)] + seq(n, _ => a)
  }

  lemma RepeatedOnce(a: Action, n: nat)
    ensures Repeated(a, 0) == [Tick(0)] && Repeated(a, n) + [a] == Repeated(a, n + 1)
  {
  }

  ghost predicate Nested(k: Cast, v: View, n: nat) {
    && Known(v) && v.running in v.t && v.t[v.running].status.Active? && v.scheduled == null && MutexKnown(v, k.m)
    && v.mutexes[k.m].level == n && (n > 0 ==> v.mutexes[k.m].owner == v.running)
  }

  lemma NestOnce(k: Cast, v: View, n: nat)
    requires Nested(k, v, n) && n + 1 < UINT16_LIMIT
    ensures Enabled(v, Acquire(k.m, 0, 0)) && Nested(k, Step(v, Acquire(k.m, 0, 0)), n + 1)
  {
  }

  lemma NestNone(k: Cast)
    requires Apart(k)
    ensures Leads(k, Repeated(Acquire(k.m, 0, 0), 0), Begun(k)) && Inv(Begun(k)) && Nested(k, Begun(k), 0)
  {
    hide Inv, Leads;
    RepeatedOnce(Acquire(k.m, 0, 0), 0);
    Begins(k);
  }

  lemma {:induction false} NestTimes(k: Cast, n: nat) returns (v: View)
    requires Apart(k) && n < UINT16_LIMIT
    ensures Leads(k, Repeated(Acquire(k.m, 0, 0), n), v) && Nested(k, v, n) && Inv(v)
    decreases n
  {
    hide *;
    var a := Acquire(k.m, 0, 0);
    if n == 0 {
      NestNone(k);
      return Begun(k);
    }
    var w := NestTimes(k, n - 1);
    InvKnown(w);
    NestOnce(k, w, n - 1);
    OneMore(k, Repeated(a, n - 1), w, a);
    RepeatedOnce(a, n - 1);
    return Step(w, a);
  }

  /** Nesting 65535 deep, and once more: see AcquireExact. */
  lemma AcquireFails(k: Cast) returns (v: View)
    requires Apart(k)
    ensures Leads(k, Repeated(Acquire(k.m, 0, 0), UINT16_LIMIT - 1), v)
    ensures Inv(v) && Known(v) && MutexKnown(v, k.m) && !Inv(Return(v, MutexAcquire(v, k.m, 0, 0)))
  {
    hide Inv, Leads, Repeated, MutexAcquire, Return;
    v := NestTimes(k, UINT16_LIMIT - 1);
    AcquireExact(v, k.m, 0, 0);
  }

  ghost predicate ReadBy(k: Cast, v: View, n: nat) {
    && Known(v) && v.running in v.t && v.t[v.running].status.Active? && v.scheduled == null && RwLockKnown(v, k.r)
    && v.rwlocks[k.r].readers == n && v.rwlocks[k.r].writers == 0
  }

  lemma ReadOnce(k: Cast, v: View, n: nat)
    requires ReadBy(k, v, n) && n + 1 < UINT16_LIMIT
    ensures Enabled(v, ReadLock(k.r, 0, 0)) && ReadBy(k, Step(v, ReadLock(k.r, 0, 0)), n + 1)
  {
  }

  lemma ReadNone(k: Cast)
    requires Apart(k)
    ensures Leads(k, Repeated(ReadLock(k.r, 0, 0), 0), Begun(k)) && Inv(Begun(k)) && ReadBy(k, Begun(k), 0)
  {
    hide Inv, Leads;
    RepeatedOnce(ReadLock(k.r, 0, 0), 0);
    Begins(k);
  }

  lemma {:induction false} ReadTimes(k: Cast, n: nat) returns (v: View)
    requires Apart(k) && n < UINT16_LIMIT
    ensures Leads(k, Repeated(ReadLock(k.r, 0, 0), n), v) && ReadBy(k, v, n) && Inv(v)
    decreases n
  {
    hide *;
    var a := ReadLock(k.r, 0, 0);
    if n == 0 {
      ReadNone(k);
      return Begun(k);
    }
    var w := ReadTimes(k, n - 1);
    InvKnown(w);
    ReadOnce(k, w, n - 1);
    OneMore(k, Repeated(a, n - 1), w, a);
    RepeatedOnce(a, n - 1);
    return Step(w, a);
  }

  /** Reading 65535 times over, and once more: see ReadExact. */
  lemma ReadFails(k: Cast) returns (v: View)
    requires Apart(k)
    ensures Leads(k, Repeated(ReadLock(k.r, 0, 0), UINT16_LIMIT - 1), v)
    ensures Inv(v) && Known(v) && RwLockKnown(v, k.r) && !Inv(Return(v, AcquireRead(v, k.r, 0, 0)))
  {
    hide Inv, Leads, Repeated, AcquireRead, Return;
    v := ReadTimes(k, UINT16_LIMIT - 1);
    ReadExact(v, k.r, 0, 0);
  }

  // ------------------------------------------------------- two readers behind a writer

  function Held(k: Cast): RwLockV {
    RwLockV(0, 1, k.a, multiset{})
  }

  function Asleep3(st: Status, delay: nat): TaskV {
    TaskV(st, 3, delay, FLAG_NONE, NoObj, 0, Status0(OSS_ERROR_TO), NoCall)
  }

  function Reader(k: Cast, st: Status, p: nat, delay: nat, r: Ret): TaskV {
    TaskV(st, p, delay, FLAG_RWLOCK, OnRwLock(k.r), DESIRED_READ, r, Read)
  }

  /** The first task has the lock for writing ... */
  function Locked(k: Cast): View {
    Begun(k).(rwlocks := map[k.r := Held(k)])
  }

  /** ... sleeps until 10 ... */
  function Sleeping(k: Cast): View {
    World(k, FreshTask(0, Idle), Asleep3(Wait, 10), FreshTask(2, Active), FreshTask(1, Idle), k.b,
          [k.b, k.c, k.idle], [k.a], [], NoMutex(k), Held(k))
  }

  /** ... the second task waits to read, until 21 ... */
  function OneReader(k: Cast): View {
    World(k, FreshTask(0, Idle), Asleep3(Wait, 10), Reader(k, Wait, 2, 21, Status0(OSS_ERROR_TO)),
          FreshTask(1, Active), k.c,
          [k.c, k.idle], [k.a, k.b], [k.b], NoMutex(k), Held(k))
  }

  lemma Locks(k: Cast)
    requires Apart(k)
    ensures Leads(k, [Tick(0), WriteLock(k.r, 0, 0)], Locked(k)) && Known(Locked(k))
  {
    hide Inv, Leads;
    Begins(k);
    var a := WriteLock(k.r, 0, 0);
    OneMore(k, [Tick(0)], Begun(k), a);
    assert [Tick(0)] + [a] == [Tick(0), a];
    assert Step(Begun(k), a).t == Locked(k).t && Step(Begun(k), a).rwlocks == Locked(k).rwlocks;
  }

  /** The running task goes to sleep: it is first on the runqueue and last on the waitqueue. */
  lemma Sleeps(v: View, b: View, ms: nat, now: nat)
    requires Known(v) && Known(b) && |v.rq| > 0 && v.rq[0] == v.running && v.scheduled == null
    requires forall i :: 0 <= i < |v.wq| ==> v.t[v.wq[i]].delay <= Deadline(ms, now)
    requires b == v.(t := v.t[v.running := v.t[v.running].(delay := Deadline(ms, now), status := Wait)],
                     rq := v.rq[1..], wq := v.wq + [v.running]) && v.running !in v.wq
    ensures Delay(v, ms, now) == Schedule(b, now)
  {
    var me := v.running;
    var v1 := v.(t := v.t[me := v.t[me].(delay := Deadline(ms, now))]);
    StatusSetKnown(v1, me, Wait);
    var ts := b.t;
    assert v1.t[me := v1.t[me].(status := Wait)] == ts;
    assert Without(v.rq, me) == v.rq[1..];
    assert DeadlinePos(v.wq, ts, ts[me].delay) == |v.wq|;
    assert WaitqueueAdd(v.wq, ts, me) == v.wq + [me];
    hide Schedule;
  }

  lemma GoesToSleep(k: Cast)
    requires Apart(k)
    ensures Leads(k, [Tick(0), WriteLock(k.r, 0, 0), Sleep(10, 0)], Sleeping(k))
    ensures Known(Sleeping(k)) && Inv(Sleeping(k))
  {
    hide Inv, Leads, Schedule, Delay;
    Locks(k);
    var v, a := Locked(k), Sleep(10, 0);
    var b := World(k, FreshTask(0, Idle), FreshTask(3, Wait).(delay := 10), FreshTask(2, Idle), FreshTask(1, Idle), k.a,
                   [k.b, k.c, k.idle], [k.a], [], NoMutex(k), Held(k));
    Sleeps(v, b, 10, 0);
    HeadRuns(b, 0);
    OneMore(k, [Tick(0), WriteLock(k.r, 0, 0)], v, a);
    assert [Tick(0), WriteLock(k.r, 0, 0)] + [a] == [Tick(0), WriteLock(k.r, 0, 0), a];
    assert Step(v, a) == Sleeping(k);
  }

  lemma Raised()
    ensures Raise(FLAG_NONE, FLAG_RWLOCK) == FLAG_RWLOCK
  {
  }

  /** A task that is about to read waits instead, behind those that wait already. */
  lemma WaitsToRead(k: Cast, v: View, e: View, to: nat, now: nat)
    requires Known(v) && Known(e) && RwLockKnown(v, k.r) && v.rwlocks[k.r].writers > 0 && to > 0
    requires v.t[v.running].flags == FLAG_NONE
    requires e == v.(t := v.t[v.running := v.t[v.running].(back := OnRwLock(k.r), flags := FLAG_RWLOCK, call := Read,
                                                           c := DESIRED_READ)],
                     lists := v.lists[OnRwLock(k.r) := v.lists[OnRwLock(k.r)] + [v.running]])
    ensures AcquireRead(v, k.r, to, now) == Out(Delay(e, to, now), Status0(OSS_ERROR_TO))
  {
    Raised();
    var v1 := v.(t := v.t[v.running := v.t[v.running].(c := DESIRED_READ)]);
    assert Enlist(v1, OnRwLock(k.r), Read) == e;
    hide Delay;
  }

  function Waiter(k: Cast, tv: TaskV, to: nat, now: nat): TaskV {
    tv.(back := OnRwLock(k.r), flags := FLAG_RWLOCK, call := Read, c := DESIRED_READ, delay := Deadline(to, now),
        status := Wait)
  }

  /** The running task, first on the runqueue, asks to read and waits; the second gets the processor. */
  ghost predicate MayWait(k: Cast, v: View, to: nat, now: nat) {
    && Known(v) && RwLockKnown(v, k.r) && v.rwlocks[k.r].writers > 0 && v.scheduled == null
    && v.t[v.running].flags == FLAG_NONE && 0 < to && now < Deadline(to, now)
    && |v.rq| > 1 && v.rq[0] == v.running && v.rq[1] != v.running
    && v.t[v.rq[1]].status.Idle? && v.t[v.rq[1]].back !in v.lists
    && (forall i :: 0 <= i < |v.wq| ==> v.wq[i] != v.running && now < v.t[v.wq[i]].delay <= Deadline(to, now))
  }

  lemma ReaderSleeps(k: Cast, v: View, to: nat, now: nat)
    requires MayWait(k, v, to, now)
    ensures var me, x, o := v.running, v.rq[1], OnRwLock(k.r);
      AcquireRead(v, k.r, to, now) ==
        Out(v.(t := v.t[me := Waiter(k, v.t[me], to, now)][x := Running(v.t[x])],
               lists := v.lists[o := v.lists[o] + [me]],
               rq := v.rq[1..], wq := v.wq + [me], scheduled := x),
            Status0(OSS_ERROR_TO))
  {
    hide AcquireRead, Delay, Schedule;
    var me, o := v.running, OnRwLock(k.r);
    var tv := v.t[me].(back := o, flags := FLAG_RWLOCK, call := Read, c := DESIRED_READ);
    var e := v.(t := v.t[me := tv], lists := v.lists[o := v.lists[o] + [me]]);
    var b := e.(t := v.t[me := Waiter(k, v.t[me], to, now)], rq := v.rq[1..], wq := v.wq + [me]);
    assert b.t == e.t[me := Waiter(k, v.t[me], to, now)];
    assert b.wq[0] == if |v.wq| > 0 then v.wq[0] else me;
    WaitsToRead(k, v, e, to, now);
    Sleeps(e, b, to, now);
    HeadRuns(b, now);
  }

  function ToOneReader(k: Cast): seq<Action> {
    [Tick(0), WriteLock(k.r, 0, 0), Sleep(10, 0), ReadLock(k.r, 20, 1)]
  }

  lemma FirstReaderWaits(k: Cast)
    requires Apart(k)
    ensures Leads(k, ToOneReader(k), OneReader(k)) && Known(OneReader(k))
    ensures Goes(Sleeping(k), ReadLock(k.r, 20, 1), OneReader(k))
  {
    hide Inv, Leads, AcquireRead;
    GoesToSleep(k);
    var v, a := Sleeping(k), ReadLock(k.r, 20, 1);
    ReaderSleeps(k, v, 20, 1);
    OneMore(k, [Tick(0), WriteLock(k.r, 0, 0), Sleep(10, 0)], v, a);
    assert [Tick(0), WriteLock(k.r, 0, 0), Sleep(10, 0)] + [a] == ToOneReader(k);
    SameWorld(Step(v, a), OneReader(k), k);
  }

  /** Two states of the three tasks are the same if their parts are. */
  lemma SameWorld(v: View, w: View, k: Cast)
    requires v.tasks == w.tasks && v.objs == w.objs
    requires v.running == w.running && v.scheduled == w.scheduled && v.idle == w.idle
    requires v.rq == w.rq && v.wq == w.wq && v.mutexes == w.mutexes && v.queues == w.queues && v.rwlocks == w.rwlocks
    requires v.t.Keys == w.t.Keys == {k.idle, k.a, k.b, k.c}
    requires v.t[k.idle] == w.t[k.idle] && v.t[k.a] == w.t[k.a] && v.t[k.b] == w.t[k.b] && v.t[k.c] == w.t[k.c]
    requires v.lists.Keys == w.lists.Keys == {OnMutex(k.m), OnRwLock(k.r)}
    requires v.lists[OnMutex(k.m)] == w.lists[OnMutex(k.m)] && v.lists[OnRwLock(k.r)] == w.lists[OnRwLock(k.r)]
    ensures v == w
  {
    assert v.t == w.t && v.lists == w.lists;
  }

  /** ... the third waits to read, for ever ... */
  function TwoReaders(k: Cast): View {
    World(k, FreshTask(0, Active), Asleep3(Wait, 10), Reader(k, Wait, 2, 21, Status0(OSS_ERROR_TO)),
          Reader(k, Wait, 1, UINT32_MAX, Status0(OSS_ERROR_TO)), k.idle,
          [k.idle], [k.a, k.b, k.c], [k.b, k.c], NoMutex(k), Held(k))
  }

  function ToTwoReaders(k: Cast): seq<Action> {
    ToOneReader(k) + [ReadLock(k.r, UINT32_MAX, 2)]
  }

  lemma SecondReaderWaits(k: Cast)
    requires Apart(k)
    ensures Leads(k, ToTwoReaders(k), TwoReaders(k)) && Known(TwoReaders(k))
    ensures Goes(OneReader(k), ReadLock(k.r, UINT32_MAX, 2), TwoReaders(k))
  {
    hide Inv, Leads, AcquireRead;
    FirstReaderWaits(k);
    var v, a := OneReader(k), ReadLock(k.r, UINT32_MAX, 2);
    ReaderSleeps(k, v, UINT32_MAX, 2);
    OneMore(k, ToOneReader(k), v, a);
    SameWorld(Step(v, a), TwoReaders(k), k);
  }

  /** ... the writer wakes up and runs again ... */
  function WriterBack(k: Cast): View {
    World(k, FreshTask(0, Idle), Asleep3(Active, 0), Reader(k, Wait, 2, 21, Status0(OSS_ERROR_TO)),
          Reader(k, Wait, 1, UINT32_MAX, Status0(OSS_ERROR_TO)), k.a,
          [k.a, k.idle], [k.b, k.c], [k.b, k.c], NoMutex(k), Held(k))
  }

  function ToWriterBack(k: Cast): seq<Action> {
    ToTwoReaders(k) + [Tick(10)]
  }

  /** The head of the waitqueue is due, and goes behind the first `p` of the runqueue. */
  lemma HeadWakes(v: View, p: nat, now: nat)
    requires Known(v) && |v.wq| > 0 && Expired(v.t[v.wq[0]], now) && v.t[v.wq[0]].status.Wait? && v.wq[0] !in v.rq
    requires v.scheduled == null && !v.t[v.running].status.Idle? && v.running != v.wq[0]
    requires |v.wq| > 1 ==> v.wq[1] != v.wq[0] && !Expired(v.t[v.wq[1]], now)
    requires p < |v.rq| && v.t[v.rq[p]].priority < v.t[v.wq[0]].priority
    requires forall j :: 0 <= j < p ==> v.t[v.rq[j]].priority >= v.t[v.wq[0]].priority
    ensures var x := v.wq[0];
      var w := v.(t := v.t[x := v.t[x].(status := Idle)], rq := InsertAt(v.rq, p, x), wq := v.wq[1..]);
      Known(w) && Wake(w, now) == w && Schedule(v, now) == Schedule(w, now)
  {
    var x := v.wq[0];
    var ts := v.t[x := v.t[x].(status := Idle)];
    RunQueue.AddedAt(v.rq, ts, x, p);
    assert Without(v.wq, x) == v.wq[1..];
    StatusSetKnown(v, x, Idle);
    hide RunqueueAdd, InsertAt, Without, Pick, Dispatch;
  }

  lemma WriterRunsAgain(k: Cast)
    requires Apart(k)
    ensures Leads(k, ToWriterBack(k), WriterBack(k)) && Known(WriterBack(k)) && Inv(WriterBack(k))
    ensures Goes(TwoReaders(k), Tick(10), WriterBack(k))
  {
    hide Inv, Leads, Schedule;
    SecondReaderWaits(k);
    var v, a := TwoReaders(k), Tick(10);
    HeadWakes(v, 0, 10);
    var w := v.(t := v.t[k.a := Asleep3(Idle, 10)], rq := InsertAt(v.rq, 0, k.a), wq := [k.b, k.c]);
    assert v.wq[1..] == [k.b, k.c];
    HeadRuns(w, 10);
    OneMore(k, ToTwoReaders(k), v, a);
    SameWorld(Step(v, a), WriterBack(k), k);
  }

  lemma TwoWait(k: Cast)
    requires Apart(k)
    ensures var v := WriterBack(k);
      && Known(v) && RwLockKnown(v, k.r) && EntersLoop(v, k.r) && v.rwlocks[k.r].writer == v.running
      && FirstReader([k.b, k.c], v.t) == 0 && Readers(v.lists[OnRwLock(k.r)], v.t) == [k.b, k.c]
      && ReaderStillWaits(v, k.r)
  {
    var ts := WriterBack(k).t;
    assert Readers([], ts) == [] && [k.c][1..] == [] && [k.b, k.c][1..] == [k.c];
    assert Readers([k.c], ts) == [k.c];
  }

  lemma LoopGrants(v: View, r: RwLock, now: nat)
    requires Known(v) && RwLockKnown(v, r) && EntersLoop(v, r) && FirstReader(v.lists[OnRwLock(r)], v.t) == 0
    ensures var list, w, rv := v.lists[OnRwLock(r)], RwRelease(v, r, now).v, DropHold(v.rwlocks[r], v.running);
      && w.lists == v.lists[OnRwLock(r) := list[1..]]
      && w.rwlocks == v.rwlocks[r := rv.(readers := (rv.readers + 1) % UINT16_LIMIT,
                                         holds := rv.holds + multiset{list[0]})]
  {
    hide FirstReader, DropHold, RunqueueAdd, WaitqueueAdd, Without;
    var list, d := v.lists[OnRwLock(r)], Dropped(v, r);
    GrantKnown(d, r, 0);
    assert list[..0] + list[1..] == list[1..];
    assert d.rwlocks[r := d.rwlocks[r]] == d.rwlocks;
  }

  /** A release here serves the second task, and leaves the third waiting for a lock that is open to it:
      see ServesAllExact. */
  lemma OneReaderIsLeft(k: Cast, now: nat)
    requires Apart(k)
    ensures var v, o := WriterBack(k), OnRwLock(k.r);
      && Leads(k, ToWriterBack(k), v) && Inv(v) && Known(v) && RwLockKnown(v, k.r) && EntersLoop(v, k.r)
      && Readers(v.lists[o], v.t) == [k.b, k.c]
      && (var w := RwRelease(v, k.r, now).v;
          && o in w.lists && w.lists[o] == [k.c]
          && k.r in w.rwlocks && w.rwlocks[k.r] == RwLockV(1, 0, null, multiset{k.b}))
  {
    hide Inv, Leads, Goes, FirstReader, Readers, RwRelease, EntersLoop;
    WriterRunsAgain(k);
    TwoWait(k);
    LoopGrants(WriterBack(k), k.r, now);
    assert [k.b, k.c][1..] == [k.c];
    assert multiset{} + multiset{k.b} == multiset{k.b};
  }

  /** Starting the second task here, while it waits for the lock: see StartExact. */
  lemma StartListedFails(k: Cast, p: nat)
    requires Apart(k) && PRIORITY_IDLE < p
    ensures var v := WriterBack(k);
      && Leads(k, ToWriterBack(k), v) && Inv(v) && Known(v) && k.b != v.running && OnItsList(v, k.b)
      && !Runnable(v.t[k.b].status) && !Inv(StartAgain(v, k.b, p))
  {
    hide Inv, Leads, Goes, StartAgain;
    WriterRunsAgain(k);
    StartExact(WriterBack(k), k.b, p);
  }

  // ----------------------------------------------------------- a woken reader

  /** ... and the second task's timeout wakes it, while the writer goes on. */
  function ReaderWoken(k: Cast): View {
    World(k, FreshTask(0, Idle), Asleep3(Active, 0), Reader(k, Idle, 2, 21, Status0(OSS_ERROR_TO)),
          Reader(k, Wait, 1, UINT32_MAX, Status0(OSS_ERROR_TO)), k.a,
          [k.a, k.b, k.idle], [k.c], [k.b, k.c], NoMutex(k), Held(k))
  }

  lemma ReaderWakes(k: Cast)
    requires Apart(k)
    ensures Leads(k, ToWriterBack(k) + [Tick(21)], ReaderWoken(k)) && Known(ReaderWoken(k)) && Inv(ReaderWoken(k))
  {
    hide Inv, Leads, Goes, Dispatch;
    WriterRunsAgain(k);
    var v, a := WriterBack(k), Tick(21);
    HeadWakes(v, 1, 21);
    var w := v.(t := v.t[k.b := Reader(k, Idle, 2, 21, Status0(OSS_ERROR_TO))], rq := InsertAt(v.rq, 1, k.b),
                wq := [k.c]);
    assert v.wq[1..] == [k.c] && w.rq == [k.a, k.b, k.idle];
    assert Pick(w) == k.a;
    OneMore(k, ToWriterBack(k), v, a);
    SameWorld(Step(v, a), ReaderWoken(k), k);
  }

  /** A release here breaks the invariant: see UnlockExact. */
  lemma UnlockFails(k: Cast, now: nat)
    requires Apart(k)
    ensures var v := ReaderWoken(k);
      && Leads(k, ToWriterBack(k) + [Tick(21)], v) && Inv(v) && Known(v) && RwLockKnown(v, k.r)
      && v.rwlocks[k.r].writer == v.running && !ReaderStillWaits(v, k.r) && !Inv(Return(v, RwRelease(v, k.r, now)))
  {
    hide Inv, Leads, Goes, Return, RwRelease;
    ReaderWakes(k);
    UnlockExact(ReaderWoken(k), k.r, now);
  }

  // ------------------------------------------------------------- a whole wait

  /** The writer has released the lock to the second task, and goes on. */
  function Released(k: Cast): View {
    World(k, FreshTask(0, Idle), FreshTask(3, Active),
          TaskV(Idle, 2, 21, FLAG_RWLOCK, OnRwLock(k.r), DESIRED_NONE, Status0(OSS_SUCCESS), Read),
          Reader(k, Wait, 1, UINT32_MAX, Status0(OSS_ERROR_TO)), k.a,
          [k.a, k.b, k.idle], [k.c], [k.c], NoMutex(k), RwLockV(1, 0, null, multiset{k.b}))
  }

  lemma GrantIs(k: Cast)
    requires Apart(k)
    ensures var g := GrantRead(Dropped(WriterBack(k), k.r), k.r, 0);
      && Known(g)
      && g == World(k, FreshTask(0, Idle), Asleep3(Active, 0),
                    TaskV(Wait, 2, 21, FLAG_RWLOCK, OnRwLock(k.r), DESIRED_NONE, Status0(OSS_SUCCESS), Read),
                    Reader(k, Wait, 1, UINT32_MAX, Status0(OSS_ERROR_TO)), k.a,
                    [k.a, k.idle], [k.b, k.c], [k.c], NoMutex(k), RwLockV(1, 0, null, multiset{k.b}))
  {
    var v := WriterBack(k);
    var d := Dropped(v, k.r);
    GrantKnown(d, k.r, 0);
    var g := GrantRead(d, k.r, 0);
    assert [k.b, k.c][..0] + [k.b, k.c][1..] == [k.c];
    assert multiset{} + multiset{k.b} == multiset{k.b};
    SameWorld(g, World(k, FreshTask(0, Idle), Asleep3(Active, 0),
                       TaskV(Wait, 2, 21, FLAG_RWLOCK, OnRwLock(k.r), DESIRED_NONE, Status0(OSS_SUCCESS), Read),
                       Reader(k, Wait, 1, UINT32_MAX, Status0(OSS_ERROR_TO)), k.a,
                       [k.a, k.idle], [k.b, k.c], [k.c], NoMutex(k), g.rwlocks[k.r]), k);
  }

  lemma WakesBehind(g: View, x: Task, p: nat)
    requires Known(g) && x in g.t && g.t[x].status.Wait? && x !in g.rq && |g.wq| > 0 && g.wq[0] == x && x !in g.wq[1..]
    requires p < |g.rq| && g.t[g.rq[p]].priority < g.t[x].priority
    requires forall j :: 0 <= j < p ==> g.t[g.rq[j]].priority >= g.t[x].priority
    ensures StatusSet(g, x, Idle)
      == g.(t := g.t[x := g.t[x].(status := Idle)], rq := InsertAt(g.rq, p, x), wq := g.wq[1..])
  {
    var ts := g.t[x := g.t[x].(status := Idle)];
    RunQueue.AddedAt(g.rq, ts, x, p);
    assert Without(g.wq, x) == g.wq[1..];
    hide RunqueueAdd, InsertAt, Without;
  }

  lemma ReleaseIs(k: Cast, now: nat)
    requires Apart(k)
    ensures var v := WriterBack(k);
      && Known(v) && RwLockKnown(v, k.r) && RwRelease(v, k.r, now).r == Status0(OSS_SUCCESS)
      && RwRelease(v, k.r, now).v == Released(k).(t := Released(k).t[k.a := Asleep3(Active, 0)])
  {
    TwoWait(k);
    GrantIs(k);
    var g := GrantRead(Dropped(WriterBack(k), k.r), k.r, 0);
    WakesBehind(g, k.b, 1);
    assert [k.a, k.idle][..1] + [k.b] + [k.a, k.idle][1..] == [k.a, k.b, k.idle];
    assert [k.b, k.c][1..] == [k.c];
    var w := StatusSet(g, k.b, Idle);
    hide StatusSet, GrantRead, Readers, FirstReader;
    SameWorld(w, Released(k).(t := Released(k).t[k.a := Asleep3(Active, 0)]), k);
  }

  lemma Releases(k: Cast)
    requires Apart(k)
    ensures Goes(WriterBack(k), Unlock(k.r, 11), Released(k)) && Known(Released(k))
  {
    hide RwRelease, FirstReader, Readers, EntersLoop;
    TwoWait(k);
    ReleaseIs(k, 11);
    SameWorld(Step(WriterBack(k), Unlock(k.r, 11)), Released(k), k);
  }

  /** The writer aborts, and the second task gets the processor. */
  lemma WriterGone(k: Cast)
    requires Apart(k)
    ensures Known(Released(k)) && Enabled(Released(k), Abort(12)) && Step(Released(k), Abort(12)).running == k.b
    ensures Known(Step(Released(k), Abort(12)))
  {
    hide Dispatch, StatusSet, Schedule;
    var v := Released(k);
    StatusSetKnown(v, k.a, Aborted);
    AbortIs(k);
    var b := StatusSet(v, k.a, Aborted);
    AbortSchedules(k, b);
  }

  lemma AbortSchedules(k: Cast, b: View)
    requires Apart(k)
    requires b == Released(k).(t := Released(k).t[k.a := FreshTask(3, Aborted)], rq := [k.b, k.idle])
    ensures Known(b) && Schedule(b, 12).scheduled == k.b && Known(Schedule(b, 12)) && Schedule(b, 12).running == k.a
  {
    hide Dispatch;
    assert Wake(b, 12) == b && Pick(b) == k.b;
    Promoted(b, k.b);
  }

  lemma AbortIs(k: Cast)
    requires Apart(k)
    ensures Known(Released(k)) && StatusSet(Released(k), k.a, Aborted)
      == Released(k).(t := Released(k).t[k.a := FreshTask(3, Aborted)], rq := [k.b, k.idle])
  {
    assert Without([k.a, k.b, k.idle], k.a) == [k.b, k.idle];
  }

  lemma Promoted(v: View, x: Task)
    requires Known(v) && x in v.t && x != v.running
    ensures Dispatch(v, x).scheduled == x && Known(Dispatch(v, x)) && Dispatch(v, x).running == v.running
  {
    UnblockKnown(v, x);
    RetireKnown(Unblock(v, x));
    PromoteKnown(Retire(Unblock(v, x)), x);
  }

  lemma Preceded(v: View, a: Action, w: View, rest: seq<Action>, x: Task, o: Obj)
    requires Goes(v, a, w) && Legal(w, rest) && v.running != x && Away(w, rest, x)
    ensures Legal(v, [a] + rest) && Run(v, [a] + rest) == Run(w, rest) && Away(v, [a] + rest, x)
    ensures ServedIn(v, [a] + rest, o, x) <==> Serves(v, a, o, x) || ServedIn(w, rest, o, x)
  {
    assert ([a] + rest)[1..] == rest;
    hide Step, Enabled, Serves;
  }

  lemma ServesHere(k: Cast)
    requires Apart(k)
    ensures var v, a := WriterBack(k), Unlock(k.r, 11);
      Known(v) && Enabled(v, a) && Serves(v, a, OnRwLock(k.r), k.b)
  {
    hide FirstReader, Readers, EntersLoop, GrantRead;
    TwoWait(k);
    GrantIs(k);
    assert EntersLoop(WriterBack(k), k.r);
    assert UnlockMid(WriterBack(k), k.r, 11) == GrantRead(Dropped(WriterBack(k), k.r), k.r, 0);
  }

  /** What follows the second task's call, until that task runs again. */
  function Meanwhile(k: Cast): seq<Action> {
    [ReadLock(k.r, UINT32_MAX, 2)] + ([Tick(10)] + ([Unlock(k.r, 11)] + ([Abort(12)] + [])))
  }

  lemma NoMore(v: View, x: Task)
    requires Known(v)
    ensures Legal(v, []) && Run(v, []) == v && Away(v, [], x)
  {
  }

  lemma MeanwhileAway(k: Cast)
    requires Apart(k)
    ensures var v, run := OneReader(k), Meanwhile(k);
      Legal(v, run) && Away(v, run, k.b) && Run(v, run).running == k.b && ServedIn(v, run, OnRwLock(k.r), k.b)
  {
    hide Inv, Leads, Step, Enabled, Legal, Run, Away, Serves, ServedIn;
    SecondReaderWaits(k);
    WriterRunsAgain(k);
    Releases(k);
    ServesHere(k);
    WriterGone(k);
    var o, x, last := OnRwLock(k.r), k.b, Step(Released(k), Abort(12));
    NoMore(last, x);
    Preceded(Released(k), Abort(12), last, [], x, o);
    Preceded(WriterBack(k), Unlock(k.r, 11), Released(k), [Abort(12)] + [], x, o);
    Preceded(TwoReaders(k), Tick(10), WriterBack(k), [Unlock(k.r, 11)] + ([Abort(12)] + []), x, o);
    Preceded(OneReader(k), ReadLock(k.r, UINT32_MAX, 2), TwoReaders(k),
             [Tick(10)] + ([Unlock(k.r, 11)] + ([Abort(12)] + [])), x, o);
  }

  lemma AsksToRead(k: Cast)
    requires Apart(k)
    ensures var v, a := Sleeping(k), ReadLock(k.r, 20, 1);
      Inv(v) && Goes(v, a, OneReader(k)) && Enabled(v, a) && Blocks(v, a) && v.running == k.b
  {
    hide Inv, Leads, Step;
    GoesToSleep(k);
    FirstReaderWaits(k);
  }

  /** The second task's call is a whole wait: it blocks, is served, and returns SUCCESS. */
  lemma WaitHappens(k: Cast)
    requires Apart(k)
    ensures Inv(Sleeping(k)) && Goes(Sleeping(k), ReadLock(k.r, 20, 1), OneReader(k)) && Sleeping(k).running == k.b
    ensures Legal(OneReader(k), Meanwhile(k)) && Away(OneReader(k), Meanwhile(k), k.b)
    ensures var w := Run(OneReader(k), Meanwhile(k));
      && w.running == k.b && k.b in w.t && w.t[k.b].ret.status == OSS_SUCCESS && w.t[k.b].back == NoObj
      && k.r in w.rwlocks && k.b in w.rwlocks[k.r].holds
  {
    hide Inv, Enabled, Blocks, Legal, Run, Away, ServedIn, Step, Sleeping, OneReader, Meanwhile;
    AsksToRead(k);
    MeanwhileAway(k);
    WholeWait(Sleeping(k), ReadLock(k.r, 20, 1), Meanwhile(k));
  }
}
