/** find_new_task, osi_schedule and osi_dispatch_or_queue of os.c, in place on the heap. */
module Scheduler {
  import opened Types
  import opened Sequences
  import opened Spec
  import opened Invariants
  import opened Heap
  import opened Scheduling
  import opened Search
  import opened Os
  import opened Dispatching

  // ------------------------------------------------------------ find_new_task

  /** What follows the running task in the queue it is in. */
  ghost function Rest(v: View): seq<Task> {
    if v.running in v.rq then v.rq[IndexOf(v.rq, v.running) + 1..]
    else if v.running in v.wq then v.wq[IndexOf(v.wq, v.running) + 1..]
    else []
  }

  ghost predicate Awake(v: View)
    requires v.running in v.t
  {
    Runnable(v.t[v.running].status)
  }

  lemma AllRunnable(rq: seq<Task>, ts: map<Task, TaskV>)
    requires RunqueueOk(rq, ts)
    ensures forall i :: 0 <= i < |rq| ==> Runnable(ts[rq[i]].status)
  {
    assert forall i :: 0 <= i < |rq| ==> rq[i] in rq;
  }

  lemma CourseAwake(rq: seq<Task>, ts: map<Task, TaskV>, i: nat)
    requires RunqueueOk(rq, ts) && i < |rq|
    ensures Course(rq[i + 1..], rq, ts, ts[rq[i]].priority, true)
  {
    AllRunnable(rq, ts);
    assert rq[i + 1..] == rq[|rq| - |rq[i + 1..]|..];
    hide Runnable;
  }

  lemma BestAwake(rq: seq<Task>, ts: map<Task, TaskV>, me: Task, ours: nat)
    requires me in rq && Among(rq, ts.Keys)
    ensures
      (if ts[rq[0]].priority > ours then rq[0]
       else if ts[NextWrapped(rq, me)].priority == ours then NextWrapped(rq, me) else rq[0])
      == Best(rq[IndexOf(rq, me) + 1..], rq, ts, ours, true)
  {
  }

  lemma CourseAsleep(rq: seq<Task>, wq: seq<Task>, ts: map<Task, TaskV>, j: nat, ours: nat, idle: Task)
    requires RunqueueOk(rq, ts) && WaitqueueOk(wq, ts) && j <= |wq|
    requires idle in rq && idle in ts && ts[idle].priority < ours
    ensures |rq| > 0 && Course(wq[j..], rq, ts, ours, false)
  {
    var k :| 0 <= k < |rq| && rq[k] == idle;
    assert ts[rq[k]].priority >= ts[rq[|rq| - 1]].priority;
    assert forall i :: 0 <= i < |rq| ==> rq[i] in rq;
    assert forall i :: 0 <= i < |wq| ==> wq[i] in wq;
  }

  /** A search starts from a runnable task, or from one that is not idle. */
  lemma SearchCourse(v: View)
    requires Known(v) && SchedOk(v.rq, v.wq, v.t, v.idle) && (v.running == v.idle ==> Awake(v))
    ensures var ours := v.t[v.running].priority;
      && |v.rq| > 0 && Course(Rest(v), v.rq, v.t, ours, Awake(v))
      && Pick(v) == Best(Rest(v), v.rq, v.t, ours, Awake(v))
  {
    AwakeQueued(v);
    var ours := v.t[v.running].priority;
    hide SchedOk, Course, Known, Best;
    if Awake(v) {
      CourseAwake(v.rq, v.t, IndexOf(v.rq, v.running));
      BestAwake(v.rq, v.t, v.running, ours);
    } else {
      var j := if v.running in v.wq then IndexOf(v.wq, v.running) + 1 else |v.wq|;
      CourseAsleep(v.rq, v.wq, v.t, j, ours, v.idle);
      assert Rest(v) == v.wq[j..];
    }
  }

  lemma AwakeQueued(v: View)
    requires Known(v) && SchedOk(v.rq, v.wq, v.t, v.idle)
    ensures v.running in v.rq <==> Awake(v)
    ensures RunqueueOk(v.rq, v.t) && WaitqueueOk(v.wq, v.t) && v.idle in v.rq
    ensures v.running != v.idle ==> v.t[v.idle].priority < v.t[v.running].priority
  {
  }

  /** OS_RUNQUEUE_NEXT_WRAPPED */
  method NextOrFirst(k: Globals, task: Task) returns (next: Task?)
    ensures next == if task.nrp == null then k.runqueue else task.nrp
  {
    next := if task.nrp == null then k.runqueue else task.nrp;
  }

  /** Where the search begins. */
  lemma BeginsAt(k: Globals, v: View)
    requires Known(v) && QueuesHold(k.runqueue, k.waitqueue, v.rq, v.wq, v.tasks) && |v.rq| > 0
    ensures (if v.running.nrp == null then k.runqueue else v.running.nrp) == Stop(Rest(v), v.rq, 0)
  {
  }

  /** ... and how it goes on, out of the waitqueue and round the runqueue. */
  lemma GoesTo(k: Globals, v: View, p: nat)
    requires Known(v) && QueuesHold(k.runqueue, k.waitqueue, v.rq, v.wq, v.tasks) && |v.rq| > 0
    requires p + 1 < |Rest(v)| + 2 * |v.rq|
    ensures Stop(Rest(v), v.rq, p) in v.tasks
    ensures (if Stop(Rest(v), v.rq, p).nrp == null then k.runqueue else Stop(Rest(v), v.rq, p).nrp)
            == Stop(Rest(v), v.rq, p + 1)
  {
    var n := |Rest(v)|;
    if p < n {
      var q := if v.running in v.rq then v.rq else v.wq;
      var i := IndexOf(q, v.running) + 1 + p;
      assert Stop(Rest(v), v.rq, p) == q[i];
    } else {
      var i := if p < n + |v.rq| then p - n else p - n - |v.rq|;
      assert Stop(Rest(v), v.rq, p) == v.rq[i];
    }
  }

  lemma StopHeld(v: View, p: nat)
    requires Known(v) && TasksHold(v.t) && p < |Rest(v)| + 2 * |v.rq|
    ensures var task := Stop(Rest(v), v.rq, p);
      task in v.t && task.status == v.t[task].status && task.priority == v.t[task].priority
  {
    var task := Stop(Rest(v), v.rq, p);
    assert task in v.t;
    StatusHeld(task, v.t);
  }

  lemma CoreParts(k: Globals, v: View)
    requires Core(k, v)
    ensures Known(v) && QueuesHold(k.runqueue, k.waitqueue, v.rq, v.wq, v.tasks) && TasksHold(v.t)
    ensures v.running in v.t && k.running == v.running && k.scheduled == v.scheduled && v.t.Keys == v.tasks
    ensures Among(Rest(v), v.t.Keys) && Among(v.rq, v.t.Keys)
  {
  }

  /** One turn of the search's loop. */
  lemma SearchTurn(k: Globals, v: View, p: nat, found: Task?, lower: Task?, e: nat, l: nat)
    requires Core(k, v) && SchedOk(v.rq, v.wq, v.t, v.idle) && (v.running == v.idle ==> Awake(v))
    requires Known(v) && Among(Rest(v), v.t.Keys) && Among(v.rq, v.t.Keys) && v.running in v.t
    requires Searched(Rest(v), v.rq, v.t, v.t[v.running].priority, p, found, lower, e, l)
    requires Stop(Rest(v), v.rq, p) != lower && (p > 0 ==> Stop(Rest(v), v.rq, p) != Stop(Rest(v), v.rq, 0))
    ensures p + 1 < |Rest(v)| + 2 * |v.rq| && |v.rq| > 0
    ensures
      var task, ours := Stop(Rest(v), v.rq, p), v.t[v.running].priority;
      && (if task.nrp == null then k.runqueue else task.nrp) == Stop(Rest(v), v.rq, p + 1)
      && if Runnable(task.status) && task.priority > ours then task == Pick(v)
         else
           var eq := found == null && Runnable(task.status) && task.priority == ours;
           var lo := lower == null && Runnable(task.status) && task.priority < ours;
           Searched(Rest(v), v.rq, v.t, ours, p + 1, if eq then task else found, if lo then task else lower,
                    if eq then p else e, if lo then p else l)
  {
    hide Core, Known, SchedOk, QueuesHold, TasksHold, Rest, Course, Searched, Stop, Pick, Best, Among;
    CoreParts(k, v);
    SearchCourse(v);
    var lead, ours := Rest(v), v.t[v.running].priority;
    Room(lead, v.rq, v.t, ours, Awake(v), p, found, lower, e, l);
    StopHeld(v, p);
    GoesTo(k, v, p);
    if Higher(v.t[Stop(lead, v.rq, p)], ours) {
      EndsHigher(lead, v.rq, v.t, ours, Awake(v), p, found, lower, e, l);
    } else {
      Advance(lead, v.rq, v.t, ours, Awake(v), p, found, lower, e, l);
    }
  }

  /** The loop ended without meeting a higher task. */
  lemma SearchOver(v: View, p: nat, found: Task?, lower: Task?, e: nat, l: nat)
    requires Known(v) && SchedOk(v.rq, v.wq, v.t, v.idle) && (v.running == v.idle ==> Awake(v))
    requires Among(Rest(v), v.t.Keys) && Among(v.rq, v.t.Keys) && v.running in v.t
    requires p < |Rest(v)| + 2 * |v.rq| && Searched(Rest(v), v.rq, v.t, v.t[v.running].priority, p, found, lower, e, l)
    requires Stop(Rest(v), v.rq, p) == lower || (p > 0 && Stop(Rest(v), v.rq, p) == Stop(Rest(v), v.rq, 0))
    ensures |v.rq| > 0 && Pick(v) == if found != null then found else lower
    ensures found == null ==> !Awake(v) && lower != null
  {
    hide Known, SchedOk, Rest, Course, Searched, Stop, Pick, Best, Among;
    SearchCourse(v);
    var lead, ours := Rest(v), v.t[v.running].priority;
    if p > 0 && Stop(lead, v.rq, p) == Stop(lead, v.rq, 0) {
      EndsRound(lead, v.rq, v.t, ours, Awake(v), p, found, lower, e, l);
    } else {
      EndsLower(lead, v.rq, v.t, ours, Awake(v), p, found, lower, e, l);
    }
  }

  /** find_new_task: the walk ends, and it ends at the task that should run next. */
  method FindNewTask(k: Globals, running: Task, ghost v: View) returns (newTask: Task?)
    requires Core(k, v) && SchedOk(v.rq, v.wq, v.t, v.idle)
    requires running == v.running && (running == v.idle ==> Awake(v))
    ensures |v.rq| > 0 && newTask == Pick(v)
  {
    hide Core, Known, SchedOk, QueuesHold, TasksHold, Rest, Course, Searched, Stop, Pick, Best, Among;
    CoreParts(k, v);
    SearchCourse(v);
    StatusHeld(running, v.t);
    ghost var p, e, l := 0, 0, 0;
    newTask := null;
    BeginsAt(k, v);
    var first := NextOrFirst(k, running);
    var task: Task? := first;
    var lowerPriority: Task? := null;
    var ours := running.priority;
    SearchBegins(Rest(v), v.rq, v.t, ours);
    while task != lowerPriority
      invariant p < |Rest(v)| + 2 * |v.rq| && task == Stop(Rest(v), v.rq, p) && first == Stop(Rest(v), v.rq, 0)
      invariant Searched(Rest(v), v.rq, v.t, ours, p, newTask, lowerPriority, e, l)
      invariant p > 0 ==> task != first
      decreases |Rest(v)| + 2 * |v.rq| - p
    {
      SearchTurn(k, v, p, newTask, lowerPriority, e, l);
      if Runnable(task.status) {
        if task.priority > ours {
          newTask := task;
          return;
        } else if task.priority == ours {
          if newTask == null {
            newTask, e := task, p;
          }
        } else {
          if lowerPriority == null {
            lowerPriority, l := task, p;
          }
        }
        task := NextOrFirst(k, task);
      } else {
        task := NextOrFirst(k, task);
      }
      p := p + 1;
      if task == first {
        break;
      }
    }
    SearchOver(v, p, newTask, lowerPriority, e, l);
    if newTask == null {
      if !Runnable(running.status) && lowerPriority != null {
        newTask := lowerPriority;
      }
    }
  }

  lemma SearchBegins(lead: seq<Task>, rq: seq<Task>, ts: map<Task, TaskV>, ours: nat)
    requires Among(lead, ts.Keys) && Among(rq, ts.Keys) && |rq| > 0
    ensures Searched(lead, rq, ts, ours, 0, null, null, 0, 0)
  {
  }

  // -------------------------------------------------------------- osi_schedule

  lemma WaitersCanWake(v: View, i: nat)
    requires Mid(v) && i < |v.wq|
    ensures v.wq[i] in v.t && CanSet(v, v.wq[i], Idle)
  {
    assert v.wq[i] in v.wq;
    hide ObjectsOk;
  }

  /** A scan that stops at the first task that is due stops at the head or not at all. */
  lemma ScanIsHead(v: View, now: nat, i: nat)
    requires Mid(v) && i <= |v.wq| && forall j :: 0 <= j < i ==> !Expired(v.t[v.wq[j]], now)
    ensures i == |v.wq| ==> Wake(v, now) == v
    ensures i < |v.wq| && Expired(v.t[v.wq[i]], now) ==> Wake(v, now) == StatusSet(v, v.wq[i], Idle)
  {
    if i < |v.wq| && Expired(v.t[v.wq[i]], now) { HeadIsDueFirst(v, now, i); }
    hide ObjectsOk, StatusSet;
  }

  lemma WaitqueueHeld(k: Globals, v: View)
    requires Core(k, v)
    ensures Queued(k.waitqueue, v.wq) && Queued(k.runqueue, v.rq) && Among(v.wq, v.t.Keys) && TasksHold(v.t)
  {
  }

  /** The timeout scan of osi_schedule. */
  method WakeOne(k: Globals, now: nat, ghost v: View)
    requires Core(k, v) && Mid(v)
    modifies k`runqueue, k`waitqueue, v.tasks`nrp, v.tasks`status
    ensures Core(k, Wake(v, now))
  {
    hide Core, Mid, Known, StatusSet, Wake, CanSet, TasksHold;
    WaitqueueHeld(k, v);
    CoreRunning(k, v);
    var task := k.waitqueue;
    ghost var i := 0;
    while task != null
      invariant i <= |v.wq| && task == At(v.wq, i)
      invariant forall j :: 0 <= j < i ==> !Expired(v.t[v.wq[j]], now)
      invariant Core(k, v) && Queued(k.waitqueue, v.wq) && TasksHold(v.t)
      decreases |v.wq| - i
    {
      StatusHeld(task, v.t);
      if task.delay != UINT32_MAX {
        if now >= task.delay {
          ScanIsHead(v, now, i);
          WaitersCanWake(v, i);
          TaskStatusSet(k, task, Idle, v);
          return;
        }
      }
      task, i := task.nrp, i + 1;
    }
    ScanIsHead(v, now, i);
  }

  /** osi_schedule */
  method ScheduleTask(k: Globals, now: nat, ghost v: View)
    requires Core(k, v) && Mid(v)
    modifies k`runqueue, k`waitqueue, k`scheduled, k.cells, v.tasks
    ensures Core(k, Schedule(v, now))
  {
    hide Core, Mid, Known, Schedule, Dispatch, Wake, Pick, SchedOk;
    CoreRunning(k, v);
    assert k.running.status == v.t[v.running].status by { RunningHeld(k, v); }
    ScheduleCases(v, now);
    if k.running.status.Idle? {
      return;
    }
    if k.scheduled != null {
      return;
    }
    WakeOne(k, now, v);
    ghost var v1 := Wake(v, now);
    CoreRunning(k, v1);
    MidSched(v1);
    var newTask := FindNewTask(k, k.running, v1);
    if newTask != null && k.running != newTask {
      DispatchTask(k, newTask, v1);
    }
  }

  lemma RunningHeld(k: Globals, v: View)
    requires Core(k, v)
    ensures k.running.status == v.t[v.running].status
  {
    StatusHeld(v.running, v.t);
  }

  lemma MidSched(v: View)
    requires Mid(v)
    ensures Known(v) && SchedOk(v.rq, v.wq, v.t, v.idle) && (v.running == v.idle ==> Awake(v))
  {
    hide ObjectsOk;
  }

  lemma ScheduleCases(v: View, now: nat)
    requires Mid(v)
    ensures v.t[v.running].status.Idle? || v.scheduled != null ==> Schedule(v, now) == v
    ensures !v.t[v.running].status.Idle? && v.scheduled == null ==>
      var v1 := Wake(v, now);
      Mid(v1) && |v1.rq| > 0 && Pick(v1) in v1.rq && Pick(v1) in v1.t && v1.tasks == v.tasks && v1.running == v.running
      && (Pick(v1) == v1.idle ==> v1.rq == [v1.idle])
      && Schedule(v, now) == if Pick(v1) == v1.running then v1 else Dispatch(v1, Pick(v1))
  {
    if !v.t[v.running].status.Idle? && v.scheduled == null {
      ScheduleParts(v, now);
      WakeCarried(v, now);
      PickIsHighest(Wake(v, now));
    }
    hide ObjectsOk, Dispatch, SchedOk, Pick;
  }

  // ------------------------------------------------------ osi_dispatch_or_queue

  lemma HigherHeld(k: Globals, v: View, x: Task)
    requires Core(k, v) && x in v.t
    ensures Queued(k.runqueue, v.rq)
    ensures HasHigher(v, x) <==>
      exists i :: 0 <= i < |v.rq| && Runnable(v.rq[i].status) && v.rq[i].priority > x.priority
  {
    assert Holds(x, v.t[x]);
    assert forall i :: 0 <= i < |v.rq| ==> Holds(v.rq[i], v.t[v.rq[i]]);
  }

  lemma GranteeCases(v: View, x: Task, now: nat)
    requires Mid(v) && x in v.t && (v.t[x].status.Wait? || v.t[x].status.Idle?)
    ensures !HasHigher(v, x) ==> DispatchOrQueue(v, x, now) == Dispatch(v, x)
    ensures HasHigher(v, x) ==>
      var v1 := if Runnable(v.t[x].status) then v else StatusSet(v, x, Idle);
      && Mid(v1) && v1.tasks == v.tasks && v1.scheduled == v.scheduled
      && DispatchOrQueue(v, x, now) == if v1.scheduled == null then Schedule(v1, now) else v1
    ensures v.t[x].status.Wait? ==> CanSet(v, x, Idle)
  {
    if v.t[x].status.Wait? { StatusSetIdle(v, x); }
    MidQueues(v);
    hide ObjectsOk, Dispatch, SchedOk, Schedule;
  }

  /** osi_dispatch_or_queue */
  method DispatchOrQueueTask(k: Globals, task: Task, now: nat, ghost v: View)
    requires Core(k, v) && Mid(v) && task in v.t && task != v.idle
    requires v.t[task].status.Wait? || v.t[task].status.Idle?
    modifies k`runqueue, k`waitqueue, k`scheduled, k.cells, v.tasks
    ensures Core(k, DispatchOrQueue(v, task, now))
  {
    hide Core, Mid, Known, DispatchOrQueue, Schedule, Dispatch, StatusSet, HasHigher, CanSet;
    CoreRunning(k, v);
    HigherHeld(k, v, task);
    GranteeCases(v, task, now);
    var higher := RunQueue.HasHigherPriority(k.runqueue, task, v.rq);
    if higher {
      ghost var v1 := if Runnable(v.t[task].status) then v else StatusSet(v, task, Idle);
      assert task.status == v.t[task].status by { CoreTask(k, v, task); }
      if !Runnable(task.status) {
        TaskStatusSet(k, task, Idle, v);
      }
      CoreRunning(k, v1);
      if k.scheduled == null {
        ScheduleTask(k, now, v1);
      }
    } else {
      DispatchTask(k, task, v);
    }
  }
}
