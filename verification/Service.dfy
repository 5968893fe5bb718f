/** service.c: the calls that make their caller wait or end it, and the return from a call. */
module Service {
  import opened Types
  import opened Spec
  import opened Invariants
  import opened Heap
  import opened Scheduling
  import opened Steps
  import opened TaskSteps
  import opened Os
  import opened Dispatching
  import opened Scheduler

  // ------------------------------------------------------------------ waiting

  /** The caller with its deadline set, still on the runqueue. */
  function Timed(v: View, ms: nat, now: nat): View
    requires v.running in v.t
  {
    v.(t := v.t[v.running := v.t[v.running].(delay := Deadline(ms, now))])
  }

  /** The caller may wait: it is not waiting already, and the state it parks in is sound. */
  ghost predicate MayPark(v: View, ms: nat, now: nat) {
    && Known(v) && v.scheduled == null && CanWait(v, ms, now)
    && RunqueueOk(v.rq, v.t) && WaitqueueOk(v.wq, v.t) && !v.t[v.running].status.Wait?
    && Ready(Asleep(v, ms, now))
  }

  lemma ParkWaits(v: View, ms: nat, now: nat)
    requires MayPark(v, ms, now)
    ensures CanWait(v, ms, now) && v.scheduled == null && Known(v)
  {
  }

  lemma TimedFacts(v: View, ms: nat, now: nat)
    requires MayPark(v, ms, now)
    ensures var w, me := Timed(v, ms, now), v.running;
      && Known(w) && w.t == v.t[me := v.t[me].(delay := Deadline(ms, now))] && w.tasks == v.tasks && w.lists == v.lists
      && w.objs == v.objs && w.rq == v.rq && w.wq == v.wq && w.running == me && w.scheduled == null && w.idle == v.idle
      && (forall y :: y in v.t ==> w.t[y].back == v.t[y].back)
      && CanSet(w, me, Wait) && StatusSet(w, me, Wait) == Asleep(v, ms, now)
  {
    var w, me := Timed(v, ms, now), v.running;
    hide Ready, RunqueueOk, WaitqueueOk;
    assert SameBut(v.t, w.t, me) && v.t.Keys == w.t.Keys;
    WaitersOnly(v);
    KeepRunqueue(v.rq, v.t, w.t, me);
    KeepWaitqueue(v.wq, v.t, w.t, me);
  }

  lemma WaitersOnly(v: View)
    requires Known(v)
    ensures Among(v.rq, v.t.Keys) && Among(v.wq, v.t.Keys)
  {
  }

  /** The scheduler always finds another task for a caller that cannot go on. */
  lemma ParkedYields(b: View, now: nat)
    requires Ready(b) && !Runnable(b.t[b.running].status)
      && (b.t[b.running].status.Wait? ==> !Expired(b.t[b.running], now))
    ensures Known(b) && Mid(b) && b.scheduled == null
    ensures Schedule(b, now).scheduled != null && Schedule(b, now).scheduled != b.running
    ensures Schedule(b, now).running == b.running
  {
    ScheduleHanded(b, now);
    hide Mid, Schedule, Wake;
  }

  method SetDelay(task: Task, delay: nat, ghost ts: map<Task, TaskV>)
    requires TasksHold(ts) && task in ts
    modifies task`delay
    ensures TasksHold(ts[task := ts[task].(delay := delay)]) && task.delay == delay
  {
    assert Holds(task, ts[task]);
    task.delay := delay;
  }

  /** The deadline part of svc_delay, with its assertion that the deadline is not "never". */
  method SetDeadline(task: Task, ms: nat, now: nat, ghost ts: map<Task, TaskV>)
    requires TasksHold(ts) && task in ts && (ms == UINT32_MAX || now + ms < UINT32_MAX)
    modifies task`delay
    ensures TasksHold(ts[task := ts[task].(delay := Deadline(ms, now))])
  {
    hide TasksHold;
    if ms == UINT32_MAX {
      SetDelay(task, UINT32_MAX, ts);
    } else {
      SetDelay(task, (now + ms) % (UINT32_MAX + 1), ts);
      assert task.delay != UINT32_MAX;
    }
  }

  method TimeCaller(k: Globals, ms: nat, now: nat, ghost v: View)
    requires Core(k, v) && MayPark(v, ms, now)
    modifies v.running`delay
    ensures Core(k, Timed(v, ms, now))
  {
    hide Known, OwnCells, QueuesHold, TasksHold, ListsHold, Timed, MayPark, Deadline, CanSet, StatusSet, Asleep;
    TimedFacts(v, ms, now);
    KnownTasks(v);
    ParkWaits(v, ms, now);
    ListsKeep(v.lists, v.t, Timed(v, ms, now).t, k.cells);
    SetDeadline(k.running, ms, now, v.t);
  }

  /** svc_delay: it always ends with another task scheduled. */
  method SvcDelay(k: Globals, ms: nat, now: nat, ghost v: View)
    requires Core(k, v) && MayPark(v, ms, now)
    modifies k`runqueue, k`waitqueue, k`scheduled, k.cells, v.tasks
    ensures Core(k, Delay(v, ms, now))
    ensures k.scheduled != null && k.scheduled != k.running
  {
    hide Core, Known, Timed, MayPark, Asleep, StatusSet, Delay, Schedule, Ready;
    CoreRunning(k, v);
    ParkWaits(v, ms, now);
    assert k.scheduled != k.running;
    TimeCaller(k, ms, now, v);
    TimedFacts(v, ms, now);
    CoreRunning(k, Timed(v, ms, now));
    TaskStatusSet(k, k.running, Wait, Timed(v, ms, now));
    ghost var b := Asleep(v, ms, now);
    DelayIsSchedule(v, ms, now);
    CoreRunning(k, b);
    if k.scheduled == null {
      ScheduleTask(k, now, b);
    }
    CoreRunning(k, Schedule(b, now));
    assert k.scheduled != null;
    assert k.scheduled != k.running;
  }

  lemma DelayIsSchedule(v: View, ms: nat, now: nat)
    requires MayPark(v, ms, now)
    ensures var b := Asleep(v, ms, now);
      && Delay(v, ms, now) == Schedule(b, now) && b.tasks == v.tasks && b.running == v.running && b.scheduled == null
      && Mid(b)
      && Schedule(b, now).scheduled != null && Schedule(b, now).scheduled != v.running
      && Schedule(b, now).running == v.running
  {
    var b := Asleep(v, ms, now);
    assert b.t[b.running].status.Wait? && !Expired(b.t[b.running], now);
    hide Ready, RunqueueOk, WaitqueueOk, Schedule;
    ParkedYields(b, now);
  }

  // ----------------------------------------------------------------- blocking

  /** The caller on the list of `o`, its back pointer set, its flags not yet. */
  function Attach(v: View, o: Obj, call: Call): View
    requires v.running in v.t && o in v.lists
  {
    v.(t := v.t[v.running := v.t[v.running].(back := o, call := call)],
       lists := v.lists[o := v.lists[o] + [v.running]])
  }

  method SetFlags(task: Task, flags: bv32, ghost ts: map<Task, TaskV>)
    requires TasksHold(ts) && task in ts
    modifies task`flags
    ensures TasksHold(ts[task := ts[task].(flags := Raise(ts[task].flags, flags))])
  {
    hide Raise;
    assert Holds(task, ts[task]);
    task.flags := Raise(task.flags, flags);
  }

  lemma SetTwice(m: map<Task, TaskV>, x: Task, a: TaskV, b: TaskV)
    ensures m[x := a][x := b] == m[x := b]
  {
  }

  lemma AttachFacts(v: View, o: Obj, call: Call)
    requires Known(v) && o in v.lists
    ensures v.running in v.t
    ensures var a, me := Attach(v, o, call), v.running;
      && Known(a) && a.objs == v.objs && a.rq == v.rq && a.wq == v.wq && a.running == me && a.idle == v.idle
      && a.scheduled == v.scheduled && a.tasks == v.tasks && a.lists == v.lists[o := v.lists[o] + [me]]
      && a.t == v.t[me := v.t[me].(back := o, call := call)]
  {
  }

  lemma EnlistFacts(v: View, o: Obj, call: Call, flags: bv32)
    requires Known(v) && o in v.lists && flags == FlagOf(o) && v.running in v.t
    ensures var a, w, me := Attach(v, o, call), Enlist(v, o, call), v.running;
      && Known(w) && w.t == a.t[me := a.t[me].(flags := Raise(a.t[me].flags, flags))] && w.lists == a.lists
      && w.objs == a.objs && w.rq == a.rq && w.wq == a.wq && w.running == a.running && w.idle == a.idle
      && w.scheduled == a.scheduled && w.tasks == a.tasks
  {
    var me := v.running;
    SetTwice(v.t, me, v.t[me].(back := o, call := call),
             v.t[me].(back := o, flags := Raise(v.t[me].flags, flags), call := call));
    hide FlagOf, Raise;
  }

  /** svc_block: the flags, then svc_delay. */
  method SvcBlock(k: Globals, ms: nat, flags: bv32, now: nat, ghost v: View, ghost o: Obj, ghost call: Call)
    requires Known(v) && v.running in v.t && o in v.lists && flags == FlagOf(o)
    requires Core(k, Attach(v, o, call)) && MayPark(Enlist(v, o, call), ms, now)
    modifies k`runqueue, k`waitqueue, k`scheduled, k.cells, v.tasks
    ensures Core(k, Block(v, o, call, ms, now))
    ensures k.scheduled != null && k.scheduled != k.running
  {
    hide Core, Known, MayPark, Attach, Enlist, Delay, Raise;
    AttachFacts(v, o, call);
    EnlistFacts(v, o, call, flags);
    CoreRunning(k, Attach(v, o, call));
    Flag(k, flags, Attach(v, o, call), Enlist(v, o, call));
    SvcDelay(k, ms, now, Enlist(v, o, call));
  }

  method Flag(k: Globals, flags: bv32, ghost a: View, ghost w: View)
    requires Core(k, a) && Known(a) && Known(w)
    requires a.running in a.t && w.t == a.t[a.running := a.t[a.running].(flags := Raise(a.t[a.running].flags, flags))]
    requires w.lists == a.lists && w.objs == a.objs && w.rq == a.rq && w.wq == a.wq && w.running == a.running
    requires w.idle == a.idle && w.scheduled == a.scheduled && w.tasks == a.tasks
    modifies a.running`flags
    ensures Core(k, w)
  {
    hide Known, OwnCells, QueuesHold, TasksHold, ListsHold, Raise;
    KnownTasks(a);
    ListsKeep(a.lists, a.t, w.t, k.cells);
    SetFlags(k.running, flags, a.t);
  }

  // -------------------------------------------------------------------- ending

  /** The caller may end. */
  ghost predicate MayQuit(v: View, st: Status) {
    && Known(v) && v.scheduled == null && Ended(st) && CanSet(v, v.running, st)
    && Ready(StatusSet(v, v.running, st))
  }

  /** svc_abort, and svc_panic after the panic hook. */
  method SvcQuit(k: Globals, st: Status, now: nat, ghost v: View)
    requires Core(k, v) && MayQuit(v, st)
    modifies k`runqueue, k`waitqueue, k`scheduled, k.cells, v.tasks
    ensures Core(k, Quit(v, st, now))
    ensures k.scheduled != null && k.scheduled != k.running
  {
    hide Core, Known, MayQuit, StatusSet, Quit, Schedule, Ready, CanSet;
    CoreRunning(k, v);
    QuitIsSchedule(v, st, now);
    TaskStatusSet(k, k.running, st, v);
    ghost var b := StatusSet(v, v.running, st);
    CoreRunning(k, b);
    if k.scheduled == null {
      ScheduleTask(k, now, b);
    }
    CoreRunning(k, Schedule(b, now));
    assert k.scheduled != null;
    assert k.scheduled != k.running;
  }

  lemma QuitIsSchedule(v: View, st: Status, now: nat)
    requires MayQuit(v, st)
    ensures CanSet(v, v.running, st) && !st.Active?
    ensures var b := StatusSet(v, v.running, st);
      && Quit(v, st, now) == Schedule(b, now) && b.tasks == v.tasks && b.running == v.running && b.scheduled == null
      && Mid(b)
      && Schedule(b, now).scheduled != null && Schedule(b, now).scheduled != v.running
      && Schedule(b, now).running == v.running
  {
    var b := StatusSet(v, v.running, st);
    assert b.t[b.running].status == st;
    hide Ready, RunqueueOk, WaitqueueOk, Schedule, CanSet;
    ParkedYields(b, now);
  }

  // ------------------------------------------------------ returning from a call

  method SetFrame(task: Task, r: Ret, ghost ts: map<Task, TaskV>)
    requires TasksHold(ts) && task in ts
    modifies task`ret
    ensures TasksHold(ts[task := ts[task].(ret := r)])
  {
    assert Holds(task, ts[task]);
    task.ret := r;
  }

  /** What the supervisor call handler does when the kernel function returns: the result goes into
      the caller's frame. */
  method Answer(k: Globals, task: Task, r: Ret, ghost v: View)
    requires Core(k, v) && task in v.t
    modifies task`ret
    ensures Core(k, SetRet(v, task, r))
  {
    hide Known, OwnCells, QueuesHold, TasksHold, ListsHold;
    KnownTasks(v);
    SetRetKnown(v, task, r);
    ListsKeep(v.lists, v.t, SetRet(v, task, r).t, k.cells);
    SetFrame(task, r, v.t);
  }

  lemma SetRetKnown(v: View, x: Task, r: Ret)
    requires Known(v) && x in v.t
    ensures Known(SetRet(v, x, r)) && SetRet(v, x, r).tasks == v.tasks && SetRet(v, x, r).running == v.running
    ensures forall y :: y in v.t ==> SetRet(v, x, r).t[y].back == v.t[y].back
  {
  }

  /** ... and then, or at the end of an interrupt, the switch. */
  method SwitchTask(k: Globals, ghost v: View)
    requires Core(k, v)
    modifies k`running, k`scheduled
    ensures Core(k, Switch(v))
  {
    hide OwnCells, QueuesHold, TasksHold, ListsHold;
    if k.scheduled != null {
      k.running := k.scheduled;
      k.scheduled := null;
    }
  }

  method ReturnFrom(k: Globals, r: Ret, ghost s: View)
    requires Core(k, s)
    modifies k`running, k`scheduled, k.running`ret
    ensures s.running in s.t && Core(k, Switch(SetRet(s, s.running, r)))
  {
    hide Core, SetRet, Switch;
    CoreRunning(k, s);
    Answer(k, k.running, r, s);
    SwitchTask(k, SetRet(s, s.running, r));
  }
}
