/** A whole wait: from the call that blocks to the return of that call. */
module Waits {
  import opened Types
  import opened Sequences
  import opened Spec
  import opened Invariants
  import opened Scheduling
  import opened Steps
  import opened Frames
  import opened Preservation
  import opened Runs

  /** The action is a call on `o`, and it takes `x` off the list of `o`. */
  ghost predicate Serves(v: View, a: Action, o: Obj, x: Task)
    requires Known(v) && Enabled(v, a)
  {
    && ObjectOf(a) == o && o in v.lists && x in v.lists[o]
    && o in Middle(v, a).lists && x !in Middle(v, a).lists[o]
  }

  /** Some action of the run serves `x`. */
  ghost predicate ServedIn(v: View, run: seq<Action>, o: Obj, x: Task)
    requires Legal(v, run)
    decreases |run|
  {
    run != [] && (Serves(v, run[0], o, x) || ServedIn(Step(v, run[0]), run[1..], o, x))
  }

  /** A task or an interrupt sends `msg`, which `x` is served, and which is the next message delivered. */
  ghost predicate DeliversTo(v: View, a: Action, q: Queue, x: Task, msg: Word)
    requires Known(v) && Enabled(v, a)
  {
    && Serves(v, a, OnQueue(q), x) && ((a.SendTo? && a.msg == msg) || (a.SendIsr? && a.msg == msg))
    && q in v.queues && q in Middle(v, a).queues && Middle(v, a).queues[q].got == v.queues[q].got + [msg]
  }

  ghost predicate DeliveredIn(v: View, run: seq<Action>, q: Queue, x: Task, msg: Word)
    requires Legal(v, run)
    decreases |run|
  {
    run != [] && (DeliversTo(v, run[0], q, x, msg) || DeliveredIn(Step(v, run[0]), run[1..], q, x, msg))
  }

  /** `x` does not run before the end of the run. */
  ghost predicate Away(v: View, run: seq<Action>, x: Task)
    requires Legal(v, run)
    decreases |run|
  {
    run != [] ==> v.running != x && Away(Step(v, run[0]), run[1..], x)
  }

  /** `x` has what its call asked for. */
  ghost predicate Got(v: View, o: Obj, call: Call, x: Task) {
    match o
    case OnMutex(m) => m in v.mutexes && v.mutexes[m].owner == x
    case OnRwLock(r) => r in v.rwlocks && if call.Read? then x in v.rwlocks[r].holds else v.rwlocks[r].writer == x
    case _ => true
  }

  // ------------------------------------------------------------------ one step

  /** A waiting task's record and its object's list agree. */
  lemma WaiterAt(v: View, o: Obj, x: Task)
    requires Inv(v) && o in v.lists
    ensures Known(v) && o != NoObj
    ensures x in v.lists[o] ==> x in v.t && v.t[x].back == o
    ensures x in v.t && x != v.running && v.t[x].back == o ==>
      v.t[x].ret.status == if x in v.lists[o] then OSS_ERROR_TO else OSS_SUCCESS
  {
    hide Inv;
    Facts(v, o);
  }

  lemma StepKnown(v: View, a: Action)
    requires Inv(v) && Enabled(v, a)
    ensures Inv(Step(v, a)) && Known(Step(v, a)) && Step(v, a).running in Step(v, a).t
    ensures Step(v, a).lists.Keys == v.lists.Keys && Step(v, a).t.Keys == v.t.Keys
    ensures RetsKept(v, Step(v, a), ObjectOf(a)) && WaitsKept(v, Step(v, a)) && Framed(v, Step(v, a), ObjectOf(a))
    ensures var w := Step(v, a); w.running != v.running ==> w.running in v.t && Outcome(v, w, ObjectOf(a), w.running)
    ensures var m, w, o := Middle(v, a), Step(v, a), ObjectOf(a);
      o != NoObj ==> Stage(v, m, o) && Undisturbed(m, w, o) && Answered(m, w, o) && FramesKept(m, w) && LinksKept(m, w)
  {
    StepGood(v, a);
    hide Step, Enabled, Middle, RetsKept, WaitsKept, Framed, Outcome, Stage, Undisturbed, Answered, FramesKept,
      LinksKept, Highest, SchedOk, BacksOk, ObjectsOk, ObjectOk;
  }

  /** One step of a wait that nobody has ended: unless it serves `x`, `x` stays listed; if `x` resumes, its
      frame says whether it was served. */
  lemma ListedStep(v: View, a: Action, o: Obj, x: Task)
    requires Inv(v) && Enabled(v, a) && o in v.lists && x in v.lists[o] && x != v.running
    ensures var w := Step(v, a);
      && x in v.t && x in w.t && o in w.lists
      && (w.running != x ==> w.t[x].back == o && w.t[x].call == v.t[x].call)
      && (w.running != x ==> (x in w.lists[o] <==> !Serves(v, a, o, x)))
      && (w.running == x ==> w.t[x].ret.status == if Serves(v, a, o, x) then OSS_SUCCESS else OSS_ERROR_TO)
      && (w.running == x && Serves(v, a, o, x) ==> Got(w, o, v.t[x].call, x))
  {
    hide Inv, Step, Enabled, Middle, Stage, Undisturbed, Answered, RetsKept, Outcome, Got, Known;
    StepKnown(v, a);
    WaiterAt(v, o, x);
    if ObjectOf(a) == o {
      CalledStep(v, Middle(v, a), Step(v, a), o, x);
    } else {
      OtherStep(v, Step(v, a), ObjectOf(a), o, x);
    }
  }

  lemma CalledStep(v: View, m: View, w: View, o: Obj, x: Task)
    requires x in v.t && x in w.t && x != v.running && o in v.lists && o in w.lists && v.t[x].back == o != NoObj
    requires Stage(v, m, o) && Undisturbed(m, w, o) && Answered(m, w, o) && WaitsKept(v, w)
    requires w.running in w.t && (w.running != v.running ==> w.running in v.t && Outcome(v, w, o, w.running))
    ensures o in m.lists
    ensures w.running != x ==> (x in w.lists[o] <==> x in m.lists[o])
    ensures w.running == x ==> w.t[x].ret.status == if x in m.lists[o] then OSS_ERROR_TO else OSS_SUCCESS
    ensures w.running == x && x !in m.lists[o] ==> Got(w, o, v.t[x].call, x)
  {
    assert SameWait(v, m, o, x);
    WithoutKeeps(m, w, o, x);
    hide Without, RetKept, Withdraw;
  }

  lemma OtherStep(v: View, w: View, p: Obj, o: Obj, x: Task)
    requires x in v.t && x in w.t && x != v.running && o in v.lists
    requires x in v.lists[o] && v.t[x].back == o != NoObj && p != o
    requires Framed(v, w, p) && WaitsKept(v, w)
    requires w.running in w.t && (w.running != v.running ==> w.running in v.t && Outcome(v, w, p, w.running))
    ensures o in w.lists
    ensures w.running != x ==> x in w.lists[o]
    ensures w.running == x ==> w.t[x].ret.status == OSS_ERROR_TO
  {
    assert Undisturbed(v, w, o);
    WithoutKeeps(v, w, o, x);
    hide Without, Withdraw;
  }

  lemma WithoutKeeps(m: View, w: View, o: Obj, x: Task)
    ensures o in m.lists && o in w.lists && w.lists[o] == Without(m.lists[o], w.running) && x != w.running ==>
      (x in w.lists[o] <==> x in m.lists[o])
  {
    if o in m.lists && x != w.running { WithoutOther(m.lists[o], w.running, x); }
  }

  lemma WithoutOther<T>(s: seq<T>, x: T, y: T)
    requires x != y
    ensures y in Without(s, x) <==> y in s
  {
    var i, r := IndexOf(s, x), Without(s, x);
    if y in s && i < |s| {
      var k :| 0 <= k < |s| && s[k] == y;
      assert r[if k < i then k else k - 1] == y;
    }
  }

  /** One step after it has been served: its frame stays as the server left it. */
  lemma ServedStep(v: View, a: Action, o: Obj, x: Task)
    requires Inv(v) && Enabled(v, a) && o in v.lists && x !in v.lists[o] && x != v.running
    requires x in v.t && v.t[x].back == o
    ensures var w := Step(v, a);
      && x in w.t && o in w.lists && w.t[x].ret == v.t[x].ret
      && (w.running != x ==> w.t[x].back == o && w.t[x].call == v.t[x].call && x !in w.lists[o])
      && (w.running == x ==> Got(w, o, v.t[x].call, x))
  {
    hide Inv, Step, Enabled, Middle;
    StepKnown(v, a);
    WaiterAt(v, o, x);
    var w := Step(v, a);
    assert RetKept(v, w, ObjectOf(a), x);
    WaiterAt(w, o, x);
  }

  // -------------------------------------------------------------- a message

  /** A receiver is served by whoever sends next, task or interrupt, and finds that message. */
  lemma ServedMessage(v: View, a: Action, q: Queue, x: Task)
    requires Inv(v) && Enabled(v, a) && Serves(v, a, OnQueue(q), x) && x != v.running
    requires x in v.t && v.t[x].call == Receive
    ensures (a.SendTo? || a.SendIsr?) && x in Step(v, a).t && DeliversTo(v, a, q, x, Step(v, a).t[x].ret.value)
  {
    hide Inv, Step, Enabled, DispatchOrQueue, Known;
    StepKnown(v, a);
    var o := OnQueue(q);
    Facts(v, o);
    ServedHead(v, a, q, x);
    hide Middle;
    assert Middle(v, a).running == v.running;
  }

  lemma ServedHead(v: View, a: Action, q: Queue, x: Task)
    requires Known(v) && Enabled(v, a) && Serves(v, a, OnQueue(q), x) && v.scheduled == null
    requires QueueKnown(v, q) && QueueOk(v.queues[q], v.lists[OnQueue(q)], v.t) && x in v.t && v.t[x].call == Receive
    ensures (a.SendTo? || a.SendIsr?) && x in Middle(v, a).t && Middle(v, a).t[x].ret == Ret(OSS_SUCCESS, a.msg)
    ensures q in v.queues && q in Middle(v, a).queues && Middle(v, a).queues[q].got == v.queues[q].got + [a.msg]
  {
  }

  // --------------------------------------------------------------- whole waits

  /** What the running task finds: it waits for nothing any more. */
  lemma NothingPending(v: View)
    requires Inv(v)
    ensures var x := v.running;
      x in v.t && v.t[x].back == NoObj && v.t[x].flags == FLAG_NONE && forall p :: p in v.lists ==> x !in v.lists[p]
  {
    RunningUnlisted(v);
    InvHanded(v);
    assert TaskOk(v.t[v.running]) by { assert SchedOk(v.rq, v.wq, v.t, v.idle); }
  }

  lemma {:induction false} ServedResumes(v: View, run: seq<Action>, o: Obj, x: Task)
    requires Inv(v) && Legal(v, run) && Away(v, run, x) && Run(v, run).running == x && x != v.running
    requires o in v.lists && x !in v.lists[o] && x in v.t && v.t[x].back == o
    ensures x in Run(v, run).t && Run(v, run).t[x].ret == v.t[x].ret && Got(Run(v, run), o, v.t[x].call, x)
    decreases |run|
  {
    hide Inv, Step, Enabled, Got;
    var w := Step(v, run[0]);
    ServedStep(v, run[0], o, x);
    StepInv(v, run[0]);
    if w.running != x {
      ServedResumes(w, run[1..], o, x);
    } else {
      ResumedNow(w, run[1..], x);
    }
  }

  /** The run ends as soon as the task runs. */
  lemma ResumedNow(v: View, run: seq<Action>, x: Task)
    requires Legal(v, run) && Away(v, run, x) && v.running == x
    ensures run == []
  {
  }

  /** From any point of a wait: when the task resumes, its frame says whether it has been served since. */
  lemma {:induction false} WaitEnds(v: View, run: seq<Action>, o: Obj, x: Task)
    requires Inv(v) && Legal(v, run) && Away(v, run, x) && Run(v, run).running == x
    requires o in v.lists && x in v.lists[o]
    ensures x in v.t && x in Run(v, run).t
    ensures Run(v, run).t[x].ret.status == if ServedIn(v, run, o, x) then OSS_SUCCESS else OSS_ERROR_TO
    ensures ServedIn(v, run, o, x) ==> Got(Run(v, run), o, v.t[x].call, x)
    ensures ServedIn(v, run, o, x) && o.OnQueue? && v.t[x].call == Receive ==>
      DeliveredIn(v, run, o.q, x, Run(v, run).t[x].ret.value)
    decreases |run|
  {
    hide Inv, Step, Enabled, Got, Serves, DeliversTo;
    RunningUnlisted(v);
    var a, w := run[0], Step(v, run[0]);
    ListedStep(v, a, o, x);
    StepInv(v, a);
    var served := Serves(v, a, o, x);
    if served && o.OnQueue? && v.t[x].call == Receive { ServedMessage(v, a, o.q, x); }
    if w.running == x {
      ResumedNow(w, run[1..], x);
    } else if served {
      WaiterAt(w, o, x);
      ServedResumes(w, run[1..], o, x);
    } else {
      WaitEnds(w, run[1..], o, x);
    }
  }

  /** What a task blocked in a call is in. */
  function CallOf(a: Action): Call {
    match a
    case Acquire(_, _, _) => Lock
    case SendTo(_, _, _, _) => Send
    case ReceiveFrom(_, _, _) => Receive
    case ReadLock(_, _, _) => Read
    case WriteLock(_, _, _) => Write
    case _ => NoCall
  }

  lemma StepsAside(v: View, a: Action)
    requires Known(v) && Enabled(v, a) && Blocks(v, a) && ObjectOf(a) != NoObj
    ensures var m, o, x := Middle(v, a), ObjectOf(a), v.running;
      && o in m.lists && x in m.lists[o] && x in m.t && m.t[x].back == o && m.t[x].call == CallOf(a) && m.running == x
  {
    hide SendMid, MutexAcquire, AcquireRead, AcquireWrite, Known, ReceiverWaits;
    var o, x := ObjectOf(a), v.running;
    assert o in v.lists && x == (v.lists[o] + [x])[|v.lists[o]|];
  }

  /** A call that blocks leaves its caller listed at the object of the call. */
  lemma WaitBegins(v: View, a: Action)
    requires Inv(v) && Enabled(v, a) && Blocks(v, a) && ObjectOf(a) != NoObj
    ensures Known(v)
    ensures var w, o, x := Step(v, a), ObjectOf(a), v.running;
      && Inv(w) && w.running != x && o in w.lists && x in w.lists[o] && x in w.t && w.t[x].call == CallOf(a)
  {
    hide Inv, Enabled, Step, Middle, Blocks;
    BlockingYields(v, a);
    StepKnown(v, a);
    StepsAside(v, a);
    WithoutKeeps(Middle(v, a), Step(v, a), ObjectOf(a), v.running);
    assert Undisturbed(Middle(v, a), Step(v, a), ObjectOf(a)) && LinksKept(Middle(v, a), Step(v, a));
  }

  /** A whole wait. A task calls on `o`, blocks, and is next run at the end of `run`. Then nothing of its
      wait is left: no back pointer, no flag, and it is on no list. Its call returns SUCCESS if and only if
      some call on `o` took it off the list on the way, and OSS_ERROR_TO otherwise. If it was served, it
      owns the mutex or holds the lock it asked for; and what a receiver returns is the very message that
      call, from a task or from an interrupt, added to what the queue has delivered. */
  lemma WholeWait(v: View, a: Action, run: seq<Action>)
    requires Inv(v) && Enabled(v, a) && Blocks(v, a) && ObjectOf(a) != NoObj
    requires Legal(Step(v, a), run) && Away(Step(v, a), run, v.running) && Run(Step(v, a), run).running == v.running
    ensures var w, x := Run(Step(v, a), run), v.running;
      && x in w.t && w.t[x].back == NoObj && w.t[x].flags == FLAG_NONE && forall p :: p in w.lists ==> x !in w.lists[p]
    ensures var b, w, o, x := Step(v, a), Run(Step(v, a), run), ObjectOf(a), v.running;
      && w.t[x].ret.status == (if ServedIn(b, run, o, x) then OSS_SUCCESS else OSS_ERROR_TO)
      && (ServedIn(b, run, o, x) ==> Got(w, o, CallOf(a), x))
      && (ServedIn(b, run, o, x) && a.ReceiveFrom? ==> DeliveredIn(b, run, a.q, x, w.t[x].ret.value))
  {
    hide Inv, Enabled, Step, Blocks, Run, Away, Got, ServedIn, DeliveredIn;
    WaitBegins(v, a);
    WaitEnds(Step(v, a), run, ObjectOf(a), v.running);
    RunInv(Step(v, a), run);
    NothingPending(Run(Step(v, a), run));
  }
}
