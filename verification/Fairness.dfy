/** Two properties of runs of timer ticks: tasks of the top priority take turns, and sleepers
    wake in deadline order. */
module Fairness {
  import opened Types
  import opened Sequences
  import opened Spec
  import opened Invariants
  import opened Scheduling
  import opened Steps
  import opened Frames
  import opened Preservation
  import opened Runs

  function Ticks(nows: seq<nat>): (run: seq<Action>)
    ensures |run| == |nows| && forall i :: 0 <= i < |run| ==> run[i] == Tick(nows[i])
  {
    seq(|nows|, i requires 0 <= i < |nows| => Tick(nows[i]))
  }

  lemma {:induction false} TicksLegal(v: View, nows: seq<nat>)
    requires Inv(v)
    ensures Legal(v, Ticks(nows))
    decreases |nows|
  {
    hide Inv;
    assert Known(v) by { InvHanded(v); hide Handed, Ready; }
    if nows != [] {
      StepInv(v, Tick(nows[0]));
      TicksLegal(Step(v, Tick(nows[0])), nows[1..]);
      assert Ticks(nows)[1..] == Ticks(nows[1..]);
    }
  }

  /** What a tick does to the queues: at most the head of the waitqueue moves over. */
  lemma TickQueues(v: View, now: nat)
    requires Inv(v)
    ensures var w, v1 := Step(v, Tick(now)), Wake(v, now);
      && Known(v1) && |v1.rq| > 0 && Pick(v1) in v1.rq
      && w.rq == v1.rq && w.wq == v1.wq && w.running == Pick(v1)
      && w.t.Keys == v.t.Keys
      && (forall y :: y in v.t ==> w.t[y].priority == v.t[y].priority)
      && (forall y :: y in v.t && y != w.running ==> w.t[y].delay == v.t[y].delay)
  {
    InvHanded(v);
    hide Inv, SchedOk, ObjectsOk, BacksOk, Handed;
    ScheduleParts(v, now);
    ScheduleCarried(v, now);
    WakeCarried(v, now);
    var v1, s := Wake(v, now), Schedule(v, now);
    assert forall y :: y in v.t ==> CarriedRecord(v.t[y], s.t[y], y == s.scheduled);
    if Pick(v1) != v.running {
      ChosenIsIdle(v, now);
      DispatchKeepsQueues(v1, Pick(v1));
    }
    hide Carried, Schedule, Wake;
  }

  lemma DispatchKeepsQueues(v: View, x: Task)
    requires Mid(v) && x in v.t && x != v.running && v.t[x].status.Idle?
    ensures Dispatch(v, x).rq == v.rq && Dispatch(v, x).wq == v.wq && Dispatch(v, x).scheduled == x
  {
    DispatchQueue(v, x);
    DispatchParts(v, x);
    DispatchEffect(v, x);
  }

  lemma ChosenIsIdle(v: View, now: nat)
    requires Inv(v) && Mid(Wake(v, now)) && |Wake(v, now).rq| > 0
    requires Pick(Wake(v, now)) in Wake(v, now).rq && Pick(Wake(v, now)) != v.running
    ensures Pick(Wake(v, now)) in Wake(v, now).t && Wake(v, now).t[Pick(Wake(v, now))].status.Idle?
  {
    InvHanded(v);
    WakeReady(v, now);
    var v1, x := Wake(v, now), Pick(Wake(v, now));
    assert v1.running == v.running;
    assert Runnable(v1.t[x].status) by { assert RunqueueOk(v1.rq, v1.t); }
    assert ActiveOnly(v1.t, v1.running);
    hide Mid, Wake;
  }

  // -------------------------------------------------------------- round robin

  /** Exactly the first `k` tasks of the runqueue have its highest priority. */
  ghost predicate TopGroup(v: View, k: nat)
    requires Known(v)
  {
    && 1 <= k <= |v.rq|
    && (forall j :: 0 <= j < k ==> v.t[v.rq[j]].priority == v.t[v.rq[0]].priority)
    && (forall j :: k <= j < |v.rq| ==> v.t[v.rq[j]].priority < v.t[v.rq[0]].priority)
  }

  /** The deadline is past; UINT32_MAX never is. */
  predicate Past(until: nat, now: nat) {
    until != UINT32_MAX && until <= now
  }

  predicate Quiet(v: View, now: nat)
    requires Known(v)
  {
    |v.wq| == 0 || !Past(v.t[v.wq[0]].delay, now)
  }

  lemma PickInGroup(v: View, k: nat, i: nat)
    requires Inv(v) && TopGroup(v, k) && i < k && v.running == v.rq[i]
    ensures Pick(v) == v.rq[if i + 1 == k then 0 else i + 1]
  {
    assert v.running in v.rq && Runnable(v.t[v.running].status);
    IndexOfAt(v.rq, i);
    assert v.t[v.rq[0]].priority == v.t[v.rq[i]].priority;
    if i + 1 < |v.rq| && i + 1 < k { assert v.t[v.rq[i + 1]].priority == v.t[v.rq[0]].priority; }
  }

  /** A tick in which nothing wakes: the chosen task runs and the queues stay. */
  lemma QuietTick(v: View, now: nat)
    requires Inv(v) && Quiet(v, now) && |v.rq| > 0
    ensures var w := Step(v, Tick(now));
      && Inv(w) && w.rq == v.rq && w.wq == v.wq && w.running == Pick(v)
      && w.t.Keys == v.t.Keys && (forall y :: y in v.t ==> w.t[y].priority == v.t[y].priority)
      && (|v.wq| > 0 ==> w.t[w.wq[0]].delay == v.t[v.wq[0]].delay)
  {
    TickQueues(v, now);
    StepInv(v, Tick(now));
    var w := Step(v, Tick(now));
    assert w.running in w.rq;
    if |v.wq| > 0 { NotBoth(w, w.running, w.wq[0]); }
    hide Inv, Step, Pick;
  }

  lemma NotBoth(v: View, x: Task, y: Task)
    requires Inv(v) && x in v.rq && y in v.wq
    ensures x != y
  {
    assert RunqueueOk(v.rq, v.t) && WaitqueueOk(v.wq, v.t);
  }

  lemma GroupTurn(v: View, k: nat, i: nat, now: nat)
    requires Inv(v) && TopGroup(v, k) && i < k && v.running == v.rq[i] && Quiet(v, now)
    ensures var w := Step(v, Tick(now));
      && Inv(w) && w.rq == v.rq && w.wq == v.wq && TopGroup(w, k)
      && w.running == v.rq[if i + 1 == k then 0 else i + 1]
      && (|v.wq| > 0 ==> w.t[w.wq[0]].delay == v.t[v.wq[0]].delay)
  {
    PickInGroup(v, k, i);
    QuietTick(v, now);
    assert Known(v) && Known(Step(v, Tick(now)));
    hide Inv, Step, Pick, TopGroup;
    SameGroup(v, Step(v, Tick(now)), k);
  }

  lemma SameGroup(v: View, w: View, k: nat)
    requires Known(v) && Known(w) && TopGroup(v, k) && w.rq == v.rq
    requires w.t.Keys == v.t.Keys && forall y :: y in v.t ==> w.t[y].priority == v.t[y].priority
    ensures TopGroup(w, k)
  {
  }

  lemma GroupFacts(v: View, k: nat)
    requires Inv(v) && TopGroup(v, k)
    ensures Known(v) && 1 <= k <= |v.rq|
  {
  }

  /** The place `n` turns after `i` in a circle of `k`. */
  function Turn(i: nat, n: nat, k: nat): (j: nat)
    requires i < k
    ensures j < k
    decreases n
  {
    if n == 0 then i else Turn(if i + 1 == k then 0 else i + 1, n - 1, k)
  }

  lemma {:induction false} TurnIsModulo(i: nat, n: nat, k: nat)
    requires i < k
    ensures Turn(i, n, k) == (i + n) % k
    decreases n
  {
    if n == 0 { RemainderUnique(i, k, 0, i); }
    else if i + 1 == k {
      TurnIsModulo(0, n - 1, k);
      RemainderWraps(n - 1, k);
    } else {
      TurnIsModulo(i + 1, n - 1, k);
    }
  }

  lemma {:induction false} TurnWithinRound(i: nat, n: nat, k: nat)
    requires i < k && n <= k
    ensures Turn(i, n, k) == if i + n < k then i + n else i + n - k
    decreases n
  {
    if n > 0 {
      if i + 1 == k { TurnWithinRound(0, n - 1, k); } else { TurnWithinRound(i + 1, n - 1, k); }
    }
  }

  /** While the tasks of the top priority stay runnable and nothing wakes, they run in runqueue
      order, one tick each, and the runqueue never changes: after n ticks it is the turn of the
      task n places on, around the group. */
  lemma {:induction false} RoundRobin(v: View, k: nat, i: nat, nows: seq<nat>)
    requires Inv(v) && TopGroup(v, k) && i < k && v.running == v.rq[i]
    requires forall j :: 0 <= j < |nows| ==> Quiet(v, nows[j])
    ensures Legal(v, Ticks(nows))
    ensures var w := Run(v, Ticks(nows)); w.rq == v.rq && w.running == v.rq[Turn(i, |nows|, k)]
    decreases |nows|
  {
    hide Inv, TopGroup, Step, Enabled;
    GroupFacts(v, k);
    TicksLegal(v, nows);
    if nows != [] {
      GroupTurn(v, k, i, nows[0]);
      GroupFacts(Step(v, Tick(nows[0])), k);
      var w, next := Step(v, Tick(nows[0])), if i + 1 == k then 0 else i + 1;
      assert forall j :: 0 <= j < |nows[1..]| ==> Quiet(v, nows[j + 1]) && nows[1..][j] == nows[j + 1];
      RoundRobin(w, k, next, nows[1..]);
      assert Ticks(nows)[1..] == Ticks(nows[1..]);
    }
  }

  /** In k ticks every one of the k tasks of the top priority runs exactly once, and then the
      first one runs again. */
  lemma EveryoneRunsOnce(v: View, k: nat, i: nat, nows: seq<nat>)
    requires Inv(v) && TopGroup(v, k) && i < k && v.running == v.rq[i] && |nows| == k
    requires forall j :: 0 <= j < |nows| ==> Quiet(v, nows[j])
    ensures forall n :: 0 <= n <= k ==> Legal(v, Ticks(nows[..n]))
    ensures forall a, b :: 0 <= a < b < k ==>
      Run(v, Ticks(nows[..a])).running != Run(v, Ticks(nows[..b])).running
    ensures Run(v, Ticks(nows[..k])).running == v.running
  {
    assert Distinct(v.rq) && k <= |v.rq|;
    hide Inv, TopGroup, Run, Legal, Ticks, Quiet;
    forall n | 0 <= n <= k
      ensures Legal(v, Ticks(nows[..n]))
      ensures Run(v, Ticks(nows[..n])).running == v.rq[if i + n < k then i + n else i + n - k]
    {
      RoundRobin(v, k, i, nows[..n]);
      TurnWithinRound(i, n, k);
    }
  }

  // ------------------------------------------------------------ timed wake-up

  /** A tick wakes the head of the waitqueue if it is due, and no one else. */
  lemma TickWakes(v: View, now: nat)
    requires Inv(v)
    ensures var w := Step(v, Tick(now));
      w.wq == if |v.wq| > 0 && Past(v.t[v.wq[0]].delay, now) then v.wq[1..] else v.wq
  {
    TickQueues(v, now);
    if |v.wq| > 0 && Past(v.t[v.wq[0]].delay, now) {
      assert v.t[v.wq[0]].status.Wait? by { assert v.wq[0] in v.wq; }
    }
    hide Step, Mid, Pick;
  }

  /** ... so no one is woken by a tick before the deadline, and never from an endless wait. */
  lemma NoEarlyWake(v: View, now: nat, y: Task)
    requires Inv(v) && y in v.wq && y !in Step(v, Tick(now)).wq
    ensures v.t[y].delay <= now && v.t[y].delay != UINT32_MAX && y == v.wq[0]
  {
    TickWakes(v, now);
    hide Inv, Step;
    assert forall k :: 1 <= k < |v.wq| ==> v.wq[k] == v.wq[1..][k - 1];
  }

  lemma WakeJoins(v: View, now: nat)
    requires Inv(v)
    ensures forall y :: y in v.rq ==> y in Step(v, Tick(now)).rq
    ensures |v.wq| > 0 && Past(v.t[v.wq[0]].delay, now) ==> v.wq[0] in Step(v, Tick(now)).rq
  {
    hide Step, Pick, StatusSet, Inv;
    TickQueues(v, now);
    assert Mid(v) by { InvHanded(v); }
    if |v.wq| > 0 && Past(v.t[v.wq[0]].delay, now) { WokenJoins(v, v.wq[0]); }
  }

  lemma WokenJoins(v: View, x: Task)
    requires Mid(v) && x in v.wq
    ensures forall y :: y in StatusSet(v, x, Idle).rq <==> y in v.rq || y == x
  {
    hide ObjectsOk, BacksOk;
    assert v.t[x].status.Wait?;
    var ts := v.t[x := v.t[x].(status := Idle)];
    AddAmong(v.rq, ts, x);
    InsertMembers(v.rq, PriorityPos(v.rq, ts, ts[x].priority), x);
    hide InsertAt;
  }

  /** The first of the ticks, and what is left for the others. */
  lemma FirstWakeup(v: View, nows: seq<nat>)
    requires Known(v) && Inv(v) && 0 < |nows| <= |v.wq|
    requires forall j :: 0 <= j < |nows| ==> Past(v.t[v.wq[j]].delay, nows[j])
    ensures Ticks(nows)[0] == Tick(nows[0]) && Ticks(nows)[1..] == Ticks(nows[1..])
    ensures var w := Step(v, Tick(nows[0]));
      && Inv(w) && w.wq == v.wq[1..] && |nows[1..]| <= |w.wq|
      && (forall j :: 0 <= j < |nows[1..]| ==> w.wq[j] in w.t && Past(w.t[w.wq[j]].delay, nows[1..][j]))
  {
    hide Inv, Step;
    TickWakes(v, nows[0]);
    StepInv(v, Tick(nows[0]));
    SleepersKeepDeadlines(v, nows[0]);
    var w := Step(v, Tick(nows[0]));
    assert forall j :: 0 <= j < |nows[1..]| ==> w.wq[j] == v.wq[j + 1] && nows[1..][j] == nows[j + 1];
  }

  /** n ticks, the j-th at or past the j-th earliest deadline, wake exactly the n first sleepers, in order,
      and all of them are then on the runqueue. */
  lemma {:induction false} TimedWakeup(v: View, nows: seq<nat>)
    requires Inv(v) && |nows| <= |v.wq|
    requires forall j :: 0 <= j < |nows| ==> Past(v.t[v.wq[j]].delay, nows[j])
    ensures Legal(v, Ticks(nows)) && Run(v, Ticks(nows)).wq == v.wq[|nows|..]
    ensures forall y :: y in v.rq ==> y in Run(v, Ticks(nows)).rq
    ensures forall j :: 0 <= j < |nows| ==> v.wq[j] in Run(v, Ticks(nows)).rq
    decreases |nows|
  {
    hide Inv, Step, Past, Ticks;
    TicksLegal(v, nows);
    if nows != [] {
      FirstWakeup(v, nows);
      WakeJoins(v, nows[0]);
      var w := Step(v, Tick(nows[0]));
      assert Past(v.t[v.wq[0]].delay, nows[0]);
      TimedWakeup(w, nows[1..]);
      assert w.wq[|nows[1..]|..] == v.wq[|nows|..];
      assert forall j :: 1 <= j < |nows| ==> v.wq[j] == w.wq[j - 1];
    }
  }

  lemma SleepersKeepDeadlines(v: View, now: nat)
    requires Inv(v)
    ensures var w := Step(v, Tick(now));
      Known(w) && forall j :: 0 <= j < |w.wq| ==> w.wq[j] in v.t && w.t[w.wq[j]].delay == v.t[w.wq[j]].delay
  {
    TickQueues(v, now);
    StepInv(v, Tick(now));
    var w := Step(v, Tick(now));
    forall j | 0 <= j < |w.wq|
      ensures w.wq[j] in v.t && w.t[w.wq[j]].delay == v.t[w.wq[j]].delay
    {
      assert w.wq[j] in w.wq && w.running in w.rq;
    }
  }

  /** A new sleeper queues behind everyone whose deadline is not later than its own, so equal
      deadlines are served in the order the sleepers arrived. */
  lemma SleeperBehindEquals(s: seq<Task>, ts: map<Task, TaskV>, x: Task, j: nat)
    requires WaitqueueOk(s, ts) && x in ts && x !in s && j < |s|
    ensures var r := WaitqueueAdd(s, ts, x);
      IndexOf(r, s[j]) < IndexOf(r, x) <==> ts[s[j]].delay <= ts[x].delay
  {
    var p := DeadlinePos(s, ts, ts[x].delay);
    var r := InsertAt(s, p, x);
    InsertMembers(s, p, x);
    IndexOfAt(r, p);
    if j < p { assert r[j] == s[j]; IndexOfAt(r, j); }
    else {
      assert r[j + 1] == s[j];
      IndexOfAt(r, j + 1);
      assert ts[s[p]].delay <= ts[s[j]].delay;
    }
  }
}
