/** What holds of the kernel between steps, and inside a step where it is not said otherwise. */
module Invariants {
  import opened Types
  import opened Sequences
  import opened Spec

  // ------------------------------------------------------------- both queues

  ghost predicate IdleLowest(ts: map<Task, TaskV>, idle: Task) {
    idle in ts && ts[idle].priority == PRIORITY_IDLE
    && forall x :: x in ts && x != idle ==> ts[x].priority > PRIORITY_IDLE
  }

  ghost predicate ByPriority(s: seq<Task>, ts: map<Task, TaskV>)
    requires Among(s, ts.Keys)
  {
    forall i, j :: 0 <= i < j < |s| ==> ts[s[i]].priority >= ts[s[j]].priority
  }

  ghost predicate ByDeadline(s: seq<Task>, ts: map<Task, TaskV>)
    requires Among(s, ts.Keys)
  {
    forall i, j :: 0 <= i < j < |s| ==> ts[s[i]].delay <= ts[s[j]].delay
  }

  /** The runqueue is exactly the IDLE and ACTIVE tasks, in non-increasing priority. */
  ghost predicate RunqueueOk(s: seq<Task>, ts: map<Task, TaskV>) {
    && Among(s, ts.Keys) && Distinct(s)
    && (forall x :: x in ts ==> (x in s <==> Runnable(ts[x].status)))
    && ByPriority(s, ts)
  }

  /** The waitqueue is exactly the WAIT tasks, in non-decreasing deadline. */
  ghost predicate WaitqueueOk(s: seq<Task>, ts: map<Task, TaskV>) {
    && Among(s, ts.Keys) && Distinct(s)
    && (forall x :: x in ts ==> (x in s <==> ts[x].status.Wait?))
    && ByDeadline(s, ts)
  }

  // ----------------------------------------------------------- blocked lists

  predicate CallFits(o: Obj, call: Call) {
    match o
    case NoObj => call == NoCall
    case OnMutex(_) => call == Lock
    case OnQueue(_) => call == Send || call == Receive
    case OnRwLock(_) => call == Read || call == Write
  }

  /** Back pointer, flag and call of one task agree; only a task that waits, or has been
      woken and not yet run, has any. */
  predicate TaskOk(tv: TaskV) {
    && tv.flags == FlagOf(tv.back)
    && CallFits(tv.back, tv.call)
    && tv.delay <= UINT32_MAX
    && (tv.back != NoObj ==> tv.status.Wait? || tv.status.Idle?)
  }

  ghost predicate TasksOk(ts: map<Task, TaskV>) {
    forall x :: x in ts ==> TaskOk(ts[x])
  }

  /** A member of an object's list has its back pointer at that object, and is there once. */
  ghost predicate ListOk(list: seq<Task>, ts: map<Task, TaskV>, o: Obj) {
    && Among(list, ts.Keys) && Distinct(list)
    && forall x :: x in list ==> ts[x].back == o
  }

  /** The stacked return of every task waiting at `o` tells whether it was served. The caller
      `me` of the step under way is exempt until its own frame is written. */
  ghost predicate RetsOk(list: seq<Task>, ts: map<Task, TaskV>, o: Obj, me: Task) {
    forall x :: x in ts && x != me && ts[x].back == o ==>
      ts[x].ret.status == if x in list then OSS_ERROR_TO else OSS_SUCCESS
  }

  // ----------------------------------------------------------------- objects

  /** Accounting of a mutex. Waiters are not owners; a task that has left the list without
      having run yet owns the mutex. */
  ghost predicate MutexOk(mv: MutexV, list: seq<Task>, ts: map<Task, TaskV>, o: Obj) {
    && mv.level < UINT16_LIMIT
    && (mv.level == 0 <==> mv.owner == null)
    && (mv.owner != null ==> mv.owner in ts)
    && (mv.level == 0 ==> list == [])
    && mv.balance.Keys == ts.Keys
    && (forall x :: x in ts ==> mv.balance[x] == if mv.owner == x then mv.level else 0)
    && (forall x :: x in ts && ts[x].back == o ==> (x in list <==> mv.owner != x))
  }

  /** The slot `i` places after `last`, around the end of the array. */
  function Slot(last: nat, i: nat, size: nat): (s: nat)
    requires last < size && i <= size
    ensures s < size
  {
    if last + i < size then last + i else last + i - size
  }

  lemma SlotIsModulo(last: nat, i: nat, size: nat)
    requires last < size && i <= size
    ensures Slot(last, i, size) == (last + i) % size
  {
    if last + i < size { RemainderUnique(last + i, size, 0, last + i); }
    else { RemainderUnique(last + i, size, 1, last + i - size); }
  }

  /** The stored messages, oldest first. */
  function Ring(qv: QueueV): seq<Word>
    requires QueueShape(qv)
  {
    seq(qv.number, i requires 0 <= i < qv.number => qv.messages[Slot(qv.last, i, qv.size)])
  }

  /** Everything offered and not yet delivered: the ring, then the blocked senders. */
  function Contents(qv: QueueV, list: seq<Task>, ts: map<Task, TaskV>): seq<Word>
    requires QueueShape(qv) && Among(list, ts.Keys)
  {
    Ring(qv) + if qv.status.BlockedSend? then Messages(list, ts) else []
  }

  ghost predicate QueueOk(qv: QueueV, list: seq<Task>, ts: map<Task, TaskV>) {
    && QueueShape(qv)
    && Among(list, ts.Keys)
    && qv.first == Slot(qv.last, qv.number, qv.size)
    && (list != [] ==>
        || (qv.status.BlockedSend? && qv.number == qv.size)
        || (qv.status.BlockedReceive? && qv.number == 0))
    && (forall x :: x in list ==> ts[x].call == if qv.status.BlockedSend? then Send else Receive)
    && qv.sent == qv.got + Contents(qv, list, ts)
  }

  /** Writers exclude readers and each other, and the counters count the holds. A waiter's
      word tells its mode; a task that has left the list without having run yet has its hold. */
  ghost predicate HoldsOk(rv: RwLockV, list: seq<Task>, ts: map<Task, TaskV>, o: Obj) {
    && Among(list, ts.Keys)
    && rv.writers <= 1
    && (rv.writers == 1 <==> rv.writer != null)
    && (rv.writer != null ==> rv.writer in ts)
    && (rv.writers == 1 ==> rv.readers == 0)
    && rv.readers == |rv.holds| < UINT16_LIMIT
    && (forall x :: x in list ==> ts[x].c == if ts[x].call.Read? then DESIRED_READ else DESIRED_WRITE)
    && (forall x :: x in ts && ts[x].back == o && x !in list ==>
          if ts[x].call.Read? then x in rv.holds else rv.writer == x)
  }

  ghost predicate RwLockOk(rv: RwLockV, list: seq<Task>, ts: map<Task, TaskV>, o: Obj) {
    HoldsOk(rv, list, ts, o) && (list != [] ==> rv.readers > 0 || rv.writers > 0)
  }

  ghost predicate ObjectOk(v: View, o: Obj)
    requires Known(v) && o in v.objs
  {
    && ListOk(v.lists[o], v.t, o)
    && RetsOk(v.lists[o], v.t, o, v.running)
    && match o
       case NoObj => true
       case OnMutex(m) => m in v.mutexes && MutexOk(v.mutexes[m], v.lists[o], v.t, o)
       case OnQueue(q) => q in v.queues && QueueOk(v.queues[q], v.lists[o], v.t)
       case OnRwLock(r) => r in v.rwlocks && RwLockOk(v.rwlocks[r], v.lists[o], v.t, o)
  }

  // ------------------------------------------------------------- invariants

  /** What the scheduler relies on. */
  ghost predicate SchedOk(rq: seq<Task>, wq: seq<Task>, ts: map<Task, TaskV>, idle: Task) {
    && RunqueueOk(rq, ts) && WaitqueueOk(wq, ts)
    && IdleLowest(ts, idle) && idle in rq && ts[idle].back == NoObj
    && TasksOk(ts)
  }

  ghost predicate BacksOk(ts: map<Task, TaskV>, objs: set<Obj>) {
    NoObj !in objs && forall x {:trigger ts[x].back} :: x in ts && ts[x].back != NoObj ==> ts[x].back in objs
  }

  ghost predicate ObjectsOk(v: View)
    requires Known(v)
  {
    forall o :: o in v.objs ==> ObjectOk(v, o)
  }

  /** Holds at every point of a step where control passes from one kernel function to the
      next, once the caller of a blocking call has left the runqueue. */
  ghost predicate Mid(v: View) {
    Known(v) && SchedOk(v.rq, v.wq, v.t, v.idle) && BacksOk(v.t, v.objs) && ObjectsOk(v)
  }

  /** Only the running task is ACTIVE. */
  ghost predicate ActiveOnly(ts: map<Task, TaskV>, x: Task) {
    forall y :: y in ts && ts[y].status.Active? ==> y == x
  }

  /** Holds between steps: nothing is scheduled, and the running task is ACTIVE unless it has
      just suspended itself or returned from its handler. */
  ghost predicate Inv(v: View) {
    && Mid(v)
    && v.scheduled == null
    && ActiveOnly(v.t, v.running)
    && (var st := v.t[v.running].status; st.Active? || st.Suspended? || st.Finished?)
  }

  // ----------------------------------------------------- changes of one task

  /** `ts1` differs from `ts0` at most at `x`. */
  ghost predicate SameBut(ts0: map<Task, TaskV>, ts1: map<Task, TaskV>, x: Task) {
    && ts1.Keys == ts0.Keys
    && forall y :: y in ts0 && y != x ==> ts1[y] == ts0[y]
  }

  lemma WithoutOrdered(s: seq<Task>, ts: map<Task, TaskV>, x: Task)
    requires Among(s, ts.Keys)
    ensures Among(Without(s, x), ts.Keys)
    ensures ByPriority(s, ts) ==> ByPriority(Without(s, x), ts)
    ensures ByDeadline(s, ts) ==> ByDeadline(Without(s, x), ts)
  {
    WithoutAmong(s, x, ts.Keys);
    var r, n := Without(s, x), IndexOf(s, x);
    forall i, j | 0 <= i < j < |r|
      ensures ByPriority(s, ts) ==> ts[r[i]].priority >= ts[r[j]].priority
      ensures ByDeadline(s, ts) ==> ts[r[i]].delay <= ts[r[j]].delay
    {
      assert r[i] == s[if i < n then i else i + 1] && r[j] == s[if j < n then j else j + 1];
    }
  }

  lemma InsertAmong(s: seq<Task>, p: nat, x: Task, tasks: set<Task>)
    requires Among(s, tasks) && p <= |s| && x in tasks
    ensures Among(InsertAt(s, p, x), tasks) && |InsertAt(s, p, x)| == |s| + 1
  {
  }

  lemma InsertOrdered(s: seq<Task>, ts: map<Task, TaskV>, x: Task)
    requires Among(s, ts.Keys) && x in ts
    ensures Among(InsertAt(s, PriorityPos(s, ts, ts[x].priority), x), ts.Keys)
    ensures ByPriority(s, ts) ==> ByPriority(InsertAt(s, PriorityPos(s, ts, ts[x].priority), x), ts)
  {
    hide PriorityPos, InsertAt;
    var p := PriorityPos(s, ts, ts[x].priority);
    InsertAmong(s, p, x, ts.Keys);
    if ByPriority(s, ts) {
      forall i, j | 0 <= i < j <= |s|
        ensures ts[InsertAt(s, p, x)[i]].priority >= ts[InsertAt(s, p, x)[j]].priority
      {
        InsertIndex(s, p, x, i);
        InsertIndex(s, p, x, j);
        assert p < j ==> ts[s[p]].priority >= ts[s[j - 1]].priority;
      }
    }
  }

  lemma InsertByDeadline(s: seq<Task>, ts: map<Task, TaskV>, x: Task)
    requires Among(s, ts.Keys) && x in ts
    ensures Among(WaitqueueAdd(s, ts, x), ts.Keys)
    ensures ByDeadline(s, ts) ==> ByDeadline(WaitqueueAdd(s, ts, x), ts)
  {
    hide DeadlinePos, InsertAt;
    var p := DeadlinePos(s, ts, ts[x].delay);
    InsertAmong(s, p, x, ts.Keys);
    if ByDeadline(s, ts) {
      forall i, j | 0 <= i < j <= |s|
        ensures ts[InsertAt(s, p, x)[i]].delay <= ts[InsertAt(s, p, x)[j]].delay
      {
        InsertIndex(s, p, x, i);
        InsertIndex(s, p, x, j);
        assert p < j ==> ts[s[p]].delay <= ts[s[j - 1]].delay;
      }
    }
  }

  /** Order among tasks whose records did not change. */
  lemma OrderFrame(s: seq<Task>, ts0: map<Task, TaskV>, ts1: map<Task, TaskV>, x: Task)
    requires Among(s, ts0.Keys) && SameBut(ts0, ts1, x) && x !in s
    ensures ByPriority(s, ts0) ==> ByPriority(s, ts1)
    ensures ByDeadline(s, ts0) ==> ByDeadline(s, ts1)
  {
    assert forall k :: 0 <= k < |s| ==> s[k] in s && ts1[s[k]] == ts0[s[k]];
  }

  lemma LeaveRunqueue(s: seq<Task>, ts0: map<Task, TaskV>, ts1: map<Task, TaskV>, x: Task)
    requires RunqueueOk(s, ts0) && x in ts0 && SameBut(ts0, ts1, x)
    requires !Runnable(ts1[x].status)
    ensures RunqueueOk(Without(s, x), ts1)
  {
    WithoutMembers(s, x);
    WithoutOrdered(s, ts0, x);
    OrderFrame(Without(s, x), ts0, ts1, x);
  }

  lemma LeaveWaitqueue(s: seq<Task>, ts0: map<Task, TaskV>, ts1: map<Task, TaskV>, x: Task)
    requires WaitqueueOk(s, ts0) && x in ts0 && SameBut(ts0, ts1, x)
    requires !ts1[x].status.Wait?
    ensures WaitqueueOk(Without(s, x), ts1)
  {
    WithoutMembers(s, x);
    WithoutOrdered(s, ts0, x);
    OrderFrame(Without(s, x), ts0, ts1, x);
  }

  /** A task that is not queued is inserted behind those of its own priority or above. */
  lemma JoinRunqueue(s: seq<Task>, ts0: map<Task, TaskV>, ts1: map<Task, TaskV>, x: Task)
    requires RunqueueOk(s, ts0) && x in ts0 && SameBut(ts0, ts1, x)
    requires !Runnable(ts0[x].status) && Runnable(ts1[x].status)
    ensures x !in s && RunqueueOk(RunqueueAdd(s, ts1, x), ts1)
  {
    OrderFrame(s, ts0, ts1, x);
    InsertOrdered(s, ts1, x);
    InsertMembers(s, PriorityPos(s, ts1, ts1[x].priority), x);
  }

  lemma JoinWaitqueue(s: seq<Task>, ts0: map<Task, TaskV>, ts1: map<Task, TaskV>, x: Task)
    requires WaitqueueOk(s, ts0) && x in ts0 && SameBut(ts0, ts1, x)
    requires !ts0[x].status.Wait? && ts1[x].status.Wait?
    ensures x !in s && WaitqueueOk(WaitqueueAdd(s, ts1, x), ts1)
  {
    OrderFrame(s, ts0, ts1, x);
    InsertByDeadline(s, ts1, x);
    InsertMembers(s, DeadlinePos(s, ts1, ts1[x].delay), x);
  }

  /** A change that does not touch runnability or priority leaves the runqueue alone. */
  lemma KeepRunqueue(s: seq<Task>, ts0: map<Task, TaskV>, ts1: map<Task, TaskV>, x: Task)
    requires RunqueueOk(s, ts0) && x in ts0 && SameBut(ts0, ts1, x)
    requires Runnable(ts1[x].status) == Runnable(ts0[x].status)
    requires Runnable(ts1[x].status) ==> ts1[x].priority == ts0[x].priority
    ensures RunqueueOk(s, ts1)
  {
  }

  lemma KeepWaitqueue(s: seq<Task>, ts0: map<Task, TaskV>, ts1: map<Task, TaskV>, x: Task)
    requires WaitqueueOk(s, ts0) && x in ts0 && SameBut(ts0, ts1, x)
    requires ts1[x].status.Wait? == ts0[x].status.Wait?
    requires ts1[x].status.Wait? ==> ts1[x].delay == ts0[x].delay
    ensures WaitqueueOk(s, ts1)
  {
  }

  // ------------------------------------------------- objects a step leaves alone

  /** The parts of a task's record that an object's invariant looks at. */
  predicate SameLinks(a: TaskV, b: TaskV) {
    a.back == b.back && a.c == b.c && a.call == b.call
  }

  /** ... where the frame of the running task does not matter. */
  predicate SameFrame(v: View, w: View, x: Task)
    requires x in v.t && x in w.t
  {
    SameLinks(v.t[x], w.t[x]) && (v.t[x].ret == w.t[x].ret || x == v.running)
  }

  predicate SameObject(v: View, w: View, o: Obj) {
    match o
    case NoObj => true
    case OnMutex(m) => m in v.mutexes ==> m in w.mutexes && w.mutexes[m] == v.mutexes[m]
    case OnQueue(q) => q in v.queues ==> q in w.queues && w.queues[q] == v.queues[q]
    case OnRwLock(r) => r in v.rwlocks ==> r in w.rwlocks && w.rwlocks[r] == v.rwlocks[r]
  }

  lemma MutexFrame(mv: MutexV, list: seq<Task>, ts0: map<Task, TaskV>, ts1: map<Task, TaskV>, o: Obj, x: Task)
    requires MutexOk(mv, list, ts0, o) && x in ts0 && SameBut(ts0, ts1, x)
    requires ts0[x].back == o <==> ts1[x].back == o
    ensures MutexOk(mv, list, ts1, o)
  {
  }

  lemma QueueFrame(qv: QueueV, list: seq<Task>, ts0: map<Task, TaskV>, ts1: map<Task, TaskV>, x: Task)
    requires QueueOk(qv, list, ts0) && x in ts0 && SameBut(ts0, ts1, x)
    requires SameLinks(ts0[x], ts1[x]) || x !in list
    ensures QueueOk(qv, list, ts1)
  {
    assert Messages(list, ts1) == Messages(list, ts0);
  }

  lemma RwLockFrame(rv: RwLockV, list: seq<Task>, ts0: map<Task, TaskV>, ts1: map<Task, TaskV>, o: Obj, x: Task)
    requires RwLockOk(rv, list, ts0, o) && x in ts0 && SameBut(ts0, ts1, x)
    requires SameLinks(ts0[x], ts1[x]) || (ts0[x].back != o && ts1[x].back != o && x !in list)
    ensures RwLockOk(rv, list, ts1, o)
  {
  }

  /** An object keeps its invariant if it is unchanged, its list is unchanged, and the one
      task whose record changed was not and is not waiting at it. */
  lemma OtherObject(v: View, w: View, o: Obj, x: Task)
    requires Known(v) && Known(w) && o in v.objs && w.objs == v.objs && ObjectOk(v, o)
    requires w.running == v.running && SameObject(v, w, o) && w.lists[o] == v.lists[o]
    requires x in v.t && SameBut(v.t, w.t, x)
    requires SameFrame(v, w, x) || (v.t[x].back != o && w.t[x].back != o)
    ensures ObjectOk(w, o)
  {
    var list := v.lists[o];
    assert ListOk(list, w.t, o) && RetsOk(list, w.t, o, v.running);
    match o
    case NoObj =>
    case OnMutex(m) => MutexFrame(v.mutexes[m], list, v.t, w.t, o, x);
    case OnQueue(q) => QueueFrame(v.queues[q], list, v.t, w.t, x);
    case OnRwLock(r) => RwLockFrame(v.rwlocks[r], list, v.t, w.t, o, x);
  }
}
