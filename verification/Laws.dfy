/** What each call does, as its caller and the others can see it: the caller's frame, who holds what, who
    runs, and when a sleeper may wake. None of it is said in terms of the functions of `Spec`. */
module Laws {
  import opened Types
  import opened Spec
  import opened Invariants
  import opened Scheduling
  import opened Steps
  import opened Frames
  import opened Preservation
  import opened Waits

  // ----------------------------------------------------------- calls that go on

  /** Nothing has changed but the caller's frame. */
  predicate OnlyAnswered(v: View, w: View, r: Ret) {
    v.running in v.t && w == v.(t := v.t[v.running := v.t[v.running].(ret := r)])
  }

  /** The caller goes on exactly if its call is not one of those that block. */
  lemma GoesOn(v: View, a: Action)
    requires Inv(v) && Enabled(v, a) && Step(v, a).running == v.running
    ensures Known(v) && !Blocks(v, a) && v.scheduled == null && v.running in v.t
  {
    InvHanded(v);
    if Blocks(v, a) { BlockingYields(v, a); }
    hide Inv, Step, Enabled, Handed, Ready, Blocks;
  }

  /** A call that neither blocks nor serves anyone: its result goes into its caller's frame, and that is all
      there is besides what it has done. */
  lemma Answers(v: View, o: Out)
    requires v.running in o.v.t && o.v.scheduled == null && o.v.running == v.running
    ensures Return(v, o) == o.v.(t := o.v.t[v.running := o.v.t[v.running].(ret := o.r)])
  {
  }

  lemma MutexFacts(v: View, m: Mutex)
    requires Inv(v) && OnMutex(m) in v.lists
    ensures Known(v) && v.scheduled == null && m in v.mutexes && v.running in v.t
    ensures v.mutexes[m].level < UINT16_LIMIT && (v.mutexes[m].level == 0 <==> v.mutexes[m].owner == null)
  {
    hide Inv;
    Facts(v, OnMutex(m));
  }

  lemma LockFacts(v: View, r: RwLock)
    requires Inv(v) && OnRwLock(r) in v.lists
    ensures Known(v) && v.scheduled == null && r in v.rwlocks && v.running in v.t
    ensures var rv := v.rwlocks[r];
      && rv.writers <= 1 && (rv.writers == 1 <==> rv.writer != null) && (rv.writers == 1 ==> rv.readers == 0)
      && rv.readers == |rv.holds| < UINT16_LIMIT
  {
    hide Inv;
    Facts(v, OnRwLock(r));
  }

  lemma AcquireNow(v: View, m: Mutex, to: nat, now: nat)
    requires Known(v) && MutexKnown(v, m)
    requires v.mutexes[m].owner == v.running ==> v.mutexes[m].level + 1 < UINT16_LIMIT
    requires v.mutexes[m].level == 0 <==> v.mutexes[m].owner == null
    requires v.mutexes[m].level == 0 || v.mutexes[m].owner == v.running || to == 0
    ensures var o, x, mv := MutexAcquire(v, m, to, now), v.running, v.mutexes[m];
      && o.v == v.(mutexes := o.v.mutexes) && m in o.v.mutexes
      && (forall n :: n in v.mutexes && n != m ==> n in o.v.mutexes && o.v.mutexes[n] == v.mutexes[n])
      && if mv.owner == null || mv.owner == x
         then o.r == Ret(OSS_SUCCESS, 0) && o.v.mutexes[m].owner == x && o.v.mutexes[m].level == mv.level + 1
         else o.r == Ret(OSS_ERROR_TO, 0) && o.v == v
  {
    hide Block;
  }

  /** An acquire whose caller goes on answers SUCCESS if and only if the caller owns the mutex afterwards, one
      level deeper than before; otherwise it answers OSS_ERROR_TO and nothing has changed. */
  lemma AcquireAnswers(v: View, m: Mutex, to: nat, now: nat)
    requires Inv(v) && Enabled(v, Acquire(m, to, now)) && Step(v, Acquire(m, to, now)).running == v.running
    ensures Known(v) && m in v.mutexes
    ensures var w, x, mv := Step(v, Acquire(m, to, now)), v.running, v.mutexes[m];
      && x in w.t && m in w.mutexes && w == v.(t := v.t[x := v.t[x].(ret := w.t[x].ret)], mutexes := w.mutexes)
      && (w.t[x].ret.status == OSS_SUCCESS <==> w.mutexes[m].owner == x && w.mutexes[m].level == mv.level + 1)
      && (w.t[x].ret.status == OSS_SUCCESS <==> mv.owner == null || mv.owner == x)
      && (forall n :: n in v.mutexes && n != m ==> n in w.mutexes && w.mutexes[n] == v.mutexes[n])
      && (w.t[x].ret.status != OSS_SUCCESS ==> OnlyAnswered(v, w, Ret(OSS_ERROR_TO, 0)))
  {
    hide Inv, MutexAcquire, Return, Known;
    GoesOn(v, Acquire(m, to, now));
    MutexFacts(v, m);
    AcquireNow(v, m, to, now);
    Answers(v, MutexAcquire(v, m, to, now));
  }

  lemma ReleaseNow(v: View, m: Mutex, now: nat)
    requires Known(v) && MutexKnown(v, m) && v.mutexes[m].owner == v.running
    requires v.mutexes[m].level > 1 || (v.mutexes[m].level == 1 && |v.lists[OnMutex(m)]| == 0)
    ensures var o, mv := MutexRelease(v, m, now), v.mutexes[m];
      && o.r == Ret(OSS_SUCCESS, 0) && o.v == v.(mutexes := o.v.mutexes) && m in o.v.mutexes
      && (forall n :: n in v.mutexes && n != m ==> n in o.v.mutexes && o.v.mutexes[n] == v.mutexes[n])
      && o.v.mutexes[m].level == mv.level - 1
      && o.v.mutexes[m].owner == (if mv.level > 1 then v.running else null)
  {
    hide DispatchOrQueue, Grant;
  }

  /** A release of a nested mutex takes one level off and leaves owner and waiters alone; the last one, with
      nobody waiting, frees the mutex. */
  lemma ReleaseUnwinds(v: View, m: Mutex, now: nat)
    requires Inv(v) && Enabled(v, Release(m, now))
    requires v.mutexes[m].level > 1 || |v.lists[OnMutex(m)]| == 0
    ensures var w, x, mv := Step(v, Release(m, now)), v.running, v.mutexes[m];
      && x in w.t && w.t[x].ret == Ret(OSS_SUCCESS, 0) && m in w.mutexes
      && w == v.(t := v.t[x := v.t[x].(ret := w.t[x].ret)], mutexes := w.mutexes)
      && w.mutexes[m].level == mv.level - 1
      && w.mutexes[m].owner == (if mv.level > 1 then x else null)
      && forall n :: n in v.mutexes && n != m ==> n in w.mutexes && w.mutexes[n] == v.mutexes[n]
  {
    hide Inv, MutexRelease, Return, Known;
    MutexFacts(v, m);
    ReleaseNow(v, m, now);
    Answers(v, MutexRelease(v, m, now));
  }

  lemma ReadNow(v: View, r: RwLock, to: nat, now: nat)
    requires Known(v) && RwLockKnown(v, r) && v.rwlocks[r].readers + 1 < UINT16_LIMIT
    requires v.rwlocks[r].writers == 0 || to == 0
    ensures var o, x, rv := AcquireRead(v, r, to, now), v.running, v.rwlocks[r];
      && o.v == v.(rwlocks := o.v.rwlocks) && r in o.v.rwlocks
      && (forall n :: n in v.rwlocks && n != r ==> n in o.v.rwlocks && o.v.rwlocks[n] == v.rwlocks[n])
      && if rv.writers == 0
         then o.r == Ret(OSS_SUCCESS, 0)
              && o.v.rwlocks[r] == rv.(readers := rv.readers + 1, holds := rv.holds[x := rv.holds[x] + 1])
         else o.r == Ret(OSS_ERROR_TO, 0) && o.v == v
  {
    hide Block;
    var rv, x := v.rwlocks[r], v.running;
    assert rv.holds + multiset{x} == rv.holds[x := rv.holds[x] + 1];
  }

  /** A read acquire whose caller goes on answers SUCCESS if and only if no writer holds the lock; then there is one
      more reader, and one more hold of the caller. Otherwise it answers OSS_ERROR_TO and nothing has changed. */
  lemma ReadAnswers(v: View, r: RwLock, to: nat, now: nat)
    requires Inv(v) && Enabled(v, ReadLock(r, to, now)) && Step(v, ReadLock(r, to, now)).running == v.running
    ensures Known(v) && r in v.rwlocks
    ensures var w, x, rv := Step(v, ReadLock(r, to, now)), v.running, v.rwlocks[r];
      && x in w.t && r in w.rwlocks && w == v.(t := v.t[x := v.t[x].(ret := w.t[x].ret)], rwlocks := w.rwlocks)
      && (w.t[x].ret.status == OSS_SUCCESS <==> rv.writer == null)
      && (w.t[x].ret.status == OSS_SUCCESS ==>
            w.rwlocks[r] == rv.(readers := rv.readers + 1, holds := rv.holds[x := rv.holds[x] + 1]))
      && (forall n :: n in v.rwlocks && n != r ==> n in w.rwlocks && w.rwlocks[n] == v.rwlocks[n])
      && (w.t[x].ret.status != OSS_SUCCESS ==> OnlyAnswered(v, w, Ret(OSS_ERROR_TO, 0)))
  {
    hide Inv, AcquireRead, Return, Known;
    GoesOn(v, ReadLock(r, to, now));
    LockFacts(v, r);
    ReadNow(v, r, to, now);
    Answers(v, AcquireRead(v, r, to, now));
  }

  lemma WriteNow(v: View, r: RwLock, to: nat, now: nat)
    requires Known(v) && RwLockKnown(v, r) && ((v.rwlocks[r].readers == 0 && v.rwlocks[r].writers == 0) || to == 0)
    ensures var o, x, rv := AcquireWrite(v, r, to, now), v.running, v.rwlocks[r];
      && o.v == v.(rwlocks := o.v.rwlocks) && r in o.v.rwlocks
      && (forall n :: n in v.rwlocks && n != r ==> n in o.v.rwlocks && o.v.rwlocks[n] == v.rwlocks[n])
      && if rv.readers == 0 && rv.writers == 0
         then o.r == Ret(OSS_SUCCESS, 0) && o.v.rwlocks[r] == rv.(writers := 1, writer := x)
         else o.r == Ret(OSS_ERROR_TO, 0) && o.v == v
  {
    hide Block;
  }

  /** A write acquire whose caller goes on answers SUCCESS if and only if nobody holds the lock; then the caller
      is its one writer. Otherwise it answers OSS_ERROR_TO and nothing has changed. */
  lemma WriteAnswers(v: View, r: RwLock, to: nat, now: nat)
    requires Inv(v) && Enabled(v, WriteLock(r, to, now)) && Step(v, WriteLock(r, to, now)).running == v.running
    ensures Known(v) && r in v.rwlocks
    ensures var w, x, rv := Step(v, WriteLock(r, to, now)), v.running, v.rwlocks[r];
      && x in w.t && r in w.rwlocks && w == v.(t := v.t[x := v.t[x].(ret := w.t[x].ret)], rwlocks := w.rwlocks)
      && (w.t[x].ret.status == OSS_SUCCESS <==> rv.writer == null && rv.readers == 0)
      && (w.t[x].ret.status == OSS_SUCCESS ==> w.rwlocks[r] == rv.(writers := 1, writer := x))
      && (forall n :: n in v.rwlocks && n != r ==> n in w.rwlocks && w.rwlocks[n] == v.rwlocks[n])
      && (w.t[x].ret.status != OSS_SUCCESS ==> OnlyAnswered(v, w, Ret(OSS_ERROR_TO, 0)))
  {
    hide Inv, AcquireWrite, Return, Known;
    GoesOn(v, WriteLock(r, to, now));
    LockFacts(v, r);
    WriteNow(v, r, to, now);
    Answers(v, AcquireWrite(v, r, to, now));
  }

  /** An acquire that need not wait, or does not want to, goes on. */
  lemma StaysOn(v: View, a: Action)
    requires Inv(v) && Enabled(v, a) && (a.Acquire? || a.ReadLock? || a.WriteLock?) && !Blocks(v, a)
    ensures Known(v) && Step(v, a).running == v.running
  {
    hide Inv, Block, Known, MutexAcquire, AcquireRead, AcquireWrite;
    if a.Acquire? {
      MutexFacts(v, a.m);
      AcquireNow(v, a.m, a.to, a.now);
    } else {
      LockFacts(v, a.r);
      if a.ReadLock? { ReadNow(v, a.r, a.to, a.now); } else { WriteNow(v, a.r, a.to, a.now); }
    }
  }

  /** Receiving from an empty queue, or sending to a full one, without waiting is refused. */
  lemma QueueRefuses(v: View, a: Action)
    requires Inv(v) && Enabled(v, a) && Step(v, a).running == v.running
    requires (a.ReceiveFrom? && v.queues[a.q].number == 0) || (a.SendTo? && v.queues[a.q].number == v.queues[a.q].size)
    ensures Known(v) && OnlyAnswered(v, Step(v, a), Ret(OSS_ERROR_MEM, 0))
  {
    hide Inv, Block;
    GoesOn(v, a);
    NoReceiverAtFull(v, a.q);
  }

  lemma NoReceiverAtFull(v: View, q: Queue)
    requires Inv(v) && OnQueue(q) in v.lists
    ensures Known(v) && q in v.queues && (v.queues[q].number == v.queues[q].size ==> !ReceiverWaits(v, q))
  {
    hide Inv;
    Facts(v, OnQueue(q));
  }

  // ------------------------------------------------------------- lock releases

  /** The first task of the list that is in a call to read. */
  predicate FirstToRead(list: seq<Task>, ts: map<Task, TaskV>, i: nat) {
    && i < |list| && list[i] in ts && ts[list[i]].call.Read?
    && forall j :: 0 <= j < i ==> list[j] in ts && !ts[list[j]].call.Read?
  }

  /** The readers and holds that are left: a reader gives up one hold, and the writer was alone. */
  function ReadersLeft(rv: RwLockV, x: Task): int {
    if rv.writer == x then 0 else rv.readers - 1
  }

  function HoldsLeft(rv: RwLockV, x: Task): multiset<Task> {
    if rv.writer == x then multiset{} else rv.holds - multiset{x}
  }

  /** A release gives up what its caller holds: a reader one hold, the writer the lock. The writer at the head of
      the list gets a lock that is free then; else the first task that waits to read gets a hold; else nobody. */
  ghost predicate Passed(v: View, r: RwLock, rv1: RwLockV)
    requires r in v.rwlocks && OnRwLock(r) in v.lists
  {
    var rv, x := v.rwlocks[r], v.running;
    && (rv.writer != x ==> rv.holds[x] > 0)
    && ReadersLeft(rv, x) >= 0 && PassedOn(v.lists[OnRwLock(r)], v.t, ReadersLeft(rv, x), HoldsLeft(rv, x), rv1)
  }

  ghost predicate PassedOn(list: seq<Task>, ts: map<Task, TaskV>, n: nat, h: multiset<Task>, rv1: RwLockV) {
    if |list| > 0 && list[0] in ts && n == 0 && ts[list[0]].call.Write? then rv1 == RwLockV(0, 1, list[0], multiset{})
    else
      && (forall i: nat :: FirstToRead(list, ts, i) ==> rv1 == RwLockV(n + 1, 0, null, h + multiset{list[i]}))
      && ((forall y :: y in list && y in ts ==> !ts[y].call.Read?) ==> rv1 == RwLockV(n, 0, null, h))
  }

  lemma DropIs(rv: RwLockV, x: Task)
    requires rv.writers <= 1 && (rv.writers == 1 <==> rv.writer != null) && (rv.writers == 1 ==> rv.readers == 0)
    requires rv.readers == |rv.holds| && (x in rv.holds || rv.writer == x)
    ensures var d := DropHold(rv, x);
      d == RwLockV(ReadersLeft(rv, x), 0, null, HoldsLeft(rv, x)) && (rv.writer != x ==> rv.holds[x] > 0)
    ensures ReadersLeft(rv, x) == 0 ==> HoldsLeft(rv, x) == multiset{}
  {
    var h := HoldsLeft(rv, x);
    assert |h| == ReadersLeft(rv, x);
  }

  /** What a waiter says it wants is what it has called for. */
  lemma FirstReaderReads(list: seq<Task>, ts: map<Task, TaskV>)
    requires Among(list, ts.Keys)
    requires forall i :: 0 <= i < |list| ==> (ts[list[i]].c == DESIRED_READ <==> ts[list[i]].call.Read?)
    ensures var i := FirstReader(list, ts);
      && (i < |list| ==> FirstToRead(list, ts, i) && forall j: nat :: FirstToRead(list, ts, j) ==> j == i)
      && (i == |list| ==> forall j: nat :: !FirstToRead(list, ts, j))
  {
    var i := FirstReader(list, ts);
    forall j: nat | FirstToRead(list, ts, j)
      ensures j == i
    {
    }
  }

  lemma PassesOn(v: View, r: RwLock, now: nat)
    requires Known(v) && RwLockKnown(v, r)
    requires var rv := v.rwlocks[r];
      rv.writers <= 1 && (rv.writers == 1 <==> rv.writer != null) && (rv.writers == 1 ==> rv.readers == 0)
    requires v.rwlocks[r].readers == |v.rwlocks[r].holds| < UINT16_LIMIT
    requires v.running in v.rwlocks[r].holds || v.rwlocks[r].writer == v.running
    requires forall i :: 0 <= i < |v.lists[OnRwLock(r)]| ==> Asks(v.t[v.lists[OnRwLock(r)][i]])
    ensures var m := UnlockMid(v, r, now); r in m.rwlocks && Passed(v, r, m.rwlocks[r])
  {
    hide FirstReader, DropHold, Known, UnlockMid, ReadersLeft, HoldsLeft;
    var rv, list := v.rwlocks[r], v.lists[OnRwLock(r)];
    DropIs(rv, v.running);
    DropFits(rv, v.running);
    FirstReaderReads(list, v.t);
    MidLock(v, r, now);
  }

  lemma MidLock(v: View, r: RwLock, now: nat)
    requires Known(v) && RwLockKnown(v, r)
    ensures var m, list, d := UnlockMid(v, r, now), v.lists[OnRwLock(r)], DropHold(v.rwlocks[r], v.running);
      var i := FirstReader(list, v.t);
      && r in m.rwlocks
      && m.rwlocks[r] ==
           if |list| > 0 && d.readers == 0 && v.t[list[0]].c == DESIRED_WRITE
           then d.(writers := d.writers + 1, writer := list[0])
           else if i < |list|
           then d.(readers := (d.readers + 1) % UINT16_LIMIT, holds := d.holds + multiset{list[i]})
           else d
  {
    hide FirstReader, DropHold, Known;
  }

  lemma DropFits(rv: RwLockV, x: Task)
    requires rv.readers < UINT16_LIMIT && (x in rv.holds || rv.writer == x) && rv.readers == |rv.holds|
    requires rv.writers <= 1 && (rv.writers == 1 <==> rv.writer != null) && (rv.writers == 1 ==> rv.readers == 0)
    ensures DropHold(rv, x).readers + 1 < UINT16_LIMIT
  {
  }

  /** A waiter's word says what it has called for. */
  predicate Asks(tv: TaskV) {
    (tv.call.Read? && tv.c == DESIRED_READ) || (tv.call.Write? && tv.c == DESIRED_WRITE)
  }

  lemma WaitersAsk(v: View, r: RwLock)
    requires Inv(v) && RwLockKnown(v, r)
    ensures Known(v) && forall i :: 0 <= i < |v.lists[OnRwLock(r)]| ==> Asks(v.t[v.lists[OnRwLock(r)][i]])
  {
    hide Inv;
    Facts(v, OnRwLock(r));
    WaitersCall(v, r);
    var list := v.lists[OnRwLock(r)];
    assert forall i :: 0 <= i < |list| ==> list[i] in list;
  }

  lemma WaitersCall(v: View, r: RwLock)
    requires Inv(v) && RwLockKnown(v, r)
    ensures forall y :: y in v.lists[OnRwLock(r)] ==> y in v.t && (v.t[y].call.Read? || v.t[y].call.Write?)
  {
    Facts(v, OnRwLock(r));
    forall y | y in v.lists[OnRwLock(r)]
      ensures y in v.t && (v.t[y].call.Read? || v.t[y].call.Write?)
    {
      assert TaskOk(v.t[y]) && v.t[y].back == OnRwLock(r);
    }
  }

  /** A release answers SUCCESS and passes on what its caller held. */
  lemma UnlockPasses(v: View, r: RwLock, now: nat)
    requires Inv(v) && Enabled(v, Unlock(r, now))
    ensures r in v.rwlocks && OnRwLock(r) in v.lists
    ensures var w := Step(v, Unlock(r, now));
      && v.running in w.t && w.t[v.running].ret == Ret(OSS_SUCCESS, 0)
      && r in w.rwlocks && Passed(v, r, w.rwlocks[r])
  {
    hide Inv, Step, Middle, RwRelease, UnlockMid, Passed, ReaderStillWaits, Stage, Answered, FramesKept, LinksKept;
    var a := Unlock(r, now);
    StepKnown(v, a);
    LockFacts(v, r);
    WaitersAsk(v, r);
    PassesOn(v, r, now);
    UnlockReturns(v, r, now);
  }

  lemma UnlockReturns(v: View, r: RwLock, now: nat)
    requires Known(v) && Enabled(v, Unlock(r, now))
    ensures Middle(v, Unlock(r, now)) == UnlockMid(v, r, now)
    ensures var w := Step(v, Unlock(r, now)); v.running in w.t && w.t[v.running].ret == Ret(OSS_SUCCESS, 0)
  {
    hide UnlockMid, DispatchOrQueue, StatusSet, FirstReader, GrantRead, GrantWrite;
  }

  /** A call on `o` writes SUCCESS into the frames of exactly those waiters that it takes off the list. */
  lemma ServedFrame(v: View, a: Action, o: Obj, y: Task)
    requires Inv(v) && Enabled(v, a) && ObjectOf(a) == o && o in v.lists && y in v.lists[o]
    ensures Known(v) && y != v.running && y in v.t && v.t[y].back == o && y in Step(v, a).t && o in Middle(v, a).lists
    ensures Step(v, a).t[y].ret.status == OSS_SUCCESS <==> y !in Middle(v, a).lists[o]
  {
    hide Inv, Step, Enabled, Middle, Got, Undisturbed, Stage, Answered, FramesKept, LinksKept, RetsKept, Outcome;
    WaiterAt(v, o, y);
    RunningUnlisted(v);
    StepKnown(v, a);
    ListedStep(v, a, o, y);
    if Step(v, a).running != y { WaiterAt(Step(v, a), o, y); }
    assert o in Middle(v, a).lists by { hide *; MiddleLists(v, a, o); }
  }

  lemma MiddleLists(v: View, a: Action, o: Obj)
    requires Inv(v) && Enabled(v, a) && ObjectOf(a) == o && o != NoObj
    ensures Known(v) && o in Middle(v, a).lists
  {
    StepGood(v, a);
    hide Inv, Step, Enabled, Middle, Good, Undisturbed, Stage, Answered, FramesKept, LinksKept, ObjectOk;
    assert Known(v) by { InvHanded(v); }
  }
}
