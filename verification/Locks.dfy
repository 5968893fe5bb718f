/** Mutexes and reader/writer locks over whole runs. */
module Locks {
  import opened Types
  import opened Sequences
  import opened Spec
  import opened Invariants
  import opened Scheduling
  import opened Steps
  import opened Frames
  import opened RwLockSteps
  import opened Preservation
  import opened Runs

  // -------------------------------------------------------------------- mutex

  lemma MutexAt(v: View, m: Mutex)
    requires Inv(v) && OnMutex(m) in v.lists
    ensures Known(v) && MutexKnown(v, m) && MutexOk(v.mutexes[m], v.lists[OnMutex(m)], v.t, OnMutex(m))
  {
    hide Inv;
    Facts(v, OnMutex(m));
  }

  /** In every reachable state the nesting level of a mutex is what its owner has acquired and
      not released, nobody else has anything outstanding, and a free mutex has no waiters, so
      that a newcomer never gets ahead of a task that waits. */
  lemma MutexAccounting(v: View, run: seq<Action>, m: Mutex)
    requires Inv(v) && Legal(v, run) && OnMutex(m) in Run(v, run).lists
    ensures MutexKnown(Run(v, run), m)
    ensures var w := Run(v, run);
      var mv := w.mutexes[m];
      && (mv.owner == null <==> mv.level == 0)
      && (forall x :: x in w.t ==> mv.balance[x] == if mv.owner == x then mv.level else 0)
      && (|w.lists[OnMutex(m)]| > 0 ==> mv.owner != null && mv.owner !in w.lists[OnMutex(m)])
  {
    hide Inv, Run;
    RunInv(v, run);
    var w := Run(v, run);
    MutexAt(w, m);
    Facts(w, OnMutex(m));
    assert forall x :: x in w.lists[OnMutex(m)] ==> w.t[x].back == OnMutex(m);
  }

  /** The final release hands the mutex to the task that has waited longest, among those a
      timeout has not taken off the list; the rest keep their order. */
  lemma GrantsInOrder(v: View, m: Mutex, now: nat)
    requires Inv(v) && Enabled(v, Release(m, now)) && OnMutex(m) in v.lists
    requires v.mutexes[m].level == 1 && |v.lists[OnMutex(m)]| > 0
    ensures var w, o, x := Step(v, Release(m, now)), OnMutex(m), v.lists[OnMutex(m)][0];
      && m in w.mutexes && w.mutexes[m].owner == x && w.mutexes[m].level == 1
      && o in w.lists && w.lists[o] == Without(v.lists[o][1..], w.running)
      && x in w.t && w.t[x].ret.status == OSS_SUCCESS
      && v.running in w.t && w.t[v.running].ret == Status0(OSS_SUCCESS)
  {
    var a, o := Release(m, now), OnMutex(m);
    StepGood(v, a);
    ReleaseMiddle(v, m, now);
    ReturnStatus(v, a);
    hide Inv, Step, Middle, Good, ObjectOk, MutexOk, Enabled;
  }

  lemma ReleaseMiddle(v: View, m: Mutex, now: nat)
    requires Inv(v) && Enabled(v, Release(m, now)) && OnMutex(m) in v.lists
    requires v.mutexes[m].level == 1 && |v.lists[OnMutex(m)]| > 0
    ensures var mid, o, x := Middle(v, Release(m, now)), OnMutex(m), v.lists[OnMutex(m)][0];
      && m in mid.mutexes && mid.mutexes[m].owner == x && mid.mutexes[m].level == 1
      && o in mid.lists && mid.lists[o] == v.lists[o][1..]
      && x != v.running && x in mid.t && mid.t[x].ret.status == OSS_SUCCESS
    ensures MutexRelease(v, m, now).r == Status0(OSS_SUCCESS)
  {
    RunningUnlisted(v);
    var x := v.lists[OnMutex(m)][0];
    assert x in v.lists[OnMutex(m)];
    hide Inv, DispatchOrQueue;
  }

  lemma ReturnStatus(v: View, a: Action)
    requires Known(v) && Enabled(v, a) && a.Release?
    ensures v.running in Step(v, a).t && Step(v, a).t[v.running].ret == MutexRelease(v, a.m, a.now).r
  {
    hide MutexRelease, MutexKnown;
  }

  // ---------------------------------------------------------- reader/writer lock

  lemma RwLockAt(v: View, r: RwLock)
    requires Inv(v) && OnRwLock(r) in v.lists
    ensures Known(v) && RwLockKnown(v, r) && RwLockOk(v.rwlocks[r], v.lists[OnRwLock(r)], v.t, OnRwLock(r))
  {
    hide Inv;
    Facts(v, OnRwLock(r));
  }

  /** In every reachable state at most one writer holds a lock, a writer excludes readers, the
      reader count is the number of read holds outstanding, and a lock that nobody holds has no
      waiters. */
  lemma ReadersOrWriter(v: View, run: seq<Action>, r: RwLock)
    requires Inv(v) && Legal(v, run) && OnRwLock(r) in Run(v, run).lists
    ensures RwLockKnown(Run(v, run), r)
    ensures var w := Run(v, run);
      var rv := w.rwlocks[r];
      && rv.writers <= 1 && (rv.writers == 1 <==> rv.writer != null)
      && (rv.writers == 1 ==> rv.readers == 0 && rv.holds == multiset{})
      && rv.readers == |rv.holds|
      && (rv.readers == 0 && rv.writers == 0 ==> w.lists[OnRwLock(r)] == [])
  {
    hide Inv, Run;
    RunInv(v, run);
    RwLockAt(Run(v, run), r);
  }

  /** A writer that resumes with SUCCESS holds the lock alone, as os_rwlock_acquire_write
      asserts ... */
  lemma WriterResumesAlone(v: View, a: Action, r: RwLock)
    requires Inv(v) && Enabled(v, a) && Step(v, a).running != v.running
    requires Step(v, a).running in v.t && OnRwLock(r) in v.lists
    requires v.t[Step(v, a).running].back == OnRwLock(r) && v.t[Step(v, a).running].call == Write
    requires Step(v, a).running in Step(v, a).t
    requires Step(v, a).t[Step(v, a).running].ret.status == OSS_SUCCESS
    ensures HeldByWriter(Step(v, a), r, Step(v, a).running)
  {
    StepGood(v, a);
    var w := Step(v, a);
    assert Inv(w) && r in w.rwlocks && w.rwlocks[r].writer == w.running && OnRwLock(r) in w.lists by {
      hide Inv, Step, Enabled, Middle, RetsKept, Framed, Highest;
      WriterKnown(v, a, r);
    }
    hide Inv, Step, Enabled, Good, Settles, Middle;
    RwLockAt(w, r);
  }

  lemma WriterKnown(v: View, a: Action, r: RwLock)
    requires Inv(v) && Enabled(v, a) && OnRwLock(r) in v.lists && Good(v, ObjectOf(a), Step(v, a))
    ensures OnRwLock(r) in Step(v, a).lists
  {
    var w := Step(v, a);
    assert Known(v) && Known(w) && w.objs == v.objs;
  }

  ghost predicate HeldByWriter(v: View, r: RwLock, x: Task) {
    r in v.rwlocks && v.rwlocks[r].writer == x && v.rwlocks[r].writers == 1 && v.rwlocks[r].readers == 0
  }

  /** ... and goes on holding it alone until it releases it, whatever else happens. */
  lemma WriterStaysAlone(v: View, a: Action, r: RwLock, x: Task)
    requires Inv(v) && Enabled(v, a) && OnRwLock(r) in v.lists && HeldByWriter(v, r, x)
    requires !(a.Unlock? && a.r == r && v.running == x)
    ensures HeldByWriter(Step(v, a), r, x) && OnRwLock(r) in Step(v, a).lists
  {
    hide Inv, Step, Enabled, HeldByWriter, Good, Middle, Settles, RwLockKnown, RwLockOk;
    RwLockAt(v, r);
    StepGood(v, a);
    WriterKnown(v, a, r);
    if ObjectOf(a) == OnRwLock(r) {
      HeldHere(v, a, r, x);
    } else {
      HeldElsewhere(v, Step(v, a), ObjectOf(a), r, x);
    }
  }

  /** A step on another object is not a step on this one. */
  lemma HeldElsewhere(v: View, w: View, o: Obj, r: RwLock, x: Task)
    requires HeldByWriter(v, r, x) && OnRwLock(r) in v.lists && Good(v, o, w) && o != OnRwLock(r)
    ensures HeldByWriter(w, r, x)
  {
    hide RetsKept, Highest, Outcome;
  }

  lemma HeldHere(v: View, a: Action, r: RwLock, x: Task)
    requires Inv(v) && Enabled(v, a) && OnRwLock(r) in v.lists && HeldByWriter(v, r, x) && ObjectOf(a) == OnRwLock(r)
    requires !(a.Unlock? && v.running == x) && Settles(v, Middle(v, a), OnRwLock(r), Step(v, a))
    ensures HeldByWriter(Step(v, a), r, x)
  {
    RwLockAt(v, r);
    HeldMiddle(v, a, r, x);
    hide Inv, Step, Enabled, Middle, RwLockOk, ObjectOk;
  }

  lemma HeldMiddle(v: View, a: Action, r: RwLock, x: Task)
    requires Known(v) && Enabled(v, a) && ObjectOf(a) == OnRwLock(r) && HeldByWriter(v, r, x)
    requires RwLockKnown(v, r) && RwLockOk(v.rwlocks[r], v.lists[OnRwLock(r)], v.t, OnRwLock(r))
    requires !(a.Unlock? && v.running == x)
    ensures HeldByWriter(Middle(v, a), r, x)
  {
    hide Block, Known, ListOk, RetsOk;
  }

  // ----------------------------------------------------------- how many are served

  lemma ListedOnce(v: View, r: RwLock)
    requires Inv(v) && RwLockKnown(v, r)
    ensures Known(v) && Distinct(v.lists[OnRwLock(r)])
  {
    hide Inv;
    Facts(v, OnRwLock(r));
  }

  /** A release that enters its loop leaves no reader waiting exactly when at most one waited: the others
      stay listed, although the lock is free for them. */
  lemma ServesAllExact(v: View, r: RwLock, now: nat)
    requires Inv(v) && RwLockKnown(v, r) && Known(v) && EntersLoop(v, r)
    ensures var w := RwRelease(v, r, now).v;
      && OneReaderLess(v, w, r)
      && (Readers(w.lists[OnRwLock(r)], w.t) == [] <==> |Readers(v.lists[OnRwLock(r)], v.t)| <= 1)
  {
    hide Inv, Known, Readers, RwRelease, EntersLoop;
    ListedOnce(v, r);
    LoopServesOne(v, r, now);
  }

  /** No release serves more than one waiter; the only other task that may leave the list in the same step
      is the one that resumes. */
  lemma ReleaseServesAtMostOne(v: View, r: RwLock, now: nat)
    requires Inv(v) && Enabled(v, Unlock(r, now))
    ensures var a, o := Unlock(r, now), OnRwLock(r);
      var m, w := Middle(v, a), Step(v, a);
      && o in v.lists && o in m.lists && o in w.lists
      && (m.lists[o] == v.lists[o] || exists x :: x in v.lists[o] && m.lists[o] == Without(v.lists[o], x))
      && |v.lists[o]| - 1 <= |m.lists[o]| <= |v.lists[o]|
      && w.lists[o] == Without(m.lists[o], w.running)
  {
    hide Inv, Step, Good, Settles, UnlockMid, ReaderStillWaits, Without;
    StepGood(v, Unlock(r, now));
    ListedOnce(v, r);
    ServedByRelease(v, r, now);
    SettledList(v, UnlockMid(v, r, now), OnRwLock(r), Step(v, Unlock(r, now)));
  }

  lemma SettledList(v: View, m: View, o: Obj, w: View)
    requires Settles(v, m, o, w)
    ensures o in m.lists && o in w.lists && w.lists[o] == Without(m.lists[o], w.running)
  {
    hide Good, Stage, ObjectOk, Without, Answered, FramesKept, LinksKept;
  }

  lemma ServedByRelease(v: View, r: RwLock, now: nat)
    requires Known(v) && RwLockKnown(v, r) && Distinct(v.lists[OnRwLock(r)])
    ensures var o := OnRwLock(r);
      var list, m := v.lists[o], UnlockMid(v, r, now);
      && o in m.lists && (m.lists[o] == list || exists x :: x in list && m.lists[o] == Without(list, x))
      && |list| - 1 <= |m.lists[o]| <= |list|
  {
    hide Known, FirstReader, DropHold, Without;
    var list := v.lists[OnRwLock(r)];
    if |list| > 0 {
      WithoutAt(list, 0);
      assert list[..0] + list[1..] == list[1..] && list[0] in list;
      var i := FirstReader(list, v.t);
      if i < |list| {
        WithoutAt(list, i);
        assert list[i] in list;
      }
    }
  }

  lemma WithoutAt(s: seq<Task>, i: nat)
    requires Distinct(s) && i < |s|
    ensures Without(s, s[i]) == s[..i] + s[i + 1..]
  {
    IndexOfAt(s, i);
  }
}
