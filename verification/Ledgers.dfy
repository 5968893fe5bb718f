/** Who holds what, counted over whole runs from the actions and the answers in the frames. */
module Ledgers {
  import opened Types
  import opened Sequences
  import opened Spec
  import opened Invariants
  import opened Steps
  import opened Frames
  import opened Preservation
  import opened Runs
  import opened Waits
  import opened Locks
  import opened Laws

  /** After the step the frame of `x` says SUCCESS. */
  ghost predicate Told(v: View, a: Action, x: Task)
    requires Known(v) && Enabled(v, a)
  {
    x in Step(v, a).t && Step(v, a).t[x].ret.status == OSS_SUCCESS
  }

  /** Another task's call on `o` has told `x`, which was waiting there, that it has got what it wants. */
  ghost predicate Granted(v: View, a: Action, o: Obj, x: Task)
    requires Known(v) && Enabled(v, a)
  {
    ObjectOf(a) == o && o in v.lists && x in v.lists[o] && Told(v, a, x)
  }

  // ---------------------------------------------------------------------- mutex

  function LevelOf(v: View, m: Mutex, x: Task): nat {
    if m in v.mutexes && v.mutexes[m].owner == x then v.mutexes[m].level else 0
  }

  /** One for an acquire that is answered SUCCESS, one for a grant, less one for a release. */
  ghost function MutexCredit(v: View, a: Action, m: Mutex, x: Task): int
    requires Known(v) && Enabled(v, a)
  {
    (if a.Acquire? && a.m == m && v.running == x && Told(v, a, x) then 1 else 0)
    + (if Granted(v, a, OnMutex(m), x) then 1 else 0)
    - (if a.Release? && a.m == m && v.running == x then 1 else 0)
  }

  ghost function MutexCredits(v: View, run: seq<Action>, m: Mutex, x: Task): int
    requires Legal(v, run)
    decreases |run|
  {
    if run == [] then 0 else MutexCredit(v, run[0], m, x) + MutexCredits(Step(v, run[0]), run[1..], m, x)
  }

  /** A call that changes no waiter's frame grants nothing. */
  lemma NoGrant(v: View, a: Action, o: Obj, x: Task)
    requires Inv(v) && Enabled(v, a) && o in v.lists
    requires x in v.lists[o] && x in v.t ==> x in Step(v, a).t && Step(v, a).t[x].ret == v.t[x].ret
    ensures Known(v) && !Granted(v, a, o, x)
  {
    hide Inv, Step, Enabled;
    WaiterAt(v, o, x);
    RunningUnlisted(v);
  }

  /** A call that blocks is answered OSS_ERROR_TO for the time being, and grants nothing. */
  lemma BlockedTold(v: View, a: Action, x: Task)
    requires Inv(v) && Enabled(v, a) && Blocks(v, a) && ObjectOf(a) != NoObj
    ensures Known(v) && !Told(v, a, v.running) && !Granted(v, a, ObjectOf(a), x)
  {
    hide Inv, Step, Enabled, Blocks, Middle;
    WaitBegins(v, a);
    StepsAside(v, a);
    var o := ObjectOf(a);
    WaiterAt(Step(v, a), o, v.running);
    if o in v.lists && x in v.lists[o] {
      ServedFrame(v, a, o, x);
      BlockedList(v, a);
    }
  }

  lemma BlockedList(v: View, a: Action)
    requires Known(v) && Enabled(v, a) && Blocks(v, a) && ObjectOf(a) in v.lists && ObjectOf(a) != NoObj
    ensures var m, o := Middle(v, a), ObjectOf(a); o in m.lists && m.lists[o] == v.lists[o] + [v.running]
    ensures var m := Middle(v, a); m.mutexes == v.mutexes && m.rwlocks == v.rwlocks
  {
    hide SendMid, MutexAcquire, AcquireRead, AcquireWrite, Known, ReceiverWaits;
  }

  /** The object of a call is after the step what the call has made of it. */
  lemma LeftSo(v: View, a: Action)
    requires Inv(v) && Enabled(v, a) && ObjectOf(a) != NoObj
    ensures Known(v)
    ensures var m, w := Middle(v, a), Step(v, a);
      && (a.Acquire? || a.Release? ==> (a.m in m.mutexes ==> a.m in w.mutexes && w.mutexes[a.m] == m.mutexes[a.m]))
      && (a.ReadLock? || a.WriteLock? || a.Unlock? ==> (a.r in m.rwlocks ==>
            a.r in w.rwlocks && w.rwlocks[a.r] == m.rwlocks[a.r]))
  {
    hide Inv, Step, Enabled, Middle, Stage, Answered, FramesKept, LinksKept, RetsKept, Outcome, Framed, WaitsKept;
    StepKnown(v, a);
    MiddleLists(v, a, ObjectOf(a));
  }

  lemma AcquireCredit(v: View, m: Mutex, to: nat, now: nat, x: Task)
    requires Inv(v) && Enabled(v, Acquire(m, to, now)) && x in v.t
    ensures Known(v)
    ensures LevelOf(Step(v, Acquire(m, to, now)), m, x) == LevelOf(v, m, x) + MutexCredit(v, Acquire(m, to, now), m, x)
  {
    hide Inv, Step, Middle, Blocks;
    var a := Acquire(m, to, now);
    MutexFacts(v, m);
    if Blocks(v, a) {
      BlockedTold(v, a, x);
      BlockedList(v, a);
      LeftSo(v, a);
    } else {
      StaysOn(v, a);
      AcquireAnswers(v, m, to, now);
      RunningUnlisted(v);
      NoGrant(v, a, OnMutex(m), x);
    }
  }

  lemma ReleaseCredit(v: View, m: Mutex, now: nat, x: Task)
    requires Inv(v) && Enabled(v, Release(m, now)) && x in v.t
    ensures Known(v)
    ensures LevelOf(Step(v, Release(m, now)), m, x) == LevelOf(v, m, x) + MutexCredit(v, Release(m, now), m, x)
  {
    hide Inv, Step, Middle;
    var a, o := Release(m, now), OnMutex(m);
    MutexFacts(v, m);
    RunningUnlisted(v);
    if v.mutexes[m].level > 1 || |v.lists[o]| == 0 {
      ReleaseUnwinds(v, m, now);
      NoGrant(v, a, o, x);
    } else {
      GrantsInOrder(v, m, now);
      ReleaseMiddle(v, m, now);
      if x in v.lists[o] {
        ServedFrame(v, a, o, x);
        HeadOnly(v, o, x);
      }
    }
  }

  lemma HeadOnly(v: View, o: Obj, x: Task)
    requires Inv(v) && o in v.lists && x in v.lists[o]
    ensures x in v.lists[o][1..] <==> x != v.lists[o][0]
  {
    hide Inv;
    Facts(v, o);
    IndexOfAt(v.lists[o], 0);
    WithoutMembers(v.lists[o], v.lists[o][0]);
    assert Without(v.lists[o], v.lists[o][0]) == v.lists[o][1..];
  }

  lemma MutexStep(v: View, a: Action, m: Mutex, x: Task)
    requires Inv(v) && Enabled(v, a) && OnMutex(m) in v.lists && x in v.t
    ensures Known(v)
    ensures LevelOf(Step(v, a), m, x) == LevelOf(v, m, x) + MutexCredit(v, a, m, x)
  {
    hide Inv, Step, Enabled, Told;
    MutexFacts(v, m);
    if ObjectOf(a) == OnMutex(m) {
      hide Granted, MutexCredit, LevelOf;
      if a.Acquire? { AcquireCredit(v, m, a.to, a.now, x); } else { ReleaseCredit(v, m, a.now, x); }
    } else {
      Elsewhere(v, a, OnMutex(m));
    }
  }

  /** Over any run the nesting level at which a task owns a mutex changes by its acquires that were answered
      SUCCESS, plus the grants it received, less its releases. */
  lemma {:induction false} MutexLedger(v: View, run: seq<Action>, m: Mutex, x: Task)
    requires Inv(v) && Legal(v, run) && OnMutex(m) in v.lists && x in v.t
    ensures LevelOf(Run(v, run), m, x) == LevelOf(v, m, x) + MutexCredits(v, run, m, x)
    decreases |run|
  {
    hide Inv, Step, Enabled, LevelOf, MutexCredit;
    if run != [] {
      MutexStep(v, run[0], m, x);
      StepKnown(v, run[0]);
      MutexLedger(Step(v, run[0]), run[1..], m, x);
    }
  }

  // ---------------------------------------------------------- reader/writer lock

  /** How often `x` holds the lock, for reading or for writing. */
  function HoldsOf(v: View, r: RwLock, x: Task, call: Call): nat {
    if r !in v.rwlocks then 0
    else if call.Read? then v.rwlocks[r].holds[x]
    else if v.rwlocks[r].writer == x then 1 else 0
  }

  predicate Acquires(a: Action, r: RwLock, call: Call) {
    (call.Read? && a.ReadLock? && a.r == r) || (call.Write? && a.WriteLock? && a.r == r)
  }

  /** One for an acquire that is answered SUCCESS, one for a grant, less one for a release of what is held. */
  ghost function LockCredit(v: View, a: Action, r: RwLock, x: Task, call: Call): int
    requires Known(v) && Enabled(v, a) && r in v.rwlocks
  {
    (if Acquires(a, r, call) && v.running == x && Told(v, a, x) then 1 else 0)
    + (if Granted(v, a, OnRwLock(r), x) && x in v.t && v.t[x].call == call then 1 else 0)
    - (if a.Unlock? && a.r == r && v.running == x && (v.rwlocks[r].writer == x <==> call.Write?) then 1 else 0)
  }

  ghost function LockCredits(v: View, run: seq<Action>, r: RwLock, x: Task, call: Call): int
    requires Inv(v) && Legal(v, run) && OnRwLock(r) in v.lists
    decreases |run|
  {
    if run == [] then 0
    else
      LockFacts(v, r);
      StepKnown(v, run[0]);
      LockCredit(v, run[0], r, x, call) + LockCredits(Step(v, run[0]), run[1..], r, x, call)
  }

  lemma LockAcquireCredit(v: View, a: Action, r: RwLock, x: Task, call: Call)
    requires Inv(v) && Enabled(v, a) && x in v.t && (call.Read? || call.Write?) && r in v.rwlocks
    requires (a.ReadLock? || a.WriteLock?) && a.r == r
    ensures Known(v)
    ensures HoldsOf(Step(v, a), r, x, call) == HoldsOf(v, r, x, call) + LockCredit(v, a, r, x, call)
  {
    hide Inv, Step, Middle, Blocks;
    LockFacts(v, r);
    if Blocks(v, a) {
      BlockedTold(v, a, x);
      BlockedList(v, a);
      LeftSo(v, a);
    } else {
      StaysOn(v, a);
      if a.ReadLock? { ReadAnswers(v, r, a.to, a.now); } else { WriteAnswers(v, r, a.to, a.now); }
      RunningUnlisted(v);
      NoGrant(v, a, OnRwLock(r), x);
    }
  }

  /** What a release does to the list, and to whom. */
  lemma MidList(v: View, r: RwLock, now: nat, x: Task)
    requires Known(v) && RwLockKnown(v, r) && Distinct(v.lists[OnRwLock(r)])
    ensures var m, list, d := UnlockMid(v, r, now), v.lists[OnRwLock(r)], DropHold(v.rwlocks[r], v.running);
      var i := FirstReader(list, v.t);
      && OnRwLock(r) in m.lists
      && (x in list && x !in m.lists[OnRwLock(r)] <==>
            x in list && if d.readers == 0 && v.t[list[0]].c == DESIRED_WRITE then x == list[0]
            else i < |list| && x == list[i])
  {
    hide FirstReader, DropHold, Known;
    var m, list, d := UnlockMid(v, r, now), v.lists[OnRwLock(r)], DropHold(v.rwlocks[r], v.running);
    var i := FirstReader(list, v.t);
    if |list| > 0 {
      TakenOut(list, 0, x);
      assert list[..0] + list[1..] == list[1..];
      if i < |list| { TakenOut(list, i, x); }
    }
  }

  lemma TakenOut(s: seq<Task>, i: nat, x: Task)
    requires Distinct(s) && i < |s|
    ensures x in s[..i] + s[i + 1..] <==> x in s && x != s[i]
  {
    IndexOfAt(s, i);
    WithoutMembers(s, s[i]);
    assert Without(s, s[i]) == s[..i] + s[i + 1..];
  }

  /** The count of one task in what a release makes of the lock. */
  lemma MidCount(v: View, r: RwLock, now: nat, x: Task, call: Call)
    requires Inv(v) && Known(v) && RwLockKnown(v, r) && x in v.t && (call.Read? || call.Write?)
    requires v.running in v.rwlocks[r].holds || v.rwlocks[r].writer == v.running
    ensures var m, o, rv := UnlockMid(v, r, now), OnRwLock(r), v.rwlocks[r];
      && r in m.rwlocks && o in m.lists
      && HoldsOf(m, r, x, call) == HoldsOf(v, r, x, call)
           + (if x in v.lists[o] && x !in m.lists[o] && v.t[x].call == call then 1 else 0)
           - (if v.running == x && (rv.writer == x <==> call.Write?) then 1 else 0)
  {
    hide Inv, UnlockMid, FirstReader, DropHold, Known;
    var rv, list := v.rwlocks[r], v.lists[OnRwLock(r)];
    LockFacts(v, r);
    ListedOnce(v, r);
    RunningUnlisted(v);
    WaitersAsk(v, r);
    DropIs(rv, v.running);
    MidLock(v, r, now);
    MidList(v, r, now, x);
  }

  lemma UnlockCredit(v: View, r: RwLock, now: nat, x: Task, call: Call)
    requires Inv(v) && Enabled(v, Unlock(r, now)) && x in v.t && (call.Read? || call.Write?)
    ensures Known(v) && r in v.rwlocks
    ensures HoldsOf(Step(v, Unlock(r, now)), r, x, call)
      == HoldsOf(v, r, x, call) + LockCredit(v, Unlock(r, now), r, x, call)
  {
    hide Inv, Step, Middle, UnlockMid, ReaderStillWaits;
    var a := Unlock(r, now);
    LockFacts(v, r);
    UnlockReturns(v, r, now);
    LeftSo(v, a);
    MidCount(v, r, now, x, call);
    if x in v.lists[OnRwLock(r)] { ServedFrame(v, a, OnRwLock(r), x); }
  }

  lemma LockStep(v: View, a: Action, r: RwLock, x: Task, call: Call)
    requires Inv(v) && Enabled(v, a) && OnRwLock(r) in v.lists && x in v.t && (call.Read? || call.Write?)
    ensures Known(v) && r in v.rwlocks
    ensures HoldsOf(Step(v, a), r, x, call) == HoldsOf(v, r, x, call) + LockCredit(v, a, r, x, call)
  {
    hide Inv, Step, Enabled, Told, Granted, LockCredit;
    LockFacts(v, r);
    if ObjectOf(a) == OnRwLock(r) {
      hide HoldsOf;
      if a.Unlock? { UnlockCredit(v, r, a.now, x, call); } else { LockAcquireCredit(v, a, r, x, call); }
    } else {
      Elsewhere(v, a, OnRwLock(r));
      NoLockCredit(v, a, r, x, call);
    }
  }

  lemma NoLockCredit(v: View, a: Action, r: RwLock, x: Task, call: Call)
    requires Known(v) && Enabled(v, a) && ObjectOf(a) != OnRwLock(r) && r in v.rwlocks
    ensures LockCredit(v, a, r, x, call) == 0
  {
    hide Step, Known, Enabled;
  }

  /** A step that is not a call on an object leaves what it counts alone. */
  lemma Elsewhere(v: View, a: Action, o: Obj)
    requires Inv(v) && Enabled(v, a) && o in v.lists && ObjectOf(a) != o
    ensures Known(v)
    ensures o.OnMutex? && o.m in v.mutexes ==> o.m in Step(v, a).mutexes && Step(v, a).mutexes[o.m] == v.mutexes[o.m]
    ensures o.OnRwLock? && o.r in v.rwlocks ==> o.r in Step(v, a).rwlocks && Step(v, a).rwlocks[o.r] == v.rwlocks[o.r]
  {
    hide Inv, Step, Enabled, Middle, RetsKept, WaitsKept, Outcome, Stage, Answered, FramesKept, LinksKept;
    StepKnown(v, a);
    WaiterAt(v, o, v.running);
    assert Undisturbed(v, Step(v, a), o);
  }

  /** Over any run the holds a task has on a lock change by its acquires that were answered SUCCESS, plus the
      grants it received, less its releases: for reading, and for writing. */
  lemma {:induction false} LockLedger(v: View, run: seq<Action>, r: RwLock, x: Task, call: Call)
    requires Inv(v) && Legal(v, run) && OnRwLock(r) in v.lists && x in v.t && (call.Read? || call.Write?)
    ensures HoldsOf(Run(v, run), r, x, call) == HoldsOf(v, r, x, call) + LockCredits(v, run, r, x, call)
    decreases |run|
  {
    hide Inv, Step, Enabled, HoldsOf, LockCredit;
    if run != [] {
      LockStep(v, run[0], r, x, call);
      StepKnown(v, run[0]);
      LockLedger(Step(v, run[0]), run[1..], r, x, call);
    }
  }

  /** From boot on, so, the levels and holds of a task are its SUCCESSes and grants less its releases. */
  lemma LedgersFromBoot(idle: Task, inits: seq<Init>, mutexes: set<Mutex>, queues: map<Queue, nat>,
                        rwlocks: set<RwLock>, run: seq<Action>, x: Task)
    requires Bootable(idle, inits, queues) && Legal(Boot(idle, inits, mutexes, queues, rwlocks), run)
    requires x in Boot(idle, inits, mutexes, queues, rwlocks).t
    ensures var v := Boot(idle, inits, mutexes, queues, rwlocks);
      && Inv(v) && Known(v)
      && (forall m :: m in mutexes ==> LevelOf(Run(v, run), m, x) == MutexCredits(v, run, m, x))
      && (forall r :: r in rwlocks ==> OnRwLock(r) in v.lists)
      && (forall r :: r in rwlocks ==> HoldsOf(Run(v, run), r, x, Read) == LockCredits(v, run, r, x, Read))
      && (forall r :: r in rwlocks ==> HoldsOf(Run(v, run), r, x, Write) == LockCredits(v, run, r, x, Write))
  {
    hide Inv, Run, Legal, MutexCredits, LockCredits, Initialize;
    BootInv(idle, inits, mutexes, queues, rwlocks);
    var v := Boot(idle, inits, mutexes, queues, rwlocks);
    assert Known(v) by { MutexFreeKnown(v); }
    forall m | m in mutexes
      ensures LevelOf(Run(v, run), m, x) == MutexCredits(v, run, m, x)
    {
      MutexLedger(v, run, m, x);
    }
    forall r | r in rwlocks
      ensures OnRwLock(r) in v.lists && HoldsOf(Run(v, run), r, x, Read) == LockCredits(v, run, r, x, Read)
      ensures HoldsOf(Run(v, run), r, x, Write) == LockCredits(v, run, r, x, Write)
    {
      LockLedger(v, run, r, x, Read);
      LockLedger(v, run, r, x, Write);
    }
  }

  lemma MutexFreeKnown(v: View)
    requires Inv(v)
    ensures Known(v)
  {
  }
}
