/** How far a step reaches: what it may change, and what a task that resumes finds in its frame. */
module Frames {
  import opened Types
  import opened Sequences
  import opened Spec
  import opened Invariants
  import opened Scheduling
  import opened Steps

  // ------------------------------------------------------- ends of a service call

  lemma SetRetHanded(v: View, r: Ret)
    requires Handed(v)
    ensures Handed(SetRet(v, v.running, r)) && Known(SetRet(v, v.running, r))
  {
    var w := SetRet(v, v.running, r);
    SchedKeep(v.rq, v.wq, v.t, w.t, v.idle, v.running) by { assert TaskOk(v.t[v.running]); }
    SameButBacks(v.t, w.t, v.objs, v.running);
    ObjectsFrame(v, w, v.running);
    hide SchedOk, ObjectsOk, BacksOk;
  }

  /** A call that does not block: its caller has nothing pending. */
  lemma ReturnInv(v: View, o: Out)
    requires Handed(o.v) && o.v.running == v.running && o.v.t[v.running].back == NoObj
    ensures Inv(Return(v, o))
  {
    SetRetHanded(o.v, o.r);
    hide Handed, Inv;
    SwitchInv(SetRet(o.v, v.running, o.r));
  }

  /** A call that returns at once, having changed only the objects. */
  lemma InvHanded(v: View)
    requires Inv(v)
    ensures Handed(v) && v.t[v.running].back == NoObj && Ready(v)
  {
    assert TaskOk(v.t[v.running]) by { assert SchedOk(v.rq, v.wq, v.t, v.idle); }
    hide SchedOk, ObjectsOk;
  }

  /** What a call on object `o` takes from the invariant. */
  lemma Facts(v: View, o: Obj)
    requires Inv(v) && o in v.lists
    ensures Known(v) && o in v.objs && ObjectOk(v, o)
    ensures v.scheduled == null && TaskOk(v.t[v.running]) && v.t[v.running].back == NoObj && o != NoObj
  {
    InvHanded(v);
    assert TaskOk(v.t[v.running]) by { assert SchedOk(v.rq, v.wq, v.t, v.idle); }
  }

  // ---------------------------------------------------- what a step may change

  /** A frame is overwritten only for a task waiting at the object of the call, with SUCCESS. */
  predicate RetKept(v: View, w: View, o: Obj, x: Task)
    requires x in v.t && x in w.t
  {
    w.t[x].ret == v.t[x].ret
    || (v.t[x].back == o && o in v.lists && x in v.lists[o] && w.t[x].ret.status == OSS_SUCCESS)
  }

  ghost predicate RetsKept(v: View, w: View, o: Obj) {
    forall x :: x in v.t && x != v.running ==> x in w.t && RetKept(v, w, o, x)
  }

  /** Object `p` after a step that is not a call on it: unchanged, but for the task that
      resumes, which leaves the list, and with it its message if it was sending. */
  ghost predicate Undisturbed(v: View, w: View, p: Obj)
    requires p in v.lists
  {
    && p in w.lists && w.lists[p] == Without(v.lists[p], w.running)
    && match p
       case NoObj => true
       case OnMutex(m) => m in v.mutexes ==> m in w.mutexes && w.mutexes[m] == v.mutexes[m]
       case OnQueue(q) =>
         q in v.queues ==> (q in w.queues && w.queues[q] == Withdraw(v.queues[q], v.lists[p], w.running))
       case OnRwLock(r) => r in v.rwlocks ==> r in w.rwlocks && w.rwlocks[r] == v.rwlocks[r]
  }

  ghost predicate Framed(v: View, w: View, o: Obj) {
    forall p :: p in v.lists && p != o ==> Undisturbed(v, w, p)
  }

  /** What a task `x` that resumes finds in its frame: OSS_ERROR_TO if it was still listed at the object
      it waited for, unless the call was on that object (then Answered says it); else SUCCESS, and it
      holds what it waited for. */
  ghost predicate Outcome(v: View, w: View, o: Obj, x: Task)
    requires x in v.t && x in w.t
  {
    var p, st := v.t[x].back, w.t[x].ret.status;
    && (p == NoObj ==> w.t[x].ret == v.t[x].ret)
    && (p != NoObj ==> st == OSS_SUCCESS || st == OSS_ERROR_TO)
    && (p != NoObj && p != o ==> p in v.lists && (st == OSS_ERROR_TO <==> x in v.lists[p]))
    && match p
       case OnMutex(m) => m in w.mutexes && (st == OSS_SUCCESS <==> w.mutexes[m].owner == x)
       case OnRwLock(r) =>
         r in w.rwlocks
         && (st == OSS_SUCCESS ==> if v.t[x].call.Read? then x in w.rwlocks[r].holds else w.rwlocks[r].writer == x)
       case _ => true
  }

  /** A task that neither called nor resumes waits on as it did. */
  ghost predicate WaitsKept(v: View, w: View) {
    forall x :: x in v.t && x != v.running && x != w.running ==>
      x in w.t && w.t[x].back == v.t[x].back && w.t[x].call == v.t[x].call
  }

  /** Everything proved of a single step with object `o` (NoObj for none). */
  ghost predicate Good(v: View, o: Obj, w: View) {
    && Inv(w)
    && w.tasks == v.tasks && w.objs == v.objs && w.idle == v.idle
    && RetsKept(v, w, o) && Framed(v, w, o) && WaitsKept(v, w)
    && (w.running != v.running ==> w.running in v.t && Highest(w) && Outcome(v, w, o, w.running))
  }

  /** `w` is what a call on `o` has made of `v` when it turns to the scheduler. */
  ghost predicate Stage(v: View, w: View, o: Obj) {
    && Known(v) && Known(w) && w.tasks == v.tasks && w.objs == v.objs
    && w.running == v.running && w.idle == v.idle
    && (forall p :: p in v.lists && p != o ==> p in w.lists && w.lists[p] == v.lists[p] && SameObject(v, w, p))
    && (forall x :: x in v.t && x != v.running ==> SameWait(v, w, o, x))
  }

  ghost predicate SameWait(v: View, w: View, o: Obj, x: Task)
    requires x in v.t
  {
    x in w.t && w.t[x].back == v.t[x].back && w.t[x].call == v.t[x].call && RetKept(v, w, o, x)
  }

  lemma CarriedSelf(w: View)
    requires w.scheduled == null
    ensures Carried(w, w)
  {
  }

  /** A task that resumes from a wait at `o` finds whether it was still listed there. */
  ghost predicate Answered(w: View, z: View, o: Obj) {
    var x := z.running;
    x != w.running && x in w.t && w.t[x].back == o && o in w.lists ==>
      x in z.t && z.t[x].ret.status == if x in w.lists[o] then OSS_ERROR_TO else OSS_SUCCESS
  }

  /** The scheduler writes no frames. */
  ghost predicate FramesKept(w: View, z: View) {
    forall x :: x in w.t && x != w.running ==> x in z.t && z.t[x].ret == w.t[x].ret
  }

  /** Nor does it change what any task but the one that resumes is waiting for. */
  ghost predicate LinksKept(w: View, z: View) {
    forall x :: x in w.t && x != z.running ==> x in z.t && z.t[x].back == w.t[x].back && z.t[x].call == w.t[x].call
  }

  lemma StageFramed(v: View, w: View, s: View, z: View, o: Obj)
    requires Stage(v, w, o) && Carried(w, s)
    requires z.lists == s.lists && z.mutexes == s.mutexes && z.queues == s.queues && z.rwlocks == s.rwlocks
    requires z.running == if s.scheduled == null then v.running else s.scheduled
    requires forall p :: p in v.lists ==> v.running !in v.lists[p]
    ensures Framed(v, z, o)
  {
    forall p | p in v.lists && p != o
      ensures Undisturbed(v, z, p)
    {
      if s.scheduled == null { WithoutAbsent(v.lists[p], v.running); }
    }
  }

  lemma StageRets(v: View, w: View, s: View, z: View, o: Obj)
    requires Stage(v, w, o) && Carried(w, s)
    requires z.t.Keys == s.t.Keys && forall x :: x in s.t && x != v.running ==> z.t[x].ret == s.t[x].ret
    ensures RetsKept(v, z, o)
  {
    forall x | x in v.t && x != v.running
      ensures x in z.t && RetKept(v, z, o, x)
    {
      assert SameWait(v, w, o, x) && CarriedRecord(w.t[x], s.t[x], x == s.scheduled);
    }
  }

  lemma StageOutcome(v: View, w: View, s: View, z: View, o: Obj)
    requires Stage(v, w, o) && Carried(w, s) && s.scheduled != null && s.scheduled != v.running
    requires BacksOk(w.t, w.objs) && ObjectsOk(w)
    requires s.scheduled in w.t && s.scheduled in z.t && z.t[s.scheduled].ret == s.t[s.scheduled].ret
    requires z.mutexes == s.mutexes && z.rwlocks == s.rwlocks
    ensures s.scheduled in v.t && Outcome(v, z, o, s.scheduled)
  {
    hide ObjectOk;
    var x := s.scheduled;
    var p := w.t[x].back;
    assert SameWait(v, w, o, x) && CarriedRecord(w.t[x], s.t[x], true);
    if p != NoObj {
      assert ObjectOk(w, p);
      WaiterHas(w, p, x);
      hide ObjectsOk, BacksOk;
    }
  }

  /** What a task waiting at an object finds in its frame, and what it holds. */
  lemma WaiterHas(w: View, p: Obj, x: Task)
    requires Known(w) && p in w.objs && ObjectOk(w, p) && x in w.t && x != w.running && w.t[x].back == p
    ensures p in w.lists && w.t[x].ret.status == if x in w.lists[p] then OSS_ERROR_TO else OSS_SUCCESS
    ensures p.OnMutex? ==> p.m in w.mutexes && (x !in w.lists[p] <==> w.mutexes[p.m].owner == x)
    ensures p.OnRwLock? ==> p.r in w.rwlocks
    ensures p.OnRwLock? && x !in w.lists[p] ==>
      if w.t[x].call.Read? then x in w.rwlocks[p.r].holds else w.rwlocks[p.r].writer == x
  {
  }

  /** `z` is `s` after its caller's frame has been written and the context switched. */
  ghost predicate Ends(v: View, s: View, z: View) {
    && z.lists == s.lists && z.mutexes == s.mutexes && z.queues == s.queues && z.rwlocks == s.rwlocks
    && z.tasks == s.tasks && z.objs == s.objs && z.idle == s.idle
    && z.running == (if s.scheduled == null then v.running else s.scheduled)
    && z.t.Keys == s.t.Keys
    && (forall x :: x in s.t && x != v.running ==> z.t[x].ret == s.t[x].ret)
    && (forall x :: x in s.t ==> z.t[x].back == s.t[x].back && z.t[x].call == s.t[x].call)
  }

  lemma StageWaits(v: View, w: View, s: View, z: View, o: Obj)
    requires Stage(v, w, o) && Carried(w, s) && Ends(v, s, z)
    ensures WaitsKept(v, z)
  {
    forall x | x in v.t && x != v.running && x != z.running
      ensures x in z.t && z.t[x].back == v.t[x].back && z.t[x].call == v.t[x].call
    {
      assert SameWait(v, w, o, x) && CarriedRecord(w.t[x], s.t[x], x == s.scheduled);
    }
  }

  lemma RunningUnlisted(v: View)
    requires Inv(v)
    ensures forall p :: p in v.lists ==> v.running !in v.lists[p]
  {
    forall p | p in v.lists
      ensures v.running !in v.lists[p]
    {
      Facts(v, p);
    }
  }

  lemma OwnAnswered(w: View, s: View, z: View, o: Obj)
    requires Carried(w, s) && z.running == (if s.scheduled == null then w.running else s.scheduled)
    requires z.t.Keys == s.t.Keys && forall x :: x in s.t && x != w.running ==> z.t[x].ret == s.t[x].ret
    requires Known(w) && o in w.objs && ObjectOk(w, o)
    ensures Answered(w, z, o) && FramesKept(w, z)
  {
    forall y | y in w.t && y != w.running
      ensures y in z.t && z.t[y].ret == w.t[y].ret
    {
      assert CarriedRecord(w.t[y], s.t[y], y == s.scheduled);
    }
  }

  lemma OwnLinks(w: View, s: View, z: View)
    requires Carried(w, s) && z.running == (if s.scheduled == null then w.running else s.scheduled)
    requires z.t.Keys == s.t.Keys && forall x :: x in s.t ==> z.t[x].back == s.t[x].back && z.t[x].call == s.t[x].call
    ensures LinksKept(w, z)
  {
    forall x | x in w.t && x != z.running
      ensures x in z.t && z.t[x].back == w.t[x].back && z.t[x].call == w.t[x].call
    {
      assert CarriedRecord(w.t[x], s.t[x], x == s.scheduled);
    }
  }

  lemma OwnList(w: View, s: View, o: Obj, x: Task)
    requires CarriedLists(w.lists, s.lists, s.scheduled) && o in w.lists
    requires if s.scheduled == null then x !in w.lists[o] else x == s.scheduled
    ensures o in s.lists && s.lists[o] == Without(w.lists[o], x)
  {
    if s.scheduled == null { WithoutAbsent(w.lists[o], x); }
    hide Without;
  }

  lemma OwnQueue(w: View, s: View, o: Obj, x: Task)
    requires CarriedQueues(w, s) && o in w.lists && o.OnQueue? && o.q in w.queues
    requires if s.scheduled == null then x !in w.lists[o] else x == s.scheduled
    ensures o.q in s.queues && s.queues[o.q] == Withdraw(w.queues[o.q], w.lists[o], x)
  {
    if s.scheduled == null { WithdrawAbsent(w.queues[o.q], w.lists[o], x); }
    hide Withdraw;
  }

  lemma OwnUndisturbed(w: View, s: View, z: View, o: Obj)
    requires Carried(w, s) && z.running == (if s.scheduled == null then w.running else s.scheduled)
    requires z.lists == s.lists && z.mutexes == s.mutexes && z.queues == s.queues && z.rwlocks == s.rwlocks
    requires o in w.lists && (s.scheduled != null || w.running !in w.lists[o])
    ensures Undisturbed(w, z, o)
  {
    hide CarriedTasks, CarriedLists, CarriedQueues, Without, Withdraw;
    OwnList(w, s, o, z.running);
    if o.OnQueue? && o.q in w.queues { OwnQueue(w, s, o, z.running); }
  }

  lemma WithdrawAbsent(qv: QueueV, list: seq<Task>, x: Task)
    requires x !in list
    ensures Withdraw(qv, list, x) == qv
  {
  }

  /** The object of the call itself, from where the call left it. */
  lemma StageOwn(v: View, w: View, s: View, z: View, o: Obj)
    requires Stage(v, w, o) && Carried(w, s) && Ends(v, s, z) && o in w.lists
    requires s.scheduled != null || v.running !in w.lists[o]
    requires o in w.objs && ObjectOk(w, o) && s.scheduled != v.running
    ensures Undisturbed(w, z, o) && Answered(w, z, o) && FramesKept(w, z) && LinksKept(w, z)
    ensures z.running != w.running || w.running !in w.lists[o]
  {
    OwnLinks(w, s, z);
    hide Carried, ObjectOk, Undisturbed, Answered, FramesKept, LinksKept;
    OwnAnswered(w, s, z, o);
    OwnUndisturbed(w, s, z, o);
  }

  lemma StageGood(v: View, w: View, s: View, z: View, o: Obj)
    requires Inv(v) && Stage(v, w, o) && Mid(w) && Carried(w, s) && Ends(v, s, z) && Inv(z)
    requires s.scheduled != null ==> s.scheduled != v.running && s.scheduled in w.t && Highest(z)
    ensures Good(v, o, z)
  {
    RunningUnlisted(v);
    hide Inv, SchedOk, ObjectsOk, BacksOk;
    StageFramed(v, w, s, z, o);
    StageRets(v, w, s, z, o);
    StageWaits(v, w, s, z, o);
    if s.scheduled != null { StageOutcome(v, w, s, z, o); }
    assert Inv(z);
    hide Framed, RetsKept, WaitsKept, Outcome, Highest;
  }

  /** A service call that has staged `w` and got `s` from the scheduler. */
  lemma StageReturn(v: View, w: View, s: View, o: Obj, r: Ret)
    requires Inv(v) && Stage(v, w, o) && Mid(w) && Carried(w, s) && Handed(s) && s.running == v.running
    requires Inv(Return(v, Out(s, r)))
    ensures Good(v, o, Return(v, Out(s, r)))
    ensures o in w.lists && (s.scheduled != null || v.running !in w.lists[o]) ==>
      Settles(v, w, o, Return(v, Out(s, r)))
  {
    MidObject(w, o);
    hide Inv, Mid, Carried, Return, Switch, Ends, Undisturbed, Answered, FramesKept, LinksKept, ObjectOk, Good;
    HandedChosen(w, s);
    ReturnEnds(v, s, r);
    if o in w.lists && (s.scheduled != null || v.running !in w.lists[o]) {
      StageOwn(v, w, s, Return(v, Out(s, r)), o);
    }
    StageGood(v, w, s, Return(v, Out(s, r)), o);
  }

  lemma MidObject(w: View, o: Obj)
    requires Mid(w)
    ensures Known(w) && (o in w.lists ==> o in w.objs && ObjectOk(w, o))
  {
  }

  lemma SwitchEnds(v: View, s: View)
    requires Handed(s) && s.running == v.running
    ensures Ends(v, s, Switch(s))
    ensures s.scheduled != null ==> Known(Switch(s)) && Highest(Switch(s)) && s.scheduled != v.running
  {
    if s.scheduled != null { SwitchHighest(s); }
  }

  lemma HandedChosen(w: View, s: View)
    requires Carried(w, s) && Handed(s)
    ensures s.scheduled != null ==> s.scheduled in w.t && s.scheduled != s.running
  {
  }

  lemma ReturnEnds(v: View, s: View, r: Ret)
    requires Handed(s) && s.running == v.running
    ensures v.running in s.t && Ends(v, s, Return(v, Out(s, r)))
    ensures s.scheduled == null || s.scheduled != v.running
    ensures s.scheduled != null ==> Known(Return(v, Out(s, r))) && Highest(Return(v, Out(s, r)))
  {
    hide SchedOk, ObjectsOk, BacksOk, Highest, Ends, SetRet, Switch;
    SetRetHanded(s, r);
    ReturnShape(v, s, r);
    if s.scheduled != null { SwitchHighest(SetRet(s, v.running, r)); }
  }

  lemma ReturnShape(v: View, s: View, r: Ret)
    requires v.running in s.t && s.running == v.running
    ensures Ends(v, s, Return(v, Out(s, r))) && SetRet(s, v.running, r).scheduled == s.scheduled
  {
  }

  /** The same from an interrupt, with no frame to write. */
  lemma StageSwitch(v: View, w: View, s: View, o: Obj)
    requires Inv(v) && Stage(v, w, o) && Mid(w) && Carried(w, s) && Handed(s) && s.running == v.running
    requires Inv(Switch(s))
    ensures Good(v, o, Switch(s))
    ensures o in w.lists && (s.scheduled != null || v.running !in w.lists[o]) ==> Settles(v, w, o, Switch(s))
  {
    MidObject(w, o);
    SwitchEnds(v, s);
    HandedChosen(w, s);
    var z := Switch(s);
    hide Inv, Mid, Carried, Switch, Ends, Undisturbed, Answered, FramesKept, LinksKept, ObjectOk, Good, Handed;
    if o in w.lists && (s.scheduled != null || v.running !in w.lists[o]) { StageOwn(v, w, s, z, o); }
    StageGood(v, w, s, z, o);
  }

  /** An object's invariant, taken apart and put together. */
  lemma MutexParts(v: View, m: Mutex)
    requires Known(v) && OnMutex(m) in v.objs
    ensures var o := OnMutex(m);
      ObjectOk(v, o) <==>
        && ListOk(v.lists[o], v.t, o) && RetsOk(v.lists[o], v.t, o, v.running)
        && m in v.mutexes && MutexOk(v.mutexes[m], v.lists[o], v.t, o)
  {
  }

  lemma QueueParts(v: View, q: Queue)
    requires Known(v) && OnQueue(q) in v.objs
    ensures var o := OnQueue(q);
      ObjectOk(v, o) <==>
        && ListOk(v.lists[o], v.t, o) && RetsOk(v.lists[o], v.t, o, v.running)
        && q in v.queues && QueueOk(v.queues[q], v.lists[o], v.t)
  {
  }

  lemma RwLockParts(v: View, r: RwLock)
    requires Known(v) && OnRwLock(r) in v.objs
    ensures var o := OnRwLock(r);
      ObjectOk(v, o) <==>
        && ListOk(v.lists[o], v.t, o) && RetsOk(v.lists[o], v.t, o, v.running)
        && r in v.rwlocks && RwLockOk(v.rwlocks[r], v.lists[o], v.t, o)
  {
  }

  // ------------------------------------------------------------------ blocking

  /** The state in which a blocking call invokes the scheduler: the caller has left the
      runqueue, is in the waitqueue with its deadline, and is last on the object's list. */
  ghost predicate Parked(v: View, b: View, o: Obj, ms: nat, now: nat) {
    && Known(v) && Known(b) && o in v.objs
    && b.tasks == v.tasks && b.objs == v.objs && b.running == v.running && b.idle == v.idle
    && b.scheduled == v.scheduled
    && SameBut(v.t, b.t, v.running)
    && b.rq == Without(v.rq, v.running)
    && b.wq == WaitqueueAdd(v.wq, b.t, v.running)
    && b.lists == v.lists[o := v.lists[o] + [v.running]]
    && (forall p :: p in v.objs && p != o ==> SameObject(v, b, p))
    && (var me := b.t[v.running];
        me.status.Wait? && me.priority == v.t[v.running].priority && me.back == o
        && me.delay == Deadline(ms, now))
  }

  lemma ParkedSched(v: View, b: View, o: Obj, ms: nat, now: nat)
    requires Inv(v) && Parked(v, b, o, ms, now) && v.running != v.idle
    requires TaskOk(b.t[v.running])
    ensures SchedOk(b.rq, b.wq, b.t, b.idle) && BacksOk(b.t, b.objs)
  {
    hide ObjectsOk, ByPriority, ByDeadline;
    LeaveRunqueue(v.rq, v.t, b.t, v.running);
    JoinWaitqueue(v.wq, v.t, b.t, v.running);
    WithoutMembers(v.rq, v.running);
  }

  lemma ParkedOther(v: View, b: View, o: Obj, p: Obj, ms: nat, now: nat)
    requires Inv(v) && Parked(v, b, o, ms, now) && p in v.objs && p != o
    ensures ObjectOk(b, p)
  {
    assert ObjectOk(v, p);
    InvHanded(v);
    OtherObject(v, b, p, v.running);
  }

  lemma ParkedReady(v: View, b: View, o: Obj, ms: nat, now: nat)
    requires Inv(v) && Parked(v, b, o, ms, now) && v.running != v.idle
    requires TaskOk(b.t[v.running]) && ObjectOk(b, o)
    ensures Ready(b)
  {
    ParkedSched(v, b, o, ms, now);
    forall p | p in b.objs
      ensures ObjectOk(b, p)
    {
      if p != o { ParkedOther(v, b, o, p, ms, now); }
    }
    hide SchedOk, ObjectOk;
  }

  /** The caller is listed where its back pointer says, if it has one. */
  ghost predicate Listed(v: View)
    requires Known(v)
  {
    var o := v.t[v.running].back;
    o != NoObj ==> o in v.objs && v.running in v.lists[o] && Distinct(v.lists[o])
  }

  lemma CarriedSettled(b: View, s: View, r: Ret)
    requires Known(b) && Known(s) && Carried(b, s) && Listed(b)
    requires s.scheduled != null && s.scheduled != b.running && r.status == OSS_ERROR_TO
    ensures Known(SetRet(s, s.running, r)) && CallerSettled(SetRet(s, s.running, r))
  {
    var o := b.t[b.running].back;
    assert CarriedRecord(b.t[b.running], s.t[b.running], false);
    if o != NoObj { WithoutMembers(b.lists[o], s.scheduled); }
  }

  /** A caller that can no longer run always yields, to a task that no other runnable task
      outranks, and its call ends in a state where the invariant holds. */
  lemma YieldReturn(v: View, b: View, now: nat, r: Ret)
    requires Ready(b) && Listed(b) && !Runnable(b.t[b.running].status) && b.running == v.running
    requires b.t[b.running].status.Wait? ==> !Expired(b.t[b.running], now)
    requires r.status == OSS_ERROR_TO || b.t[b.running].back == NoObj
    ensures Inv(Return(v, Out(Schedule(b, now), r)))
    ensures Schedule(b, now).scheduled != null && Schedule(b, now).scheduled != v.running
    ensures |Wake(b, now).rq| > 0 && Schedule(b, now).scheduled == Wake(b, now).rq[0]
  {
    ScheduleHanded(b, now);
    ScheduleCarried(b, now);
    var s := Schedule(b, now);
    assert s.scheduled != v.running by { ScheduleParts(b, now); WakeReady(b, now); }
    hide Schedule, Wake, Ready, SchedOk, ObjectsOk, BacksOk;
    if b.t[b.running].back == NoObj {
      assert CarriedRecord(b.t[b.running], s.t[b.running], false);
      ReturnInv(v, Out(s, r));
    } else {
      SetRetHanded(s, r);
      CarriedSettled(b, s, r);
      hide Handed, Inv, CallerSettled, Carried, Listed;
      SwitchInv(SetRet(s, s.running, r));
    }
  }

  lemma ParkedListed(v: View, b: View, o: Obj, ms: nat, now: nat)
    requires Parked(v, b, o, ms, now) && CanWait(v, ms, now) && ObjectOk(b, o)
    ensures Listed(b) && !Expired(b.t[b.running], now) && b.t[b.running].status.Wait?
    ensures b.running == v.running && !Runnable(b.t[b.running].status)
  {
  }

  /** What a call that has made `w` of `v` ends with. */
  ghost predicate Settles(v: View, w: View, o: Obj, z: View) {
    && Good(v, o, z) && Stage(v, w, o)
    && Known(w) && o in w.objs && ObjectOk(w, o) && w.running == v.running
    && Undisturbed(w, z, o) && Answered(w, z, o) && FramesKept(w, z) && LinksKept(w, z)
    && (z.running != w.running || w.running !in w.lists[o])
  }

  /** What a call that has made `b` of `v`, and whose caller cannot go on, ends with: another
      task runs. */
  ghost predicate Yields(v: View, b: View, o: Obj, z: View) {
    Good(v, o, z) && z.running != v.running && (o in b.lists ==> Settles(v, b, o, z))
  }

  lemma YieldGood(v: View, b: View, o: Obj, now: nat, r: Ret)
    requires Inv(v) && Stage(v, b, o)
    requires Ready(b) && Listed(b) && !Runnable(b.t[b.running].status) && b.running == v.running
    requires b.t[b.running].status.Wait? ==> !Expired(b.t[b.running], now)
    requires r.status == OSS_ERROR_TO || b.t[b.running].back == NoObj
    ensures Yields(v, b, o, Return(v, Out(Schedule(b, now), r)))
  {
    YieldReturn(v, b, now, r);
    ScheduleHanded(b, now);
    ScheduleCarried(b, now);
    hide Inv, Mid, Stage, Carried, Schedule, Handed, Highest, Listed, Settles, Good;
    StageReturn(v, b, Schedule(b, now), o, r);
    assert Return(v, Out(Schedule(b, now), r)).running == Schedule(b, now).scheduled;
  }

  lemma ParkedStage(v: View, b: View, o: Obj, ms: nat, now: nat)
    requires Parked(v, b, o, ms, now)
    ensures Stage(v, b, o)
  {
    assert forall x :: x in v.t && x != v.running ==> b.t[x] == v.t[x];
  }

  lemma ParkedReturn(v: View, b: View, o: Obj, ms: nat, now: nat, r: Ret)
    requires Inv(v) && Parked(v, b, o, ms, now) && CanWait(v, ms, now)
    requires TaskOk(b.t[v.running]) && ObjectOk(b, o) && r.status == OSS_ERROR_TO
    ensures Yields(v, b, o, Return(v, Out(Schedule(b, now), r)))
  {
    ParkedReady(v, b, o, ms, now);
    ParkedListed(v, b, o, ms, now);
    ParkedStage(v, b, o, ms, now);
    hide *;
    YieldGood(v, b, o, now, r);
  }

  /** Where svc_block has got to when it calls the scheduler. */
  function ParkedState(v: View, o: Obj, call: Call, ms: nat, now: nat): (b: View)
    requires Known(v) && o in v.objs
    ensures Known(b) && b.running == v.running && b.objs == v.objs
  {
    var me := v.running;
    var ts := v.t[me := v.t[me].(back := o, flags := Raise(v.t[me].flags, FlagOf(o)), call := call,
                                 delay := Deadline(ms, now), status := Wait)];
    WithoutAmong(v.rq, me, v.tasks);
    assert ts.Keys == v.tasks;
    AddAmong(v.wq, ts, me);
    v.(t := ts, rq := Without(v.rq, me), wq := WaitqueueAdd(v.wq, ts, me),
       lists := v.lists[o := v.lists[o] + [me]])
  }

  lemma BlockIsSchedule(v: View, o: Obj, call: Call, ms: nat, now: nat)
    requires Known(v) && o in v.objs && v.scheduled == null
    ensures Block(v, o, call, ms, now) == Schedule(ParkedState(v, o, call, ms, now), now)
  {
    var me := v.running;
    var v1 := Enlist(v, o, call);
    var v2 := v1.(t := v1.t[me := v1.t[me].(delay := Deadline(ms, now))]);
    StatusSetKnown(v2, me, Wait);
    assert StatusSet(v2, me, Wait).t == ParkedState(v, o, call, ms, now).t;
    assert StatusSet(v2, me, Wait) == ParkedState(v, o, call, ms, now);
  }

  lemma ListJoin(list: seq<Task>, ts0: map<Task, TaskV>, ts1: map<Task, TaskV>, o: Obj, x: Task)
    requires ListOk(list, ts0, o) && RetsOk(list, ts0, o, x) && x in ts0 && SameBut(ts0, ts1, x)
    requires ts0[x].back != o && ts1[x].back == o
    ensures x !in list && ListOk(list + [x], ts1, o) && RetsOk(list + [x], ts1, o, x)
  {
    AppendMembers(list, x);
  }

  // -------------------------------------------------- steps that touch one object

  /** `w` differs from `v` at most in object `o`, its list, and the word and stacked return of
      a task `x` that is waiting there and is now served. */
  ghost predicate Touches(v: View, w: View, o: Obj, x: Task) {
    && Known(v) && Known(w) && o in v.objs && x in v.t
    && w.tasks == v.tasks && w.objs == v.objs && w.running == v.running && w.idle == v.idle
    && w.scheduled == v.scheduled && w.rq == v.rq && w.wq == v.wq
    && SameBut(v.t, w.t, x)
    && (w.t[x] == v.t[x] || (v.t[x].back == o && x in v.lists[o] && w.t[x].ret.status == OSS_SUCCESS))
    && w.t[x] == v.t[x].(c := w.t[x].c, ret := w.t[x].ret)
    && (forall p :: p in v.objs && p != o ==> SameObject(v, w, p) && p in w.lists && w.lists[p] == v.lists[p])
  }

  lemma TouchOther(v: View, w: View, o: Obj, x: Task, p: Obj)
    requires Touches(v, w, o, x) && p in v.objs && p != o && ObjectOk(v, p)
    ensures ObjectOk(w, p)
  {
    OtherObject(v, w, p, x);
  }

  lemma TouchObjects(v: View, w: View, o: Obj, x: Task)
    requires Touches(v, w, o, x) && ObjectsOk(v) && ObjectOk(w, o)
    ensures ObjectsOk(w)
  {
    forall p | p in w.objs
      ensures ObjectOk(w, p)
    {
      assert p in v.objs ==> ObjectOk(v, p);
      if p != o { TouchOther(v, w, o, x, p); }
    }
  }

  lemma TouchSched(v: View, w: View, o: Obj, x: Task)
    requires Inv(v) && Touches(v, w, o, x)
    ensures SchedOk(w.rq, w.wq, w.t, w.idle) && BacksOk(w.t, w.objs) && ActiveOnly(w.t, w.running)
    ensures w.t[v.running].back == NoObj && w.t[v.running].status == v.t[v.running].status
  {
    InvHanded(v);
    assert TaskOk(w.t[x]) by { assert TaskOk(v.t[x]); }
    SameButBacks(v.t, w.t, v.objs, x);
    SchedKeep(v.rq, v.wq, v.t, w.t, v.idle, x);
    hide ObjectsOk, SchedOk, BacksOk;
  }

  lemma TouchReady(v: View, w: View, o: Obj, x: Task)
    requires Inv(v) && Touches(v, w, o, x) && ObjectOk(w, o)
    ensures Ready(w) && Handed(w) && w.t[v.running].back == NoObj
    ensures w.t[v.running].status == v.t[v.running].status
  {
    hide ObjectsOk, SchedOk, BacksOk, ObjectOk;
    TouchSched(v, w, o, x);
    TouchObjects(v, w, o, x);
  }

  /** A call that changes one object and returns at once. */
  lemma TouchReturn(v: View, w: View, o: Obj, x: Task, r: Ret)
    requires Inv(v) && Touches(v, w, o, x) && ObjectOk(w, o)
    ensures Settles(v, w, o, Return(v, Out(w, r)))
  {
    TouchUnlisted(v, w, o, x);
    TouchReady(v, w, o, x);
    TouchStage(v, w, o, x);
    hide Touches, ObjectOk, Mid, Inv, Return, Settles, Good;
    CarriedSelf(w);
    ReturnInv(v, Out(w, r));
    hide Stage, Carried, Handed;
    StageReturn(v, w, w, o, r);
  }

  lemma TouchUnlisted(v: View, w: View, o: Obj, x: Task)
    requires Inv(v) && Touches(v, w, o, x) && ObjectOk(w, o)
    ensures o in w.lists && v.running !in w.lists[o]
  {
    hide Inv;
    Facts(v, o);
    assert w.t[v.running].back == NoObj;
  }

  lemma TouchStage(v: View, w: View, o: Obj, x: Task)
    requires Touches(v, w, o, x)
    ensures Stage(v, w, o) && w.running == v.running
  {
    assert forall y :: y in v.t && y != x ==> w.t[y] == v.t[y];
  }

  lemma TouchSwitch(v: View, w: View, o: Obj, x: Task)
    requires Inv(v) && Touches(v, w, o, x) && ObjectOk(w, o)
    ensures Settles(v, w, o, Switch(w))
  {
    TouchUnlisted(v, w, o, x);
    TouchReady(v, w, o, x);
    TouchStage(v, w, o, x);
    assert CallerSettled(w) && w.scheduled == null;
    hide Touches, ObjectOk, Mid, Inv, CallerSettled, Switch, Settles, Good;
    CarriedSelf(w);
    SwitchInv(w);
    hide Stage, Carried, Handed;
    StageSwitch(v, w, w, o);
  }

  /** A call that serves a waiting task `x` and lets the scheduler decide who runs. */
  lemma ServeReturn(v: View, w: View, o: Obj, x: Task, now: nat, r: Ret)
    requires Inv(v) && Touches(v, w, o, x) && ObjectOk(w, o) && v.t[x].back == o
    ensures Settles(v, w, o, Return(v, Out(DispatchOrQueue(w, x, now), r)))
    ensures Settles(v, w, o, Switch(DispatchOrQueue(w, x, now)))
  {
    TouchUnlisted(v, w, o, x);
    TouchReady(v, w, o, x);
    ServeGrantee(v, w, o, x);
    TouchStage(v, w, o, x);
    hide Touches, ObjectOk, Inv, DispatchOrQueue, SchedOk, ObjectsOk, BacksOk, Stage, Return, Switch, Settles, Good;
    DispatchOrQueueHanded(w, x, now);
    var s := DispatchOrQueue(w, x, now);
    ServeCaller(w, s, x);
    assert s.running == v.running;
    hide Carried, Handed, CallerSettled;
    ReturnInv(v, Out(s, r));
    SwitchInv(s);
    StageReturn(v, w, s, o, r);
    StageSwitch(v, w, s, o);
  }

  lemma ServeGrantee(v: View, w: View, o: Obj, x: Task)
    requires Inv(v) && Touches(v, w, o, x) && v.t[x].back == o
    ensures Grantee(w, x)
    ensures w.running == v.running && (w.t[v.running].status.Wait? ==> false)
  {
    InvHanded(v);
    assert TaskOk(v.t[x]) && NoObj !in v.objs;
  }

  lemma ServeCaller(w: View, s: View, x: Task)
    requires Handed(s) && Known(w) && Carried(w, s) && w.t[w.running].back == NoObj
    ensures s.t[s.running].back == NoObj && CallerSettled(s)
  {
    assert CarriedRecord(w.t[w.running], s.t[w.running], w.running == s.scheduled);
    assert w.running != s.scheduled;
  }

  // ------------------------------------ where each call turns to the scheduler

  function AcquireMid(v: View, m: Mutex, to: nat, now: nat): View
    requires Known(v) && MutexKnown(v, m)
  {
    if v.mutexes[m].level > 0 && v.mutexes[m].owner != v.running && to > 0
    then ParkedState(v, OnMutex(m), Lock, to, now)
    else MutexAcquire(v, m, to, now).v
  }

  function ReleaseMid(v: View, m: Mutex, now: nat): View
    requires Known(v) && MutexKnown(v, m) && v.mutexes[m].level > 0
  {
    if v.mutexes[m].level == 1 && |v.lists[OnMutex(m)]| > 0 then Grant(Freed(v, m), m)
    else MutexRelease(v, m, now).v
  }

  function SendMid(v: View, q: Queue, msg: Word, now: nat): View
    requires Known(v) && QueueKnown(v, q)
  {
    if ReceiverWaits(v, q) then HandOver(v, q, msg) else EnqueueIsr(v, q, msg, now).v
  }

  function EnqueueMid(v: View, q: Queue, msg: Word, to: nat, now: nat): View
    requires Known(v) && QueueKnown(v, q)
  {
    if ReceiverWaits(v, q) || v.queues[q].number < v.queues[q].size || to == 0 then SendMid(v, q, msg, now)
    else
      assert Known(OfferBlocked(v, q, msg));
      ParkedState(OfferBlocked(v, q, msg), OnQueue(q), Send, to, now)
  }

  /** A receiver is about to park. */
  function Awaiting(v: View, q: Queue): View
    requires q in v.queues
  {
    v.(queues := v.queues[q := v.queues[q].(status := BlockedReceive)])
  }

  function DequeueMid(v: View, q: Queue, to: nat, now: nat): View
    requires Known(v) && QueueKnown(v, q)
  {
    if v.queues[q].number > 0 then if SenderWaits(v, q) then Admit(Taken(v, q), q) else Taken(v, q)
    else if to == 0 then v
    else
      assert Known(Awaiting(v, q));
      ParkedState(Awaiting(v, q), OnQueue(q), Receive, to, now)
  }

  /** A task's word changed: the message it offers, or the mode it waits for. */
  function Worded(v: View, x: Task, c: Word): View
    requires x in v.t
  {
    v.(t := v.t[x := v.t[x].(c := c)])
  }

  function Desired(call: Call): Word {
    if call == Read then DESIRED_READ else DESIRED_WRITE
  }

  function ReadMid(v: View, r: RwLock, to: nat, now: nat): View
    requires Known(v) && RwLockKnown(v, r)
  {
    if v.rwlocks[r].writers > 0 && to > 0 then
      assert Known(Worded(v, v.running, DESIRED_READ));
      ParkedState(Worded(v, v.running, DESIRED_READ), OnRwLock(r), Read, to, now)
    else AcquireRead(v, r, to, now).v
  }

  function WriteMid(v: View, r: RwLock, to: nat, now: nat): View
    requires Known(v) && RwLockKnown(v, r)
  {
    if (v.rwlocks[r].readers > 0 || v.rwlocks[r].writers > 0) && to > 0 then
      assert Known(Worded(v, v.running, DESIRED_WRITE));
      ParkedState(Worded(v, v.running, DESIRED_WRITE), OnRwLock(r), Write, to, now)
    else AcquireWrite(v, r, to, now).v
  }

  function UnlockMid(v: View, r: RwLock, now: nat): View
    requires Known(v) && RwLockKnown(v, r)
  {
    var d, list := Dropped(v, r), v.lists[OnRwLock(r)];
    if |list| == 0 then d
    else if d.rwlocks[r].readers == 0 && v.t[list[0]].c == DESIRED_WRITE then GrantWrite(d, r)
    else
      var i := FirstReader(list, v.t);
      if i == |list| then d else GrantRead(d, r, i)
  }

  /** What a blocking call has done before it parks: a word in its own record, and the object. */
  ghost predicate Prepares(v: View, w: View, o: Obj) {
    && Known(v) && Known(w) && o in v.objs
    && w == v.(t := w.t, mutexes := w.mutexes, queues := w.queues, rwlocks := w.rwlocks)
    && SameBut(v.t, w.t, v.running) && w.t[v.running] == v.t[v.running].(c := w.t[v.running].c)
    && (forall p :: p in v.objs && p != o ==> SameObject(v, w, p))
  }

  lemma PreparedList(v: View, w: View, o: Obj, call: Call, ms: nat, now: nat)
    requires Inv(v) && Prepares(v, w, o)
    ensures var b := ParkedState(w, o, call, ms, now);
      SameBut(v.t, b.t, v.running) && v.running !in v.lists[o]
      && ListOk(b.lists[o], b.t, o) && RetsOk(b.lists[o], b.t, o, v.running)
  {
    hide Inv;
    Facts(v, o);
    ListJoin(v.lists[o], v.t, ParkedState(w, o, call, ms, now).t, o, v.running);
  }

  lemma PreparedParked(v: View, w: View, o: Obj, call: Call, ms: nat, now: nat)
    requires Prepares(v, w, o) && CallFits(o, call) && CanWait(v, ms, now)
    requires TaskOk(v.t[v.running]) && v.t[v.running].back == NoObj
    ensures var b := ParkedState(w, o, call, ms, now);
      Parked(v, b, o, ms, now) && TaskOk(b.t[v.running])
  {
  }

  /** A blocking call keeps the invariant if its object is fine with the caller listed. */
  lemma BlockReturn(v: View, w: View, o: Obj, call: Call, ms: nat, now: nat)
    requires Inv(v) && Prepares(v, w, o) && CallFits(o, call) && CanWait(v, ms, now)
    requires ObjectOk(ParkedState(w, o, call, ms, now), o)
    ensures Yields(v, ParkedState(w, o, call, ms, now), o,
                   Return(v, Out(Block(w, o, call, ms, now), Status0(OSS_ERROR_TO))))
  {
    BlockIsSchedule(w, o, call, ms, now);
    InvHanded(v);
    assert TaskOk(v.t[v.running]) by { assert SchedOk(v.rq, v.wq, v.t, v.idle); }
    PreparedParked(v, w, o, call, ms, now);
    var b := ParkedState(w, o, call, ms, now);
    assert Status0(OSS_ERROR_TO).status == OSS_ERROR_TO;
    hide *;
    ParkedReturn(v, b, o, ms, now, Status0(OSS_ERROR_TO));
  }

  /** The member at position `i` leaves a list, with SUCCESS in its frame. */
  lemma ListServe(list: seq<Task>, ts0: map<Task, TaskV>, ts1: map<Task, TaskV>, o: Obj, me: Task, i: nat)
    requires ListOk(list, ts0, o) && RetsOk(list, ts0, o, me) && i < |list|
    requires SameBut(ts0, ts1, list[i]) && ts1[list[i]].back == o && ts1[list[i]].ret.status == OSS_SUCCESS
    ensures ListOk(list[..i] + list[i + 1..], ts1, o) && RetsOk(list[..i] + list[i + 1..], ts1, o, me)
    ensures forall y :: y in list[..i] + list[i + 1..] <==> y in list && y != list[i]
  {
    IndexOfAt(list, i);
    WithoutMembers(list, list[i]);
  }
}
