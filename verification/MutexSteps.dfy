/** Calls on a mutex keep the invariant. */
module MutexSteps {
  import opened Types
  import opened Sequences
  import opened Spec
  import opened Invariants
  import opened Scheduling
  import opened Steps
  import opened Frames

  lemma MutexPark(mv: MutexV, list: seq<Task>, ts0: map<Task, TaskV>, ts1: map<Task, TaskV>, o: Obj, x: Task)
    requires MutexOk(mv, list, ts0, o) && x in ts0 && SameBut(ts0, ts1, x)
    requires mv.level > 0 && mv.owner != x && ts0[x].back != o && ts1[x].back == o
    ensures MutexOk(mv, list + [x], ts1, o)
  {
    AppendMembers(list, x);
  }

  lemma AcquireParks(v: View, m: Mutex, to: nat, now: nat)
    requires Inv(v) && MutexKnown(v, m) && CanWait(v, to, now)
    requires v.mutexes[m].level > 0 && v.mutexes[m].owner != v.running
    ensures Yields(v, ParkedState(v, OnMutex(m), Lock, to, now), OnMutex(m),
                   Return(v, Out(Block(v, OnMutex(m), Lock, to, now), Status0(OSS_ERROR_TO))))
  {
    hide Inv;
    var o := OnMutex(m);
    Facts(v, o);
    var b := ParkedState(v, o, Lock, to, now);
    PreparedList(v, v, o, Lock, to, now);
    assert b.lists[o] == v.lists[o] + [v.running];
    MutexPark(v.mutexes[m], v.lists[o], v.t, b.t, o, v.running);
    hide Block, MutexOk, ListOk, RetsOk, Return;
    BlockReturn(v, v, o, Lock, to, now);
  }

  /** A mutex changed by its caller, with the accounting still right. */
  lemma MutexReturn(v: View, m: Mutex, mv: MutexV, r: Ret)
    requires Inv(v) && MutexKnown(v, m) && MutexOk(mv, v.lists[OnMutex(m)], v.t, OnMutex(m))
    ensures Settles(v, v.(mutexes := v.mutexes[m := mv]), OnMutex(m),
                    Return(v, Out(v.(mutexes := v.mutexes[m := mv]), r)))
  {
    hide Inv, MutexOk, Return, Settles;
    var w, o := v.(mutexes := v.mutexes[m := mv]), OnMutex(m);
    Facts(v, o);
    TouchReturn(v, w, o, v.running, r);
  }

  lemma AcquireInv(v: View, m: Mutex, to: nat, now: nat)
    requires Inv(v) && MutexKnown(v, m) && CanBlock(v, to, now)
    requires v.mutexes[m].owner == v.running ==> v.mutexes[m].level + 1 < UINT16_LIMIT
    ensures Settles(v, AcquireMid(v, m, to, now), OnMutex(m), Return(v, MutexAcquire(v, m, to, now)))
  {
    hide Inv, Return, Block, Handed, Settles, Good, ParkedState;
    var mv := v.mutexes[m];
    Facts(v, OnMutex(m));
    if mv.level == 0 || mv.owner == v.running {
      var nv := MutexV(v.running, mv.level + 1, mv.balance[v.running := mv.balance[v.running] + 1]);
      MutexReturn(v, m, nv, Status0(OSS_SUCCESS));
    } else if to == 0 {
      TouchReturn(v, v, OnMutex(m), v.running, Status0(OSS_ERROR_TO));
    } else {
      AcquireParks(v, m, to, now);
    }
  }

  lemma MutexGranted(mv: MutexV, list: seq<Task>, ts0: map<Task, TaskV>, ts1: map<Task, TaskV>, o: Obj, me: Task)
    requires MutexOk(mv, list, ts0, o) && ListOk(list, ts0, o) && |list| > 0
    requires mv.level == 1 && mv.owner == me && me in ts0 && ts0[me].back != o
    requires SameBut(ts0, ts1, list[0]) && ts1[list[0]].back == o
    ensures var x, less := list[0], mv.balance[me := mv.balance[me] - 1];
      x in less && MutexOk(MutexV(x, 1, less[x := less[x] + 1]), list[1..], ts1, o)
  {
    IndexOfAt(list, 0);
    WithoutMembers(list, list[0]);
    assert Without(list, list[0]) == list[1..];
  }

  lemma GrantTouches(v: View, m: Mutex)
    requires Known(v) && MutexKnown(v, m) && |v.lists[OnMutex(m)]| > 0 && OnMutex(m) in v.objs
    requires v.t[v.lists[OnMutex(m)][0]].back == OnMutex(m)
    ensures var w, o := Grant(Freed(v, m), m), OnMutex(m);
      var x, bal := v.lists[o][0], v.mutexes[m].balance;
      var less := bal[v.running := bal[v.running] - 1];
      && Touches(v, w, o, x) && Known(w) && w.running == v.running && w.objs == v.objs
      && SameBut(v.t, w.t, x) && w.t[x].back == o && w.t[x].ret.status == OSS_SUCCESS
      && w.lists[o] == v.lists[o][1..] && m in w.mutexes
      && w.mutexes[m] == MutexV(x, 1, less[x := less[x] + 1])
  {
  }

  lemma GrantObject(v: View, m: Mutex)
    requires Known(v) && MutexKnown(v, m) && OnMutex(m) in v.objs && ObjectOk(v, OnMutex(m))
    requires |v.lists[OnMutex(m)]| > 0 && v.mutexes[m].level == 1 && v.mutexes[m].owner == v.running
    requires v.t[v.running].back == NoObj
    ensures Touches(v, Grant(Freed(v, m), m), OnMutex(m), v.lists[OnMutex(m)][0])
    ensures ObjectOk(Grant(Freed(v, m), m), OnMutex(m))
  {
    hide Grant, Touches, ObjectOk, MutexOk, RetsOk;
    var o, list := OnMutex(m), v.lists[OnMutex(m)];
    MutexParts(v, m);
    assert list[0] in list;
    GrantTouches(v, m);
    var w := Grant(Freed(v, m), m);
    assert list[..0] + list[1..] == list[1..];
    ListServe(list, v.t, w.t, o, v.running, 0);
    MutexGranted(v.mutexes[m], list, v.t, w.t, o, v.running);
    hide ListOk;
    MutexParts(w, m);
  }

  lemma ReleaseServes(v: View, m: Mutex, now: nat)
    requires Inv(v) && MutexKnown(v, m) && v.mutexes[m].level == 1 && v.mutexes[m].owner == v.running
    requires |v.lists[OnMutex(m)]| > 0
    ensures Settles(v, Grant(Freed(v, m), m), OnMutex(m), Return(v, MutexRelease(v, m, now)))
  {
    hide Inv, Return, DispatchOrQueue, Grant, Touches, Settles;
    var o, list := OnMutex(m), v.lists[OnMutex(m)];
    Facts(v, o);
    GrantObject(v, m);
    assert list[0] in list;
    ServeReturn(v, Grant(Freed(v, m), m), o, list[0], now, Status0(OSS_SUCCESS));
  }

  lemma ReleaseInv(v: View, m: Mutex, now: nat)
    requires Inv(v) && MutexKnown(v, m) && v.mutexes[m].level > 0 && v.mutexes[m].owner == v.running
    ensures Settles(v, ReleaseMid(v, m, now), OnMutex(m), Return(v, MutexRelease(v, m, now)))
  {
    hide Inv, Return, Settles, Grant, DispatchOrQueue;
    var mv := v.mutexes[m];
    Facts(v, OnMutex(m));
    if mv.level > 1 || |v.lists[OnMutex(m)]| == 0 {
      var less := mv.balance[v.running := mv.balance[v.running] - 1];
      MutexReturn(v, m, MutexV(if mv.level > 1 then mv.owner else null, mv.level - 1, less), Status0(OSS_SUCCESS));
    } else {
      ReleaseServes(v, m, now);
    }
  }
}
