/** Calls on a reader/writer lock keep the invariant. */
module RwLockSteps {
  import opened Types
  import opened Sequences
  import opened Spec
  import opened Invariants
  import opened Scheduling
  import opened Steps
  import opened Frames

  lemma RwLockPark(rv: RwLockV, list: seq<Task>, ts0: map<Task, TaskV>, ts1: map<Task, TaskV>, o: Obj, x: Task)
    requires RwLockOk(rv, list, ts0, o) && x in ts0 && x !in list && SameBut(ts0, ts1, x) && ts0[x].back != o
    requires rv.readers > 0 || rv.writers > 0
    requires ts1[x].c == if ts1[x].call.Read? then DESIRED_READ else DESIRED_WRITE
    ensures RwLockOk(rv, list + [x], ts1, o)
  {
    AppendMembers(list, x);
  }

  lemma RwLockReturn(v: View, r: RwLock, rv: RwLockV, ret: Ret)
    requires Inv(v) && RwLockKnown(v, r) && RwLockOk(rv, v.lists[OnRwLock(r)], v.t, OnRwLock(r))
    ensures Settles(v, v.(rwlocks := v.rwlocks[r := rv]), OnRwLock(r),
                    Return(v, Out(v.(rwlocks := v.rwlocks[r := rv]), ret)))
  {
    hide Inv, RwLockOk, Return, Settles;
    var w, o := v.(rwlocks := v.rwlocks[r := rv]), OnRwLock(r);
    Facts(v, o);
    TouchReturn(v, w, o, v.running, ret);
  }

  lemma RwLockParks(v: View, r: RwLock, call: Call, to: nat, now: nat)
    requires Inv(v) && RwLockKnown(v, r) && CanWait(v, to, now) && (call == Read || call == Write)
    requires v.rwlocks[r].readers > 0 || v.rwlocks[r].writers > 0
    ensures var w := Worded(v, v.running, Desired(call));
      Known(w) && Yields(v, ParkedState(w, OnRwLock(r), call, to, now), OnRwLock(r),
                         Return(v, Out(Block(w, OnRwLock(r), call, to, now), Status0(OSS_ERROR_TO))))
  {
    hide Inv, Block, Return, ObjectOk, RwLockOk, RetsOk, ListOk;
    var o := OnRwLock(r);
    Facts(v, o);
    RwLockParts(v, r);
    var w := Worded(v, v.running, Desired(call));
    assert Prepares(v, w, o);
    PreparedList(v, w, o, call, to, now);
    var b := ParkedState(w, o, call, to, now);
    assert b.lists[o] == v.lists[o] + [v.running];
    RwLockPark(v.rwlocks[r], v.lists[o], v.t, b.t, o, v.running);
    hide Prepares;
    RwLockParts(b, r);
    BlockReturn(v, w, o, call, to, now);
  }

  lemma AcquireReadInv(v: View, r: RwLock, to: nat, now: nat)
    requires Inv(v) && RwLockKnown(v, r) && CanBlock(v, to, now)
    requires v.rwlocks[r].readers + 1 < UINT16_LIMIT
    ensures Settles(v, ReadMid(v, r, to, now), OnRwLock(r), Return(v, AcquireRead(v, r, to, now)))
  {
    hide Inv, Return, Block, ObjectOk, Settles, Good, ParkedState;
    var rv := v.rwlocks[r];
    Facts(v, OnRwLock(r));
    RwLockParts(v, r);
    if rv.writers == 0 {
      RwLockReturn(v, r, rv.(readers := rv.readers + 1, holds := rv.holds + multiset{v.running}), Status0(OSS_SUCCESS));
    } else if to == 0 {
      TouchReturn(v, v, OnRwLock(r), v.running, Status0(OSS_ERROR_TO));
    } else {
      RwLockParks(v, r, Read, to, now);
    }
  }

  lemma AcquireWriteInv(v: View, r: RwLock, to: nat, now: nat)
    requires Inv(v) && RwLockKnown(v, r) && CanBlock(v, to, now)
    ensures Settles(v, WriteMid(v, r, to, now), OnRwLock(r), Return(v, AcquireWrite(v, r, to, now)))
  {
    hide Inv, Return, Block, ObjectOk, Settles, Good, ParkedState;
    var rv := v.rwlocks[r];
    Facts(v, OnRwLock(r));
    RwLockParts(v, r);
    if rv.readers == 0 && rv.writers == 0 {
      RwLockReturn(v, r, rv.(writers := rv.writers + 1, writer := v.running), Status0(OSS_SUCCESS));
    } else if to == 0 {
      TouchReturn(v, v, OnRwLock(r), v.running, Status0(OSS_ERROR_TO));
    } else {
      RwLockParks(v, r, Write, to, now);
    }
  }

  lemma DropOk(rv: RwLockV, list: seq<Task>, ts: map<Task, TaskV>, o: Obj, me: Task)
    requires RwLockOk(rv, list, ts, o) && me in ts && ts[me].back != o
    requires me in rv.holds || rv.writer == me
    ensures HoldsOk(DropHold(rv, me), list, ts, o) && DropHold(rv, me).writers == 0
  {
  }

  /** When no waiter is served, the lock is free only if nobody waits. */
  lemma DropSettles(rv: RwLockV, list: seq<Task>, ts: map<Task, TaskV>, o: Obj)
    requires HoldsOk(rv, list, ts, o) && |list| > 0
    requires !(rv.readers == 0 && ts[list[0]].c == DESIRED_WRITE) && FirstReader(list, ts) == |list|
    ensures RwLockOk(rv, list, ts, o)
  {
    assert list[0] in list;
  }

  lemma WriteGranted(rv: RwLockV, list: seq<Task>, ts0: map<Task, TaskV>, ts1: map<Task, TaskV>, o: Obj)
    requires HoldsOk(rv, list, ts0, o) && ListOk(list, ts0, o) && |list| > 0
    requires rv.writers == 0 && rv.readers == 0 && ts0[list[0]].c == DESIRED_WRITE
    requires SameBut(ts0, ts1, list[0]) && ts1[list[0]].call == ts0[list[0]].call
    ensures RwLockOk(rv.(writers := rv.writers + 1, writer := list[0]), list[1..], ts1, o)
  {
    IndexOfAt(list, 0);
    WithoutMembers(list, list[0]);
    assert Without(list, list[0]) == list[1..] && list[0] in list;
  }

  lemma ReadGranted(rv: RwLockV, list: seq<Task>, ts0: map<Task, TaskV>, ts1: map<Task, TaskV>, o: Obj, i: nat)
    requires HoldsOk(rv, list, ts0, o) && ListOk(list, ts0, o) && i < |list|
    requires rv.writers == 0 && rv.readers + 1 < UINT16_LIMIT && ts0[list[i]].c == DESIRED_READ
    requires SameBut(ts0, ts1, list[i]) && ts1[list[i]].call == ts0[list[i]].call
    ensures RwLockOk(rv.(readers := rv.readers + 1, holds := rv.holds + multiset{list[i]}),
                     list[..i] + list[i + 1..], ts1, o)
  {
    IndexOfAt(list, i);
    WithoutMembers(list, list[i]);
    assert Without(list, list[i]) == list[..i] + list[i + 1..] && list[i] in list;
  }

  lemma GrantWriteTouches(v: View, r: RwLock)
    requires Known(v) && RwLockKnown(v, r) && |v.lists[OnRwLock(r)]| > 0 && OnRwLock(r) in v.objs
    requires v.t[v.lists[OnRwLock(r)][0]].back == OnRwLock(r)
    ensures var w, o := GrantWrite(Dropped(v, r), r), OnRwLock(r);
      var x, rv := v.lists[o][0], DropHold(v.rwlocks[r], v.running);
      && Touches(v, w, o, x) && Known(w) && w.running == v.running && w.objs == v.objs
      && SameBut(v.t, w.t, x) && w.t[x].back == o && w.t[x].ret.status == OSS_SUCCESS
      && w.t[x].call == v.t[x].call
      && w.lists[o] == v.lists[o][1..] && r in w.rwlocks
      && w.rwlocks[r] == rv.(writers := rv.writers + 1, writer := x)
  {
  }

  lemma GrantReadTouches(v: View, r: RwLock, i: nat)
    requires Known(v) && RwLockKnown(v, r) && i < |v.lists[OnRwLock(r)]| && OnRwLock(r) in v.objs
    requires v.t[v.lists[OnRwLock(r)][i]].back == OnRwLock(r)
    ensures var w, o := GrantRead(Dropped(v, r), r, i), OnRwLock(r);
      var list, rv := v.lists[o], DropHold(v.rwlocks[r], v.running);
      var x := list[i];
      && Touches(v, w, o, x) && Known(w) && w.running == v.running && w.objs == v.objs
      && SameBut(v.t, w.t, x) && w.t[x].back == o && w.t[x].ret.status == OSS_SUCCESS
      && w.t[x].call == v.t[x].call && w.t[x].status == v.t[x].status
      && w.lists[o] == list[..i] + list[i + 1..] && r in w.rwlocks
      && w.rwlocks[r] == rv.(readers := (rv.readers + 1) % UINT16_LIMIT, holds := rv.holds + multiset{x})
  {
  }

  /** What a release by a holder may assume about its lock. */
  ghost predicate Releasable(v: View, r: RwLock) {
    && Known(v) && RwLockKnown(v, r) && OnRwLock(r) in v.objs && ObjectOk(v, OnRwLock(r))
    && (v.running in v.rwlocks[r].holds || v.rwlocks[r].writer == v.running)
    && v.t[v.running].back == NoObj
  }

  lemma GrantWriteObject(v: View, r: RwLock)
    requires Releasable(v, r) && |v.lists[OnRwLock(r)]| > 0
    requires DropHold(v.rwlocks[r], v.running).readers == 0
    requires v.t[v.lists[OnRwLock(r)][0]].c == DESIRED_WRITE
    ensures Touches(v, GrantWrite(Dropped(v, r), r), OnRwLock(r), v.lists[OnRwLock(r)][0])
    ensures ObjectOk(GrantWrite(Dropped(v, r), r), OnRwLock(r))
  {
    hide GrantWrite, Touches, ObjectOk, HoldsOk, RetsOk;
    var o, list := OnRwLock(r), v.lists[OnRwLock(r)];
    RwLockParts(v, r);
    assert list[0] in list;
    GrantWriteTouches(v, r);
    var w := GrantWrite(Dropped(v, r), r);
    assert list[..0] + list[1..] == list[1..];
    ListServe(list, v.t, w.t, o, v.running, 0);
    DropOk(v.rwlocks[r], list, v.t, o, v.running);
    WriteGranted(DropHold(v.rwlocks[r], v.running), list, v.t, w.t, o);
    hide ListOk;
    RwLockParts(w, r);
  }

  lemma GrantReadObject(v: View, r: RwLock, i: nat)
    requires Releasable(v, r) && i < |v.lists[OnRwLock(r)]|
    requires v.t[v.lists[OnRwLock(r)][i]].c == DESIRED_READ
    requires DropHold(v.rwlocks[r], v.running).readers + 1 < UINT16_LIMIT
    ensures Touches(v, GrantRead(Dropped(v, r), r, i), OnRwLock(r), v.lists[OnRwLock(r)][i])
    ensures ObjectOk(GrantRead(Dropped(v, r), r, i), OnRwLock(r))
  {
    hide GrantRead, Touches, ObjectOk, HoldsOk, RetsOk;
    var o, list := OnRwLock(r), v.lists[OnRwLock(r)];
    RwLockParts(v, r);
    assert list[i] in list;
    GrantReadTouches(v, r, i);
    var w := GrantRead(Dropped(v, r), r, i);
    ListServe(list, v.t, w.t, o, v.running, i);
    DropOk(v.rwlocks[r], list, v.t, o, v.running);
    ReadGranted(DropHold(v.rwlocks[r], v.running), list, v.t, w.t, o, i);
    hide ListOk;
    RwLockParts(w, r);
  }

  /** Waking a task that waits, with no scheduling. */
  lemma WokenHanded(w: View, x: Task)
    requires Ready(w) && Handed(w) && x in w.t && w.t[x].status.Wait?
    ensures var s := StatusSet(w, x, Idle);
      Handed(s) && s.running == w.running && s.t[w.running] == w.t[w.running]
  {
    StatusSetIdle(w, x);
    StatusSetCarried(w, x, Idle);
    hide Mid, StatusSet, Carried;
  }

  lemma GrantReadReturn(v: View, w: View, o: Obj, x: Task, r: Ret)
    requires Inv(v) && Touches(v, w, o, x) && ObjectOk(w, o) && v.t[x].status.Wait?
    ensures x in w.t && Settles(v, w, o, Return(v, Out(StatusSet(w, x, Idle), r)))
  {
    TouchReady(v, w, o, x);
    TouchStage(v, w, o, x);
    assert w.running == v.running && x in w.t && w.t[x].status.Wait? && Mid(w) && w.scheduled == null;
    hide Inv, Ready, Handed, Touches, ObjectOk, Return, StatusSet, Stage, Mid, Carried;
    WokenHanded(w, x);
    StatusSetCarried(w, x, Idle);
    ReturnInv(v, Out(StatusSet(w, x, Idle), r));
    StageReturn(v, w, StatusSet(w, x, Idle), o, r);
  }

  lemma UnlockInv(v: View, r: RwLock, now: nat)
    requires Inv(v) && RwLockKnown(v, r) && ReaderStillWaits(v, r)
    requires v.running in v.rwlocks[r].holds || v.rwlocks[r].writer == v.running
    ensures Settles(v, UnlockMid(v, r, now), OnRwLock(r), Return(v, RwRelease(v, r, now)))
  {
    hide Inv, Return, ObjectOk, HoldsOk, GrantWrite, GrantRead, Touches, StatusSet, DispatchOrQueue, Settles;
    var o, list, d := OnRwLock(r), v.lists[OnRwLock(r)], DropHold(v.rwlocks[r], v.running);
    Facts(v, o);
    RwLockParts(v, r);
    DropOk(v.rwlocks[r], list, v.t, o, v.running);
    var i := FirstReader(list, v.t);
    if |list| == 0 {
      RwLockReturn(v, r, d, Status0(OSS_SUCCESS));
    } else if d.readers == 0 && v.t[list[0]].c == DESIRED_WRITE {
      GrantWriteObject(v, r);
      assert list[0] in list;
      ServeReturn(v, GrantWrite(Dropped(v, r), r), o, list[0], now, Status0(OSS_SUCCESS));
    } else if i == |list| {
      DropSettles(d, list, v.t, o);
      RwLockReturn(v, r, d, Status0(OSS_SUCCESS));
    } else {
      DropRoom(v.rwlocks[r], list, v.t, o, v.running);
      GrantReadObject(v, r, i);
      GrantReadReturn(v, GrantRead(Dropped(v, r), r, i), o, list[i], Status0(OSS_SUCCESS));
    }
  }

  lemma DropRoom(rv: RwLockV, list: seq<Task>, ts: map<Task, TaskV>, o: Obj, me: Task)
    requires HoldsOk(rv, list, ts, o) && (me in rv.holds || rv.writer == me)
    ensures DropHold(rv, me).readers + 1 < UINT16_LIMIT
  {
  }

  // -------------------------------------------------------- how many are served

  /** The tasks of a list that want to read, in order. */
  function Readers(s: seq<Task>, ts: map<Task, TaskV>): (r: seq<Task>)
    requires Among(s, ts.Keys)
  {
    if s == [] then [] else (if ts[s[0]].c == DESIRED_READ then [s[0]] else []) + Readers(s[1..], ts)
  }

  lemma {:induction false} ReadersSame(s: seq<Task>, ts0: map<Task, TaskV>, ts1: map<Task, TaskV>)
    requires Among(s, ts0.Keys) && Among(s, ts1.Keys) && forall i :: 0 <= i < |s| ==> ts1[s[i]].c == ts0[s[i]].c
    ensures Readers(s, ts1) == Readers(s, ts0)
  {
    if s != [] { ReadersSame(s[1..], ts0, ts1); }
  }

  /** Without the first of them, the others stay in order. */
  lemma {:induction false} ReadersLess(s: seq<Task>, ts0: map<Task, TaskV>, ts1: map<Task, TaskV>)
    requires Among(s, ts0.Keys) && Among(s, ts1.Keys)
    requires var i := FirstReader(s, ts0); forall j :: 0 <= j < |s| && j != i ==> ts1[s[j]].c == ts0[s[j]].c
    ensures var i := FirstReader(s, ts0);
      if i == |s| then Readers(s, ts0) == Readers(s, ts1) == []
      else
        && Among(s[..i] + s[i + 1..], ts1.Keys) && Readers(s, ts0) != []
        && Readers(s[..i] + s[i + 1..], ts1) == Readers(s, ts0)[1..]
  {
    if s != [] {
      var i, tail := FirstReader(s, ts0), s[1..];
      if i == 0 {
        ReadersSame(tail, ts0, ts1);
        assert s[..0] + s[1..] == tail;
      } else {
        ReadersLess(tail, ts0, ts1);
        if i < |s| { assert s[..i] + s[i + 1..] == [s[0]] + (tail[..i - 1] + tail[i..]); }
      }
    }
  }

  /** The release finds waiters, and not a writer at their head that it can serve: it enters its loop. */
  predicate EntersLoop(v: View, r: RwLock)
    requires Known(v) && RwLockKnown(v, r)
  {
    var list := v.lists[OnRwLock(r)];
    |list| > 0 && !(DropHold(v.rwlocks[r], v.running).readers == 0 && v.t[list[0]].c == DESIRED_WRITE)
  }

  /** `w` is `v` with the first waiting reader off the list of the lock, and nobody else. */
  ghost predicate OneReaderLess(v: View, w: View, r: RwLock)
    requires RwLockKnown(v, r)
  {
    var o := OnRwLock(r);
    var list, before := v.lists[o], Readers(v.lists[o], v.t);
    && o in w.lists && Among(w.lists[o], w.t.Keys)
    && (if before == [] then w.lists[o] == list else w.lists[o] == Without(list, before[0]))
    && Readers(w.lists[o], w.t) == (if before == [] then [] else before[1..])
  }

  lemma ReadersHead(s: seq<Task>, ts: map<Task, TaskV>)
    requires Among(s, ts.Keys)
    ensures var i := FirstReader(s, ts); i < |s| ==> Readers(s, ts) != [] && Readers(s, ts)[0] == s[i]
  {
  }

  /** The loop of a release serves the first waiting reader, wherever it is, and nobody else. */
  lemma LoopServesOne(v: View, r: RwLock, now: nat)
    requires Known(v) && RwLockKnown(v, r) && Distinct(v.lists[OnRwLock(r)]) && EntersLoop(v, r)
    ensures OneReaderLess(v, RwRelease(v, r, now).v, r)
  {
    hide Readers, FirstReader, DropHold;
    var list, w := v.lists[OnRwLock(r)], RwRelease(v, r, now).v;
    assert Known(Dropped(v, r));
    var i := FirstReader(list, v.t);
    ReadersHead(list, v.t);
    if i < |list| { IndexOfAt(list, i); }
    ReadersLess(list, v.t, w.t);
  }
}
