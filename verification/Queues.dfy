/** The runqueue and the waitqueue of os.c: singly linked through `nrp`, spliced in place. */
module RunQueue {
  import opened Types
  import opened Sequences
  import opened Spec
  import opened Invariants
  import opened Heap

  ghost predicate PrioritiesOf(s: seq<Task>, ts: map<Task, TaskV>)
    requires Among(s, ts.Keys)
    reads s`priority
  {
    forall i :: 0 <= i < |s| ==> s[i].priority == ts[s[i]].priority
  }

  /** runqueue_length */
  method Length(head: Task?, ghost s: seq<Task>) returns (l: nat)
    requires Queued(head, s)
    ensures l == |s|
  {
    l := 0;
    var iter := head;
    while iter != null
      invariant l <= |s| && iter == At(s, l)
      decreases |s| - l
    {
      l := l + 1;
      iter := iter.nrp;
    }
  }

  /** Link `task` in between `previous` and `next`; there is no `previous` at the head. */
  method Splice(head: Task, previous: Task?, task: Task, next: Task?, ghost s: seq<Task>, ghost i: nat)
    returns (h: Task)
    requires |s| > 0 && i <= |s| && Queued(head, s) && Distinct(s) && task !in s
    requires previous == At(s, i - 1) && next == At(s, i)
    modifies s`nrp, task`nrp
    ensures Queued(h, InsertAt(s, i, task))
  {
    task.nrp := next;
    h := head;
    if previous == null {
      h := task;
    } else {
      previous.nrp := task;
    }
  }

  /** Where a task that is not queued goes. */
  lemma AddedAt(s: seq<Task>, ts: map<Task, TaskV>, x: Task, i: nat)
    requires x in ts && Among(s, ts.Keys) && i <= |s| && x !in s
    requires forall j :: 0 <= j < i ==> ts[s[j]].priority >= ts[x].priority
    requires i < |s| ==> ts[s[i]].priority < ts[x].priority
    ensures RunqueueAdd(s, ts, x) == InsertAt(s, i, x)
  {
    var p := PriorityPos(s, ts, ts[x].priority);
    assert p == i;
  }

  /** A task that is queued already loses what was behind it. */
  lemma AddedAgain(s: seq<Task>, ts: map<Task, TaskV>, i: nat)
    requires Among(s, ts.Keys) && Distinct(s) && i < |s|
    ensures RunqueueAdd(s, ts, s[i]) == s[..i + 1]
  {
    IndexOfAt(s, i);
  }

  lemma AddedFirst(s: seq<Task>, ts: map<Task, TaskV>, x: Task)
    requires x in ts && s == []
    ensures RunqueueAdd(s, ts, x) == [x]
  {
  }

  /** A task is not behind one of lower priority. */
  lemma NotBehind(s: seq<Task>, ts: map<Task, TaskV>, x: Task, i: nat)
    requires Among(s, ts.Keys) && ByPriority(s, ts) && x in ts && i < |s|
    requires ts[x].priority > ts[s[i]].priority && forall j :: 0 <= j < i ==> s[j] != x
    ensures x !in s
  {
    forall k | 0 <= k < |s|
      ensures s[k] != x
    {
      if k > i { assert ts[s[i]].priority >= ts[s[k]].priority; }
    }
  }

  /** runqueue_add */
  method Add(head: Task?, task: Task, ghost s: seq<Task>, ghost ts: map<Task, TaskV>) returns (h: Task?)
    requires Queued(head, s) && Distinct(s)
    requires task in ts && Among(s, ts.Keys) && ByPriority(s, ts)
    requires PrioritiesOf(s, ts) && task.priority == ts[task].priority
    requires s != [] ==> !task.status.Wait? && !task.status.Finished?
    modifies s`nrp, task`nrp
    ensures Queued(h, RunqueueAdd(s, ts, task))
  {
    hide Distinct, ByPriority, RunqueueAdd, InsertAt;
    task.nrp := null;
    if head == null {
      assert RunqueueAdd(s, ts, task) == [task] by { AddedFirst(s, ts, task); }
      return task;
    }
    assert !task.status.Wait? && !task.status.Finished?;
    var previous: Task? := null;
    var iter: Task? := head;
    ghost var i := 0;
    while iter != null
      invariant i < |s| && iter == s[i] && previous == At(s, i - 1)
      invariant forall j :: 0 <= j < i ==> s[j] != task && ts[s[j]].priority >= task.priority
      invariant task.nrp == null
      invariant forall j {:trigger s[j].nrp} :: 0 <= j < |s| && s[j] != task ==> s[j].nrp == At(s, j + 1)
      decreases |s| - i
    {
      if iter == task {
        AddedAgain(s, ts, i);
        return head;
      }
      if task.priority > iter.priority {
        NotBehind(s, ts, task, i);
        AddedAt(s, ts, task, i);
        h := Splice(head, previous, task, iter, s, i);
        return;
      }
      if iter.nrp == null {
        assert task !in s;
        AddedAt(s, ts, task, |s|);
        h := Splice(head, iter, task, null, s, |s|);
        return;
      }
      previous, iter, i := iter, iter.nrp, i + 1;
    }
    assert false;
  }

  /** runqueue_remove; the waitqueue's is the same code. */
  method Remove(head: Task?, task: Task, ghost s: seq<Task>) returns (h: Task?)
    requires Queued(head, s) && Distinct(s)
    modifies s`nrp
    ensures Queued(h, Without(s, task))
    ensures task in s ==> task.nrp == null
  {
    h := head;
    var previous: Task? := null;
    var iter := head;
    ghost var i := 0;
    while iter != null
      invariant i <= |s| && iter == At(s, i) && previous == At(s, i - 1)
      invariant task !in s[..i]
      invariant forall j {:trigger s[j].nrp} :: 0 <= j < |s| ==> s[j].nrp == At(s, j + 1)
      invariant h == head == At(s, 0)
      decreases |s| - i
    {
      if iter == task {
        IndexOfAt(s, i);
        if h == iter {
          h := iter.nrp;
        } else {
          previous.nrp := iter.nrp;
        }
        iter.nrp := null;
        return;
      }
      previous, iter, i := iter, iter.nrp, i + 1;
    }
    assert s[..i] == s;
    WithoutAbsent(s, task);
  }

  /** runqueue_has_higher_priority */
  method HasHigherPriority(head: Task?, task: Task, ghost s: seq<Task>) returns (higher: bool)
    requires Queued(head, s)
    ensures higher <==> exists i :: 0 <= i < |s| && Runnable(s[i].status) && s[i].priority > task.priority
  {
    var iter := head;
    ghost var i := 0;
    while iter != null
      invariant i <= |s| && iter == At(s, i)
      invariant forall j :: 0 <= j < i ==> !(Runnable(s[j].status) && s[j].priority > task.priority)
      decreases |s| - i
    {
      if Runnable(iter.status) && iter.priority > task.priority {
        return true;
      }
      iter, i := iter.nrp, i + 1;
    }
    return false;
  }
}

/** has_cycles: the tortoise and the hare. */
module Cycles {
  import opened Types
  import opened Sequences
  import opened Heap

  /** `g` is closed under `nrp`. */
  ghost predicate Closed(g: set<Task>)
    reads g`nrp
  {
    forall x :: x in g ==> x.nrp == null || x.nrp in g
  }

  /** `n` links on from `x`; null once the end has been passed. */
  ghost function Follow(g: set<Task>, x: Task?, n: nat): (y: Task?)
    requires Closed(g) && (x == null || x in g)
    reads g`nrp
    ensures y == null || y in g
  {
    if n == 0 then x
    else
      var y := Follow(g, x, n - 1);
      if y == null then null else y.nrp
  }

  lemma {:induction false} FollowOn(g: set<Task>, x: Task?, m: nat, n: nat)
    requires Closed(g) && (x == null || x in g)
    ensures Follow(g, x, m + n) == Follow(g, Follow(g, x, m), n)
  {
    if n > 0 { FollowOn(g, x, m, n - 1); }
  }

  lemma {:induction false} NullStays(g: set<Task>, x: Task?, m: nat, n: nat)
    requires Closed(g) && (x == null || x in g) && m <= n && Follow(g, x, m) == null
    ensures Follow(g, x, n) == null
  {
    if m < n { NullStays(g, x, m, n - 1); }
  }

  // -------------------------------------------------- the two meet on a cycle

  /** The tasks passed in the first `n` links. */
  ghost function Passed(g: set<Task>, x: Task?, n: nat): (r: set<Task>)
    requires Closed(g) && (x == null || x in g)
    reads g`nrp
    ensures r <= g
  {
    if n == 0 then {}
    else
      var y := Follow(g, x, n - 1);
      Passed(g, x, n - 1) + if y == null then {} else {y}
  }

  lemma {:induction false} PassedBefore(g: set<Task>, x: Task?, n: nat, y: Task) returns (i: nat)
    requires Closed(g) && (x == null || x in g) && y in Passed(g, x, n)
    ensures i < n && Follow(g, x, i) == y
  {
    if y in Passed(g, x, n - 1) { i := PassedBefore(g, x, n - 1, y); } else { i := n - 1; }
  }

  lemma {:induction false} PassedAll(g: set<Task>, x: Task?, n: nat)
    requires Closed(g) && (x == null || x in g) && (n > 0 ==> Follow(g, x, n - 1) != null)
    requires forall i, j :: 0 <= i < j < n ==> Follow(g, x, i) != Follow(g, x, j)
    ensures |Passed(g, x, n)| == n
  {
    if n > 0 {
      PassedAll(g, x, n - 1);
      var y := Follow(g, x, n - 1);
      if y in Passed(g, x, n - 1) {
        var i := PassedBefore(g, x, n - 1, y);
      }
    }
  }

  lemma SubsetSize(a: set<Task>, b: set<Task>)
    requires a <= b
    ensures |a| <= |b|
  {
    if a != {} {
      var x :| x in a;
      SubsetSize(a - {x}, b - {x});
    }
  }

  /** More links than tasks repeat a task. */
  lemma Repeats(g: set<Task>, x: Task?) returns (i: nat, j: nat)
    requires Closed(g) && (x == null || x in g) && Follow(g, x, |g|) != null
    ensures i < j <= |g| && Follow(g, x, i) == Follow(g, x, j)
  {
    if forall a, b :: 0 <= a < b < |g| + 1 ==> Follow(g, x, a) != Follow(g, x, b) {
      PassedAll(g, x, |g| + 1);
      SubsetSize(Passed(g, x, |g| + 1), g);
      assert false;
    }
    i, j :| 0 <= i < j < |g| + 1 && Follow(g, x, i) == Follow(g, x, j);
  }

  /** Past the first repeated task, positions a period apart hold the same task. */
  lemma {:induction false} Periodic(g: set<Task>, x: Task?, i: nat, j: nat, n: nat, m: nat)
    requires Closed(g) && (x == null || x in g) && i < j && Follow(g, x, i) == Follow(g, x, j) && i <= n
    ensures Follow(g, x, n) == Follow(g, x, n + m * (j - i))
    decreases m
  {
    if m > 0 {
      var k := n + (m - 1) * (j - i);
      Periodic(g, x, i, j, n, m - 1);
      FollowOn(g, x, i, k - i);
      FollowOn(g, x, j, k - i);
      assert k + (j - i) == n + m * (j - i);
    }
  }

  /** The least multiple of the period past the first repeat is a meeting point. */
  lemma Meets(g: set<Task>, x: Task?) returns (k: nat)
    requires Closed(g) && (x == null || x in g) && Follow(g, x, |g|) != null
    ensures 0 < k <= |g| && Follow(g, x, k) == Follow(g, x, 2 * k)
  {
    var i, j := Repeats(g, x);
    var m := Multiple(i, j - i);
    k := m * (j - i);
    Periodic(g, x, i, j, k, m);
  }

  /** A multiple of `p` among the `p` numbers from `i` on, 0 excepted. */
  lemma {:induction false} Multiple(i: nat, p: nat) returns (m: nat)
    requires p > 0
    ensures 0 < m && i <= m * p <= i + p
    decreases i
  {
    if i <= p {
      m := 1;
    } else {
      m := Multiple(i - p, p);
      m := m + 1;
      assert m * p == (m - 1) * p + p;
    }
  }

  /** Two positions of one task: the links go on for ever. */
  lemma NeverEnds(g: set<Task>, x: Task?, k: nat, n: nat)
    requires Closed(g) && (x == null || x in g)
    requires 0 < k && Follow(g, x, k) == Follow(g, x, 2 * k) != null
    ensures Follow(g, x, n) != null
  {
    Periodic(g, x, k, 2 * k, k, n);
    assert k + n * k >= n by { ProductAtLeast(k, n); }
    if Follow(g, x, n) == null { NullStays(g, x, n, k + n * k); }
  }

  /** has_cycles: true exactly when the links from `head` never end. */
  method HasCycles(head: Task?, ghost g: set<Task>) returns (cycles: bool)
    requires Closed(g) && (head == null || head in g)
    ensures cycles <==> forall n: nat :: Follow(g, head, n) != null
  {
    var f := head;
    var s := head;
    if head == null {
      assert Follow(g, head, 0) == null;
      return false;
    }
    ghost var k := 0;
    while true
      invariant s != null && f != null && k <= |g|
      invariant s == Follow(g, head, k) && f == Follow(g, head, 2 * k)
      invariant forall j :: 0 < j <= k ==> Follow(g, head, j) != Follow(g, head, 2 * j)
      decreases |g| - k
    {
      if k == |g| {
        var j := Meets(g, head);
        assert false;
      }
      s := s.nrp;
      assert s == Follow(g, head, k + 1);
      if f.nrp != null {
        assert f.nrp == Follow(g, head, 2 * k + 1);
        f := f.nrp.nrp;
      } else {
        assert Follow(g, head, 2 * k + 1) == null;
        return false;
      }
      assert f == Follow(g, head, 2 * k + 2);
      if s == null || f == null {
        ghost var n := if s == null then k + 1 else 2 * k + 2;
        assert Follow(g, head, n) == null;
        return false;
      }
      if s == f {
        forall n: nat
          ensures Follow(g, head, n) != null
        {
          NeverEnds(g, head, k + 1, n);
        }
        return true;
      }
      k := k + 1;
    }
  }

  /** A queue ends. */
  lemma QueueEnds(head: Task?, s: seq<Task>, n: nat)
    requires Queued(head, s) && n <= |s|
    ensures Closed(Members(s)) && (head == null || head in Members(s))
    ensures Follow(Members(s), head, n) == At(s, n)
  {
    assert forall x :: x in Members(s) ==> exists i :: 0 <= i < |s| && s[i] == x && x.nrp == At(s, i + 1);
    if n > 0 { QueueEnds(head, s, n - 1); }
  }
}

module WaitQueue {
  import opened Types
  import opened Sequences
  import opened Spec
  import opened Heap
  import opened Cycles
  import RunQueue

  ghost predicate DelaysOf(s: seq<Task>, ts: map<Task, TaskV>)
    requires Among(s, ts.Keys)
    reads s`delay
  {
    forall i :: 0 <= i < |s| ==> s[i].delay == ts[s[i]].delay
  }

  lemma AddedAt(s: seq<Task>, ts: map<Task, TaskV>, x: Task, i: nat)
    requires x in ts && Among(s, ts.Keys) && i <= |s|
    requires forall j :: 0 <= j < i ==> ts[s[j]].delay <= ts[x].delay
    requires i < |s| ==> ts[x].delay < ts[s[i]].delay
    ensures WaitqueueAdd(s, ts, x) == InsertAt(s, i, x)
  {
    var p := DeadlinePos(s, ts, ts[x].delay);
    assert p == i;
  }

  lemma AddedFirst(s: seq<Task>, ts: map<Task, TaskV>, x: Task)
    requires x in ts && s == []
    ensures WaitqueueAdd(s, ts, x) == [x]
  {
  }

  /** waitqueue_add, with its assertion that the queue has no cycle. */
  method Add(head: Task?, task: Task, ghost s: seq<Task>, ghost ts: map<Task, TaskV>) returns (h: Task?)
    requires Queued(head, s) && Distinct(s)
    requires task in ts && task !in s && Among(s, ts.Keys)
    requires DelaysOf(s, ts) && task.delay == ts[task].delay
    modifies s`nrp, task`nrp
    ensures Queued(h, WaitqueueAdd(s, ts, task))
  {
    hide Distinct, WaitqueueAdd, InsertAt;
    task.nrp := null;
    if head == null {
      assert WaitqueueAdd(s, ts, task) == [task] by { AddedFirst(s, ts, task); }
      return task;
    }
    var previous: Task? := null;
    var iter: Task? := head;
    ghost var i := 0;
    while iter != null
      invariant i < |s| && iter == s[i] && previous == At(s, i - 1)
      invariant forall j :: 0 <= j < i ==> ts[s[j]].delay <= task.delay
      invariant task.nrp == null
      invariant forall j {:trigger s[j].nrp} :: 0 <= j < |s| ==> s[j].nrp == At(s, j + 1)
      decreases |s| - i
    {
      assert iter != task;
      if task.delay < iter.delay {
        AddedAt(s, ts, task, i);
        h := RunQueue.Splice(head, previous, task, iter, s, i);
        return;
      }
      if iter.nrp == null {
        AddedAt(s, ts, task, |s|);
        h := RunQueue.Splice(head, iter, task, null, s, |s|);
        ghost var r := WaitqueueAdd(s, ts, task);
        QueueEnds(h, r, |r|);
        var cycles := HasCycles(h, Members(r));
        assert Follow(Members(r), h, |r|) == null;
        assert !cycles;
        return;
      }
      previous, iter, i := iter, iter.nrp, i + 1;
    }
    assert false;
  }
}
