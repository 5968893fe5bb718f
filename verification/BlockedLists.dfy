/** utilities.h: the list of tasks blocked on an object, linked through `nblocked`. */
module BlockedList {
  import opened Types
  import opened Sequences
  import opened Heap

  /** blocked_contains */
  method Contains(blocked: Blocked, task: Task, ghost s: seq<Task>) returns (found: bool)
    requires Chained(blocked.tasks, s)
    ensures found <==> task in s
  {
    var iter := blocked.tasks;
    ghost var i := 0;
    while iter != null
      invariant i <= |s| && iter == At(s, i)
      invariant task !in s[..i]
      decreases |s| - i
    {
      if iter == task {
        return true;
      }
      iter, i := iter.nblocked, i + 1;
    }
    assert s[..i] == s;
    return false;
  }

  /** blocked_append, with its assertions that the task is on no list. */
  method Append(blocked: Blocked, task: Task, ghost s: seq<Task>)
    requires Chained(blocked.tasks, s) && Distinct(s) && task !in s
    requires task.nblocked == null
    modifies blocked, s`nblocked
    ensures Chained(blocked.tasks, s + [task])
  {
    if blocked.tasks == null {
      blocked.tasks := task;
    } else {
      var iter := blocked.tasks;
      ghost var i := 0;
      while true
        invariant i < |s| && iter == s[i]
        decreases |s| - i
      {
        assert iter.nblocked != task;
        assert iter != task;
        if iter.nblocked == null {
          iter.nblocked := task;
          break;
        }
        iter, i := iter.nblocked, i + 1;
      }
    }
  }

  /** blocked_remove */
  method Remove(blocked: Blocked, task: Task, ghost s: seq<Task>) returns (removed: bool)
    requires Chained(blocked.tasks, s) && Distinct(s)
    modifies blocked, s`nblocked
    ensures Chained(blocked.tasks, Without(s, task))
    ensures removed <==> task in s
    ensures removed ==> task.nblocked == null
  {
    var previous: Task? := null;
    var iter := blocked.tasks;
    ghost var i := 0;
    while iter != null
      invariant i <= |s| && iter == At(s, i) && previous == At(s, i - 1)
      invariant task !in s[..i]
      invariant Chained(blocked.tasks, s)
      decreases |s| - i
    {
      if iter == task {
        IndexOfAt(s, i);
        if previous == null {
          blocked.tasks := task.nblocked;
        } else {
          previous.nblocked := task.nblocked;
        }
        task.nblocked := null;
        return true;
      }
      previous, iter, i := iter, iter.nblocked, i + 1;
    }
    assert s[..i] == s;
    WithoutAbsent(s, task);
    return false;
  }

  /** Unlink the head, as each object's own code does. */
  method Pop(blocked: Blocked, ghost s: seq<Task>) returns (task: Task)
    requires Chained(blocked.tasks, s) && Distinct(s) && s != []
    modifies blocked, s`nblocked
    ensures task == s[0] && task.nblocked == null
    ensures Chained(blocked.tasks, s[1..])
  {
    task := blocked.tasks;
    blocked.tasks := task.nblocked;
    task.nblocked := null;
  }

  /** Unlink `task`, found behind `previous`. */
  method Unhook(blocked: Blocked, previous: Task?, task: Task, ghost s: seq<Task>, ghost i: nat)
    requires Chained(blocked.tasks, s) && Distinct(s) && i < |s| && task == s[i] && previous == At(s, i - 1)
    modifies blocked, s`nblocked
    ensures Chained(blocked.tasks, Without(s, task)) && task.nblocked == null
  {
    IndexOfAt(s, i);
    if previous == null {
      blocked.tasks := task.nblocked;
    } else {
      previous.nblocked := task.nblocked;
    }
    task.nblocked := null;
  }
}
