/** The kernel's globals and what it means for the heap to hold a view: which pointers chain the
    tasks of each list, and which fields hold each record. */
module Heap {
  import opened Types
  import opened Sequences
  import opened Spec

  /** osg, the part the kernel core uses; `cells` and `rings` are the list heads and message arrays
      of the objects there are. */
  class Globals {
    var running: Task
    var scheduled: Task?
    const idle: Task
    var runqueue: Task?
    var waitqueue: Task?
    ghost const cells: set<Blocked>
    ghost const rings: set<array<Word>>

    /** The globals with both queues empty and the idle task the running one. */
    constructor (idle: Task, ghost cells: set<Blocked>, ghost rings: set<array<Word>>)
      ensures this.idle == idle && running == idle && scheduled == null
      ensures runqueue == null && waitqueue == null
      ensures this.cells == cells && this.rings == rings
    {
      this.cells, this.rings := cells, rings;
      this.idle, running, scheduled := idle, idle, null;
      runqueue, waitqueue := null, null;
    }
  }

  // ---------------------------------------------------------- intrusive lists

  /** The task at position `i`, or null past the end. */
  function At(s: seq<Task>, i: int): Task? {
    if 0 <= i < |s| then s[i] else null
  }

  /** The queue that starts at `head` and goes on through `nrp` is `s`. */
  ghost predicate Queued(head: Task?, s: seq<Task>)
    reads s`nrp
  {
    head == At(s, 0) && forall i {:trigger s[i].nrp} :: 0 <= i < |s| ==> s[i].nrp == At(s, i + 1)
  }

  /** The blocked list that starts at `head` and goes on through `nblocked` is `s`. */
  ghost predicate Chained(head: Task?, s: seq<Task>)
    reads s`nblocked
  {
    head == At(s, 0) && forall i {:trigger s[i].nblocked} :: 0 <= i < |s| ==> s[i].nblocked == At(s, i + 1)
  }

  ghost function Members(s: seq<Task>): set<Task> {
    set x | x in s
  }

  // ----------------------------------------------------- what the heap holds

  ghost predicate Apart(a: seq<Task>, b: seq<Task>) {
    forall i, j :: 0 <= i < |a| && 0 <= j < |b| ==> a[i] != b[j]
  }

  /** Both queues are threaded through `nrp`, and no other task has that link set. */
  ghost predicate QueuesHold(runqueue: Task?, waitqueue: Task?, rq: seq<Task>, wq: seq<Task>, tasks: set<Task>)
    requires Among(rq, tasks) && Among(wq, tasks)
    reads tasks`nrp
  {
    && Queued(runqueue, rq) && Distinct(rq)
    && Queued(waitqueue, wq) && Distinct(wq)
    && Apart(rq, wq)
    && forall x {:trigger x.nrp} :: x in tasks && x !in rq && x !in wq ==> x.nrp == null
  }

  /** A task's fields hold its record; the back pointer is one of three. */
  ghost predicate Holds(x: Task, tv: TaskV)
    reads x`status, x`priority, x`delay, x`flags, x`c, x`ret, x`mutex, x`queue, x`rwlock
  {
    && x.status == tv.status && x.priority == tv.priority && x.delay == tv.delay
    && x.flags == tv.flags && x.c == tv.c && x.ret == tv.ret
    && x.mutex == (if tv.back.OnMutex? then tv.back.m else null)
    && x.queue == (if tv.back.OnQueue? then tv.back.q else null)
    && x.rwlock == (if tv.back.OnRwLock? then tv.back.r else null)
  }

  ghost predicate TasksHold(ts: map<Task, TaskV>)
    reads ts.Keys`status, ts.Keys`priority, ts.Keys`delay, ts.Keys`flags, ts.Keys`c, ts.Keys`ret,
      ts.Keys`mutex, ts.Keys`queue, ts.Keys`rwlock
  {
    forall x :: x in ts ==> Holds(x, ts[x])
  }

  function CellOf(o: Obj): Blocked
    requires o != NoObj
  {
    match o
    case OnMutex(m) => m.blocked
    case OnQueue(q) => q.blocked
    case OnRwLock(r) => r.blocked
  }

  /** Every object has a list head of its own. */
  ghost predicate OwnCells(objs: set<Obj>, cells: set<Blocked>) {
    && NoObj !in objs
    && (forall o :: o in objs ==> CellOf(o) in cells)
    && forall o, p :: o in objs && p in objs && o != p ==> CellOf(o) != CellOf(p)
  }

  /** Every object's list is threaded through `nblocked`; its members' back pointers say so, which
      keeps the lists apart, and no other task has that link set. */
  ghost predicate ListsHold(lists: map<Obj, seq<Task>>, ts: map<Task, TaskV>, cells: set<Blocked>)
    requires OwnCells(lists.Keys, cells)
    reads cells`tasks, ts.Keys`nblocked
  {
    && (forall o :: o in lists ==> ListHolds(o, lists[o], ts))
    && forall x {:trigger x.nblocked} :: x in ts && !(ts[x].back in lists && x in lists[ts[x].back]) ==>
      x.nblocked == null
  }

  ghost predicate ListFits(o: Obj, list: seq<Task>, ts: map<Task, TaskV>) {
    && Among(list, ts.Keys) && Distinct(list)
    && forall i :: 0 <= i < |list| ==> ts[list[i]].back == o
  }

  ghost predicate ListHolds(o: Obj, list: seq<Task>, ts: map<Task, TaskV>)
    requires o != NoObj
    reads CellOf(o)`tasks, ts.Keys`nblocked
  {
    ListFits(o, list, ts) && Chained(CellOf(o).tasks, list)
  }

  ghost predicate MutexHolds(m: Mutex, mv: MutexV)
    reads m`owner, m`level
  {
    m.owner == mv.owner && m.level == mv.level
  }

  ghost predicate QueueHolds(q: Queue, qv: QueueV)
    reads q`number, q`first, q`last, q`status, q.messages
  {
    && q.size == qv.size && q.messages[..] == qv.messages
    && q.number == qv.number && q.first == qv.first && q.last == qv.last && q.status == qv.status
  }

  ghost predicate RwLockHolds(r: RwLock, rv: RwLockV)
    reads r`readers, r`writers, r`writer
  {
    r.readers == rv.readers && r.writers == rv.writers && r.writer == rv.writer
  }

  /** Every queue has an array of its own. */
  ghost predicate OwnRings(queues: set<Queue>, rings: set<array<Word>>) {
    && (forall q :: q in queues ==> q.messages in rings)
    && forall p, q :: p in queues && q in queues && p != q ==> p.messages != q.messages
  }

  ghost predicate MutexesHold(mutexes: map<Mutex, MutexV>)
    reads mutexes.Keys`owner, mutexes.Keys`level
  {
    forall m :: m in mutexes ==> MutexHolds(m, mutexes[m])
  }

  ghost predicate RingsHold(queues: map<Queue, QueueV>, rings: set<array<Word>>)
    requires OwnRings(queues.Keys, rings)
    reads rings, queues.Keys`number, queues.Keys`first, queues.Keys`last, queues.Keys`status
  {
    forall q :: q in queues ==> QueueHolds(q, queues[q])
  }

  ghost predicate RwLocksHold(rwlocks: map<RwLock, RwLockV>)
    reads rwlocks.Keys`readers, rwlocks.Keys`writers, rwlocks.Keys`writer
  {
    forall r :: r in rwlocks ==> RwLockHolds(r, rwlocks[r])
  }

  /** What the scheduler works on: the globals, the tasks, both queues and the blocked lists. */
  ghost predicate Core(k: Globals, v: View)
    reads k, v.tasks, k.cells
  {
    && Known(v) && OwnCells(v.objs, k.cells)
    && k.running == v.running && k.scheduled == v.scheduled && k.idle == v.idle
    && QueuesHold(k.runqueue, k.waitqueue, v.rq, v.wq, v.tasks)
    && TasksHold(v.t)
    && ListsHold(v.lists, v.t, k.cells)
  }

  /** What the calls on objects work on besides. */
  ghost predicate ObjectsHold(k: Globals, v: View)
    reads k.rings, v.mutexes.Keys, v.queues.Keys, v.rwlocks.Keys
  {
    OwnRings(v.queues.Keys, k.rings) && MutexesHold(v.mutexes) && RingsHold(v.queues, k.rings) && RwLocksHold(v.rwlocks)
  }

  /** The heap holds the view: all of it. */
  ghost predicate Rep(k: Globals, v: View)
    reads k, v.tasks, k.cells, k.rings, v.mutexes.Keys, v.queues.Keys, v.rwlocks.Keys
  {
    Core(k, v) && ObjectsHold(k, v)
  }

  lemma RepCore(k: Globals, v: View)
    requires Rep(k, v)
    ensures Core(k, v) && ObjectsHold(k, v)
  {
  }
}
