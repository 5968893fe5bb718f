/** The data of the kernel: the structures of types.h as classes, and the value that the
    proofs reason about. A `View` is a snapshot of everything the kernel keeps: both
    intrusive queues and every blocked list as sequences, one record per task, one per object. */
module Types {

  const UINT32_MAX: nat := 0xFFFF_FFFF
  const UINT16_LIMIT: nat := 0x1_0000

  const OSS_SUCCESS: nat := 0
  const OSS_ERROR: nat := 1
  const OSS_ERROR_TO: nat := 2
  const OSS_ERROR_MEM: nat := 3

  const FLAG_NONE: bv32 := 0
  const FLAG_MUTEX: bv32 := 1
  const FLAG_QUEUE: bv32 := 2
  const FLAG_RWLOCK: bv32 := 4

  const DESIRED_NONE: nat := 0
  const DESIRED_READ: nat := 1
  const DESIRED_WRITE: nat := 2

  const PRIORITY_IDLE: nat := 0

  /** A machine word: a message pointer, or the desired mode of a reader/writer wait. */
  type Word = nat

  datatype Status = Idle | Active | Wait | Suspended | Finished | Panic | Aborted

  predicate Runnable(s: Status) {
    s.Idle? || s.Active?
  }

  datatype QueueStatus = Fine | BlockedSend | BlockedReceive

  /** The first two registers of a task's stacked return (os_tuple_t). */
  datatype Ret = Ret(status: nat, value: Word)

  // ---------------------------------------------------------------- the heap

  class Task {
    var status: Status
    var priority: nat
    var nrp: Task?
    var nblocked: Task?
    var queue: Queue?
    var mutex: Mutex?
    var rwlock: RwLock?
    var c: Word
    var delay: nat
    var flags: bv32
    var ret: Ret
  }

  /** os_blocked_t: the head of an intrusive list threaded through `nblocked`. */
  class Blocked {
    var tasks: Task?
  }

  class Mutex {
    const blocked: Blocked
    var owner: Task?
    var level: nat

    constructor ()
      ensures fresh(blocked) && blocked.tasks == null
      ensures owner == null && level == 0
    {
      blocked := new Blocked;
      owner, level := null, 0;
      new;
      blocked.tasks := null;
    }
  }

  class Queue {
    const blocked: Blocked
    const size: nat
    const messages: array<Word>
    var number: nat
    var first: nat
    var last: nat
    var status: QueueStatus

    /** osi_queue_create for a definition with flags NONE. */
    constructor (size: nat)
      ensures fresh(blocked) && blocked.tasks == null
      ensures this.size == size && messages.Length == size && fresh(messages)
      ensures number == first == last == 0 && status == Fine
      ensures forall i :: 0 <= i < size ==> messages[i] == 0
    {
      blocked := new Blocked;
      this.size := size;
      messages := new Word[size](_ => 0);
      number, first, last, status := 0, 0, 0, Fine;
      new;
      blocked.tasks := null;
    }
  }

  class RwLock {
    const blocked: Blocked
    var readers: nat
    var writers: nat
    var writer: Task?

    constructor ()
      ensures fresh(blocked) && blocked.tasks == null
      ensures readers == writers == 0 && writer == null
    {
      blocked := new Blocked;
      readers, writers, writer := 0, 0, null;
      new;
      blocked.tasks := null;
    }
  }

  // --------------------------------------------------------------- snapshots

  /** The object a task is waiting on: which of its three back pointers is set. */
  datatype Obj = NoObj | OnMutex(m: Mutex) | OnQueue(q: Queue) | OnRwLock(r: RwLock)

  function FlagOf(o: Obj): bv32 {
    match o
    case NoObj => FLAG_NONE
    case OnMutex(_) => FLAG_MUTEX
    case OnQueue(_) => FLAG_QUEUE
    case OnRwLock(_) => FLAG_RWLOCK
  }

  /** The blocking call a task is in; history only, the code does not store it. */
  datatype Call = NoCall | Lock | Send | Receive | Read | Write

  datatype TaskV = TaskV(
    status: Status, priority: nat, delay: nat, flags: bv32,
    back: Obj, c: Word, ret: Ret, call: Call)

  /** `balance` is history: successful acquires minus releases, task by task. */
  datatype MutexV = MutexV(owner: Task?, level: nat, balance: map<Task, int>)

  /** `sent` and `got` are history: the messages offered and not withdrawn by a timeout,
      and the messages handed to receivers. */
  datatype QueueV = QueueV(
    size: nat, messages: seq<Word>, number: nat, first: nat, last: nat, status: QueueStatus,
    sent: seq<Word>, got: seq<Word>)

  /** `holds` is history: one entry for every read hold not yet released. */
  datatype RwLockV = RwLockV(readers: nat, writers: nat, writer: Task?, holds: multiset<Task>)

  /** `tasks` and `objs` never change: every task and every object there is. */
  datatype View = View(
    tasks: set<Task>, objs: set<Obj>,
    running: Task, scheduled: Task?, idle: Task,
    rq: seq<Task>, wq: seq<Task>,
    t: map<Task, TaskV>,
    lists: map<Obj, seq<Task>>,
    mutexes: map<Mutex, MutexV>, queues: map<Queue, QueueV>, rwlocks: map<RwLock, RwLockV>)
}
