/**
 _KeyedLockRegistry of src/chattice/transports/pubsub_runner.py: fair per-key locks that are
 made on demand and thrown away when idle, with waiters that may be cancelled at any await.

 The lock objects are asyncio.Lock as CPython implements it: a flag and a FIFO queue of
 futures; release wakes the first future if it is still pending, and a woken waiter takes the
 lock only when it runs again. Objects live in a heap of their own, because what matters is
 which object a waiter sleeps on when the registry replaces the one it hands out.
 */
module KeyedLocks {
  import opened Options

  type Key = string

  /** A lock object: the key it was made for and its number among those. */
  datatype LockId = LockId(key: Key, serial: nat)

  /** The waiter's future: pending, given a result by a release, or cancelled. */
  datatype Status = Pending | Woken | Dead

  datatype Ticket = Ticket(task: nat, status: Status)

  datatype Lock = Lock(locked: bool, queue: seq<Ticket>)

  // ------------------------------------------------------------------ asyncio.Lock

  predicate AllDead(queue: seq<Ticket>) {
    forall i | 0 <= i < |queue| :: queue[i].status == Dead
  }

  /** Lock.acquire up to its await: take a free lock nobody waits for, or queue. */
  function Enter(lock: Lock, task: nat): Lock {
    if !lock.locked && AllDead(lock.queue) then lock.(locked := true)
    else lock.(queue := lock.queue + [Ticket(task, Pending)])
  }

  function WakeFirst(lock: Lock): Lock {
    if lock.queue != [] && lock.queue[0].status == Pending then
      lock.(queue := lock.queue[0 := lock.queue[0].(status := Woken)])
    else lock
  }

  function Position(queue: seq<Ticket>, task: nat): (i: nat)
    ensures i <= |queue|
    ensures i < |queue| ==> queue[i].task == task
    ensures forall j | 0 <= j < i :: queue[j].task != task
  {
    if queue == [] || queue[0].task == task then 0 else 1 + Position(queue[1..], task)
  }

  function Without(queue: seq<Ticket>, task: nat): seq<Ticket> {
    var i := Position(queue, task);
    if i < |queue| then queue[..i] + queue[i + 1..] else queue
  }

  /** Lock.acquire after its await returned. */
  function TakeOver(lock: Lock, task: nat): Lock {
    Lock(true, Without(lock.queue, task))
  }

  /** Lock.acquire after its await was cancelled: leave, and pass a wake-up on. */
  function Leave(lock: Lock, task: nat): Lock {
    var left := lock.(queue := Without(lock.queue, task));
    if left.locked then left else WakeFirst(left)
  }

  /** Lock.release of a locked lock. */
  function Unlock(lock: Lock): Lock {
    WakeFirst(lock.(locked := false))
  }

  /** Cancelling the task of a pending waiter cancels its future at once. */
  function Kill(lock: Lock, task: nat): Lock {
    var i := Position(lock.queue, task);
    if i < |lock.queue| && lock.queue[i].status == Pending then
      lock.(queue := lock.queue[i := Ticket(task, Dead)])
    else lock
  }

  // ------------------------------------------------------------------ the registry

  datatype Registry = Registry(
    locks: map<Key, LockId>, waiters: map<Key, nat>, heap: map<LockId, Lock>, serials: map<Key, nat>)

  function Serial(r: Registry, key: Key): nat {
    if key in r.serials then r.serials[key] else 0
  }

  function Count(r: Registry, key: Key): nat {
    if key in r.waiters then r.waiters[key] else 0
  }

  /** The registry with a lock object for key, made if missing. */
  function Provided(r: Registry, key: Key): Registry {
    if key in r.locks then r else
      var id := LockId(key, Serial(r, key));
      r.(locks := r.locks[key := id], heap := r.heap[id := Lock(false, [])],
        serials := r.serials[key := Serial(r, key) + 1])
  }

  function Dropped(r: Registry, key: Key): Registry {
    r.(waiters := if Count(r, key) <= 1 then r.waiters - {key} else r.waiters[key := Count(r, key) - 1])
  }

  function LockOf(r: Registry, id: LockId): Lock {
    if id in r.heap then r.heap[id] else Lock(false, [])
  }

  function Begun(r: Registry, key: Key, task: nat): Registry {
    var p := Provided(r, key);
    var id := p.locks[key];
    p.(waiters := p.waiters[key := Count(p, key) + 1], heap := p.heap[id := Enter(LockOf(p, id), task)])
  }

  function Granted(r: Registry, id: LockId, task: nat): Registry {
    r.(heap := r.heap[id := TakeOver(LockOf(r, id), task)])
  }

  function Abandoned(r: Registry, key: Key, id: LockId, task: nat): Registry {
    Dropped(r.(heap := r.heap[id := Leave(LockOf(r, id), task)]), key)
  }

  /** None: release raises, because the registry has no lock for key or it is not locked. */
  function Released(r: Registry, key: Key): Option<Registry> {
    var d := Dropped(r, key);
    if key !in d.locks || !LockOf(d, d.locks[key]).locked then None
    else
      var id := d.locks[key];
      var u := d.(heap := d.heap[id := Unlock(LockOf(d, id))]);
      Some(if Count(u, key) == 0 then u.(locks := u.locks - {key}) else u)
  }

  /** The class, one method per piece of code between awaits. */
  class KeyedLockRegistry {
    var locks: map<Key, LockId>
    var waiters: map<Key, nat>
    var heap: map<LockId, Lock>
    var serials: map<Key, nat>

    ghost function View(): Registry
      reads this
    {
      Registry(locks, waiters, heap, serials)
    }

    constructor ()
      ensures View() == Registry(map[], map[], map[], map[])
    {
      locks, waiters, heap, serials := map[], map[], map[], map[];
    }

    method DropWaiter(key: Key)
      modifies this
      ensures View() == Dropped(old(View()), key)
    {
      var remaining: int := (if key in waiters then waiters[key] else 0) as int - 1;
      if remaining <= 0 {
        waiters := waiters - {key};
      } else {
        waiters := waiters[key := remaining];
      }
    }

    /** acquire, up to the await of the lock; granted: it did not have to wait. */
    method BeginAcquire(key: Key, task: nat) returns (id: LockId, granted: bool)
      modifies this
      ensures View() == Begun(old(View()), key, task)
      ensures id == Provided(old(View()), key).locks[key]
      ensures
        var lock := LockOf(Provided(old(View()), key), id);
        granted <==> !lock.locked && AllDead(lock.queue)
    {
      if key !in locks {
        var serial := if key in serials then serials[key] else 0;
        locks := locks[key := LockId(key, serial)];
        heap := heap[LockId(key, serial) := Lock(false, [])];
        serials := serials[key := serial + 1];
      }
      id := locks[key];
      waiters := waiters[key := (if key in waiters then waiters[key] else 0) + 1];
      var lock := if id in heap then heap[id] else Lock(false, []);
      granted := !lock.locked && AllDead(lock.queue);
      heap := heap[id := Enter(lock, task)];
    }

    method FinishAcquire(id: LockId, task: nat)
      modifies this
      ensures View() == Granted(old(View()), id, task)
    {
      heap := heap[id := TakeOver(if id in heap then heap[id] else Lock(false, []), task)];
    }

    method AbortAcquire(key: Key, id: LockId, task: nat)
      modifies this
      ensures View() == Abandoned(old(View()), key, id, task)
    {
      heap := heap[id := Leave(if id in heap then heap[id] else Lock(false, []), task)];
      DropWaiter(key);
    }

    method Release(key: Key) returns (raised: bool)
      modifies this
      ensures raised <==> Released(old(View()), key) == None
      ensures !raised ==> View() == Released(old(View()), key).value
    {
      DropWaiter(key);
      if key !in locks { return true; }
      var id := locks[key];
      var lock := if id in heap then heap[id] else Lock(false, []);
      if !lock.locked { return true; }
      heap := heap[id := Unlock(lock)];
      if (if key in waiters then waiters[key] else 0) == 0 {
        locks := locks - {key};
      }
      return false;
    }
  }

  // ------------------------------------------------------------------ tasks

  /** Every task acquires, works and releases, as the card update of _answer does. cancelled:
      its cancellation was requested while it waited. */
  datatype Task =
    | Waiting(key: Key, id: LockId, cancelled: bool)
    | Holding(key: Key, id: LockId)
    | Broken(key: Key, id: LockId)

  datatype World = World(reg: Registry, tasks: map<nat, Task>)

  datatype Action =
    | Begin(task: nat, key: Key)
    | Run(task: nat)
    | Cancel(task: nat)
    | Finish(task: nat)

  function Init(): World {
    World(Registry(map[], map[], map[], map[]), map[])
  }

  function StatusOf(r: Registry, id: LockId, task: nat): Status {
    var queue := LockOf(r, id).queue;
    var i := Position(queue, task);
    if i < |queue| then queue[i].status else Pending
  }

  predicate Enabled(w: World, act: Action) {
    match act
    case Begin(task, _) => task !in w.tasks
    case Run(task) =>
      task in w.tasks && w.tasks[task].Waiting?
      && (w.tasks[task].cancelled || StatusOf(w.reg, w.tasks[task].id, task) == Woken)
    case Cancel(task) => task in w.tasks && w.tasks[task].Waiting?
    case Finish(task) => task in w.tasks && w.tasks[task].Holding?
  }

  function Do(w: World, act: Action): World {
    if !Enabled(w, act) then w else
      match act
      case Begin(task, key) =>
        var before, r := LockOf(Provided(w.reg, key), Provided(w.reg, key).locks[key]), Begun(w.reg, key, task);
        var id := r.locks[key];
        var at := if Enter(before, task).queue == before.queue then Holding(key, id) else Waiting(key, id, false);
        World(r, w.tasks[task := at])
      case Run(task) =>
        var t := w.tasks[task];
        if t.cancelled then World(Abandoned(w.reg, t.key, t.id, task), w.tasks - {task})
        else World(Granted(w.reg, t.id, task), w.tasks[task := Holding(t.key, t.id)])
      case Cancel(task) =>
        var t := w.tasks[task];
        var heap := w.reg.heap[t.id := Kill(LockOf(w.reg, t.id), task)];
        World(w.reg.(heap := heap), w.tasks[task := t.(cancelled := true)])
      case Finish(task) =>
        var t := w.tasks[task];
        match Released(w.reg, t.key)
        case Some(r) => World(r, w.tasks - {task})
        case None => World(Dropped(w.reg, t.key), w.tasks[task := Broken(t.key, t.id)])
  }

  function After(acts: seq<Action>): World {
    if acts == [] then Init() else Do(After(acts[..|acts| - 1]), acts[|acts| - 1])
  }

  // ------------------------------------------------------------------ the invariant

  function TasksOn(tasks: map<nat, Task>, key: Key): set<nat> {
    set t | t in tasks && tasks[t].key == key
  }

  predicate Holds(tasks: map<nat, Task>, t: nat, key: Key) {
    t in tasks && tasks[t].Holding? && tasks[t].key == key
  }

  /** The queue of a lock, against the tasks that wait for its key. */
  predicate QueueInv(tasks: map<nat, Task>, key: Key, queue: seq<Ticket>) {
    && (forall i | 0 <= i < |queue| ::
          && queue[i].task in tasks && tasks[queue[i].task].Waiting? && tasks[queue[i].task].key == key
          && (queue[i].status == Pending ==> !tasks[queue[i].task].cancelled)
          && (queue[i].status == Dead ==> tasks[queue[i].task].cancelled))
    && (forall i, j | 0 <= i < j < |queue| :: queue[i].task != queue[j].task)
    && (forall t | t in tasks && tasks[t].key == key && tasks[t].Waiting? :: Position(queue, t) < |queue|)
  }

  /** Only the first waiter is ever woken, only while the lock is free; and a free lock with
      waiters has a first waiter that is about to run. */
  predicate WakeInv(lock: Lock) {
    && (forall i | 0 <= i < |lock.queue| && lock.queue[i].status == Woken :: i == 0 && !lock.locked)
    && (!lock.locked && lock.queue != [] ==> lock.queue[0].status != Pending)
  }

  /** A lock object against the tasks of its key: one holder at most, locked exactly when there
      is one, and the queue in order. */
  ghost predicate LockInv(tasks: map<nat, Task>, key: Key, lock: Lock) {
    && (forall t, u | Holds(tasks, t, key) && Holds(tasks, u, key) :: t == u)
    && (lock.locked <==> exists t :: Holds(tasks, t, key))
    && QueueInv(tasks, key, lock.queue)
    && WakeInv(lock)
  }

  ghost predicate KeyInv(w: World, key: Key) {
    && Count(w.reg, key) == |TasksOn(w.tasks, key)|
    && (key in w.reg.waiters ==> w.reg.waiters[key] > 0)
    && (key !in w.reg.locks ==> TasksOn(w.tasks, key) == {})
    && (key in w.reg.locks ==>
          var id := w.reg.locks[key];
          && id.key == key && id in w.reg.heap && id.serial < Serial(w.reg, key)
          && (forall t | t in TasksOn(w.tasks, key) :: w.tasks[t].id == id && !w.tasks[t].Broken?)
          && LockInv(w.tasks, key, LockOf(w.reg, id)))
  }

  ghost predicate Inv(w: World) {
    forall key :: KeyInv(w, key)
  }

  /** w and v differ at key only. */
  ghost predicate SameElsewhere(w: World, v: World, key: Key) {
    && (forall k | k != key ::
          (k in v.reg.locks <==> k in w.reg.locks) && (k in w.reg.locks ==> v.reg.locks[k] == w.reg.locks[k]))
    && (forall k | k != key :: Count(v.reg, k) == Count(w.reg, k) && (k in v.reg.waiters <==> k in w.reg.waiters))
    && (forall k | k != key :: Serial(v.reg, k) == Serial(w.reg, k))
    && (forall id: LockId | id.key != key ::
          LockOf(v.reg, id) == LockOf(w.reg, id) && (id in w.reg.heap ==> id in v.reg.heap))
    && (forall t | t in w.tasks && w.tasks[t].key != key :: t in v.tasks && v.tasks[t] == w.tasks[t])
    && (forall t | t in v.tasks && v.tasks[t].key != key :: t in w.tasks && v.tasks[t] == w.tasks[t])
  }

  /** A step on one key leaves the others alone. */
  lemma OtherKeys(w: World, v: World, key: Key, other: Key)
    requires KeyInv(w, other) && other != key && SameElsewhere(w, v, key)
    ensures KeyInv(v, other)
  {
    assert TasksOn(v.tasks, other) == TasksOn(w.tasks, other);
    if other in w.reg.waiters {
      assert v.reg.waiters[other] == Count(v.reg, other);
    }
    if other in w.reg.locks {
      assert forall t :: Holds(v.tasks, t, other) <==> Holds(w.tasks, t, other);
    }
  }

  // ------------------------------------------------------------------ preservation

  lemma TasksOnSizes(tasks: map<nat, Task>, task: nat, t: Task, key: Key)
    ensures task !in tasks && t.key == key ==> |TasksOn(tasks[task := t], key)| == |TasksOn(tasks, key)| + 1
    ensures task in tasks && tasks[task].key == t.key == key ==> TasksOn(tasks[task := t], key) == TasksOn(tasks, key)
    ensures task in tasks && tasks[task].key == key ==> |TasksOn(tasks - {task}, key)| == |TasksOn(tasks, key)| - 1
  {
    if task !in tasks && t.key == key {
      TaskAdded(tasks, task, t, key);
    }
    if task in tasks && tasks[task].key == key {
      TaskRemoved(tasks, task, key);
    }
  }

  lemma TaskAdded(tasks: map<nat, Task>, task: nat, t: Task, key: Key)
    requires task !in tasks && t.key == key
    ensures |TasksOn(tasks[task := t], key)| == |TasksOn(tasks, key)| + 1
  {
    assert TasksOn(tasks[task := t], key) == TasksOn(tasks, key) + {task};
  }

  lemma TaskRemoved(tasks: map<nat, Task>, task: nat, key: Key)
    requires task in tasks && tasks[task].key == key
    ensures |TasksOn(tasks - {task}, key)| == |TasksOn(tasks, key)| - 1
  {
    assert TasksOn(tasks - {task}, key) == TasksOn(tasks, key) - {task};
  }

  /** after differs from tasks at task only. */
  predicate Only(tasks: map<nat, Task>, after: map<nat, Task>, task: nat) {
    && (forall t | t in tasks && t != task :: t in after && after[t] == tasks[t])
    && (forall t | t in after && t != task :: t in tasks)
  }

  lemma Found(queue: seq<Ticket>, i: nat, task: nat)
    requires i < |queue| && queue[i].task == task
    ensures Position(queue, task) <= i
  {
  }

  lemma CutAt(queue: seq<Ticket>, i: nat, left: seq<Ticket>)
    requires i < |queue| && left == queue[..i] + queue[i + 1..]
    ensures |left| == |queue| - 1
    ensures forall j | 0 <= j < |left| :: left[j] == queue[if j < i then j else j + 1]
  {
  }

  lemma WithoutAt(queue: seq<Ticket>, task: nat)
    requires Position(queue, task) < |queue|
    ensures |Without(queue, task)| == |queue| - 1
    ensures forall j | 0 <= j < |queue| - 1 ::
      Without(queue, task)[j] == queue[if j < Position(queue, task) then j else j + 1]
  {
    var i := Position(queue, task);
    CutAt(queue, i, Without(queue, task));
  }

  lemma WithoutKeepsDistinct(queue: seq<Ticket>, task: nat)
    requires Position(queue, task) < |queue|
    requires forall i, j | 0 <= i < j < |queue| :: queue[i].task != queue[j].task
    ensures var left := Without(queue, task);
      && (forall i, j | 0 <= i < j < |left| :: left[i].task != left[j].task)
      && (forall j | 0 <= j < |left| :: left[j] in queue && left[j].task != task)
  {
    WithoutAt(queue, task);
  }

  /** Taking one waiter's ticket out of the queue. */
  lemma WithoutKeepsQueue(tasks: map<nat, Task>, after: map<nat, Task>, key: Key, queue: seq<Ticket>, task: nat)
    requires QueueInv(tasks, key, queue) && Only(tasks, after, task)
    requires task in tasks && tasks[task].Waiting? && tasks[task].key == key
    requires task in after ==> !after[task].Waiting?
    ensures QueueInv(after, key, Without(queue, task))
  {
    var left := Without(queue, task);
    WithoutKeepsDistinct(queue, task);
    forall j | 0 <= j < |left|
      ensures left[j].task in after && after[left[j].task] == tasks[left[j].task]
    {
    }
    forall t | t in after && after[t].key == key && after[t].Waiting? ensures Position(left, t) < |left| {
      WithoutFinds(queue, task, t);
    }
  }

  /** The other waiters are still found. */
  lemma WithoutFinds(queue: seq<Ticket>, task: nat, t: nat)
    requires Position(queue, task) < |queue| && Position(queue, t) < |queue| && t != task
    ensures Position(Without(queue, task), t) < |Without(queue, task)|
  {
    var i, j := Position(queue, task), Position(queue, t);
    WithoutAt(queue, task);
    Found(Without(queue, task), if j < i then j else j - 1, t);
  }

  lemma SameTicketsFound(tasks: map<nat, Task>, key: Key, queue: seq<Ticket>, other: seq<Ticket>)
    requires forall t | t in tasks && tasks[t].key == key && tasks[t].Waiting? :: Position(queue, t) < |queue|
    requires |other| == |queue| && forall j | 0 <= j < |queue| :: other[j].task == queue[j].task
    ensures forall t | t in tasks && tasks[t].key == key && tasks[t].Waiting? :: Position(other, t) < |other|
  {
    forall t | t in tasks && tasks[t].key == key && tasks[t].Waiting? ensures Position(other, t) < |other| {
      Found(other, Position(queue, t), t);
    }
  }

  lemma WakingKeepsQueue(tasks: map<nat, Task>, key: Key, lock: Lock)
    requires QueueInv(tasks, key, lock.queue)
    ensures QueueInv(tasks, key, WakeFirst(lock).queue)
  {
    SameTicketsFound(tasks, key, lock.queue, WakeFirst(lock).queue);
  }

  lemma HoldersKeepQueue(tasks: map<nat, Task>, after: map<nat, Task>, key: Key, queue: seq<Ticket>, task: nat)
    requires QueueInv(tasks, key, queue) && Only(tasks, after, task)
    requires task in tasks ==> !tasks[task].Waiting?
    requires task in after ==> !after[task].Waiting?
    ensures QueueInv(after, key, queue)
  {
  }

  // One lemma per thing that happens to a lock object.

  lemma EnterKeepsLock(tasks: map<nat, Task>, key: Key, lock: Lock, task: nat, id: LockId)
    requires LockInv(tasks, key, lock) && task !in tasks
    ensures
      var entered := Enter(lock, task);
      var at := if entered.queue == lock.queue then Holding(key, id) else Waiting(key, id, false);
      LockInv(tasks[task := at], key, entered)
  {
    var entered := Enter(lock, task);
    if !lock.locked && AllDead(lock.queue) {
      var after := tasks[task := Holding(key, id)];
      HoldersKeepQueue(tasks, after, key, lock.queue, task);
      assert Holds(after, task, key);
      forall t | Holds(after, t, key) ensures t == task {
        assert t != task ==> Holds(tasks, t, key);
      }
    } else {
      var after := tasks[task := Waiting(key, id, false)];
      QueuingKeepsQueue(tasks, key, lock.queue, task, id);
      assert |entered.queue| == |lock.queue| + 1;
      assert forall t :: Holds(after, t, key) <==> Holds(tasks, t, key);
    }
  }

  lemma QueuingKeepsQueue(tasks: map<nat, Task>, key: Key, queue: seq<Ticket>, task: nat, id: LockId)
    requires QueueInv(tasks, key, queue) && task !in tasks
    ensures QueueInv(tasks[task := Waiting(key, id, false)], key, queue + [Ticket(task, Pending)])
  {
    var after, longer := tasks[task := Waiting(key, id, false)], queue + [Ticket(task, Pending)];
    forall t | t in after && after[t].key == key && after[t].Waiting? ensures Position(longer, t) < |longer| {
      Found(longer, if t == task then |queue| else Position(queue, t), t);
    }
  }

  lemma TakeOverKeepsWakeups(lock: Lock, task: nat)
    requires WakeInv(lock) && Position(lock.queue, task) < |lock.queue|
    requires lock.queue[Position(lock.queue, task)].status == Woken
    ensures WakeInv(TakeOver(lock, task)) && !lock.locked
  {
    assert Without(lock.queue, task) == lock.queue[1..];
  }

  lemma TakeOverKeepsLock(tasks: map<nat, Task>, key: Key, lock: Lock, task: nat, id: LockId)
    requires LockInv(tasks, key, lock) && task in tasks && tasks[task].Waiting? && tasks[task].key == key
    requires lock.queue[Position(lock.queue, task)].status == Woken
    ensures LockInv(tasks[task := Holding(key, id)], key, TakeOver(lock, task))
  {
    var after := tasks[task := Holding(key, id)];
    WithoutKeepsQueue(tasks, after, key, lock.queue, task);
    TakeOverKeepsWakeups(lock, task);
    assert Holds(after, task, key);
    forall t | Holds(after, t, key) ensures t == task {
      assert t != task ==> Holds(tasks, t, key);
    }
  }

  lemma LeaveKeepsWakeups(lock: Lock, task: nat)
    requires WakeInv(lock)
    ensures WakeInv(Leave(lock, task))
  {
    var i, left := Position(lock.queue, task), Without(lock.queue, task);
    assert i < |lock.queue| ==>
      forall j | 0 <= j < |left| :: left[j] == if j < i then lock.queue[j] else lock.queue[j + 1];
  }

  lemma LeaveKeepsLock(tasks: map<nat, Task>, key: Key, lock: Lock, task: nat)
    requires LockInv(tasks, key, lock) && task in tasks && tasks[task].Waiting? && tasks[task].key == key
    ensures LockInv(tasks - {task}, key, Leave(lock, task))
  {
    var after := tasks - {task};
    var left := lock.(queue := Without(lock.queue, task));
    WithoutKeepsQueue(tasks, after, key, lock.queue, task);
    WakingKeepsQueue(after, key, left);
    LeaveKeepsWakeups(lock, task);
    assert forall t :: Holds(after, t, key) <==> Holds(tasks, t, key);
  }

  lemma KillKeepsQueue(tasks: map<nat, Task>, key: Key, lock: Lock, task: nat)
    requires QueueInv(tasks, key, lock.queue) && task in tasks && tasks[task].Waiting? && tasks[task].key == key
    ensures QueueInv(tasks[task := tasks[task].(cancelled := true)], key, Kill(lock, task).queue)
  {
    var after, killed := tasks[task := tasks[task].(cancelled := true)], Kill(lock, task).queue;
    var queue, at := lock.queue, Position(lock.queue, task);
    KillChanges(lock, task);
    forall i | 0 <= i < |killed|
      ensures killed[i].task in after && after[killed[i].task].Waiting? && after[killed[i].task].key == key
      ensures killed[i].status == Pending ==> !after[killed[i].task].cancelled
      ensures killed[i].status == Dead ==> after[killed[i].task].cancelled
    {
      assert killed[i].task == queue[i].task;
      if i != at { assert killed[i] == queue[i] && queue[i].task != task; }
    }
    forall i, j | 0 <= i < j < |killed| ensures killed[i].task != killed[j].task {
      assert killed[i].task == queue[i].task && killed[j].task == queue[j].task;
    }
    SameTicketsFound(after, key, queue, killed);
  }

  lemma KillChanges(lock: Lock, task: nat)
    requires Position(lock.queue, task) < |lock.queue|
    ensures
      var killed, i := Kill(lock, task).queue, Position(lock.queue, task);
      && |killed| == |lock.queue| && (forall j | 0 <= j < |killed| :: killed[j].task == lock.queue[j].task)
      && (forall j | 0 <= j < |killed| && j != i :: killed[j] == lock.queue[j])
      && killed[i].status != Pending && (killed[i].status == Woken ==> killed[i] == lock.queue[i])
  {
  }

  lemma KillKeepsLock(tasks: map<nat, Task>, key: Key, lock: Lock, task: nat)
    requires LockInv(tasks, key, lock) && task in tasks && tasks[task].Waiting? && tasks[task].key == key
    ensures LockInv(tasks[task := tasks[task].(cancelled := true)], key, Kill(lock, task))
  {
    var after := tasks[task := tasks[task].(cancelled := true)];
    KillKeepsQueue(tasks, key, lock, task);
    assert forall t :: Holds(after, t, key) <==> Holds(tasks, t, key);
  }

  lemma UnlockKeepsLock(tasks: map<nat, Task>, key: Key, lock: Lock, task: nat)
    requires LockInv(tasks, key, lock) && Holds(tasks, task, key)
    ensures LockInv(tasks - {task}, key, Unlock(lock)) && lock.locked
  {
    var after := tasks - {task};
    HoldersKeepQueue(tasks, after, key, lock.queue, task);
    WakingKeepsQueue(after, key, lock.(locked := false));
    forall t ensures !Holds(after, t, key) {
      assert Holds(after, t, key) ==> Holds(tasks, t, key);
    }
  }

  // One lemma per action.

  lemma ProvidingKeepsKey(w: World, key: Key)
    requires KeyInv(w, key)
    ensures var p := World(Provided(w.reg, key), w.tasks); KeyInv(p, key) && key in p.reg.locks
  {
    if key !in w.reg.locks {
      assert forall t :: Holds(w.tasks, t, key) ==> t in TasksOn(w.tasks, key);
      assert forall t | t in w.tasks && w.tasks[t].key == key :: t in TasksOn(w.tasks, key);
    }
  }

  lemma BeginKeepsKey(w: World, task: nat, key: Key)
    requires KeyInv(w, key) && task !in w.tasks && key in w.reg.locks
    ensures KeyInv(Do(w, Begin(task, key)), key)
  {
    var v := Do(w, Begin(task, key));
    var id := w.reg.locks[key];
    TasksOnSizes(w.tasks, task, v.tasks[task], key);
    EnterKeepsLock(w.tasks, key, LockOf(w.reg, id), task, id);
    assert LockOf(v.reg, id) == Enter(LockOf(w.reg, id), task);
  }

  lemma RunKeepsKey(w: World, task: nat)
    requires Enabled(w, Run(task)) && KeyInv(w, w.tasks[task].key)
    ensures KeyInv(Do(w, Run(task)), w.tasks[task].key)
  {
    var v, t := Do(w, Run(task)), w.tasks[task];
    var lock := LockOf(w.reg, t.id);
    assert task in TasksOn(w.tasks, t.key);
    if t.cancelled {
      TasksOnSizes(w.tasks, task, t, t.key);
      LeaveKeepsLock(w.tasks, t.key, lock, task);
      assert LockOf(v.reg, t.id) == Leave(lock, task);
    } else {
      TasksOnSizes(w.tasks, task, v.tasks[task], t.key);
      TakeOverKeepsLock(w.tasks, t.key, lock, task, t.id);
      assert LockOf(v.reg, t.id) == TakeOver(lock, task);
    }
  }

  lemma CancelKeepsKey(w: World, task: nat)
    requires Enabled(w, Cancel(task)) && KeyInv(w, w.tasks[task].key)
    ensures KeyInv(Do(w, Cancel(task)), w.tasks[task].key)
  {
    var v, t := Do(w, Cancel(task)), w.tasks[task];
    assert task in TasksOn(w.tasks, t.key);
    TasksOnSizes(w.tasks, task, v.tasks[task], t.key);
    KillKeepsLock(w.tasks, t.key, LockOf(w.reg, t.id), task);
    assert LockOf(v.reg, t.id) == Kill(LockOf(w.reg, t.id), task);
  }

  /** release finds its lock, and finds it locked. */
  lemma ReleaseSucceeds(w: World, task: nat)
    requires Enabled(w, Finish(task)) && KeyInv(w, w.tasks[task].key)
    ensures Released(w.reg, w.tasks[task].key).Some?
  {
    assert task in TasksOn(w.tasks, w.tasks[task].key);
    assert Holds(w.tasks, task, w.tasks[task].key);
  }

  lemma FinishKeepsKey(w: World, task: nat)
    requires Enabled(w, Finish(task)) && KeyInv(w, w.tasks[task].key)
    ensures KeyInv(Do(w, Finish(task)), w.tasks[task].key)
  {
    ReleaseSucceeds(w, task);
    var v, t := Do(w, Finish(task)), w.tasks[task];
    assert task in TasksOn(w.tasks, t.key) && Holds(w.tasks, task, t.key);
    TasksOnSizes(w.tasks, task, t, t.key);
    UnlockKeepsLock(w.tasks, t.key, LockOf(w.reg, t.id), task);
    assert LockOf(v.reg, t.id) == Unlock(LockOf(w.reg, t.id));
  }

  function KeyOf(w: World, act: Action): Key
    requires Enabled(w, act)
  {
    if act.Begin? then act.key else w.tasks[act.task].key
  }

  lemma OwnKeyKept(w: World, act: Action)
    requires Enabled(w, act) && KeyInv(w, KeyOf(w, act))
    ensures KeyInv(Do(w, act), KeyOf(w, act))
  {
    match act {
      case Begin(task, key) =>
        ProvidingKeepsKey(w, key);
        var p := World(Provided(w.reg, key), w.tasks);
        BeginKeepsKey(p, task, key);
        assert Do(p, act) == Do(w, act);
      case Run(task) => RunKeepsKey(w, task);
      case Cancel(task) => CancelKeepsKey(w, task);
      case Finish(task) => FinishKeepsKey(w, task);
    }
  }

  lemma GivingUpIsLocal(w: World, task: nat)
    requires task in w.tasks && w.tasks[task].id.key == w.tasks[task].key
    ensures var t := w.tasks[task];
      SameElsewhere(w, World(Abandoned(w.reg, t.key, t.id, task), w.tasks - {task}), t.key)
  {
  }

  lemma GrantIsLocal(w: World, task: nat)
    requires task in w.tasks && w.tasks[task].id.key == w.tasks[task].key
    ensures var t := w.tasks[task];
      SameElsewhere(w, World(Granted(w.reg, t.id, task), w.tasks[task := Holding(t.key, t.id)]), t.key)
  {
  }

  lemma RunIsLocal(w: World, task: nat)
    requires Enabled(w, Run(task)) && KeyInv(w, w.tasks[task].key)
    ensures SameElsewhere(w, Do(w, Run(task)), w.tasks[task].key)
  {
    assert task in TasksOn(w.tasks, w.tasks[task].key);
    if w.tasks[task].cancelled { GivingUpIsLocal(w, task); } else { GrantIsLocal(w, task); }
  }

  lemma FinishIsLocal(w: World, task: nat)
    requires Enabled(w, Finish(task)) && KeyInv(w, w.tasks[task].key)
    ensures SameElsewhere(w, Do(w, Finish(task)), w.tasks[task].key)
  {
    assert task in TasksOn(w.tasks, w.tasks[task].key);
    ReleaseSucceeds(w, task);
  }

  lemma CancelIsLocal(w: World, task: nat)
    requires Enabled(w, Cancel(task)) && KeyInv(w, w.tasks[task].key)
    ensures SameElsewhere(w, Do(w, Cancel(task)), w.tasks[task].key)
  {
    assert task in TasksOn(w.tasks, w.tasks[task].key);
    KillIsLocal(w, task);
  }

  lemma KillIsLocal(w: World, task: nat)
    requires task in w.tasks && w.tasks[task].Waiting? && w.tasks[task].id.key == w.tasks[task].key
    ensures
      var t := w.tasks[task];
      SameElsewhere(w, World(w.reg.(heap := w.reg.heap[t.id := Kill(LockOf(w.reg, t.id), task)]),
        w.tasks[task := t.(cancelled := true)]), t.key)
  {
  }

  lemma BeginIsLocal(w: World, task: nat, key: Key)
    requires Enabled(w, Begin(task, key)) && KeyInv(w, key)
    ensures SameElsewhere(w, Do(w, Begin(task, key)), key)
  {
  }

  lemma StepsAreLocal(w: World, act: Action)
    requires Enabled(w, act) && KeyInv(w, KeyOf(w, act))
    ensures SameElsewhere(w, Do(w, act), KeyOf(w, act))
  {
    match act {
      case Begin(task, key) => BeginIsLocal(w, task, key);
      case Run(task) => RunIsLocal(w, task);
      case Cancel(task) => CancelIsLocal(w, task);
      case Finish(task) => FinishIsLocal(w, task);
    }
  }

  lemma OtherKeyKept(w: World, act: Action, other: Key)
    requires Enabled(w, act) && KeyInv(w, KeyOf(w, act)) && KeyInv(w, other) && other != KeyOf(w, act)
    ensures KeyInv(Do(w, act), other)
  {
    StepsAreLocal(w, act);
    OtherKeys(w, Do(w, act), KeyOf(w, act), other);
  }

  lemma StepKeepsInv(w: World, act: Action)
    requires Inv(w)
    ensures Inv(Do(w, act))
  {
    if Enabled(w, act) {
      forall other ensures KeyInv(Do(w, act), other) {
        assert KeyInv(w, other) && KeyInv(w, KeyOf(w, act));
        if other == KeyOf(w, act) { OwnKeyKept(w, act); } else { OtherKeyKept(w, act, other); }
      }
    }
  }

  lemma {:induction false} RunsKeepInv(acts: seq<Action>)
    ensures Inv(After(acts))
  {
    if acts != [] {
      RunsKeepInv(acts[..|acts| - 1]);
      StepKeepsInv(After(acts[..|acts| - 1]), acts[|acts| - 1]);
    } else {
      assert forall key :: TasksOn(map[], key) == {};
    }
  }

  // ------------------------------------------------------------------ what every run keeps

  /** At most one task holds a key, also across replacements of the key's lock object. */
  lemma MutualExclusion(acts: seq<Action>, t: nat, u: nat, key: Key)
    requires Holds(After(acts).tasks, t, key) && Holds(After(acts).tasks, u, key)
    ensures t == u
  {
    RunsKeepInv(acts);
    assert KeyInv(After(acts), key) && t in TasksOn(After(acts).tasks, key);
  }

  /** A lock object is dropped only when nobody holds it or waits for it: the object a task
      works with is the one the registry hands out, and its release never raises. */
  lemma LocksInUseStay(acts: seq<Action>, t: nat)
    requires t in After(acts).tasks
    ensures
      var w := After(acts);
      && w.tasks[t].key in w.reg.locks && w.reg.locks[w.tasks[t].key] == w.tasks[t].id
      && !w.tasks[t].Broken?
      && (w.tasks[t].Holding? ==> Released(w.reg, w.tasks[t].key).Some?)
  {
    RunsKeepInv(acts);
    var w := After(acts);
    assert KeyInv(w, w.tasks[t].key) && t in TasksOn(w.tasks, w.tasks[t].key);
    if w.tasks[t].Holding? { ReleaseSucceeds(w, t); }
  }

  /** The waiter count of a key is the number of tasks that hold it or wait for it. */
  lemma WaitersAreCounted(acts: seq<Action>, key: Key)
    ensures Count(After(acts).reg, key) == |TasksOn(After(acts).tasks, key)|
    ensures key in After(acts).reg.waiters <==> TasksOn(After(acts).tasks, key) != {}
  {
    RunsKeepInv(acts);
    assert KeyInv(After(acts), key);
  }

  /** No wake-up is lost, whatever is cancelled when: if nobody holds a key somebody waits for,
      some waiter of the key can run. And the lock is granted in queue order. */
  lemma FreeLocksWakeSomebody(acts: seq<Action>, t: nat)
    requires t in After(acts).tasks && After(acts).tasks[t].Waiting?
    ensures
      var w := After(acts);
      var key, queue := w.tasks[t].key, LockOf(w.reg, w.tasks[t].id).queue;
      && ((forall u :: !Holds(w.tasks, u, key)) ==>
            exists u :: u in w.tasks && w.tasks[u].key == key && Enabled(w, Run(u)))
      && (Enabled(w, Run(t)) && !w.tasks[t].cancelled ==> queue[0].task == t)
  {
    RunsKeepInv(acts);
    var w := After(acts);
    var key := w.tasks[t].key;
    assert KeyInv(w, key) && t in TasksOn(w.tasks, key);
    var queue := LockOf(w.reg, w.tasks[t].id).queue;
    assert Position(queue, t) < |queue|;
    if forall u :: !Holds(w.tasks, u, key) {
      var u := queue[0].task;
      assert u in w.tasks && u in TasksOn(w.tasks, key);
      assert Position(queue, u) == 0;
      assert Enabled(w, Run(u));
    }
  }

  /** The last task to leave key left by giving up its wait, not by releasing. */
  predicate LeftIdle(acts: seq<Action>, key: Key) {
    acts != [] &&
    var before, act := acts[..|acts| - 1], acts[|acts| - 1];
    var w := After(before);
    if Enabled(w, act) && KeyOf(w, act) == key && act.Run? then w.tasks[act.task].cancelled || LeftIdle(before, key)
    else if Enabled(w, act) && KeyOf(w, act) == key && act.Finish? then false
    else LeftIdle(before, key)
  }

  /** A key without tasks has a lock exactly when it was left idle. */
  predicate IdleInv(w: World, key: Key, idle: bool) {
    TasksOn(w.tasks, key) == {} ==> (key in w.reg.locks <==> idle)
  }

  /** A departure decides whether the lock stays. */
  lemma DepartureDecides(w: World, act: Action)
    requires Enabled(w, act) && (act.Run? || act.Finish?) && KeyInv(w, KeyOf(w, act))
    requires TasksOn(Do(w, act).tasks, KeyOf(w, act)) == {}
    ensures KeyOf(w, act) in Do(w, act).reg.locks <==> act.Run?
    ensures act.Run? ==> w.tasks[act.task].cancelled
  {
    var v, key := Do(w, act), KeyOf(w, act);
    assert act.task in TasksOn(w.tasks, key);
    assert key in w.reg.locks;
    OwnKeyKept(w, act);
    if act.Finish? {
      ReleaseSucceeds(w, act.task);
      assert Count(v.reg, key) == 0;
    } else {
      assert !w.tasks[act.task].cancelled ==> act.task in TasksOn(v.tasks, key);
    }
  }

  lemma ArrivalsAreSeen(w: World, act: Action)
    requires Enabled(w, act) && (act.Begin? || act.Cancel?)
    ensures TasksOn(Do(w, act).tasks, KeyOf(w, act)) != {}
  {
    assert act.task in TasksOn(Do(w, act).tasks, KeyOf(w, act));
  }

  lemma {:induction false} IdleKeys(acts: seq<Action>, key: Key)
    ensures IdleInv(After(acts), key, LeftIdle(acts, key))
  {
    if acts != [] {
      var before, act := acts[..|acts| - 1], acts[|acts| - 1];
      var w, v := After(before), After(acts);
      IdleKeys(before, key);
      RunsKeepInv(before);
      if Enabled(w, act) {
        assert KeyInv(w, KeyOf(w, act));
        if KeyOf(w, act) != key {
          StepsAreLocal(w, act);
          assert TasksOn(v.tasks, key) == TasksOn(w.tasks, key);
        } else if act.Begin? || act.Cancel? {
          ArrivalsAreSeen(w, act);
        } else if TasksOn(v.tasks, key) == {} {
          DepartureDecides(w, act);
        }
      }
    }
  }

  /** When no task is left, no key is counted, and the locks left over are exactly those of the
      keys whose last task gave up waiting. */
  lemma QuietRegistry(acts: seq<Action>)
    requires After(acts).tasks == map[]
    ensures After(acts).reg.waiters == map[]
    ensures forall key :: key in After(acts).reg.locks <==> LeftIdle(acts, key)
  {
    RunsKeepInv(acts);
    var w := After(acts);
    forall key ensures key !in w.reg.waiters && (key in w.reg.locks <==> LeftIdle(acts, key)) {
      assert KeyInv(w, key) && TasksOn(w.tasks, key) == {};
      IdleKeys(acts, key);
    }
  }

  predicate NoCancels(acts: seq<Action>) {
    forall i | 0 <= i < |acts| :: !acts[i].Cancel?
  }

  lemma {:induction false} NobodyGivesUp(acts: seq<Action>, key: Key)
    requires NoCancels(acts)
    ensures forall t | t in After(acts).tasks && After(acts).tasks[t].Waiting? :: !After(acts).tasks[t].cancelled
    ensures !LeftIdle(acts, key)
  {
    if acts != [] {
      NobodyGivesUp(acts[..|acts| - 1], key);
    }
  }

  /** Without cancellations a quiet registry is empty. */
  lemma QuietRegistryIsEmpty(acts: seq<Action>)
    requires After(acts).tasks == map[] && NoCancels(acts)
    ensures After(acts).reg.waiters == map[] && After(acts).reg.locks == map[]
  {
    QuietRegistry(acts);
    forall key ensures key !in After(acts).reg.locks { NobodyGivesUp(acts, key); }
  }

  lemma Extend(acts: seq<Action>, act: Action)
    ensures After(acts + [act]) == Do(After(acts), act)
  {
    assert (acts + [act])[..|acts|] == acts;
  }

  // One key, its first lock object, and two tasks.

  function OneKey(key: Key, count: nat, lock: Lock): Registry {
    Registry(map[key := LockId(key, 0)], map[key := count], map[LockId(key, 0) := lock], map[key := 1])
  }

  function HeldKey(key: Key): World {
    World(OneKey(key, 1, Lock(true, [])), map[0 := Holding(key, LockId(key, 0))])
  }

  function AwaitedKey(key: Key): World {
    World(OneKey(key, 2, Lock(true, [Ticket(1, Pending)])),
          map[0 := Holding(key, LockId(key, 0)), 1 := Waiting(key, LockId(key, 0), false)])
  }

  /** Task 0 has released the key and woken task 1, which has not run yet. */
  function WokenKey(key: Key): World {
    World(OneKey(key, 1, Lock(false, [Ticket(1, Woken)])), map[1 := Waiting(key, LockId(key, 0), false)])
  }

  lemma FirstTakesIt(key: Key)
    ensures Do(Init(), Begin(0, key)) == HeldKey(key)
  {
    var w := Do(Init(), Begin(0, key));
    assert w.reg.heap == HeldKey(key).reg.heap && w.reg.locks == HeldKey(key).reg.locks;
  }

  lemma SecondQueues(key: Key)
    ensures Do(HeldKey(key), Begin(1, key)) == AwaitedKey(key)
  {
    var v, w := Do(HeldKey(key), Begin(1, key)), AwaitedKey(key);
    assert Provided(HeldKey(key).reg, key) == HeldKey(key).reg;
    assert Enter(Lock(true, []), 1) == Lock(true, [Ticket(1, Pending)]);
    assert v.reg.heap == w.reg.heap && v.reg.waiters == w.reg.waiters && v.tasks == w.tasks;
  }

  lemma FirstReleases(key: Key)
    ensures Do(AwaitedKey(key), Finish(0)) == WokenKey(key)
  {
    var v, w := Do(AwaitedKey(key), Finish(0)), WokenKey(key);
    var d := Dropped(AwaitedKey(key).reg, key);
    assert d.waiters == w.reg.waiters;
    assert Unlock(Lock(true, [Ticket(1, Pending)])) == Lock(false, [Ticket(1, Woken)]);
    assert v.reg.heap == w.reg.heap && v.tasks == w.tasks;
  }

  /** With them it can be: a waiter cancelled between its wake-up and its turn leaves the idle
      lock in the map. */
  lemma CancelledWakeupLeavesTheLock(key: Key) returns (acts: seq<Action>)
    ensures After(acts).tasks == map[] && After(acts).reg.waiters == map[] && key in After(acts).reg.locks
  {
    FirstTakesIt(key);
    Extend([], Begin(0, key));
    acts := [] + [Begin(0, key)];
    SecondQueues(key);
    Extend(acts, Begin(1, key));
    acts := acts + [Begin(1, key)];
    FirstReleases(key);
    Extend(acts, Finish(0));
    acts := acts + [Finish(0)];
    Extend(acts, Cancel(1));
    acts := acts + [Cancel(1)];
    assert After(acts).tasks == map[1 := Waiting(key, LockId(key, 0), true)];
    Extend(acts, Run(1));
    acts := acts + [Run(1)];
  }
}
