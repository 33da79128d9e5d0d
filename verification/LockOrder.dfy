/**
 The fairness of KeyedLocks: waiters of a key are granted it in the order in which they began, and
 nobody who comes later overtakes one that has not been cancelled.
 */
module LockOrder {
  import opened Options
  import opened KeyedLocks

  /** When the task began its present acquire: the number of actions until then. */
  function Began(acts: seq<Action>, task: nat): nat {
    if acts == [] then 0 else
      var before, act := acts[..|acts| - 1], acts[|acts| - 1];
      if act.Begin? && act.task == task && Enabled(After(before), act) then |acts| else Began(before, task)
  }

  lemma {:induction false} BeganBefore(acts: seq<Action>, task: nat)
    ensures Began(acts, task) <= |acts|
  {
    if acts != [] { BeganBefore(acts[..|acts| - 1], task); }
  }

  /** The queue is in order of arrival. */
  predicate InOrder(acts: seq<Action>, queue: seq<Ticket>) {
    forall i, j | 0 <= i < j < |queue| :: Began(acts, queue[i].task) < Began(acts, queue[j].task)
  }

  function QueueOf(w: World, key: Key): seq<Ticket> {
    if key in w.reg.locks then LockOf(w.reg, w.reg.locks[key]).queue else []
  }

  /** after holds tickets of before's tasks, in the same order. */
  ghost predicate Thins(before: seq<Ticket>, after: seq<Ticket>) {
    exists place: seq<nat> | |place| == |after| :: ThinsBy(before, after, place)
  }

  predicate ThinsBy(before: seq<Ticket>, after: seq<Ticket>, place: seq<nat>)
    requires |place| == |after|
  {
    && (forall i | 0 <= i < |place| :: place[i] < |before| && after[i].task == before[place[i]].task)
    && (forall i, j | 0 <= i < j < |place| :: place[i] < place[j])
  }

  lemma SameTasksThin(before: seq<Ticket>, after: seq<Ticket>)
    requires |after| == |before| && forall i | 0 <= i < |after| :: after[i].task == before[i].task
    ensures Thins(before, after)
  {
    var place: seq<nat> := seq(|after|, i => i);
    assert ThinsBy(before, after, place);
  }

  lemma LeavingThins(queue: seq<Ticket>, task: nat)
    ensures Thins(queue, Without(queue, task))
  {
    var at, left := Position(queue, task), Without(queue, task);
    if at < |queue| {
      WithoutAt(queue, task);
      var place: seq<nat> := seq(|left|, i => if i < at then i else i + 1);
      assert ThinsBy(queue, left, place);
    } else {
      SameTasksThin(queue, left);
    }
  }

  lemma ThenWaking(before: seq<Ticket>, lock: Lock)
    requires Thins(before, lock.queue)
    ensures Thins(before, WakeFirst(lock).queue)
  {
    var place: seq<nat> :| |place| == |lock.queue| && ThinsBy(before, lock.queue, place);
    assert ThinsBy(before, WakeFirst(lock).queue, place);
  }

  lemma ThinnedStaysInOrder(acts: seq<Action>, before: seq<Ticket>, after: seq<Ticket>)
    requires InOrder(acts, before) && Thins(before, after)
    ensures InOrder(acts, after)
  {
    var place: seq<nat> :| |place| == |after| && ThinsBy(before, after, place);
    forall i, j | 0 <= i < j < |after| ensures Began(acts, after[i].task) < Began(acts, after[j].task) {
      assert place[i] < place[j];
    }
  }

  /** A step without a newcomer leaves the queue, or takes tickets out. */
  lemma StepsThin(w: World, act: Action, key: Key)
    requires Inv(w) && Enabled(w, act) && !act.Begin? && KeyOf(w, act) == key
    ensures Thins(QueueOf(w, key), QueueOf(Do(w, act), key))
  {
    var v, t := Do(w, act), w.tasks[act.task];
    assert KeyInv(w, key) && act.task in TasksOn(w.tasks, key);
    var lock := LockOf(w.reg, t.id);
    match act {
      case Run(task) =>
        LeavingThins(lock.queue, task);
        if t.cancelled { ThenWaking(lock.queue, lock.(queue := Without(lock.queue, task))); }
      case Cancel(task) => SameTasksThin(lock.queue, Kill(lock, task).queue);
      case Finish(task) =>
        ReleaseSucceeds(w, task);
        SameTasksThin(lock.queue, lock.queue);
        ThenWaking(lock.queue, lock.(locked := false));
        if key !in v.reg.locks { assert ThinsBy(lock.queue, [], []); }
    }
  }

  /** A newcomer queues at the end, or not at all. */
  lemma NewcomersQueueLast(w: World, task: nat, key: Key)
    requires Inv(w) && Enabled(w, Begin(task, key))
    ensures
      var queue, longer := QueueOf(w, key), QueueOf(Do(w, Begin(task, key)), key);
      longer == queue || longer == queue + [Ticket(task, Pending)]
  {
    assert KeyInv(w, key);
  }

  /** A step on one key leaves the other queues alone. */
  lemma OtherQueuesStay(w: World, act: Action, key: Key)
    requires Inv(w) && Enabled(w, act) && KeyOf(w, act) != key
    ensures QueueOf(Do(w, act), key) == QueueOf(w, key)
  {
    assert KeyInv(w, KeyOf(w, act)) && KeyInv(w, key);
    StepsAreLocal(w, act);
  }

  /** Whoever is in a queue had begun before. */
  lemma QueuedIsKnown(w: World, key: Key, i: nat)
    requires Inv(w) && i < |QueueOf(w, key)|
    ensures QueueOf(w, key)[i].task in w.tasks
  {
    assert KeyInv(w, key);
  }

  /** One action more does not change when those in the queue began. */
  lemma {:induction false} StillInOrder(acts: seq<Action>, key: Key)
    requires acts != [] && InOrder(acts[..|acts| - 1], QueueOf(After(acts[..|acts| - 1]), key))
    ensures InOrder(acts, QueueOf(After(acts[..|acts| - 1]), key))
  {
    var before := acts[..|acts| - 1];
    var queue := QueueOf(After(before), key);
    RunsKeepInv(before);
    forall i | 0 <= i < |queue| ensures Began(acts, queue[i].task) == Began(before, queue[i].task) {
      QueuedIsKnown(After(before), key, i);
    }
  }

  lemma {:induction false} ArrivalKeepsOrder(acts: seq<Action>, task: nat, key: Key)
    requires acts != [] && acts[|acts| - 1] == Begin(task, key)
    requires Enabled(After(acts[..|acts| - 1]), Begin(task, key))
    requires InOrder(acts, QueueOf(After(acts[..|acts| - 1]), key))
    ensures InOrder(acts, QueueOf(After(acts), key))
  {
    var before := acts[..|acts| - 1];
    var queue := QueueOf(After(before), key);
    RunsKeepInv(before);
    NewcomersQueueLast(After(before), task, key);
    assert Began(acts, task) == |acts|;
    forall i | 0 <= i < |queue| ensures Began(acts, queue[i].task) < |acts| {
      QueuedIsKnown(After(before), key, i);
      BeganBefore(before, queue[i].task);
    }
  }

  lemma {:induction false} StepKeepsOrder(acts: seq<Action>, key: Key)
    requires acts != [] && InOrder(acts[..|acts| - 1], QueueOf(After(acts[..|acts| - 1]), key))
    ensures InOrder(acts, QueueOf(After(acts), key))
  {
    var w, act := After(acts[..|acts| - 1]), acts[|acts| - 1];
    StillInOrder(acts, key);
    if Enabled(w, act) {
      RunsKeepInv(acts[..|acts| - 1]);
      if KeyOf(w, act) != key {
        OtherQueuesStay(w, act, key);
      } else if act.Begin? {
        ArrivalKeepsOrder(acts, act.task, key);
      } else {
        StepsThin(w, act, key);
        ThinnedStaysInOrder(acts, QueueOf(w, key), QueueOf(After(acts), key));
      }
    }
  }

  lemma {:induction false} QueuesAreInOrder(acts: seq<Action>, key: Key)
    ensures InOrder(acts, QueueOf(After(acts), key))
  {
    if acts != [] {
      QueuesAreInOrder(acts[..|acts| - 1], key);
      StepKeepsOrder(acts, key);
    }
  }

  /** The lock is granted in order of arrival: whenever a task comes to hold a key, every other task
      that waits for the key and has not been cancelled began later. */
  lemma GrantsFollowArrival(acts: seq<Action>, act: Action, key: Key, taker: nat, waiter: nat)
    requires
      var w := After(acts);
      && !Holds(w.tasks, taker, key) && Holds(Do(w, act).tasks, taker, key)
      && waiter in w.tasks && w.tasks[waiter].Waiting? && w.tasks[waiter].key == key && !w.tasks[waiter].cancelled
      && waiter != taker
    ensures Began(acts + [act], taker) < Began(acts + [act], waiter)
  {
    assert (acts + [act])[..|acts|] == acts;
    RunsKeepInv(acts);
    QueuesAreInOrder(acts, key);
    WaiterIsQueued(After(acts), key, waiter);
    TakerIsFirst(After(acts), act, key, taker, waiter);
    var queue := QueueOf(After(acts), key);
    var at := Position(queue, waiter);
    assert queue[0].task == taker && queue[at].task == waiter && 0 < at;
  }

  lemma WaiterIsQueued(w: World, key: Key, waiter: nat)
    requires Inv(w) && waiter in w.tasks && w.tasks[waiter].Waiting? && w.tasks[waiter].key == key
    ensures
      var queue := QueueOf(w, key);
      && Position(queue, waiter) < |queue|
      && (!w.tasks[waiter].cancelled ==> !AllDead(queue))
  {
    assert KeyInv(w, key) && waiter in TasksOn(w.tasks, key);
  }

  /** Only the first of the queue takes the lock while somebody else waits. */
  lemma TakerIsFirst(w: World, act: Action, key: Key, taker: nat, waiter: nat)
    requires Inv(w) && !Holds(w.tasks, taker, key) && Holds(Do(w, act).tasks, taker, key)
    requires waiter in w.tasks && w.tasks[waiter].Waiting? && w.tasks[waiter].key == key && !w.tasks[waiter].cancelled
    ensures act == Run(taker) && QueueOf(w, key) != [] && QueueOf(w, key)[0].task == taker
  {
    WaiterIsQueued(w, key, waiter);
    assert KeyInv(w, key) && waiter in TasksOn(w.tasks, key);
    if act.Run? {
      assert taker in TasksOn(w.tasks, key);
      assert StatusOf(w.reg, w.tasks[taker].id, taker) == Woken;
    }
  }
}
