/**
 Calls of the idempotency store that take time: a call is made, takes effect or is answered at
 some moment, and returns, if ever, later. A call whose caller has given up may still take
 effect. The in-process store performs a call in one step; RedisDeliveries shows that the calls
 of the Redis store are of this kind.
 */
module StoreCalls {
  import opened Options
  import opened Claims

  /** at, read: the history position and the clock of the one moment whose answer this is. */
  datatype Answer = Pending | Given(reply: Reply, at: nat, read: real)

  /** since, start: the clock and the history length when the call was made. */
  datatype Call = Call(key: Key, owner: Owner, op: Op, since: real, start: nat, answer: Answer)

  datatype History = History(now: real, log: seq<Event>, calls: map<nat, Call>)

  datatype Action =
    | Tick(now: real)
    | Invoke(id: nat, key: Key, owner: Owner, op: Op)
    | TakeEffect(id: nat, stamp: real)
    | Recall(id: nat, at: nat, read: real)   // answered as of a moment at which it changes nothing
    | Lapse(key: Key)
    | Forget(key: Key)

  function Init(): History {
    History(0.0, [], map[])
  }

  predicate Placed(log: seq<Event>, at: nat, t: real) {
    at <= |log| && (at > 0 ==> log[at - 1].now <= t) && (at < |log| ==> t <= log[at].now)
  }

  function EventOf(h: History, id: nat, stamp: real): Event
    requires id in h.calls
  {
    var c := h.calls[id];
    Operated(c.key, c.owner, c.op, h.now, stamp)
  }

  function ReplyAt(log: seq<Event>, c: Call, at: nat, read: real): Reply
    requires at <= |log|
  {
    ReplyTo(Replay(log[..at]), c.key, c.owner, c.op, read)
  }

  /** At history position at the call would change nothing. */
  ghost predicate Unchanging(log: seq<Event>, c: Call, at: nat, read: real)
    requires at <= |log|
  {
    forall stamp :: Effect(Replay(log[..at]), c.key, c.owner, c.op, read, stamp) == Replay(log[..at])
  }

  /** slack: how much early the store may drop a claim. */
  ghost predicate Enabled(slack: real, h: History, act: Action) {
    match act
    case Tick(now) => h.now <= now
    case Invoke(id, _, _, _) => id !in h.calls
    case TakeEffect(id, _) => id in h.calls && h.calls[id].answer == Pending
    case Recall(id, at, read) =>
      && id in h.calls && h.calls[id].answer == Pending
      && h.calls[id].start <= at && Placed(h.log, at, read) && h.calls[id].since <= read <= h.now
      && Unchanging(h.log, h.calls[id], at, read)
    case Lapse(key) => Follows(h.log, Lapsed(key, h.now), slack)
    case Forget(key) => Follows(h.log, Forgot(key, h.now), slack)
  }

  ghost function Do(slack: real, h: History, act: Action): History {
    if !Enabled(slack, h, act) then h else
      match act
      case Tick(now) => h.(now := now)
      case Invoke(id, key, owner, op) => h.(calls := h.calls[id := Call(key, owner, op, h.now, |h.log|, Pending)])
      case TakeEffect(id, stamp) =>
        var c := h.calls[id];
        h.(log := h.log + [EventOf(h, id, stamp)],
           calls := h.calls[id := c.(answer := Given(ReplyAt(h.log, c, |h.log|, h.now), |h.log|, h.now))])
      case Recall(id, at, read) =>
        var c := h.calls[id];
        h.(calls := h.calls[id := c.(answer := Given(ReplyAt(h.log, c, at, read), at, read))])
      case Lapse(key) => h.(log := h.log + [Lapsed(key, h.now)])
      case Forget(key) => h.(log := h.log + [Forgot(key, h.now)])
  }

  // ------------------------------------------------------------------ what every history keeps

  /** The call is answered as the atomic operation at one moment since it was made, and if that
      operation changes anything it is in the history there. */
  ghost predicate Atomic(h: History, c: Call) {
    && c.start <= |h.log| && c.since <= h.now
    && (c.answer.Given? ==>
          && c.start <= c.answer.at && Placed(h.log, c.answer.at, c.answer.read)
          && c.since <= c.answer.read <= h.now
          && c.answer.reply == ReplyAt(h.log, c, c.answer.at, c.answer.read)
          && (Unchanging(h.log, c, c.answer.at, c.answer.read) || TookEffect(h.log, c)))
  }

  predicate TookEffect(log: seq<Event>, c: Call) {
    && c.answer.Given? && c.answer.at < |log|
    && var e := log[c.answer.at];
       e.Operated? && e.key == c.key && e.owner == c.owner && e.op == c.op && e.now == c.answer.read
  }

  /** When the claim call is, or will be, answered, its owner has not claimed before. */
  predicate Unclaimed(log: seq<Event>, c: Call) {
    if c.answer.Given? then c.answer.at <= |log| && Fresh(log[..c.answer.at], c.owner) else Fresh(log, c.owner)
  }

  /** An owner makes one claim call. */
  ghost predicate OneClaimEach(h: History) {
    && (forall i, j | i in h.calls && j in h.calls && h.calls[i].op.Acquire? && h.calls[j].op.Acquire? ::
          h.calls[i].owner == h.calls[j].owner ==> i == j)
    && (forall i | i in h.calls && h.calls[i].op.Acquire? :: Unclaimed(h.log, h.calls[i]))
  }

  ghost predicate Inv(slack: real, h: History) {
    && Legal(h.log, slack)
    && (h.log != [] ==> h.log[|h.log| - 1].now <= h.now)
    && OneClaimEach(h)
    && forall id | id in h.calls :: Atomic(h, h.calls[id])
  }

  predicate Stranger(h: History, owner: Owner) {
    && Unheard(h.log, owner)
    && forall id | id in h.calls :: h.calls[id].owner != owner
  }

  lemma LaterStillAtomic(h: History, v: History, c: Call)
    requires Atomic(h, c) && h.now <= v.now && h.log <= v.log
    requires |h.log| < |v.log| ==> h.now <= v.log[|h.log|].now
    ensures Atomic(v, c)
  {
    assert forall n: nat | n <= |h.log| :: v.log[..n] == h.log[..n];
  }

  lemma EventFollows(slack: real, h: History, act: Action)
    requires Inv(slack, h) && Enabled(slack, h, act) && Do(slack, h, act).log != h.log
    ensures
      var v := Do(slack, h, act);
      |v.log| == |h.log| + 1 && v.log[..|h.log|] == h.log && Follows(h.log, v.log[|h.log|], slack)
      && v.log[|h.log|].now == h.now
  {
  }

  lemma StepKeepsCalls(slack: real, h: History, act: Action)
    requires Inv(slack, h) && Enabled(slack, h, act)
    ensures var v := Do(slack, h, act); forall id | id in v.calls :: Atomic(v, v.calls[id])
  {
    var v := Do(slack, h, act);
    forall id | id in v.calls ensures Atomic(v, v.calls[id]) {
      if id in h.calls && v.calls[id] == h.calls[id] {
        LaterStillAtomic(h, v, h.calls[id]);
      } else if act.TakeEffect? {
        assert Atomic(h, h.calls[id]) && v.log[..|h.log|] == h.log[..|h.log|];
      } else if act.Recall? {
        assert Atomic(h, h.calls[id]);
      }
    }
  }

  lemma StepKeepsClaims(slack: real, h: History, act: Action)
    requires Inv(slack, h) && Enabled(slack, h, act)
    requires act.Invoke? && act.op.Acquire? ==> Stranger(h, act.owner)
    ensures OneClaimEach(Do(slack, h, act))
  {
    var v := Do(slack, h, act);
    forall i | i in v.calls && v.calls[i].op.Acquire? ensures Unclaimed(v.log, v.calls[i]) {
      if i in h.calls {
        assert Unclaimed(h.log, h.calls[i]) && Atomic(h, h.calls[i]);
        if v.calls[i].answer.Given? {
          assert v.log[..v.calls[i].answer.at] == h.log[..v.calls[i].answer.at];
        }
      }
    }
  }

  lemma StepKeepsInv(slack: real, h: History, act: Action)
    requires Inv(slack, h)
    requires act.Invoke? && act.op.Acquire? ==> Stranger(h, act.owner)
    ensures Inv(slack, Do(slack, h, act))
  {
    if Enabled(slack, h, act) {
      var v := Do(slack, h, act);
      StepKeepsCalls(slack, h, act);
      StepKeepsClaims(slack, h, act);
      if v.log != h.log {
        EventFollows(slack, h, act);
        assert v.log == h.log + [v.log[|h.log|]];
        LegalAppend(h.log, v.log[|h.log|], slack);
      }
    }
  }

  lemma FirstsChangeTheStore(s: Store, key: Key, owner: Owner, op: Op, now: real)
    requires op.Acquire? && ReplyTo(s, key, owner, op, now) == Claimed(First)
    ensures exists stamp :: Effect(s, key, owner, op, now, stamp) != s
  {
    var early, late := Effect(s, key, owner, op, now, 0.0), Effect(s, key, owner, op, now, 1.0);
    assert early[key].leaseUntil != late[key].leaseUntil;
    assert early != s || late != s;
  }
}
