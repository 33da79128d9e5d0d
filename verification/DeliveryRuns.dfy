/**
 Every interleaving of pull deliveries, push requests, lease renewals, the clock, expiry,
 cancellation and storage failure over one shared idempotency store.

 A storage call is made when an attempt reaches it, takes effect at some later moment and
 returns later still; an attempt whose call fails or is cancelled goes on while the call may
 take effect afterwards, or never. A run is any sequence of actions. An action that is not
 enabled changes nothing, so a theorem about After(acts) for all acts is a theorem about all
 runs. The pull attempts are those of PullDelivery, the push requests those of PushDelivery.
 */
module DeliveryRuns {
  import opened Options
  import opened Claims
  import opened PullDelivery
  import opened PushDelivery
  import H = StoreCalls

  const PULL_LEASE := 300.0
  const PUSH_LEASE := 3600.0

  // ------------------------------------------------------------------ the attempts

  /** fed: attempts whose dispatcher call returned, with their key. entered: attempts that got
      to the dispatcher under a claim. current: the store call an attempt awaits, or awaited
      last. renewal: the store call its renewal task awaits. */
  datatype Attempts = Attempts(
    pulls: map<Owner, Attempt>, pushes: map<Owner, Push>,
    fed: map<Owner, Key>, entered: map<Owner, Key>,
    current: map<Owner, nat>, renewal: map<Owner, nat>)

  /** How the wait for a storage call ends. */
  datatype Io = Success | Failure | Interrupt

  datatype Move =
    | Deliver(owner: Owner, key: Key, delivery: Option<int>)
    | PullStep(owner: Owner, outcome: Outcome)           // an await other than a storage call ends
    | PullReturn(owner: Owner, io: Io, parsed: bool)
    | RenewSend(owner: Owner)
    | RenewReturn(owner: Owner, io: Io)
    | Request(owner: Owner, key: Key, tracked: bool)
    | PushDispatch(owner: Owner, outcome: Outcome)
    | PushReturn(owner: Owner, io: Io)

  /** A storage call an attempt makes. */
  datatype Sending = Sending(key: Key, owner: Owner, op: Op)

  /** The answers a store has given, by call. */
  type Replies = map<nat, Reply>

  predicate UsesStorage(at: Await) {
    at == Claiming || at.Completing? || at == Releasing
  }

  predicate PushUsesStorage(at: PushAwait) {
    at.PushClaiming? || at.PushReleasing? || at.PushCompleting?
  }

  function PullOp(at: Await): Op
    requires UsesStorage(at)
  {
    match at
    case Claiming => Acquire(PULL_LEASE)
    case Completing(_) => Complete
    case Releasing => Release
  }

  function PushOp(at: PushAwait): Op
    requires PushUsesStorage(at)
  {
    match at
    case PushClaiming => Acquire(PUSH_LEASE)
    case PushReleasing => Release
    case PushCompleting => Complete
  }

  function Answer(replies: Replies, calls: map<Owner, nat>, owner: Owner): Option<Reply> {
    if owner in calls && calls[owner] in replies then Some(replies[calls[owner]]) else None
  }

  function OutcomeOf(io: Io, reply: Option<Reply>, parsed: bool): Outcome {
    match io
    case Failure => Raised
    case Interrupt => Cancelled
    case Success => if reply.Some? && reply.value.Claimed? then Answered(reply.value.result, parsed) else Returned
  }

  predicate MayMove(d: Attempts, replies: Replies, move: Move) {
    match move
    case Deliver(owner, _, _) => owner !in d.pulls && owner !in d.pushes
    case PullStep(owner, _) => owner in d.pulls && !UsesStorage(d.pulls[owner].at)
    case PullReturn(owner, io, _) =>
      && owner in d.pulls && UsesStorage(d.pulls[owner].at)
      && (io == Success ==> Answer(replies, d.current, owner).Some?)
    case RenewSend(owner) => owner in d.pulls && d.pulls[owner].renewing && owner !in d.renewal
    case RenewReturn(owner, io) =>
      && owner in d.pulls && d.pulls[owner].renewing && owner in d.renewal
      && (io == Success ==> Answer(replies, d.renewal, owner).Some?)
    case Request(owner, _, _) => owner !in d.pulls && owner !in d.pushes
    case PushDispatch(owner, _) => owner in d.pushes && d.pushes[owner].at == Dispatching
    case PushReturn(owner, io) =>
      && owner in d.pushes && PushUsesStorage(d.pushes[owner].at)
      && (io == Success ==> Answer(replies, d.current, owner).Some?)
  }

  /** An attempt at its next await; a storage call it makes there is call id. */
  function WithPull(d: Attempts, owner: Owner, a: Attempt, id: nat): Attempts {
    d.(pulls := d.pulls[owner := a], current := if UsesStorage(a.at) then d.current[owner := id] else d.current)
  }

  function WithPush(d: Attempts, owner: Owner, p: Push, id: nat): Attempts {
    d.(pushes := d.pushes[owner := p], current := if PushUsesStorage(p.at) then d.current[owner := id] else d.current)
  }

  function Moved(cfg: Config, d: Attempts, replies: Replies, move: Move, id: nat): Attempts
    requires MayMove(d, replies, move)
  {
    match move
    case Deliver(owner, key, delivery) => WithPull(d, owner, Start(key, delivery), id)
    case PullStep(owner, outcome) =>
      var a := d.pulls[owner];
      WithPull(d, owner, Resume(cfg, a, outcome), id)
        .(fed := if a.at == Feeding && outcome == Returned then d.fed[owner := a.key] else d.fed)
    case PullReturn(owner, io, parsed) =>
      var a := d.pulls[owner];
      var b := Resume(cfg, a, OutcomeOf(io, Answer(replies, d.current, owner), parsed));
      WithPull(d, owner, b, id).(entered := if b.at == Feeding then d.entered[owner := a.key] else d.entered)
    case RenewSend(owner) => d.(renewal := d.renewal[owner := id])
    case RenewReturn(owner, io) =>
      // the renewal task goes on only after a renewal that was granted
      var granted := io == Success && Answer(replies, d.renewal, owner) == Some(Renewed(true));
      d.(pulls := d.pulls[owner := d.pulls[owner].(renewing := granted)], renewal := d.renewal - {owner})
    case Request(owner, key, tracked) => WithPush(d, owner, Open(key, tracked), id)
    case PushDispatch(owner, outcome) =>
      var p := d.pushes[owner];
      WithPush(d, owner, Proceed(p, outcome), id)
        .(fed := if outcome == Returned && p.tracked then d.fed[owner := p.key] else d.fed)
    case PushReturn(owner, io) =>
      var p := d.pushes[owner];
      var q := Proceed(p, OutcomeOf(io, Answer(replies, d.current, owner), true));
      WithPush(d, owner, q, id).(entered := if q.at == Dispatching then d.entered[owner := p.key] else d.entered)
  }

  function PullSends(d: Attempts, owner: Owner): Option<Sending> {
    if owner in d.pulls && UsesStorage(d.pulls[owner].at) then
      Some(Sending(d.pulls[owner].key, owner, PullOp(d.pulls[owner].at)))
    else None
  }

  function PushSends(d: Attempts, owner: Owner): Option<Sending> {
    if owner in d.pushes && PushUsesStorage(d.pushes[owner].at) then
      Some(Sending(d.pushes[owner].key, owner, PushOp(d.pushes[owner].at)))
    else None
  }

  /** The storage call made by a move that led to d. */
  function Sent(d: Attempts, move: Move): Option<Sending> {
    match move
    case Deliver(owner, _, _) => PullSends(d, owner)
    case PullStep(owner, _) => PullSends(d, owner)
    case PullReturn(owner, _, _) => PullSends(d, owner)
    case RenewSend(owner) =>
      if owner in d.pulls then Some(Sending(d.pulls[owner].key, owner, Renew(PULL_LEASE))) else None
    case RenewReturn(_, _) => None
    case Request(owner, _, _) => PushSends(d, owner)
    case PushDispatch(owner, _) => PushSends(d, owner)
    case PushReturn(owner, _) => PushSends(d, owner)
  }

  // ------------------------------------------------------------------ the attempts over a store

  datatype World = World(h: H.History, d: Attempts)

  datatype Action = Local(move: Move, id: nat) | Store(act: H.Action)

  /** slack: how much early the store may drop a claim, see RedisClaims; 0 for the in-process one. */
  datatype Setup = Setup(cfg: Config, slack: real)

  function NoAttempts(): Attempts {
    Attempts(map[], map[], map[], map[], map[], map[])
  }

  function Init(): World {
    World(H.Init(), NoAttempts())
  }

  function Replied(h: H.History): Replies {
    map id | id in h.calls && h.calls[id].answer.Given? :: h.calls[id].answer.reply
  }

  ghost predicate Enabled(su: Setup, w: World, act: Action) {
    match act
    case Local(move, id) => MayMove(w.d, Replied(w.h), move) && id !in w.h.calls
    case Store(act) => !act.Invoke? && H.Enabled(su.slack, w.h, act)
  }

  ghost function Do(su: Setup, w: World, act: Action): World {
    if !Enabled(su, w, act) then w else
      match act
      case Local(move, id) =>
        var d := Moved(su.cfg, w.d, Replied(w.h), move, id);
        (match Sent(d, move)
         case None => World(w.h, d)
         case Some(s) => World(H.Do(su.slack, w.h, H.Invoke(id, s.key, s.owner, s.op)), d))
      case Store(act) => World(H.Do(su.slack, w.h, act), w.d)
  }

  ghost function After(su: Setup, acts: seq<Action>): World {
    if acts == [] then Init() else Do(su, After(su, acts[..|acts| - 1]), acts[|acts| - 1])
  }

  // ------------------------------------------------------------------ the invariant

  /** Some attempt for this key had its dispatcher call return normally. */
  predicate Dispatched(d: Attempts, key: Key) {
    exists o :: o in d.fed && d.fed[o] == key
  }

  predicate OwnKey(d: Attempts, owner: Owner, key: Key) {
    || (owner in d.pulls && d.pulls[owner].key == key)
    || (owner in d.pushes && d.pushes[owner].tracked && d.pushes[owner].key == key)
  }

  predicate Fed(d: Attempts, owner: Owner, key: Key) {
    owner in d.fed && d.fed[owner] == key
  }

  /** Between the claim and the release or the end of the attempt. */
  predicate InDispatch(at: Await) {
    at.Feeding? || at.Answering? || at.Notifying? || at.Completing?
  }

  /** The call the attempt awaits, or awaited last. */
  function CallOf(w: World, owner: Owner): Option<H.Call> {
    if owner in w.d.current && w.d.current[owner] in w.h.calls then Some(w.h.calls[w.d.current[owner]]) else None
  }

  predicate Awaits(w: World, owner: Owner, key: Key, op: Op) {
    CallOf(w, owner).Some? && var c := CallOf(w, owner).value; c.owner == owner && c.key == key && c.op == op
  }

  predicate HasReply(w: World, owner: Owner, reply: Reply) {
    CallOf(w, owner).Some? && CallOf(w, owner).value.answer.Given? && CallOf(w, owner).value.answer.reply == reply
  }

  predicate IsAnswered(w: World, owner: Owner) {
    CallOf(w, owner).Some? && CallOf(w, owner).value.answer.Given?
  }

  predicate PullAtWork(w: World, owner: Owner) {
    && owner in w.d.pulls && InDispatch(w.d.pulls[owner].at)
    && (w.d.pulls[owner].at.Completing? ==> !IsAnswered(w, owner))
  }

  predicate PushAtWork(w: World, owner: Owner) {
    && owner in w.d.pushes && w.d.pushes[owner].tracked
    && (|| w.d.pushes[owner].at == Dispatching
        || (w.d.pushes[owner].at == PushCompleting && !IsAnswered(w, owner)))
  }

  /** Event i answers owner's claim of key First. */
  predicate IsFirst(log: seq<Event>, i: nat, key: Key, owner: Owner)
    requires i < |log|
  {
    var e := log[i];
    && e.Operated? && e.op.Acquire? && e.key == key && e.owner == owner
    && ReplyTo(Replay(log[..i]), key, owner, e.op, e.now) == Claimed(First)
  }

  predicate HasFirst(log: seq<Event>, key: Key, owner: Owner) {
    exists i | 0 <= i < |log| :: IsFirst(log, i, key, owner)
  }

  /** The owner holds nothing and will not claim again. */
  predicate Gone(log: seq<Event>, key: Key, owner: Owner) {
    !Owns(Replay(log), key, owner) && !Fresh(log, owner)
  }

  /** The lease is held, or was, and not yet completed or given back by its owner. */
  predicate Holds(log: seq<Event>, key: Key, owner: Owner) {
    LastGrant(log, key, owner).Some? && NeverCompletedBy(log, key, owner)
  }

  /** What the answer to the claim call an attempt awaits stands for. */
  predicate ClaimInv(w: World, owner: Owner, key: Key) {
    && NeverCompletedBy(w.h.log, key, owner)
    && (HasReply(w, owner, Claimed(First)) ==>
          LastGrant(w.h.log, key, owner).Some? && HasFirst(w.h.log, key, owner))
    && (HasReply(w, owner, Claimed(Completed)) ==> Dispatched(w.d, key))
  }

  predicate PullInv(w: World, owner: Owner)
    requires owner in w.d.pulls
  {
    var a := w.d.pulls[owner];
    && (a.at == Claiming ==> Awaits(w, owner, a.key, Acquire(PULL_LEASE)))
    && (a.at.Completing? ==> Awaits(w, owner, a.key, Complete))
    && (a.at == Releasing ==> Awaits(w, owner, a.key, Release))
    && (a.at == Claiming ==> !a.renewing && ClaimInv(w, owner, a.key))
    && (PullAtWork(w, owner) ==> Holds(w.h.log, a.key, owner))
    && (InDispatch(a.at) && a.at != Feeding ==> Fed(w.d, owner, a.key))
    && (Ack in a.trace ==> Dispatched(w.d, a.key))
  }

  /** The statuses a push endpoint answers with. */
  predicate IsAnswer(status: int) {
    status == 204 || status == 429 || status == 500
  }

  predicate PushInv(w: World, owner: Owner)
    requires owner in w.d.pushes
  {
    var p := w.d.pushes[owner];
    && (PushUsesStorage(p.at) ==> p.tracked)
    && (p.at == PushClaiming ==> Awaits(w, owner, p.key, Acquire(PUSH_LEASE)))
    && (p.at == PushReleasing ==> Awaits(w, owner, p.key, Release))
    && (p.at == PushCompleting ==> Awaits(w, owner, p.key, Complete))
    && (p.at == PushClaiming ==> ClaimInv(w, owner, p.key))
    && (PushAtWork(w, owner) ==> Holds(w.h.log, p.key, owner))
    && (p.tracked && (p.at.Dispatching? || p.at.PushReleasing?) ==> !Fresh(w.h.log, owner))
    && (p.at == PushCompleting ==> Fed(w.d, owner, p.key))
    && (p.released || (p.at == PushReleasing && IsAnswered(w, owner)) ==> Gone(w.h.log, p.key, owner))
    && (p.at.PushClaiming? || p.at.Dispatching? || p.at.PushReleasing? ==> !p.returned)
    && (p.at.Responded? ==> IsAnswer(p.at.status) && (p.returned ==> p.at.status == 204))
    && (p.at == Responded(204) ==> if p.tracked then Dispatched(w.d, p.key) else p.returned)
    && (p.at == Responded(429) ==>
          Awaits(w, owner, p.key, Acquire(PUSH_LEASE)) && HasReply(w, owner, Claimed(Active)))
  }

  predicate IsCurrent(d: Attempts, owner: Owner, id: nat) {
    owner in d.current && d.current[owner] == id
  }

  /** Which calls of an attempt can be under way, given how far it has got. */
  predicate PullCallOk(d: Attempts, id: nat, c: H.Call)
    requires c.owner in d.pulls
  {
    var at := d.pulls[c.owner].at;
    match c.op
    case Acquire(lease) => lease == PULL_LEASE && (at == Claiming ==> IsCurrent(d, c.owner, id))
    case Complete =>
      && !at.Claiming? && (InDispatch(at) ==> at.Completing?) && (at.Completing? ==> IsCurrent(d, c.owner, id))
      && Fed(d, c.owner, c.key)
    case Release => at != Claiming && !InDispatch(at)
    case Renew(lease) => lease == PULL_LEASE && at != Claiming
  }

  predicate PushCallOk(d: Attempts, log: seq<Event>, id: nat, c: H.Call)
    requires c.owner in d.pushes
  {
    var at := d.pushes[c.owner].at;
    match c.op
    case Acquire(lease) => lease == PUSH_LEASE && (at == PushClaiming ==> IsCurrent(d, c.owner, id))
    case Complete =>
      && !at.PushClaiming? && !at.Dispatching? && (at == PushCompleting ==> IsCurrent(d, c.owner, id))
      && Fed(d, c.owner, c.key)
    case Release =>
      && !at.PushClaiming? && !at.Dispatching? && !at.PushCompleting?
      && c.start <= |log| && !Fresh(log[..c.start], c.owner)
    case Renew(_) => false
  }

  predicate CallInv(w: World, id: nat)
    requires id in w.h.calls
  {
    var c := w.h.calls[id];
    && OwnKey(w.d, c.owner, c.key)
    && (c.owner in w.d.pulls ==> PullCallOk(w.d, id, c))
    && (c.owner in w.d.pushes ==> PushCallOk(w.d, w.h.log, id, c))
  }

  /** A stored claim belongs to an attempt for its key, a completed one to an attempt that was
      dispatched. */
  predicate Vouched(d: Attempts, key: Key, c: Claim) {
    OwnKey(d, c.owner, key) && (c.completed ==> Fed(d, c.owner, key))
  }

  predicate VouchedAt(w: World, n: nat)
    requires n <= |w.h.log|
  {
    forall key | key in Replay(w.h.log[..n]) :: Vouched(w.d, key, Replay(w.h.log[..n])[key])
  }

  predicate HistoryInv(w: World) {
    && (forall n | 0 <= n <= |w.h.log| :: VouchedAt(w, n))
    && (forall i | 0 <= i < |w.h.log| && w.h.log[i].Operated? :: OwnKey(w.d, w.h.log[i].owner, w.h.log[i].key))
    && (forall o | o in w.d.entered :: HasFirst(w.h.log, w.d.entered[o], o))
    && (forall o | o in w.d.fed :: OwnKey(w.d, o, w.d.fed[o]))
  }

  ghost predicate Inv(su: Setup, w: World) {
    && H.Inv(su.slack, w.h)
    && HistoryInv(w)
    && w.d.pulls.Keys !! w.d.pushes.Keys
    && (forall id | id in w.h.calls :: CallInv(w, id))
    && (forall owner | owner in w.d.pulls :: PullInv(w, owner))
    && (forall owner | owner in w.d.pushes :: PushInv(w, owner))
  }

  // ------------------------------------------------------------------ facts about the log

  lemma OthersKeepTheirs(log: seq<Event>, e: Event, key: Key, owner: Owner)
    requires e.Operated? ==> e.owner != owner
    ensures LastGrant(log + [e], key, owner) == LastGrant(log, key, owner)
    ensures NeverCompletedBy(log, key, owner) ==> NeverCompletedBy(log + [e], key, owner)
    ensures !Owns(Replay(log), key, owner) ==> !Owns(Replay(log + [e]), key, owner)
  {
    assert (log + [e])[..|log|] == log;
  }

  /** The owner's own log facts after its operation. */
  lemma OwnStep(log: seq<Event>, e: Event)
    requires e.Operated?
    ensures Grants(Replay(log), e, e.key, e.owner) ==> LastGrant(log + [e], e.key, e.owner).Some?
    ensures e.op != Release && LastGrant(log, e.key, e.owner).Some? ==> LastGrant(log + [e], e.key, e.owner).Some?
    ensures e.op != Complete && NeverCompletedBy(log, e.key, e.owner) ==> NeverCompletedBy(log + [e], e.key, e.owner)
  {
    assert (log + [e])[..|log|] == log;
  }

  lemma FirstsStay(log: seq<Event>, e: Event, key: Key, owner: Owner)
    requires HasFirst(log, key, owner)
    ensures HasFirst(log + [e], key, owner)
  {
    var i :| 0 <= i < |log| && IsFirst(log, i, key, owner);
    assert (log + [e])[..i] == log[..i];
    assert IsFirst(log + [e], i, key, owner);
  }

  lemma FirstsAreNotFresh(log: seq<Event>, key: Key, owner: Owner)
    requires HasFirst(log, key, owner)
    ensures !Fresh(log, owner)
  {
    var i :| 0 <= i < |log| && IsFirst(log, i, key, owner);
    assert log[i].Operated? && log[i].op.Acquire?;
  }

  lemma NotFreshStays(log: seq<Event>, n: nat, m: nat, owner: Owner)
    requires n <= m <= |log| && !Fresh(log[..n], owner)
    ensures !Fresh(log[..m], owner)
  {
    var i :| 0 <= i < n && log[..n][i].Operated? && log[..n][i].op.Acquire? && log[..n][i].owner == owner;
    assert log[..m][i] == log[..n][i];
  }

  /** An owner without a claim gets none back, once he has claimed. */
  lemma GoneStays(log: seq<Event>, e: Event, slack: real, key: Key, owner: Owner)
    requires Gone(log, key, owner) && Follows(log, e, slack)
    ensures Gone(log + [e], key, owner)
  {
    ReplayAppend(log, e);
    assert (log + [e])[..|log|] == log;
    NotFreshStays(log + [e], |log|, |log| + 1, owner);
    assert (log + [e])[..|log| + 1] == log + [e];
  }

  lemma {:induction false} GoneForGood(log: seq<Event>, n: nat, slack: real, key: Key, owner: Owner)
    requires Legal(log, slack) && n <= |log| && Gone(log[..n], key, owner)
    ensures Gone(log, key, owner)
    decreases |log| - n
  {
    if n == |log| {
      assert log[..n] == log;
    } else {
      LegalPrefix(log, n, slack);
      GoneStays(log[..n], log[n], slack, key, owner);
      assert log[..n + 1] == log[..n] + [log[n]];
      GoneForGood(log, n + 1, slack, key, owner);
    }
  }

  // ------------------------------------------------------------------ steps of the store

  lemma NextIsVouched(d: Attempts, s: Store, e: Event)
    requires forall key | key in s :: Vouched(d, key, s[key])
    requires e.Operated? ==> OwnKey(d, e.owner, e.key) && (e.op == Complete ==> Fed(d, e.owner, e.key))
    ensures forall key | key in Next(s, e) :: Vouched(d, key, Next(s, e)[key])
  {
  }

  lemma AppendKeepsHistory(w: World, v: World, e: Event)
    requires HistoryInv(w) && v.d == w.d && v.h.log == w.h.log + [e]
    requires e.Operated? ==> OwnKey(w.d, e.owner, e.key) && (e.op == Complete ==> Fed(w.d, e.owner, e.key))
    ensures HistoryInv(v)
  {
    var log := w.h.log;
    forall n | 0 <= n <= |v.h.log| ensures VouchedAt(v, n) {
      if n <= |log| {
        assert VouchedAt(w, n) && v.h.log[..n] == log[..n];
      } else {
        assert VouchedAt(w, |log|) && log[..|log|] == log && v.h.log[..n] == log + [e];
        ReplayAppend(log, e);
        NextIsVouched(w.d, Replay(log), e);
      }
    }
    forall o | o in v.d.entered ensures HasFirst(v.h.log, v.d.entered[o], o) {
      FirstsStay(log, e, w.d.entered[o], o);
    }
  }

  /** v is w with e appended to the history, and its call, if it has one, answered. */
  ghost predicate Appended(su: Setup, w: World, v: World, e: Event, id: nat) {
    && v.d == w.d && v.h.log == w.h.log + [e] && Follows(w.h.log, e, su.slack)
    && (if e.Operated? then
          && id in w.h.calls
          && var c := w.h.calls[id];
             && c.answer == H.Pending && e.key == c.key && e.owner == c.owner && e.op == c.op
             && v.h.calls ==
                  w.h.calls[id := c.(answer := H.Given(H.ReplyAt(w.h.log, c, |w.h.log|, e.now), |w.h.log|, e.now))]
        else v.h.calls == w.h.calls)
  }

  lemma OthersPullKeeps(su: Setup, w: World, v: World, e: Event, id: nat, owner: Owner)
    requires Appended(su, w, v, e, id) && (e.Operated? ==> e.owner != owner)
    requires owner in w.d.pulls && PullInv(w, owner)
    ensures PullInv(v, owner)
  {
    var a := w.d.pulls[owner];
    OthersKeepTheirs(w.h.log, e, a.key, owner);
    if a.at == Claiming && HasReply(v, owner, Claimed(First)) { FirstsStay(w.h.log, e, a.key, owner); }
  }

  lemma OthersPushKeeps(su: Setup, w: World, v: World, e: Event, id: nat, owner: Owner)
    requires Appended(su, w, v, e, id) && (e.Operated? ==> e.owner != owner)
    requires owner in w.d.pushes && PushInv(w, owner)
    ensures PushInv(v, owner)
  {
    var p := w.d.pushes[owner];
    OthersKeepTheirs(w.h.log, e, p.key, owner);
    if p.at == PushClaiming && HasReply(v, owner, Claimed(First)) { FirstsStay(w.h.log, e, p.key, owner); }
    if !Fresh(w.h.log, owner) {
      assert v.h.log[..|w.h.log|] == w.h.log && v.h.log[..|v.h.log|] == v.h.log;
      NotFreshStays(v.h.log, |w.h.log|, |v.h.log|, owner);
    }
  }

  lemma OwnClaimTakesEffect(su: Setup, w: World, v: World, e: Event, id: nat, key: Key)
    requires Appended(su, w, v, e, id) && e.Operated? && e.op.Acquire? && e.key == key && VouchedAt(w, |w.h.log|)
    requires IsCurrent(w.d, e.owner, id) && ClaimInv(w, e.owner, key)
    ensures ClaimInv(v, e.owner, key)
  {
    var log := w.h.log;
    OwnStep(log, e);
    assert log[..|log|] == log && v.h.log[..|log|] == log;
    if HasReply(v, e.owner, Claimed(First)) {
      assert IsFirst(v.h.log, |log|, key, e.owner);
    }
    if HasReply(v, e.owner, Claimed(Completed)) {
      assert key in Replay(log) && Replay(log)[key].completed;
      assert Vouched(w.d, key, Replay(log)[key]);
    }
  }

  lemma OwnPullKeeps(su: Setup, w: World, v: World, e: Event, id: nat)
    requires Appended(su, w, v, e, id) && e.Operated? && e.owner in w.d.pulls && e.owner !in w.d.pushes
    requires PullInv(w, e.owner) && CallInv(w, id) && VouchedAt(w, |w.h.log|)
    ensures PullInv(v, e.owner)
  {
    var a := w.d.pulls[e.owner];
    assert PullCallOk(w.d, id, w.h.calls[id]) && e.key == a.key;
    OwnStep(w.h.log, e);
    if a.at == Claiming {
      OwnClaimTakesEffect(su, w, v, e, id, a.key);
    }
  }

  /** Nothing is left of a claim its owner has given back, whatever the owner does next. */
  lemma GoneAfter(su: Setup, w: World, v: World, e: Event, id: nat, key: Key)
    requires Appended(su, w, v, e, id) && e.Operated? && e.key == key
    ensures Gone(w.h.log, key, e.owner) ==> Gone(v.h.log, key, e.owner)
    ensures !Fresh(w.h.log, e.owner) ==> !Fresh(v.h.log, e.owner)
    ensures e.op == Release && !Fresh(w.h.log, e.owner) ==> Gone(v.h.log, key, e.owner)
  {
    var log := w.h.log;
    assert v.h.log[..|log|] == log && v.h.log[..|v.h.log|] == v.h.log;
    if !Fresh(log, e.owner) {
      NotFreshStays(v.h.log, |log|, |v.h.log|, e.owner);
      ReplayAppend(log, e);
    }
    if Gone(log, key, e.owner) {
      GoneStays(log, e, su.slack, key, e.owner);
    }
  }

  lemma OwnPushKeeps(su: Setup, w: World, v: World, e: Event, id: nat)
    requires Appended(su, w, v, e, id) && e.Operated? && e.owner in w.d.pushes && e.owner !in w.d.pulls
    requires PushInv(w, e.owner) && CallInv(w, id) && VouchedAt(w, |w.h.log|)
    ensures PushInv(v, e.owner)
  {
    var p, c := w.d.pushes[e.owner], w.h.calls[id];
    assert PushCallOk(w.d, w.h.log, id, c) && e.key == p.key;
    OwnStep(w.h.log, e);
    GoneAfter(su, w, v, e, id, p.key);
    if p.at == PushClaiming {
      OwnClaimTakesEffect(su, w, v, e, id, p.key);
    }
    if e.op == Release {
      NotFreshStays(w.h.log, c.start, |w.h.log|, e.owner);
      assert w.h.log[..|w.h.log|] == w.h.log;
    }
  }

  lemma CallsStayOk(w: World, v: World)
    requires v.d == w.d && w.h.log <= v.h.log && v.h.calls.Keys == w.h.calls.Keys
    requires forall id | id in w.h.calls :: CallInv(w, id)
    requires forall id | id in w.h.calls :: v.h.calls[id] == w.h.calls[id].(answer := v.h.calls[id].answer)
    ensures forall id | id in v.h.calls :: CallInv(v, id)
  {
    forall id | id in v.h.calls ensures CallInv(v, id) {
      assert CallInv(w, id);
      var c := w.h.calls[id];
      if c.start <= |w.h.log| { assert v.h.log[..c.start] == w.h.log[..c.start]; }
    }
  }

  lemma AppendKeepsInv(su: Setup, w: World, v: World, e: Event, id: nat)
    requires Inv(su, w) && Appended(su, w, v, e, id) && H.Inv(su.slack, v.h)
    ensures Inv(su, v)
  {
    if e.Operated? { assert CallInv(w, id); }
    assert VouchedAt(w, |w.h.log|);
    AppendKeepsHistory(w, v, e);
    CallsStayOk(w, v);
    forall owner | owner in v.d.pulls ensures PullInv(v, owner) {
      assert PullInv(w, owner);
      if e.Operated? && e.owner == owner {
        OwnPullKeeps(su, w, v, e, id);
      } else {
        OthersPullKeeps(su, w, v, e, id, owner);
      }
    }
    forall owner | owner in v.d.pushes ensures PushInv(v, owner) {
      assert PushInv(w, owner);
      if e.Operated? && e.owner == owner {
        OwnPushKeeps(su, w, v, e, id);
      } else {
        OthersPushKeeps(su, w, v, e, id, owner);
      }
    }
  }

  lemma RecalledClaim(su: Setup, w: World, id: nat, at: nat, read: real)
    requires Inv(su, w) && H.Enabled(su.slack, w.h, H.Recall(id, at, read)) && w.h.calls[id].op.Acquire?
    ensures
      var reply := H.ReplyAt(w.h.log, w.h.calls[id], at, read);
      && reply != Claimed(First)
      && (reply == Claimed(Completed) ==> Dispatched(w.d, w.h.calls[id].key))
  {
    var c := w.h.calls[id];
    var s := Replay(w.h.log[..at]);
    if ReplyTo(s, c.key, c.owner, c.op, read) == Claimed(First) {
      H.FirstsChangeTheStore(s, c.key, c.owner, c.op, read);
    }
    if ReplyTo(s, c.key, c.owner, c.op, read) == Claimed(Completed) {
      assert VouchedAt(w, at) && Vouched(w.d, c.key, s[c.key]);
    }
  }

  lemma RecalledRelease(su: Setup, w: World, id: nat, at: nat, read: real)
    requires Inv(su, w) && H.Enabled(su.slack, w.h, H.Recall(id, at, read)) && w.h.calls[id].op.Release?
    requires w.h.calls[id].owner in w.d.pushes
    ensures Gone(w.h.log, w.h.calls[id].key, w.h.calls[id].owner)
  {
    var c, log := w.h.calls[id], w.h.log;
    assert CallInv(w, id) && PushCallOk(w.d, log, id, c);
    assert H.Unchanging(log, c, at, read);
    assert Effect(Replay(log[..at]), c.key, c.owner, c.op, read, 0.0) == Replay(log[..at]);
    NotFreshStays(log, c.start, at, c.owner);
    GoneForGood(log, at, su.slack, c.key, c.owner);
  }

  /** v is w with call id answered as of a moment at which it changed nothing. */
  ghost predicate Recalled(w: World, v: World, id: nat) {
    && v.d == w.d && v.h.log == w.h.log && id in w.h.calls && id in v.h.calls && w.h.calls[id].answer == H.Pending
    && v.h.calls == w.h.calls[id := w.h.calls[id].(answer := v.h.calls[id].answer)] && v.h.calls[id].answer.Given?
    && var c, reply := w.h.calls[id], v.h.calls[id].answer.reply;
       && (c.op.Acquire? ==> reply != Claimed(First) && (reply == Claimed(Completed) ==> Dispatched(w.d, c.key)))
       && (c.op.Release? && c.owner in w.d.pushes ==> Gone(w.h.log, c.key, c.owner))
  }

  lemma RecallKeepsPull(w: World, v: World, id: nat, owner: Owner)
    requires Recalled(w, v, id) && CallInv(w, id) && owner in w.d.pulls && PullInv(w, owner)
    ensures PullInv(v, owner)
  {
  }

  lemma RecallKeepsPush(w: World, v: World, id: nat, owner: Owner)
    requires Recalled(w, v, id) && CallInv(w, id) && owner in w.d.pushes && PushInv(w, owner)
    ensures PushInv(v, owner)
  {
  }

  lemma RecallIsRecalled(su: Setup, w: World, id: nat, at: nat, read: real)
    requires Inv(su, w) && H.Enabled(su.slack, w.h, H.Recall(id, at, read))
    ensures Recalled(w, World(H.Do(su.slack, w.h, H.Recall(id, at, read)), w.d), id)
  {
    if w.h.calls[id].op.Acquire? { RecalledClaim(su, w, id, at, read); }
    if w.h.calls[id].op.Release? && w.h.calls[id].owner in w.d.pushes { RecalledRelease(su, w, id, at, read); }
  }

  lemma RecallKeepsInv(su: Setup, w: World, id: nat, at: nat, read: real)
    requires Inv(su, w) && H.Enabled(su.slack, w.h, H.Recall(id, at, read))
    requires H.Inv(su.slack, H.Do(su.slack, w.h, H.Recall(id, at, read)))
    ensures Inv(su, World(H.Do(su.slack, w.h, H.Recall(id, at, read)), w.d))
  {
    var v := World(H.Do(su.slack, w.h, H.Recall(id, at, read)), w.d);
    CallsStayOk(w, v);
    assert CallInv(w, id);
    RecallIsRecalled(su, w, id, at, read);
    forall n | 0 <= n <= |v.h.log| ensures VouchedAt(v, n) { assert VouchedAt(w, n); }
    forall owner | owner in v.d.pulls ensures PullInv(v, owner) { RecallKeepsPull(w, v, id, owner); }
    forall owner | owner in v.d.pushes ensures PushInv(v, owner) { RecallKeepsPush(w, v, id, owner); }
  }

  lemma TickKeepsPull(w: World, v: World, owner: Owner)
    requires v == World(w.h.(now := v.h.now), w.d) && owner in w.d.pulls && PullInv(w, owner)
    ensures PullInv(v, owner)
  {
  }

  lemma TickKeepsPush(w: World, v: World, owner: Owner)
    requires v == World(w.h.(now := v.h.now), w.d) && owner in w.d.pushes && PushInv(w, owner)
    ensures PushInv(v, owner)
  {
  }

  lemma TickKeepsInv(su: Setup, w: World, v: World)
    requires Inv(su, w) && v == World(w.h.(now := v.h.now), w.d) && H.Inv(su.slack, v.h)
    ensures Inv(su, v)
  {
    CallsStayOk(w, v);
    forall n | 0 <= n <= |v.h.log| ensures VouchedAt(v, n) { assert VouchedAt(w, n); }
    forall owner | owner in v.d.pulls ensures PullInv(v, owner) { TickKeepsPull(w, v, owner); }
    forall owner | owner in v.d.pushes ensures PushInv(v, owner) { TickKeepsPush(w, v, owner); }
  }

  lemma EffectAppends(su: Setup, w: World, id: nat, stamp: real)
    requires H.Inv(su.slack, w.h) && H.Enabled(su.slack, w.h, H.TakeEffect(id, stamp))
    ensures Appended(su, w, World(H.Do(su.slack, w.h, H.TakeEffect(id, stamp)), w.d), H.EventOf(w.h, id, stamp), id)
  {
    H.EventFollows(su.slack, w.h, H.TakeEffect(id, stamp));
  }

  lemma StoreStepKeepsInv(su: Setup, w: World, act: H.Action)
    requires Inv(su, w) && Enabled(su, w, Store(act))
    ensures Inv(su, Do(su, w, Store(act)))
  {
    var v := World(H.Do(su.slack, w.h, act), w.d);
    H.StepKeepsInv(su.slack, w.h, act);
    match act {
      case Tick(_) => TickKeepsInv(su, w, v);
      case TakeEffect(id, stamp) =>
        EffectAppends(su, w, id, stamp);
        AppendKeepsInv(su, w, v, H.EventOf(w.h, id, stamp), id);
      case Recall(id, at, read) => RecallKeepsInv(su, w, id, at, read);
      case Lapse(key) => AppendKeepsInv(su, w, v, Lapsed(key, w.h.now), 0);
      case Forget(key) => AppendKeepsInv(su, w, v, Forgot(key, w.h.now), 0);
    }
  }

  // ------------------------------------------------------------------ steps of the attempts

  predicate FedGrows(d: Attempts, v: Attempts) {
    forall o | o in d.fed :: o in v.fed && v.fed[o] == d.fed[o]
  }

  lemma StillDispatched(d: Attempts, v: Attempts, key: Key)
    requires FedGrows(d, v) && Dispatched(d, key)
    ensures Dispatched(v, key)
  {
    var o :| o in d.fed && d.fed[o] == key;
    assert o in v.fed;
  }

  /** The attempts other than owner's are the same, and what is known of dispatches has grown. */
  ghost predicate OthersStay(d: Attempts, v: Attempts, owner: Owner) {
    && v.pulls.Keys !! v.pushes.Keys
    && (forall o | o in d.pulls :: o in v.pulls && v.pulls[o].key == d.pulls[o].key)
    && (forall o | o in d.pushes ::
          o in v.pushes && v.pushes[o].key == d.pushes[o].key && v.pushes[o].tracked == d.pushes[o].tracked)
    && (forall o | o in v.pulls && o != owner :: o in d.pulls && v.pulls[o] == d.pulls[o])
    && (forall o | o in v.pushes && o != owner :: o in d.pushes && v.pushes[o] == d.pushes[o])
    && FedGrows(d, v)
    && (forall o | o in v.fed :: o in d.fed || OwnKey(v, o, v.fed[o]))
    && (forall o | o != owner ::
          (o in v.current <==> o in d.current) && (o in d.current ==> v.current[o] == d.current[o]))
    && (forall o | o in v.entered && o != owner :: o in d.entered && v.entered[o] == d.entered[o])
  }

  /** The history is the same but for a new call of owner's, if there is one. */
  ghost predicate MayCall(h: H.History, g: H.History, owner: Owner, id: nat) {
    && g.log == h.log && g.now == h.now && id !in h.calls
    && (g.calls == h.calls
        || (id in g.calls && g.calls == h.calls[id := g.calls[id]]
            && g.calls[id].owner == owner && g.calls[id].answer == H.Pending))
  }

  lemma OtherPullStays(w: World, v: World, owner: Owner, id: nat, o: Owner)
    requires OthersStay(w.d, v.d, owner) && MayCall(w.h, v.h, owner, id)
    requires o != owner && o in w.d.pulls && PullInv(w, o)
    ensures PullInv(v, o)
  {
  }

  lemma OtherPushStays(w: World, v: World, owner: Owner, id: nat, o: Owner)
    requires OthersStay(w.d, v.d, owner) && MayCall(w.h, v.h, owner, id)
    requires o != owner && o in w.d.pushes && PushInv(w, o)
    ensures PushInv(v, o)
  {
  }

  lemma OtherCallStays(w: World, v: World, owner: Owner, id: nat, i: nat)
    requires OthersStay(w.d, v.d, owner) && MayCall(w.h, v.h, owner, id)
    requires i in v.h.calls && v.h.calls[i].owner != owner && (i in w.h.calls ==> CallInv(w, i))
    ensures CallInv(v, i)
  {
  }

  lemma MoveKeepsHistory(w: World, v: World, owner: Owner)
    requires HistoryInv(w) && OthersStay(w.d, v.d, owner) && v.h.log == w.h.log
    requires owner in v.d.entered ==> HasFirst(v.h.log, v.d.entered[owner], owner)
    ensures HistoryInv(v)
  {
    forall n | 0 <= n <= |v.h.log| ensures VouchedAt(v, n) {
      assert VouchedAt(w, n);
      forall key | key in Replay(v.h.log[..n]) ensures Vouched(v.d, key, Replay(v.h.log[..n])[key]) {
        assert Vouched(w.d, key, Replay(w.h.log[..n])[key]);
      }
    }
    forall o | o in v.d.fed ensures OwnKey(v.d, o, v.d.fed[o]) {
      if o in w.d.fed { assert OwnKey(w.d, o, w.d.fed[o]); }
    }
  }

  /** It is enough to look at the attempt that moved and at its calls. */
  lemma MoveKeepsInv(su: Setup, w: World, v: World, owner: Owner, id: nat)
    requires Inv(su, w) && H.Inv(su.slack, v.h)
    requires OthersStay(w.d, v.d, owner) && MayCall(w.h, v.h, owner, id)
    requires owner in v.d.entered ==> HasFirst(v.h.log, v.d.entered[owner], owner)
    requires owner in v.d.pulls ==> PullInv(v, owner)
    requires owner in v.d.pushes ==> PushInv(v, owner)
    requires forall i | i in v.h.calls && v.h.calls[i].owner == owner :: CallInv(v, i)
    ensures Inv(su, v)
  {
    MoveKeepsHistory(w, v, owner);
    forall i | i in v.h.calls ensures CallInv(v, i) {
      if v.h.calls[i].owner != owner { OtherCallStays(w, v, owner, id, i); }
    }
    forall o | o in v.d.pulls ensures PullInv(v, o) {
      if o != owner { OtherPullStays(w, v, owner, id, o); }
    }
    forall o | o in v.d.pushes ensures PushInv(v, o) {
      if o != owner { OtherPushStays(w, v, owner, id, o); }
    }
  }

  lemma FirstsAreOwned(w: World, key: Key, owner: Owner)
    requires HistoryInv(w) && HasFirst(w.h.log, key, owner)
    ensures OwnKey(w.d, owner, key)
  {
    var i :| 0 <= i < |w.h.log| && IsFirst(w.h.log, i, key, owner);
    assert w.h.log[i].Operated?;
  }

  /** Nothing is known of an owner that has not arrived. */
  lemma Strangers(su: Setup, w: World, owner: Owner)
    requires Inv(su, w) && owner !in w.d.pulls && owner !in w.d.pushes
    ensures H.Stranger(w.h, owner) && owner !in w.d.fed && owner !in w.d.entered
  {
    forall id | id in w.h.calls ensures w.h.calls[id].owner != owner { assert CallInv(w, id); }
    if owner in w.d.entered {
      FirstsAreOwned(w, w.d.entered[owner], owner);
    }
  }

  lemma AnswersAreReplies(w: World, owner: Owner)
    ensures
      var reply := Answer(Replied(w.h), w.d.current, owner);
      reply.Some? ==> HasReply(w, owner, reply.value)
  {
  }

  /** What one resumption of a pull attempt can do. */
  lemma ResumeFacts(cfg: Config, a: Attempt, o: Outcome)
    ensures
      var b := Resume(cfg, a, o);
      && b.key == a.key && b.at != Claiming
      && (InDispatch(b.at) ==>
            && !a.at.Completing?
            && (InDispatch(a.at) || (a.at == Claiming && o == Answered(First, true) && b.at == Feeding)))
      && (InDispatch(b.at) && b.at != Feeding ==> InDispatch(a.at) && (a.at == Feeding ==> o == Returned))
      && (Ack in b.trace && Ack !in a.trace ==>
            (a.at == Claiming && o.Answered? && o.result == Completed) || a.at.Completing?)
  {
    NewAcks(cfg, a, o);
  }

  lemma NewAcks(cfg: Config, a: Attempt, o: Outcome)
    ensures Ack in Resume(cfg, a, o).trace && Ack !in a.trace ==>
      (a.at == Claiming && o.Answered? && o.result == Completed) || a.at.Completing?
  {
  }

  /** The attempt owner is at its next await, with the call that await needs, if any. */
  ghost predicate PullGoesOn(w: World, v: World, owner: Owner, id: nat) {
    && owner in w.d.pulls && owner in v.d.pulls && id !in w.h.calls
    && var a, b := w.d.pulls[owner], v.d.pulls[owner];
       && b.key == a.key && FedGrows(w.d, v.d) && v.h.log == w.h.log
       && (if UsesStorage(b.at) then
             && IsCurrent(v.d, owner, id)
             && v.h.calls ==
                  w.h.calls[id := H.Call(a.key, owner, PullOp(b.at), w.h.now, |w.h.log|, H.Pending)]
           else v.h.calls == w.h.calls)
  }

  /** Why it is there. */
  ghost predicate PullResumed(cfg: Config, w: World, v: World, owner: Owner, o: Outcome)
    requires owner in w.d.pulls && owner in v.d.pulls
  {
    var a := w.d.pulls[owner];
    && v.d.pulls[owner] == Resume(cfg, a, o)
    && (a.at == Feeding && o == Returned ==> Fed(v.d, owner, a.key))
    && (a.at == Claiming && o.Answered? ==> HasReply(w, owner, Claimed(o.result)))
  }

  lemma PullGoesOnOk(cfg: Config, w: World, v: World, owner: Owner, o: Outcome, id: nat)
    requires PullGoesOn(w, v, owner, id) && PullResumed(cfg, w, v, owner, o) && PullInv(w, owner)
    ensures PullInv(v, owner)
  {
    var a, b := w.d.pulls[owner], v.d.pulls[owner];
    ResumeFacts(cfg, a, o);
    if Ack in b.trace {
      if a.at.Completing? { assert Fed(v.d, owner, a.key); }
      else if Dispatched(w.d, a.key) { StillDispatched(w.d, v.d, a.key); }
    }
  }

  lemma PullCallsGoOn(cfg: Config, w: World, v: World, owner: Owner, o: Outcome, id: nat, i: nat)
    requires PullGoesOn(w, v, owner, id) && PullResumed(cfg, w, v, owner, o) && PullInv(w, owner)
    requires i in v.h.calls && v.h.calls[i].owner == owner && owner !in v.d.pushes && owner !in w.d.pushes
    requires i in w.h.calls ==> CallInv(w, i)
    ensures CallInv(v, i)
  {
    ResumeFacts(cfg, w.d.pulls[owner], o);
  }

  lemma PullGoesOnKeepsInv(su: Setup, w: World, v: World, owner: Owner, o: Outcome, id: nat)
    requires Inv(su, w) && PullGoesOn(w, v, owner, id) && PullResumed(su.cfg, w, v, owner, o) && H.Inv(su.slack, v.h)
    requires OthersStay(w.d, v.d, owner) && MayCall(w.h, v.h, owner, id) && owner !in v.d.pushes
    requires owner in v.d.entered ==> HasFirst(v.h.log, v.d.entered[owner], owner)
    ensures Inv(su, v)
  {
    PullGoesOnOk(su.cfg, w, v, owner, o, id);
    forall i | i in v.h.calls && v.h.calls[i].owner == owner ensures CallInv(v, i) {
      PullCallsGoOn(su.cfg, w, v, owner, o, id, i);
    }
    MoveKeepsInv(su, w, v, owner, id);
  }

  lemma KnownOf(su: Setup, w: World, owner: Owner)
    requires Inv(su, w)
    ensures owner in w.d.pulls ==> owner !in w.d.pushes && PullInv(w, owner)
    ensures owner in w.d.pushes ==> owner !in w.d.pulls && PushInv(w, owner)
    ensures owner in w.d.fed ==> OwnKey(w.d, owner, w.d.fed[owner])
    ensures owner in w.d.entered ==> HasFirst(w.h.log, w.d.entered[owner], owner)
  {
  }

  /** The history after a pull attempt has got to its next await. */
  ghost function PullCalled(su: Setup, h: H.History, owner: Owner, b: Attempt, id: nat): H.History {
    if UsesStorage(b.at) then H.Do(su.slack, h, H.Invoke(id, b.key, owner, PullOp(b.at))) else h
  }

  lemma PullCallKeepsInv(su: Setup, h: H.History, owner: Owner, b: Attempt, id: nat)
    requires H.Inv(su.slack, h) && id !in h.calls && b.at != Claiming
    ensures H.Inv(su.slack, PullCalled(su, h, owner, b, id))
    ensures MayCall(h, PullCalled(su, h, owner, b, id), owner, id)
  {
    if UsesStorage(b.at) {
      H.StepKeepsInv(su.slack, h, H.Invoke(id, b.key, owner, PullOp(b.at)));
    }
  }

  lemma ArrivalGoesOn(su: Setup, w: World, v: World, owner: Owner, b: Attempt, id: nat)
    requires owner in w.d.pulls && id !in w.h.calls && b.key == w.d.pulls[owner].key
    requires w.d.pulls.Keys !! w.d.pushes.Keys && (owner in w.d.fed ==> OwnKey(w.d, owner, w.d.fed[owner]))
    requires v.d == WithPull(w.d, owner, b, id).(fed := v.d.fed, entered := v.d.entered)
    requires v.d.fed == w.d.fed || v.d.fed == w.d.fed[owner := b.key]
    requires forall o | o in v.d.entered && o != owner :: o in w.d.entered && v.d.entered[o] == w.d.entered[o]
    requires v.h == PullCalled(su, w.h, owner, b, id)
    ensures PullGoesOn(w, v, owner, id) && OthersStay(w.d, v.d, owner)
  {
  }

  /** What is new of an attempt that has resumed under its claim is backed by the history. */
  lemma PullEntersKnown(w: World, v: World, owner: Owner, o: Outcome, b: Attempt)
    requires owner in w.d.pulls && PullInv(w, owner) && v.h.log == w.h.log && b.key == w.d.pulls[owner].key
    requires owner in w.d.entered ==> HasFirst(w.h.log, w.d.entered[owner], owner)
    requires w.d.pulls[owner].at == Claiming && b.at == Feeding ==> HasReply(w, owner, Claimed(First))
    requires v.d.entered ==
      if w.d.pulls[owner].at == Claiming && b.at == Feeding then w.d.entered[owner := b.key] else w.d.entered
    ensures owner in v.d.entered ==> HasFirst(v.h.log, v.d.entered[owner], owner)
  {
  }

  /** The attempt resumed to b by outcome o, made the call b needs, and is on record as far as
      that shows. */
  ghost predicate PullArrived(su: Setup, w: World, v: World, owner: Owner, o: Outcome, b: Attempt, id: nat) {
    && owner in w.d.pulls && id !in w.h.calls && b == Resume(su.cfg, w.d.pulls[owner], o)
    && (w.d.pulls[owner].at == Claiming && o.Answered? ==> HasReply(w, owner, Claimed(o.result)))
    && v.h == PullCalled(su, w.h, owner, b, id)
    && v.d == WithPull(w.d, owner, b, id).(fed := v.d.fed, entered := v.d.entered)
    && v.d.fed == (if w.d.pulls[owner].at == Feeding && o == Returned then w.d.fed[owner := b.key] else w.d.fed)
    && v.d.entered ==
         (if w.d.pulls[owner].at == Claiming && b.at == Feeding then w.d.entered[owner := b.key] else w.d.entered)
  }

  lemma PullArrivesKnown(su: Setup, w: World, v: World, owner: Owner, o: Outcome, b: Attempt, id: nat)
    requires PullArrived(su, w, v, owner, o, b, id) && H.Inv(su.slack, w.h) && PullInv(w, owner)
    requires w.d.pulls.Keys !! w.d.pushes.Keys && (owner in w.d.fed ==> OwnKey(w.d, owner, w.d.fed[owner]))
    requires owner in w.d.entered ==> HasFirst(w.h.log, w.d.entered[owner], owner)
    ensures PullGoesOn(w, v, owner, id) && PullResumed(su.cfg, w, v, owner, o)
    ensures OthersStay(w.d, v.d, owner) && MayCall(w.h, v.h, owner, id) && H.Inv(su.slack, v.h)
    ensures owner in v.d.entered ==> HasFirst(v.h.log, v.d.entered[owner], owner)
  {
    ResumeFacts(su.cfg, w.d.pulls[owner], o);
    ArrivalGoesOn(su, w, v, owner, b, id);
    PullCallKeepsInv(su, w.h, owner, b, id);
    PullEntersKnown(w, v, owner, o, b);
  }

  lemma PullArrives(su: Setup, w: World, v: World, owner: Owner, o: Outcome, b: Attempt, id: nat)
    requires Inv(su, w) && PullArrived(su, w, v, owner, o, b, id)
    ensures Inv(su, v)
  {
    KnownOf(su, w, owner);
    PullArrivesKnown(su, w, v, owner, o, b, id);
    PullGoesOnKeepsInv(su, w, v, owner, o, id);
  }

  lemma PullReturnArrives(su: Setup, w: World, owner: Owner, io: Io, parsed: bool, id: nat)
    requires Enabled(su, w, Local(PullReturn(owner, io, parsed), id))
    ensures
      var v := Do(su, w, Local(PullReturn(owner, io, parsed), id));
      var o := OutcomeOf(io, Answer(Replied(w.h), w.d.current, owner), parsed);
      owner in v.d.pulls && PullArrived(su, w, v, owner, o, v.d.pulls[owner], id)
  {
    ResumeFacts(su.cfg, w.d.pulls[owner], OutcomeOf(io, Answer(Replied(w.h), w.d.current, owner), parsed));
    AnswersAreClaims(w, owner, io, parsed);
  }

  lemma AnswersAreClaims(w: World, owner: Owner, io: Io, parsed: bool)
    ensures
      var o := OutcomeOf(io, Answer(Replied(w.h), w.d.current, owner), parsed);
      o.Answered? ==> HasReply(w, owner, Claimed(o.result))
  {
    AnswersAreReplies(w, owner);
  }

  lemma PullReturnKeepsInv(su: Setup, w: World, owner: Owner, io: Io, parsed: bool, id: nat)
    requires Inv(su, w) && Enabled(su, w, Local(PullReturn(owner, io, parsed), id))
    ensures Inv(su, Do(su, w, Local(PullReturn(owner, io, parsed), id)))
  {
    var v := Do(su, w, Local(PullReturn(owner, io, parsed), id));
    PullReturnArrives(su, w, owner, io, parsed, id);
    PullArrives(su, w, v, owner, OutcomeOf(io, Answer(Replied(w.h), w.d.current, owner), parsed), v.d.pulls[owner], id);
  }

  lemma PullStepKeepsInv(su: Setup, w: World, owner: Owner, outcome: Outcome, id: nat)
    requires Inv(su, w) && Enabled(su, w, Local(PullStep(owner, outcome), id))
    ensures Inv(su, Do(su, w, Local(PullStep(owner, outcome), id)))
  {
    var v := Do(su, w, Local(PullStep(owner, outcome), id));
    ResumeFacts(su.cfg, w.d.pulls[owner], outcome);
    PullArrives(su, w, v, owner, outcome, v.d.pulls[owner], id);
  }

  lemma DeliveredOk(w: World, v: World, owner: Owner, key: Key, delivery: Option<int>, id: nat)
    requires owner in v.d.pulls && v.d.pulls[owner] == Start(key, delivery) && owner !in v.d.pushes
    requires IsCurrent(v.d, owner, id) && id in v.h.calls && NeverCompletedBy(v.h.log, key, owner)
    requires v.h.calls[id] == H.Call(key, owner, Acquire(PULL_LEASE), v.h.now, |v.h.log|, H.Pending)
    ensures PullInv(v, owner) && CallInv(v, id)
  {
  }

  lemma DeliverKeepsInv(su: Setup, w: World, owner: Owner, key: Key, delivery: Option<int>, id: nat)
    requires Inv(su, w) && Enabled(su, w, Local(Deliver(owner, key, delivery), id))
    ensures Inv(su, Do(su, w, Local(Deliver(owner, key, delivery), id)))
  {
    var v := Do(su, w, Local(Deliver(owner, key, delivery), id));
    Strangers(su, w, owner);
    H.StepKeepsInv(su.slack, w.h, H.Invoke(id, key, owner, Acquire(PULL_LEASE)));
    DeliveredOk(w, v, owner, key, delivery, id);
    MoveKeepsInv(su, w, v, owner, id);
  }

  /** The renewal task of a pull attempt is about to call, or the call has returned. */
  ghost predicate RenewalMoves(w: World, v: World, owner: Owner) {
    && owner in w.d.pulls && w.d.pulls[owner].renewing
    && v.d == w.d.(pulls := v.d.pulls, renewal := v.d.renewal)
    && owner in v.d.pulls && v.d.pulls == w.d.pulls[owner := w.d.pulls[owner].(renewing := v.d.pulls[owner].renewing)]
  }

  lemma RenewalKeepsPull(w: World, v: World, owner: Owner, id: nat)
    requires RenewalMoves(w, v, owner) && MayCall(w.h, v.h, owner, id) && PullInv(w, owner)
    ensures PullInv(v, owner)
  {
  }

  lemma RenewalKeepsCall(w: World, v: World, owner: Owner, id: nat, i: nat)
    requires RenewalMoves(w, v, owner) && MayCall(w.h, v.h, owner, id) && PullInv(w, owner) && owner !in w.d.pushes
    requires id in v.h.calls ==> v.h.calls[id].op == Renew(PULL_LEASE) && v.h.calls[id].key == w.d.pulls[owner].key
    requires i in v.h.calls && v.h.calls[i].owner == owner && (i in w.h.calls ==> CallInv(w, i))
    ensures CallInv(v, i)
  {
  }

  lemma RenewalKeepsInv(su: Setup, w: World, v: World, owner: Owner, id: nat)
    requires Inv(su, w) && RenewalMoves(w, v, owner) && MayCall(w.h, v.h, owner, id) && H.Inv(su.slack, v.h)
    requires id in v.h.calls ==> v.h.calls[id].op == Renew(PULL_LEASE) && v.h.calls[id].key == w.d.pulls[owner].key
    ensures Inv(su, v)
  {
    assert PullInv(w, owner);
    RenewalKeepsPull(w, v, owner, id);
    forall i | i in v.h.calls && v.h.calls[i].owner == owner ensures CallInv(v, i) {
      RenewalKeepsCall(w, v, owner, id, i);
    }
    MoveKeepsInv(su, w, v, owner, id);
  }

  lemma RenewSendKeepsInv(su: Setup, w: World, owner: Owner, id: nat)
    requires Inv(su, w) && Enabled(su, w, Local(RenewSend(owner), id))
    ensures Inv(su, Do(su, w, Local(RenewSend(owner), id)))
  {
    H.StepKeepsInv(su.slack, w.h, H.Invoke(id, w.d.pulls[owner].key, owner, Renew(PULL_LEASE)));
    RenewalKeepsInv(su, w, Do(su, w, Local(RenewSend(owner), id)), owner, id);
  }

  lemma RenewReturnKeepsInv(su: Setup, w: World, owner: Owner, io: Io, id: nat)
    requires Inv(su, w) && Enabled(su, w, Local(RenewReturn(owner, io), id))
    ensures Inv(su, Do(su, w, Local(RenewReturn(owner, io), id)))
  {
    RenewalKeepsInv(su, w, Do(su, w, Local(RenewReturn(owner, io), id)), owner, id);
  }

  /** What one resumption of a push request can do. */
  lemma ProceedFacts(p: Push, o: Outcome)
    ensures
      var q := Proceed(p, o);
      && q.key == p.key && q.tracked == p.tracked && q.at != PushClaiming
      && (q.at == Dispatching ==> p.at == PushClaiming && o.Answered? && o.result == First)
      && (q.at == PushCompleting ==> p.at == Dispatching && o == Returned && p.tracked)
      && (q.at == PushReleasing ==> p.at == Dispatching && p.tracked)
  {
  }

  /** The request owner is at its next await, with the call that await needs, if any. */
  ghost predicate PushGoesOn(w: World, v: World, owner: Owner, id: nat) {
    && owner in w.d.pushes && owner in v.d.pushes && id !in w.h.calls
    && var p, q := w.d.pushes[owner], v.d.pushes[owner];
       && q.key == p.key && q.tracked == p.tracked && FedGrows(w.d, v.d) && v.h.log == w.h.log
       && (if PushUsesStorage(q.at) then
             && IsCurrent(v.d, owner, id)
             && v.h.calls ==
                  w.h.calls[id := H.Call(p.key, owner, PushOp(q.at), w.h.now, |w.h.log|, H.Pending)]
           else v.h.calls == w.h.calls && v.d.current == w.d.current)
  }

  ghost predicate PushResumed(w: World, v: World, owner: Owner, o: Outcome)
    requires owner in w.d.pushes && owner in v.d.pushes
  {
    var p := w.d.pushes[owner];
    && v.d.pushes[owner] == Proceed(p, o)
    && (p.at == Dispatching && o == Returned && p.tracked ==> Fed(v.d, owner, p.key))
    && (p.at == PushClaiming && o.Answered? ==> HasReply(w, owner, Claimed(o.result)))
    && (p.at == PushReleasing && o == Returned ==> IsAnswered(w, owner))
  }

  lemma ClaimedPushGoesOn(w: World, v: World, owner: Owner, o: Outcome, id: nat)
    requires PushGoesOn(w, v, owner, id) && PushResumed(w, v, owner, o) && PushInv(w, owner)
    requires w.d.pushes[owner].at == PushClaiming
    ensures PushInv(v, owner)
  {
    var p := w.d.pushes[owner];
    assert ClaimInv(w, owner, p.key);
    if o.Answered? {
      match o.result {
        case First => FirstsAreNotFresh(w.h.log, p.key, owner);
        case Completed => StillDispatched(w.d, v.d, p.key);
        case Active => assert CallOf(v, owner) == CallOf(w, owner);
      }
    }
  }

  lemma DispatchedPushGoesOn(w: World, v: World, owner: Owner, o: Outcome, id: nat)
    requires PushGoesOn(w, v, owner, id) && PushResumed(w, v, owner, o) && PushInv(w, owner)
    requires w.d.pushes[owner].at == Dispatching
    ensures PushInv(v, owner)
  {
    match o { case Returned => case Cancelled => case _ => }
  }

  lemma SettledPushGoesOn(w: World, v: World, owner: Owner, o: Outcome, id: nat)
    requires PushGoesOn(w, v, owner, id) && PushResumed(w, v, owner, o) && PushInv(w, owner)
    requires w.d.pushes[owner].at == PushReleasing || w.d.pushes[owner].at == PushCompleting
    ensures PushInv(v, owner)
  {
    if w.d.pushes[owner].at == PushCompleting { assert Fed(v.d, owner, w.d.pushes[owner].key); }
  }

  lemma PushCallsGoOn(w: World, v: World, owner: Owner, o: Outcome, id: nat, i: nat)
    requires PushGoesOn(w, v, owner, id) && PushResumed(w, v, owner, o) && PushInv(w, owner)
    requires i in v.h.calls && v.h.calls[i].owner == owner && owner !in v.d.pulls && owner !in w.d.pulls
    requires i in w.h.calls ==> CallInv(w, i)
    ensures CallInv(v, i)
  {
    var p, q := w.d.pushes[owner], v.d.pushes[owner];
    ProceedFacts(p, o);
    if i !in w.h.calls {
      assert i == id && PushUsesStorage(q.at);
      assert v.h.log[..|w.h.log|] == w.h.log;
    }
  }

  lemma PushGoesOnKeepsInv(su: Setup, w: World, v: World, owner: Owner, o: Outcome, id: nat)
    requires Inv(su, w) && PushGoesOn(w, v, owner, id) && PushResumed(w, v, owner, o) && H.Inv(su.slack, v.h)
    requires !Over(w.d.pushes[owner].at)
    requires OthersStay(w.d, v.d, owner) && MayCall(w.h, v.h, owner, id) && owner !in v.d.pulls
    requires owner in v.d.entered ==> HasFirst(v.h.log, v.d.entered[owner], owner)
    ensures Inv(su, v)
  {
    match w.d.pushes[owner].at {
      case PushClaiming => ClaimedPushGoesOn(w, v, owner, o, id);
      case Dispatching => DispatchedPushGoesOn(w, v, owner, o, id);
      case PushReleasing => SettledPushGoesOn(w, v, owner, o, id);
      case PushCompleting => SettledPushGoesOn(w, v, owner, o, id);
    }
    forall i | i in v.h.calls && v.h.calls[i].owner == owner ensures CallInv(v, i) {
      PushCallsGoOn(w, v, owner, o, id, i);
    }
    MoveKeepsInv(su, w, v, owner, id);
  }

  /** The history after a push request has got to its next await. */
  ghost function PushCalled(su: Setup, h: H.History, owner: Owner, q: Push, id: nat): H.History {
    if PushUsesStorage(q.at) then H.Do(su.slack, h, H.Invoke(id, q.key, owner, PushOp(q.at))) else h
  }

  lemma PushCallKeepsInv(su: Setup, h: H.History, owner: Owner, q: Push, id: nat)
    requires H.Inv(su.slack, h) && id !in h.calls && q.at != PushClaiming
    ensures H.Inv(su.slack, PushCalled(su, h, owner, q, id))
    ensures MayCall(h, PushCalled(su, h, owner, q, id), owner, id)
  {
    if PushUsesStorage(q.at) {
      H.StepKeepsInv(su.slack, h, H.Invoke(id, q.key, owner, PushOp(q.at)));
    }
  }

  lemma RequestGoesOn(su: Setup, w: World, v: World, owner: Owner, q: Push, id: nat)
    requires owner in w.d.pushes && id !in w.h.calls
    requires q.key == w.d.pushes[owner].key && q.tracked == w.d.pushes[owner].tracked
    requires w.d.pulls.Keys !! w.d.pushes.Keys && (owner in w.d.fed ==> OwnKey(w.d, owner, w.d.fed[owner]))
    requires v.d == WithPush(w.d, owner, q, id).(fed := v.d.fed, entered := v.d.entered)
    requires v.d.fed == w.d.fed || (q.tracked && v.d.fed == w.d.fed[owner := q.key])
    requires forall o | o in v.d.entered && o != owner :: o in w.d.entered && v.d.entered[o] == w.d.entered[o]
    requires v.h == PushCalled(su, w.h, owner, q, id)
    ensures PushGoesOn(w, v, owner, id) && OthersStay(w.d, v.d, owner)
  {
  }

  ghost predicate PushOutcome(w: World, owner: Owner, o: Outcome)
    requires owner in w.d.pushes
  {
    var p := w.d.pushes[owner];
    && (p.at == PushClaiming && o.Answered? ==> HasReply(w, owner, Claimed(o.result)))
    && (p.at == PushReleasing && o == Returned ==> IsAnswered(w, owner))
  }

  lemma RepliesAreOutcomes(w: World, owner: Owner, io: Io, parsed: bool)
    requires owner in w.d.pushes && (io == Success ==> Answer(Replied(w.h), w.d.current, owner).Some?)
    ensures PushOutcome(w, owner, OutcomeOf(io, Answer(Replied(w.h), w.d.current, owner), parsed))
  {
    AnswersAreReplies(w, owner);
  }

  lemma PushProceeds(su: Setup, w: World, v: World, owner: Owner, o: Outcome, q: Push, id: nat)
    requires Inv(su, w) && owner in w.d.pushes && id !in w.h.calls && !Over(w.d.pushes[owner].at)
    requires q == Proceed(w.d.pushes[owner], o) && PushOutcome(w, owner, o)
    requires v.h == PushCalled(su, w.h, owner, q, id)
    requires v.d == WithPush(w.d, owner, q, id).(fed := v.d.fed, entered := v.d.entered)
    requires v.d.fed ==
      if w.d.pushes[owner].at == Dispatching && o == Returned && q.tracked then w.d.fed[owner := q.key] else w.d.fed
    requires v.d.entered == if q.at == Dispatching then w.d.entered[owner := q.key] else w.d.entered
    ensures Inv(su, v)
  {
    ProceedFacts(w.d.pushes[owner], o);
    KnownOf(su, w, owner);
    RequestGoesOn(su, w, v, owner, q, id);
    PushCallKeepsInv(su, w.h, owner, q, id);
    PushGoesOnKeepsInv(su, w, v, owner, o, id);
  }

  lemma PushReturnKeepsInv(su: Setup, w: World, owner: Owner, io: Io, id: nat)
    requires Inv(su, w) && Enabled(su, w, Local(PushReturn(owner, io), id))
    ensures Inv(su, Do(su, w, Local(PushReturn(owner, io), id)))
  {
    var v := Do(su, w, Local(PushReturn(owner, io), id));
    var o := OutcomeOf(io, Answer(Replied(w.h), w.d.current, owner), true);
    RepliesAreOutcomes(w, owner, io, true);
    ProceedFacts(w.d.pushes[owner], o);
    PushProceeds(su, w, v, owner, o, v.d.pushes[owner], id);
  }

  lemma PushDispatchKeepsInv(su: Setup, w: World, owner: Owner, outcome: Outcome, id: nat)
    requires Inv(su, w) && Enabled(su, w, Local(PushDispatch(owner, outcome), id))
    ensures Inv(su, Do(su, w, Local(PushDispatch(owner, outcome), id)))
  {
    var v := Do(su, w, Local(PushDispatch(owner, outcome), id));
    ProceedFacts(w.d.pushes[owner], outcome);
    PushProceeds(su, w, v, owner, outcome, v.d.pushes[owner], id);
  }

  lemma RequestedOk(v: World, owner: Owner, key: Key, tracked: bool, id: nat)
    requires owner in v.d.pushes && v.d.pushes[owner] == Open(key, tracked) && owner !in v.d.pulls
    requires NeverCompletedBy(v.h.log, key, owner)
    requires tracked ==>
      && IsCurrent(v.d, owner, id) && id in v.h.calls
      && v.h.calls[id] == H.Call(key, owner, Acquire(PUSH_LEASE), v.h.now, |v.h.log|, H.Pending)
    ensures PushInv(v, owner) && (tracked ==> CallInv(v, id))
  {
  }

  lemma RequestKeepsInv(su: Setup, w: World, owner: Owner, key: Key, tracked: bool, id: nat)
    requires Inv(su, w) && Enabled(su, w, Local(Request(owner, key, tracked), id))
    ensures Inv(su, Do(su, w, Local(Request(owner, key, tracked), id)))
  {
    var v := Do(su, w, Local(Request(owner, key, tracked), id));
    Strangers(su, w, owner);
    if tracked { H.StepKeepsInv(su.slack, w.h, H.Invoke(id, key, owner, Acquire(PUSH_LEASE))); }
    RequestedOk(v, owner, key, tracked, id);
    MoveKeepsInv(su, w, v, owner, id);
  }

  // ------------------------------------------------------------------ every run

  lemma StepKeepsInv(su: Setup, w: World, act: Action)
    requires Inv(su, w)
    ensures Inv(su, Do(su, w, act))
  {
    if Enabled(su, w, act) {
      match act {
        case Store(_) => StoreStepKeepsInv(su, w, act.act);
        case Local(Deliver(owner, key, delivery), id) => DeliverKeepsInv(su, w, owner, key, delivery, id);
        case Local(PullStep(owner, outcome), id) => PullStepKeepsInv(su, w, owner, outcome, id);
        case Local(PullReturn(owner, io, parsed), id) => PullReturnKeepsInv(su, w, owner, io, parsed, id);
        case Local(RenewSend(owner), id) => RenewSendKeepsInv(su, w, owner, id);
        case Local(RenewReturn(owner, io), id) => RenewReturnKeepsInv(su, w, owner, io, id);
        case Local(Request(owner, key, tracked), id) => RequestKeepsInv(su, w, owner, key, tracked, id);
        case Local(PushDispatch(owner, outcome), id) => PushDispatchKeepsInv(su, w, owner, outcome, id);
        case Local(PushReturn(owner, io), id) => PushReturnKeepsInv(su, w, owner, io, id);
      }
    }
  }

  lemma {:induction false} RunsKeepInv(su: Setup, acts: seq<Action>)
    ensures Inv(su, After(su, acts))
  {
    if acts != [] {
      RunsKeepInv(su, acts[..|acts| - 1]);
      StepKeepsInv(su, After(su, acts[..|acts| - 1]), acts[|acts| - 1]);
    }
  }

  // ------------------------------------------------------------------ what every run keeps

  /** A message is acked outside the poison branch only if the dispatcher returned normally for
      its key: in this attempt, or in another whose completion the claim observed. */
  lemma AcksImplyDispatch(su: Setup, acts: seq<Action>, owner: Owner)
    requires var d := After(su, acts).d; owner in d.pulls && Ack in d.pulls[owner].trace
    ensures var d := After(su, acts).d; Dispatched(d, d.pulls[owner].key)
  {
    RunsKeepInv(su, acts);
    assert PullInv(After(su, acts), owner);
  }

  /** A 204 of a push endpoint means the dispatcher returned normally for this message: in
      this very request when no claim is kept, otherwise in some attempt with its key. */
  lemma NoContentImpliesDispatch(su: Setup, acts: seq<Action>, owner: Owner)
    requires var d := After(su, acts).d; owner in d.pushes && d.pushes[owner].at == Responded(204)
    ensures
      var d := After(su, acts).d;
      if d.pushes[owner].tracked then Dispatched(d, d.pushes[owner].key) else d.pushes[owner].returned
  {
    RunsKeepInv(su, acts);
    assert PushInv(After(su, acts), owner);
  }

  /** A request is answered 204, 429 or 500, and never other than 204 once its own dispatch has
      returned, whatever the store does about the completion. */
  lemma ReturnedDispatchesAreAnswered204(su: Setup, acts: seq<Action>, owner: Owner)
    requires var d := After(su, acts).d; owner in d.pushes && d.pushes[owner].at.Responded?
    ensures
      var p := After(su, acts).d.pushes[owner];
      IsAnswer(p.at.status) && (p.returned ==> p.at == Responded(204))
  {
    RunsKeepInv(su, acts);
    assert PushInv(After(su, acts), owner);
  }

  /** Another owner's claim of key that is neither completed nor expired. */
  predicate ActiveElsewhere(s: Store, key: Key, owner: Owner, now: real) {
    key in s && s[key].owner != owner && !s[key].completed && now < s[key].leaseUntil
  }

  lemma ActiveMeansElsewhere(su: Setup, w: World, id: nat)
    requires Inv(su, w) && id in w.h.calls && w.h.calls[id].op.Acquire? && w.h.calls[id].answer.Given?
    ensures
      var c, a := w.h.calls[id], w.h.calls[id].answer;
      && a.at <= |w.h.log|
      && (a.reply == Claimed(Active) <==> ActiveElsewhere(Replay(w.h.log[..a.at]), c.key, c.owner, a.read))
  {
    var c, a := w.h.calls[id], w.h.calls[id].answer;
    assert H.Atomic(w.h, c) && H.Unclaimed(w.h.log, c);
    FreshOwnersHoldNothing(w.h.log[..a.at], c.key, c.owner);
  }

  lemma ClaimsAreAnsweredAsClaims(su: Setup, w: World, id: nat)
    requires Inv(su, w) && id in w.h.calls && w.h.calls[id].op.Acquire? && w.h.calls[id].answer.Given?
    ensures w.h.calls[id].answer.reply.Claimed?
  {
    assert H.Atomic(w.h, w.h.calls[id]);
  }

  lemma ClaimReturns(su: Setup, w: World, owner: Owner, id: nat)
    requires owner in w.d.pushes && w.d.pushes[owner].at == PushClaiming && IsAnswered(w, owner) && id !in w.h.calls
    requires CallOf(w, owner).value.answer.reply.Claimed?
    ensures
      var v := Do(su, w, Local(PushReturn(owner, Success), id));
      owner in v.d.pushes
      && v.d.pushes[owner] ==
           Proceed(w.d.pushes[owner], Answered(CallOf(w, owner).value.answer.reply.result, true))
  {
    var reply := Answer(Replied(w.h), w.d.current, owner);
    assert reply == Some(CallOf(w, owner).value.answer.reply);
    assert MayMove(w.d, Replied(w.h), PushReturn(owner, Success));
  }

  /** A request whose claim call returns is answered 429 exactly when, at the moment the call was
      answered, another owner held the claim, neither completed nor expired. */
  lemma TooManyRequestsMeansActiveElsewhere(su: Setup, acts: seq<Action>, owner: Owner, id: nat)
    requires
      var w := After(su, acts);
      && owner in w.d.pushes && w.d.pushes[owner].at == PushClaiming && IsAnswered(w, owner) && id !in w.h.calls
    ensures
      var w := After(su, acts);
      var a := CallOf(w, owner).value.answer;
      var v := Do(su, w, Local(PushReturn(owner, Success), id));
      && a.at <= |w.h.log| && owner in v.d.pushes
      && (v.d.pushes[owner].at == Responded(429) <==>
            ActiveElsewhere(Replay(w.h.log[..a.at]), w.d.pushes[owner].key, owner, a.read))
  {
    RunsKeepInv(su, acts);
    var w := After(su, acts);
    assert PushInv(w, owner);
    ActiveMeansElsewhere(su, w, w.d.current[owner]);
    ClaimsAreAnsweredAsClaims(su, w, w.d.current[owner]);
    ClaimReturns(su, w, owner, id);
  }

  /** A request that was answered 429 had found another owner's claim, at one moment after the
      request began. */
  lemma RefusedRequestsFoundAnother(su: Setup, acts: seq<Action>, owner: Owner)
    requires var d := After(su, acts).d; owner in d.pushes && d.pushes[owner].at == Responded(429)
    ensures
      var w := After(su, acts);
      && CallOf(w, owner).Some? && CallOf(w, owner).value.answer.Given?
      && var c, a := CallOf(w, owner).value, CallOf(w, owner).value.answer;
         && c.start <= a.at <= |w.h.log| && c.since <= a.read <= w.h.now
         && ActiveElsewhere(Replay(w.h.log[..a.at]), w.d.pushes[owner].key, owner, a.read)
  {
    RunsKeepInv(su, acts);
    var w := After(su, acts);
    assert PushInv(w, owner);
    ActiveMeansElsewhere(su, w, w.d.current[owner]);
    assert H.Atomic(w.h, w.h.calls[w.d.current[owner]]);
  }

  /** After a failed dispatch whose release call returned, no claim of this request is stored,
      then or ever after. */
  lemma ReleasedRequestsLeaveNoClaim(su: Setup, acts: seq<Action>, owner: Owner)
    requires var d := After(su, acts).d; owner in d.pushes && d.pushes[owner].released
    ensures var w := After(su, acts); !Owns(Replay(w.h.log), w.d.pushes[owner].key, owner)
  {
    RunsKeepInv(su, acts);
    assert PushInv(After(su, acts), owner);
  }

  /** The attempt is at work on key under its claim: from the dispatch until its complete call
      takes effect. */
  predicate Working(w: World, owner: Owner, key: Key) {
    || (PullAtWork(w, owner) && w.d.pulls[owner].key == key)
    || (PushAtWork(w, owner) && w.d.pushes[owner].key == key)
  }

  lemma WorkersHold(su: Setup, w: World, owner: Owner, key: Key)
    requires Inv(su, w) && Working(w, owner, key)
    ensures Holds(w.h.log, key, owner)
  {
    if owner in w.d.pulls { assert PullInv(w, owner); } else { assert PushInv(w, owner); }
  }

  lemma HoldersDiffer(log: seq<Event>, slack: real, key: Key, a: Owner, b: Owner, now: real)
    requires Legal(log, slack) && 0.0 <= slack && (log != [] ==> log[|log| - 1].now <= now)
    requires a != b && Holds(log, key, a) && Holds(log, key, b)
    ensures LastGrant(log, key, a).value <= now + slack || LastGrant(log, key, b).value <= now + slack
  {
    if now + slack < LastGrant(log, key, a).value && now + slack < LastGrant(log, key, b).value {
      AtMostOneUnexpiredLease(log, slack, key, a, b, now);
    }
  }

  /** Handlers for one message overlap only after a lease ran out: of two attempts at work on
      one key, pull or push, at least one has outlived the last lease it was granted. */
  lemma OverlapNeedsAnExpiredLease(su: Setup, acts: seq<Action>, key: Key, a: Owner, b: Owner)
    requires 0.0 <= su.slack
    requires var w := After(su, acts); a != b && Working(w, a, key) && Working(w, b, key)
    ensures
      var w := After(su, acts);
      var leaseA, leaseB := LastGrant(w.h.log, key, a), LastGrant(w.h.log, key, b);
      && leaseA.Some? && leaseB.Some?
      && (leaseA.value <= w.h.now + su.slack || leaseB.value <= w.h.now + su.slack)
  {
    RunsKeepInv(su, acts);
    var w := After(su, acts);
    WorkersHold(su, w, a, key);
    WorkersHold(su, w, b, key);
    HoldersDiffer(w.h.log, su.slack, key, a, b, w.h.now);
  }

  // ------------------------------------------------------------------ how often a key is dispatched

  /** The owners whose claim of key was answered First. */
  function FirstOwners(log: seq<Event>, key: Key): set<Owner> {
    if log == [] then {} else
      var before, e := log[..|log| - 1], log[|log| - 1];
      FirstOwners(before, key) + if IsFirst(log, |log| - 1, key, OwnerOf(e)) then {OwnerOf(e)} else {}
  }

  function OwnerOf(e: Event): Owner {
    match e case Operated(_, owner, _, _, _) => owner case _ => 0
  }

  lemma {:induction false} FirstOwnersAreFew(log: seq<Event>, key: Key)
    ensures |FirstOwners(log, key)| <= Firsts(log, key)
  {
    if log != [] {
      FirstOwnersAreFew(log[..|log| - 1], key);
    }
  }

  lemma {:induction false} FirstOwnersAreAll(log: seq<Event>, key: Key, owner: Owner)
    requires HasFirst(log, key, owner)
    ensures owner in FirstOwners(log, key)
  {
    var i :| 0 <= i < |log| && IsFirst(log, i, key, owner);
    var before := log[..|log| - 1];
    if i < |before| {
      assert before[..i] == log[..i] && IsFirst(before, i, key, owner);
      FirstOwnersAreAll(before, key, owner);
    }
  }

  /** The attempts that got to the dispatcher for this key under a claim. */
  function EnteredOn(d: Attempts, key: Key): set<Owner> {
    set o | o in d.entered && d.entered[o] == key
  }

  lemma Fewer<T>(a: set<T>, b: set<T>)
    requires a <= b
    ensures |a| <= |b|
  {
    assert b == a + (b - a);
  }

  /** Dispatch entries are bounded: a key enters dispatch at most once, plus once for every
      claim on it that was released and once for every claim that expired. */
  lemma EntriesAreBounded(su: Setup, acts: seq<Action>, key: Key)
    ensures
      var w := After(su, acts);
      |EnteredOn(w.d, key)| <= Releases(w.h.log, key) + Expiries(w.h.log, key) + 1
  {
    RunsKeepInv(su, acts);
    var w := After(su, acts);
    forall o | o in EnteredOn(w.d, key) ensures o in FirstOwners(w.h.log, key) {
      FirstOwnersAreAll(w.h.log, key, o);
    }
    Fewer(EnteredOn(w.d, key), FirstOwners(w.h.log, key));
    FirstOwnersAreFew(w.h.log, key);
    ClaimsAreConserved(w.h.log, key);
  }
}
