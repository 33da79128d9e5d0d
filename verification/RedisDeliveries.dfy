/**
 Deliveries over the Redis store: the attempts of DeliveryRuns make the calls of RedisClaims,
 command by command, and resume with what those calls return. Every such run is a run of
 DeliveryRuns, so everything proved there holds of it, with no slack: the leases the runner and
 the endpoints ask for are whole numbers of milliseconds.
 */
module RedisDeliveries {
  import opened Options
  import C = Claims
  import D = DeliveryRuns
  import H = StoreCalls
  import L = DeliveryClaims
  import opened PullDelivery
  import opened RedisClaims
  import T = RedisTransactions

  datatype World = World(s: State, d: D.Attempts)

  datatype Action = Local(move: D.Move, id: nat) | Store(act: T.Action<Request>)

  function Replied(s: State): D.Replies {
    map id | id in s.calls && s.calls[id].at.Finished? :: s.calls[id].at.reply
  }

  ghost function Init(): World {
    World(T.Init(), D.NoAttempts())
  }

  ghost predicate Enabled(w: World, act: Action) {
    match act
    case Local(move, id) => D.MayMove(w.d, Replied(w.s), move) && id !in w.s.calls
    case Store(act) => !act.Invoke?
  }

  /** The step of the Redis system that an action is, or brings about. */
  ghost function StoreAct(cfg: Config, w: World, act: Action): Option<T.Action<Request>> {
    if !Enabled(w, act) then None else
      match act
      case Local(move, id) =>
        (match D.Sent(D.Moved(cfg, w.d, Replied(w.s), move, id), move)
         case None => None
         case Some(s) => Some(T.Invoke(id, s.key, Request(s.owner, s.op))))
      case Store(act) => Some(act)
  }

  ghost function Do(cfg: Config, retention: real, w: World, act: Action): World {
    World(match StoreAct(cfg, w, act)
          case None => w.s
          case Some(a) => T.Do(RedisClaims.Store(retention), w.s, a),
          if Enabled(w, act) && act.Local? then D.Moved(cfg, w.d, Replied(w.s), act.move, act.id) else w.d)
  }

  ghost function After(cfg: Config, retention: real, acts: seq<Action>): World {
    if acts == [] then Init() else
      Do(cfg, retention, After(cfg, retention, acts[..|acts| - 1]), acts[|acts| - 1])
  }

  // ------------------------------------------------------------------ its Redis run

  ghost function StoreActs(cfg: Config, retention: real, acts: seq<Action>): seq<T.Action<Request>> {
    if acts == [] then [] else
      var before := acts[..|acts| - 1];
      StoreActs(cfg, retention, before) +
        match StoreAct(cfg, After(cfg, retention, before), acts[|acts| - 1]) case None => [] case Some(a) => [a]
  }

  lemma AfterOneMore(retention: real, acts: seq<T.Action<Request>>, act: T.Action<Request>)
    ensures T.After(RedisClaims.Store(retention), acts + [act]) ==
      T.Do(RedisClaims.Store(retention), T.After(RedisClaims.Store(retention), acts), act)
  {
    assert (acts + [act])[..|acts|] == acts;
  }

  lemma {:induction false} StoreRuns(cfg: Config, retention: real, acts: seq<Action>)
    ensures After(cfg, retention, acts).s == T.After(RedisClaims.Store(retention), StoreActs(cfg, retention, acts))
  {
    if acts != [] {
      var before := acts[..|acts| - 1];
      StoreRuns(cfg, retention, before);
      match StoreAct(cfg, After(cfg, retention, before), acts[|acts| - 1]) {
        case None => assert StoreActs(cfg, retention, acts) == StoreActs(cfg, retention, before);
        case Some(a) => AfterOneMore(retention, StoreActs(cfg, retention, before), a);
      }
    }
  }

  // ------------------------------------------------------------------ seen as a history of calls

  ghost function CallSeen(c: T.Call<Value, C.Reply, Request>): H.Call {
    H.Call(c.key, c.tag.owner, c.tag.op, c.since, c.start,
           if c.at.Finished? then H.Given(c.at.reply, c.at.at, c.at.read) else H.Pending)
  }

  ghost function Seen(s: State): H.History {
    H.History(s.now, Events(s.log), map id | id in s.calls :: CallSeen(s.calls[id]))
  }

  lemma SeenReplies(s: State)
    ensures D.Replied(Seen(s)) == Replied(s)
  {
  }

  /** What the attempts ask of the store: fresh owners, and leases with exact TTLs. */
  lemma AttemptsAreFair(su: D.Setup, w: D.World, s: State)
    requires D.Inv(su, w) && w.h == Seen(s)
    ensures FreshOwners(s) && Covered(s, 0.0)
  {
    forall a | a in s.calls ensures Covers(s.calls[a].tag.op, 0.0) {
      assert D.CallInv(w, a) && w.h.calls[a] == CallSeen(s.calls[a]);
      TtlShortfall(D.PULL_LEASE);
      TtlShortfall(D.PUSH_LEASE);
    }
    forall a, b | a in s.calls && b in s.calls && a != b && s.calls[a].tag.op.Acquire? && s.calls[b].tag.op.Acquire?
      ensures s.calls[a].tag.owner != s.calls[b].tag.owner
    {
      assert w.h.calls[a] == CallSeen(s.calls[a]) && w.h.calls[b] == CallSeen(s.calls[b]);
    }
  }

  lemma EventTimes(log: Log, i: nat)
    requires i < |log|
    ensures Events(log)[i].now == log[i].now
  {
    EventAt(log, i);
  }

  lemma SeenPlaced(log: Log, at: nat, t: real)
    requires T.Placed(log, at, t)
    ensures H.Placed(Events(log), at, t)
  {
    if at > 0 { EventTimes(log, at - 1); }
    if at < |log| { EventTimes(log, at); }
  }

  // ------------------------------------------------------------------ one step of the store, seen

  /** How the next state of a Redis run looks as a step of the history of calls. */
  ghost predicate StepSeen(s: State, v: State, act: Option<H.Action>) {
    if act == None then Seen(v) == Seen(s)
    else !act.value.Invoke? && H.Enabled(0.0, Seen(s), act.value) && Seen(v) == H.Do(0.0, Seen(s), act.value)
  }

  /** The changes a step of the store can make. */
  lemma GrowsByOne(retention: real, s: State, act: T.Action<Request>)
    ensures
      var v := T.Do(RedisClaims.Store(retention), s, act);
      v.log == s.log || (|v.log| == |s.log| + 1 && v.log[..|s.log|] == s.log)
  {
    if act.Advance? && act.client in s.calls {
      T.AdvanceChanges(s, act.client, act.clock);
    }
  }

  lemma DropSeen(s: State, v: State, e: C.Event)
    requires v.now == s.now == e.now && v.calls == s.calls && Events(v.log) == Events(s.log) + [e]
    requires !e.Operated? && C.Follows(Events(s.log), e, 0.0)
    ensures StepSeen(s, v, Some(if e.Forgot? then H.Forget(e.key) else H.Lapse(e.key)))
  {
  }

  lemma ExpirySeen(retention: real, acts: seq<T.Action<Request>>, key: T.Key) returns (act: H.Action)
    requires
      var s := T.After(RedisClaims.Store(retention), acts);
      FreshOwners(s) && Covered(s, 0.0) && T.Enabled(s, T.Expire(key))
    ensures
      var s := T.After(RedisClaims.Store(retention), acts);
      StepSeen(s, T.Do(RedisClaims.Store(retention), s, T.Expire(key)), Some(act))
  {
    var s, step := T.After(RedisClaims.Store(retention), acts), T.Expire(key);
    var v := T.Happened(s, T.Dropped(key, s.now));
    var e := EventOf(s.log, T.Dropped(key, s.now));
    AfterOneMore(retention, acts, step);
    assert v.log[..|s.log|] == s.log && v.log[..|s.log| + 1] == v.log;
    PrefixReplays(retention, acts + [step], |s.log|);
    ChangeFollows(retention, 0.0, acts + [step], |s.log|);
    EventsAppend(v.log, |s.log|);
    DropSeen(s, v, e);
    act := if e.Forgot? then H.Forget(key) else H.Lapse(key);
  }

  /** v is s with client's call finished, and nothing else new but the history. */
  ghost predicate OneFinished(s: State, v: State, client: nat) {
    && client in s.calls && client in v.calls && !s.calls[client].at.Finished? && v.calls[client].at.Finished?
    && v.now == s.now && v.calls == s.calls[client := v.calls[client]]
    && v.calls[client].key == s.calls[client].key && v.calls[client].tag == s.calls[client].tag
    && v.calls[client].since == s.calls[client].since && v.calls[client].start == s.calls[client].start
  }

  lemma EffectSeen(s: State, v: State, client: nat, stamp: real)
    requires OneFinished(s, v, client) && v.calls[client].at.at == |s.log| && v.calls[client].at.read == s.now
    requires
      var c := v.calls[client];
      && c.at.reply == C.ReplyTo(C.Replay(Events(s.log)), c.key, c.tag.owner, c.tag.op, s.now)
      && Events(v.log) == Events(s.log) + [C.Operated(c.key, c.tag.owner, c.tag.op, s.now, stamp)]
    ensures StepSeen(s, v, Some(H.TakeEffect(client, stamp)))
  {
    assert Events(s.log)[..|s.log|] == Events(s.log);
    var seen := H.Do(0.0, Seen(s), H.TakeEffect(client, stamp));
    assert seen.calls == Seen(s).calls[client := CallSeen(v.calls[client])];
    assert Seen(v).calls == seen.calls;
  }

  lemma AnswerSeen(s: State, v: State, client: nat)
    requires OneFinished(s, v, client) && v.log == s.log
    requires
      var c, f, events := v.calls[client], v.calls[client].at, Events(s.log);
      && c.start <= f.at && H.Placed(events, f.at, f.read) && c.since <= f.read <= s.now
      && f.reply == C.ReplyTo(C.Replay(events[..f.at]), c.key, c.tag.owner, c.tag.op, f.read)
      && forall start ::
           C.Effect(C.Replay(events[..f.at]), c.key, c.tag.owner, c.tag.op, f.read, start) == C.Replay(events[..f.at])
    ensures StepSeen(s, v, Some(H.Recall(client, v.calls[client].at.at, v.calls[client].at.read)))
  {
    var seen := H.Do(0.0, Seen(s), H.Recall(client, v.calls[client].at.at, v.calls[client].at.read));
    assert seen.calls == Seen(s).calls[client := CallSeen(v.calls[client])];
    assert Seen(v).calls == seen.calls;
  }

  /** A command that changes the key: the call takes effect. */
  lemma WriteSeen(retention: real, acts: seq<T.Action<Request>>, client: nat, clock: T.Clock) returns (act: H.Action)
    requires
      var s := T.After(RedisClaims.Store(retention), acts);
      T.Enabled(s, T.Advance(client, clock))
      && |T.Do(RedisClaims.Store(retention), s, T.Advance(client, clock)).log| > |s.log|
    ensures
      var s := T.After(RedisClaims.Store(retention), acts);
      StepSeen(s, T.Do(RedisClaims.Store(retention), s, T.Advance(client, clock)), Some(act))
  {
    var s, step := T.After(RedisClaims.Store(retention), acts), T.Advance(client, clock);
    var v, n := T.AdvanceCall(s, client, clock), |s.log|;
    AfterOneMore(retention, acts, step);
    GrowsByOne(retention, s, step);
    T.AdvanceChanges(s, client, clock);
    WrittenCall(s, client, clock);
    CallsAreAtomic(retention, acts + [step], client);
    EventsPrefix(v.log, n);
    EventsAppend(v.log, n);
    assert v.log[..n + 1] == v.log;
    EffectSeen(s, v, client, LeaseStart(v.log[n]));
    act := H.TakeEffect(client, LeaseStart(v.log[n]));
  }

  lemma WrittenCall(s: State, client: nat, clock: T.Clock)
    requires client in s.calls && |T.AdvanceCall(s, client, clock).log| > |s.log|
    ensures
      var v := T.AdvanceCall(s, client, clock);
      && client in v.calls && v.calls[client].at.Finished? && v.calls[client].at.at == |s.log|
      && v.calls[client].at.read == s.now && v.calls[client].at.wrote && !s.calls[client].at.Finished?
      && v.log[|s.log|].Wrote? && v.log[|s.log|].now == s.now && v.log[|s.log|].key == s.calls[client].key
      && v.log[|s.log|].tag == s.calls[client].tag
  {
  }

  /** A decision to return: the call is answered as of its GET. */
  lemma ReturnSeen(retention: real, acts: seq<T.Action<Request>>, client: nat, clock: T.Clock) returns (act: H.Action)
    requires
      var s := T.After(RedisClaims.Store(retention), acts);
      && T.Enabled(s, T.Advance(client, clock)) && !s.calls[client].at.Finished?
      && var v := T.Do(RedisClaims.Store(retention), s, T.Advance(client, clock));
         v.log == s.log && client in v.calls && v.calls[client].at.Finished?
    ensures
      var s := T.After(RedisClaims.Store(retention), acts);
      StepSeen(s, T.Do(RedisClaims.Store(retention), s, T.Advance(client, clock)), Some(act))
  {
    var code := RedisClaims.Store(retention);
    var s, step := T.After(code, acts), T.Advance(client, clock);
    var v := T.AdvanceCall(s, client, clock);
    AfterOneMore(retention, acts, step);
    T.AdvanceChanges(s, client, clock);
    ReturnedCall(s, client, clock);
    FinishedPlaced(retention, acts + [step], client);
    CallsAreAtomic(retention, acts + [step], client);
    SeenPlaced(v.log, v.calls[client].at.at, v.calls[client].at.read);
    AnswerSeen(s, v, client);
    act := H.Recall(client, v.calls[client].at.at, v.calls[client].at.read);
  }

  lemma FinishedPlaced(retention: real, acts: seq<T.Action<Request>>, client: nat)
    requires
      var s := T.After(RedisClaims.Store(retention), acts);
      client in s.calls && s.calls[client].at.Finished?
    ensures
      var s := T.After(RedisClaims.Store(retention), acts);
      T.Placed(s.log, s.calls[client].at.at, s.calls[client].at.read)
  {
    T.RunsKeepInv(RedisClaims.Store(retention), acts);
    var s := T.After(RedisClaims.Store(retention), acts);
    assert T.CallInv(s, client) && T.Justified(s, client);
  }

  lemma ReturnedCall(s: State, client: nat, clock: T.Clock)
    requires client in s.calls && !s.calls[client].at.Finished? && T.AdvanceCall(s, client, clock).log == s.log
    requires T.AdvanceCall(s, client, clock).calls[client].at.Finished?
    ensures !T.AdvanceCall(s, client, clock).calls[client].at.wrote
  {
  }

  /** Any other command leaves the history of calls as it is. */
  lemma OtherwiseUnseen(s: State, client: nat, clock: T.Clock)
    requires client in s.calls && T.AdvanceCall(s, client, clock).log == s.log
    requires !s.calls[client].at.Finished? ==> !T.AdvanceCall(s, client, clock).calls[client].at.Finished?
    ensures Seen(T.AdvanceCall(s, client, clock)) == Seen(s)
  {
    var v := T.AdvanceCall(s, client, clock);
    T.AdvanceChanges(s, client, clock);
    assert CallSeen(v.calls[client]) == CallSeen(s.calls[client]);
  }

  lemma StoreStepSeen(retention: real, acts: seq<T.Action<Request>>, step: T.Action<Request>)
    returns (act: Option<H.Action>)
    requires
      var s := T.After(RedisClaims.Store(retention), acts);
      FreshOwners(s) && Covered(s, 0.0) && !step.Invoke?
    ensures
      var s := T.After(RedisClaims.Store(retention), acts);
      StepSeen(s, T.Do(RedisClaims.Store(retention), s, step), act)
  {
    var s := T.After(RedisClaims.Store(retention), acts);
    if !T.Enabled(s, step) {
      return None;
    }
    var v := T.Do(RedisClaims.Store(retention), s, step);
    match step {
      case Tick(now) => return Some(H.Tick(now));
      case Lose(client) =>
        assert CallSeen(v.calls[client]) == CallSeen(s.calls[client]);
        return None;
      case Expire(key) =>
        var drop := ExpirySeen(retention, acts, key);
        return Some(drop);
      case Advance(client, clock) =>
        T.AdvanceChanges(s, client, clock);
        GrowsByOne(retention, s, step);
        if |v.log| > |s.log| {
          var effect := WriteSeen(retention, acts, client, clock);
          return Some(effect);
        }
        if !s.calls[client].at.Finished? && v.calls[client].at.Finished? {
          var answer := ReturnSeen(retention, acts, client, clock);
          return Some(answer);
        }
        OtherwiseUnseen(s, client, clock);
        return None;
    }
  }

  // ------------------------------------------------------------------ every run

  lemma LocalStepSeen(cfg: Config, retention: real, w: World, move: D.Move, id: nat)
    ensures
      var v := Do(cfg, retention, w, Local(move, id));
      D.Do(D.Setup(cfg, 0.0), D.World(Seen(w.s), w.d), D.Local(move, id)) == D.World(Seen(v.s), v.d)
  {
    SeenReplies(w.s);
    var v := Do(cfg, retention, w, Local(move, id));
    if Enabled(w, Local(move, id)) {
      var d := D.Moved(cfg, w.d, Replied(w.s), move, id);
      match D.Sent(d, move) {
        case None =>
        case Some(s) =>
          assert Seen(v.s).calls ==
            Seen(w.s).calls[id := H.Call(s.key, s.owner, s.op, w.s.now, |w.s.log|, H.Pending)];
      }
    }
  }

  lemma DeliveriesExtend(su: D.Setup, acts: seq<D.Action>, act: D.Action)
    ensures D.After(su, acts + [act]) == D.Do(su, D.After(su, acts), act)
  {
    assert (acts + [act])[..|acts|] == acts;
  }

  /** Every run of deliveries over Redis is, seen from the attempts and from the claims on the
      server, a run of DeliveryRuns over a store that drops no lease early. */
  lemma {:induction false} RunsAreDeliveries(cfg: Config, retention: real, acts: seq<Action>)
    returns (seen: seq<D.Action>)
    ensures
      var w := After(cfg, retention, acts);
      D.After(D.Setup(cfg, 0.0), seen) == D.World(Seen(w.s), w.d)
  {
    var su := D.Setup(cfg, 0.0);
    if acts == [] {
      seen := [];
    } else {
      var before, act := acts[..|acts| - 1], acts[|acts| - 1];
      var w := After(cfg, retention, before);
      seen := RunsAreDeliveries(cfg, retention, before);
      match act {
        case Local(move, id) =>
          LocalStepSeen(cfg, retention, w, move, id);
          DeliveriesExtend(su, seen, D.Local(move, id));
          seen := seen + [D.Local(move, id)];
        case Store(step) =>
          if !step.Invoke? {
            D.RunsKeepInv(su, seen);
            AttemptsAreFair(su, D.World(Seen(w.s), w.d), w.s);
            StoreRuns(cfg, retention, before);
            var one := StoreStepSeen(retention, StoreActs(cfg, retention, before), step);
            if one.Some? {
              DeliveriesExtend(su, seen, D.Store(one.value));
              seen := seen + [D.Store(one.value)];
            }
          }
      }
    }
  }

  /** Over Redis too, a message is acked outside the poison branch only if the dispatcher
      returned normally for its key. */
  lemma AcksImplyDispatch(cfg: Config, retention: real, acts: seq<Action>, owner: C.Owner)
    requires var d := After(cfg, retention, acts).d; owner in d.pulls && Ack in d.pulls[owner].trace
    ensures var d := After(cfg, retention, acts).d; D.Dispatched(d, d.pulls[owner].key)
  {
    var seen := RunsAreDeliveries(cfg, retention, acts);
    D.AcksImplyDispatch(D.Setup(cfg, 0.0), seen, owner);
  }

  /** And a request is answered 204 only then. */
  lemma NoContentImpliesDispatch(cfg: Config, retention: real, acts: seq<Action>, owner: C.Owner)
    requires
      var d := After(cfg, retention, acts).d;
      owner in d.pushes && d.pushes[owner].at == D.PushDelivery.Responded(204)
    ensures
      var d := After(cfg, retention, acts).d;
      if d.pushes[owner].tracked then D.Dispatched(d, d.pushes[owner].key) else d.pushes[owner].returned
  {
    var seen := RunsAreDeliveries(cfg, retention, acts);
    D.NoContentImpliesDispatch(D.Setup(cfg, 0.0), seen, owner);
  }

  /** Of two attempts at work on one key over Redis, one has outlived the last lease that a
      SET NX or an EXEC granted it. */
  lemma OverlapNeedsAnExpiredLease(
    cfg: Config, retention: real, acts: seq<Action>, key: C.Key, a: C.Owner, b: C.Owner)
    requires
      var w := After(cfg, retention, acts);
      a != b && D.Working(D.World(Seen(w.s), w.d), a, key) && D.Working(D.World(Seen(w.s), w.d), b, key)
    ensures
      var s := After(cfg, retention, acts).s;
      var leaseA, leaseB := C.LastGrant(Events(s.log), key, a), C.LastGrant(Events(s.log), key, b);
      leaseA.Some? && leaseB.Some? && (leaseA.value <= s.now || leaseB.value <= s.now)
  {
    var seen := RunsAreDeliveries(cfg, retention, acts);
    D.OverlapNeedsAnExpiredLease(D.Setup(cfg, 0.0), seen, key, a, b);
  }

  /** A request is never answered anything but 204 once its own dispatch has returned. */
  lemma ReturnedDispatchesAreAnswered204(cfg: Config, retention: real, acts: seq<Action>, owner: C.Owner)
    requires var d := After(cfg, retention, acts).d; owner in d.pushes && d.pushes[owner].at.Responded?
    ensures
      var p := After(cfg, retention, acts).d.pushes[owner];
      D.IsAnswer(p.at.status) && (p.returned ==> p.at.status == 204)
  {
    var seen := RunsAreDeliveries(cfg, retention, acts);
    D.ReturnedDispatchesAreAnswered204(D.Setup(cfg, 0.0), seen, owner);
  }

  /** After a failed dispatch whose release call returned, the server holds no claim of this
      request, then or ever after. */
  lemma ReleasedRequestsLeaveNoClaim(cfg: Config, retention: real, acts: seq<Action>, owner: C.Owner)
    requires var d := After(cfg, retention, acts).d; owner in d.pushes && d.pushes[owner].released
    ensures
      var w := After(cfg, retention, acts);
      var key := w.d.pushes[owner].key;
      key in w.s.entries ==> w.s.entries[key].value.owner != owner
  {
    var seen := RunsAreDeliveries(cfg, retention, acts);
    D.ReleasedRequestsLeaveNoClaim(D.Setup(cfg, 0.0), seen, owner);
    EntriesAreSeen(cfg, retention, acts);
  }

  /** A request that was answered 429 had found, at one GET of its own claim call, another
      owner's claim on the server, neither completed nor expired. */
  lemma RefusedRequestsFoundAnother(cfg: Config, retention: real, acts: seq<Action>, owner: C.Owner)
    requires
      var d := After(cfg, retention, acts).d;
      owner in d.pushes && d.pushes[owner].at == D.PushDelivery.Responded(429)
    ensures
      var w := After(cfg, retention, acts);
      && owner in w.d.current && w.d.current[owner] in w.s.calls
      && var c := w.s.calls[w.d.current[owner]];
         && c.at.Finished? && c.start <= c.at.at <= |w.s.log| && c.since <= c.at.read <= w.s.now
         && D.ActiveElsewhere(Held(w.s.log[..c.at.at]), w.d.pushes[owner].key, owner, c.at.read)
  {
    var seen := RunsAreDeliveries(cfg, retention, acts);
    D.RefusedRequestsFoundAnother(D.Setup(cfg, 0.0), seen, owner);
    var w := After(cfg, retention, acts);
    var c := w.s.calls[w.d.current[owner]];
    StoreRuns(cfg, retention, acts);
    EventsPrefix(w.s.log, c.at.at);
    PrefixReplays(retention, StoreActs(cfg, retention, acts), c.at.at);
  }

  /** The attempts that get to the dispatcher for a key are at most one, plus one for every claim
      on it that was released and one for every claim that expired on the server. */
  lemma EntriesAreBounded(cfg: Config, retention: real, acts: seq<Action>, key: C.Key)
    ensures
      var w := After(cfg, retention, acts);
      |D.EnteredOn(w.d, key)| <= C.Releases(Events(w.s.log), key) + C.Expiries(Events(w.s.log), key) + 1
  {
    var seen := RunsAreDeliveries(cfg, retention, acts);
    D.EntriesAreBounded(D.Setup(cfg, 0.0), seen, key);
  }

  /** What the server holds is what the history of calls replays to. */
  lemma EntriesAreSeen(cfg: Config, retention: real, acts: seq<Action>)
    ensures
      var s := After(cfg, retention, acts).s;
      && s.entries.Keys == C.Replay(Events(s.log)).Keys
      && forall key | key in s.entries :: s.entries[key].value == C.Replay(Events(s.log))[key]
  {
    var s, redis := After(cfg, retention, acts).s, StoreActs(cfg, retention, acts);
    StoreRuns(cfg, retention, acts);
    PrefixReplays(retention, redis, |s.log|);
    T.RunsKeepInv(RedisClaims.Store(retention), redis);
    assert s.log[..|s.log|] == s.log;
  }

  /** Complete first, then ack, over Redis: an acked message had its claim answered Completed, or
      the attempt's own complete call has returned. */
  lemma AckedDeliveriesAreCompleted(cfg: Config, retention: real, acts: seq<Action>, owner: C.Owner) returns (id: nat)
    requires var d := After(cfg, retention, acts).d; owner in d.pulls && Ack in d.pulls[owner].trace
    ensures
      var w := After(cfg, retention, acts);
      && id in w.s.calls && w.s.calls[id].at.Finished?
      && w.s.calls[id].key == w.d.pulls[owner].key && w.s.calls[id].tag.owner == owner
      && (|| w.s.calls[id].tag.op == C.Complete
          || (w.s.calls[id].tag.op.Acquire? && w.s.calls[id].at.reply == C.Claimed(C.Completed)))
  {
    var seen := RunsAreDeliveries(cfg, retention, acts);
    id := L.AckedDeliveriesAreCompleted(D.Setup(cfg, 0.0), seen, owner);
    var s := After(cfg, retention, acts).s;
    assert Seen(s).calls[id] == CallSeen(s.calls[id]);
  }

  lemma AckedNeverRelease(cfg: Config, retention: real, acts: seq<Action>, owner: C.Owner)
    requires var d := After(cfg, retention, acts).d; owner in d.pulls && Ack in d.pulls[owner].trace
    ensures
      var log := After(cfg, retention, acts).s.log;
      forall i | 0 <= i < |log| && log[i].Wrote? && log[i].tag.op.Release? :: log[i].tag.owner != owner
  {
    var w := After(cfg, retention, acts);
    var seen := RunsAreDeliveries(cfg, retention, acts);
    L.RunsSettle(D.Setup(cfg, 0.0), seen);
    assert L.PullSettled(D.World(Seen(w.s), w.d), owner);
    forall i | 0 <= i < |w.s.log| && w.s.log[i].Wrote? && w.s.log[i].tag.op.Release?
      ensures w.s.log[i].tag.owner != owner
    {
      EventAt(w.s.log, i);
    }
  }

  /** And if that call found the claim still the attempt's own, Redis absorbs every duplicate for
      the retention time: each claim of the message that starts after the EXEC and reads within
      that time is answered Completed. */
  lemma AckedDeliveriesAreAbsorbed(
    cfg: Config, retention: real, acts: seq<Action>, owner: C.Owner, id: nat, duplicate: nat)
    requires var d := After(cfg, retention, acts).d; owner in d.pulls && Ack in d.pulls[owner].trace
    requires
      var w := After(cfg, retention, acts);
      && id in w.s.calls && w.s.calls[id].tag == Request(owner, C.Complete)
      && w.s.calls[id].at.Finished? && w.s.calls[id].at.wrote
    requires
      var w := After(cfg, retention, acts);
      && duplicate in w.s.calls && w.s.calls[duplicate].tag.op.Acquire? && w.s.calls[duplicate].at.Finished?
      && w.s.calls[duplicate].key == w.s.calls[id].key
      && w.s.calls[id].at.at < w.s.calls[duplicate].start
      && w.s.calls[duplicate].at.read < w.s.calls[id].at.read + T.Ttl(retention)
    ensures After(cfg, retention, acts).s.calls[duplicate].at.reply == C.Claimed(C.Completed)
  {
    var w, redis := After(cfg, retention, acts), StoreActs(cfg, retention, acts);
    AckedNeverRelease(cfg, retention, acts, owner);
    StoreRuns(cfg, retention, acts);
    T.RunsKeepInv(RedisClaims.Store(retention), redis);
    assert T.CallInv(w.s, id) && T.Justified(w.s, id) && T.CallInv(w.s, duplicate) && T.Justified(w.s, duplicate);
    DuplicatesAreAbsorbed(retention, redis, w.s.calls[id].at.at, duplicate);
  }

  /** After failed work whose release call returned, the server holds no claim of this attempt,
      then or ever after. */
  lemma ReleasedDeliveriesLeaveNoClaim(cfg: Config, retention: real, acts: seq<Action>, owner: C.Owner)
    requires var d := After(cfg, retention, acts).d; owner in d.pulls && d.pulls[owner].released
    ensures
      var w := After(cfg, retention, acts);
      var key := w.d.pulls[owner].key;
      key in w.s.entries ==> w.s.entries[key].value.owner != owner
  {
    var seen := RunsAreDeliveries(cfg, retention, acts);
    L.ReleasedDeliveriesLeaveNoClaim(D.Setup(cfg, 0.0), seen, owner);
    EntriesAreSeen(cfg, retention, acts);
  }
}
