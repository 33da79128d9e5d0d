/**
 The way a delivery goes when nothing goes wrong: from any state of any run in which the message
 is free to be claimed, an attempt that nobody disturbs is dispatched, renews its lease, completes
 its claim, acks once, and ends; and a request is answered 204.
 */
module DeliverySuccess {
  import opened Options
  import opened Claims
  import opened PullDelivery
  import opened PushDelivery
  import opened DeliveryRuns
  import H = StoreCalls

  /** The actions, taken one after another. */
  ghost function Then(su: Setup, w: World, acts: seq<Action>): World
    decreases |acts|
  {
    if acts == [] then w else Then(su, Do(su, w, acts[0]), acts[1..])
  }

  lemma {:induction false} RunsExtend(su: Setup, acts: seq<Action>, more: seq<Action>)
    ensures After(su, acts + more) == Then(su, After(su, acts), more)
    decreases |more|
  {
    if more == [] {
      assert acts + more == acts;
    } else {
      var one := acts + [more[0]];
      assert one[..|acts|] == acts && one + more[1..] == acts + more;
      RunsExtend(su, one, more[1..]);
    }
  }

  lemma {:induction false} ThenThen(su: Setup, w: World, xs: seq<Action>, ys: seq<Action>)
    ensures Then(su, w, xs + ys) == Then(su, Then(su, w, xs), ys)
    decreases |xs|
  {
    if xs == [] {
      assert xs + ys == ys;
    } else {
      assert (xs + ys)[0] == xs[0] && (xs + ys)[1..] == xs[1..] + ys;
      ThenThen(su, Do(su, w, xs[0]), xs[1..], ys);
    }
  }

  lemma ThenOne(su: Setup, w: World, a: Action)
    ensures Then(su, w, [a]) == Do(su, w, a)
  {
    assert [a][1..] == [];
  }

  // ------------------------------------------------------------------ one step at a time

  /** The attempt is where a says, the store holds this claim for it, and no renewal is under way. */
  predicate Stands(w: World, owner: Owner, a: Attempt, claim: Claim) {
    && owner in w.d.pulls && w.d.pulls[owner] == a && owner !in w.d.renewal
    && a.key in Replay(w.h.log) && Replay(w.h.log)[a.key] == claim
  }

  /** The call the attempt waits for. */
  predicate Calls(w: World, owner: Owner, id: nat, key: Key, op: Op) {
    && owner in w.d.current && w.d.current[owner] == id && id in w.h.calls
    && w.h.calls[id].key == key && w.h.calls[id].owner == owner && w.h.calls[id].op == op
  }

  /** Nothing but this call is new, and no time has passed. */
  predicate OnlyCall(w: World, v: World, id: nat) {
    v.h.now == w.h.now && v.h.calls.Keys <= w.h.calls.Keys + {id}
  }

  lemma Arrives(su: Setup, w: World, owner: Owner, key: Key, delivery: Option<int>, id: nat)
    requires owner !in w.d.pulls && owner !in w.d.pushes && id !in w.h.calls
    ensures
      var v := Do(su, w, Local(Deliver(owner, key, delivery), id));
      && owner in v.d.pulls && v.d.pulls[owner] == Start(key, delivery) && v.d.renewal == w.d.renewal
      && v.h.log == w.h.log && OnlyCall(w, v, id)
      && Calls(v, owner, id, key, Acquire(PULL_LEASE)) && v.h.calls[id].answer == H.Pending
  {
  }

  lemma TakesEffect(su: Setup, w: World, id: nat)
    requires id in w.h.calls && w.h.calls[id].answer == H.Pending
    ensures
      var v := Do(su, w, Store(H.TakeEffect(id, w.h.now)));
      var c := w.h.calls[id];
      && v.d == w.d && v.h.now == w.h.now && v.h.calls.Keys == w.h.calls.Keys
      && Replay(v.h.log) == Effect(Replay(w.h.log), c.key, c.owner, c.op, w.h.now, w.h.now)
      && v.h.calls[id] ==
           c.(answer := H.Given(ReplyTo(Replay(w.h.log), c.key, c.owner, c.op, w.h.now), |w.h.log|, w.h.now))
  {
    assert w.h.log[..|w.h.log|] == w.h.log;
    ReplayAppend(w.h.log, H.EventOf(w.h, id, w.h.now));
  }

  lemma Returns(su: Setup, w: World, owner: Owner, id: nat, next: nat)
    requires owner in w.d.pulls && UsesStorage(w.d.pulls[owner].at) && next !in w.h.calls
    requires id in w.h.calls && w.h.calls[id].answer.Given?
    requires Calls(w, owner, id, w.d.pulls[owner].key, w.h.calls[id].op)
    ensures
      var v := Do(su, w, Local(PullReturn(owner, Success, true), next));
      var reply := w.h.calls[id].answer.reply;
      var b := Resume(su.cfg, w.d.pulls[owner], if reply.Claimed? then Answered(reply.result, true) else Returned);
      && owner in v.d.pulls && v.d.pulls[owner] == b && v.d.renewal == w.d.renewal
      && v.h.log == w.h.log && OnlyCall(w, v, next) && (!UsesStorage(b.at) ==> v.h == w.h)
  {
  }

  lemma GoesOn(su: Setup, w: World, owner: Owner, next: nat)
    requires owner in w.d.pulls && !UsesStorage(w.d.pulls[owner].at) && next !in w.h.calls
    ensures
      var v := Do(su, w, Local(PullStep(owner, Returned), next));
      var b := Resume(su.cfg, w.d.pulls[owner], Returned);
      && owner in v.d.pulls && v.d.pulls[owner] == b && v.d.renewal == w.d.renewal
      && v.h.log == w.h.log && OnlyCall(w, v, next) && (!UsesStorage(b.at) ==> v.h == w.h)
      && (b.at.Completing? ==> Calls(v, owner, next, b.key, Complete) && v.h.calls[next].answer == H.Pending)
  {
  }

  lemma Renews(su: Setup, w: World, owner: Owner, id: nat)
    requires owner in w.d.pulls && w.d.pulls[owner].renewing && owner !in w.d.renewal && id !in w.h.calls
    ensures
      var v := Do(su, w, Local(RenewSend(owner), id));
      && v.d == w.d.(renewal := w.d.renewal[owner := id]) && v.h.log == w.h.log && OnlyCall(w, v, id)
      && id in v.h.calls
      && v.h.calls[id] ==
           H.Call(w.d.pulls[owner].key, owner, Renew(PULL_LEASE), w.h.now, |w.h.log|, H.Pending)
  {
  }

  lemma RenewalReturns(su: Setup, w: World, owner: Owner, id: nat, next: nat)
    requires owner in w.d.pulls && w.d.pulls[owner].renewing && next !in w.h.calls
    requires owner in w.d.renewal && w.d.renewal[owner] == id && id in w.h.calls
    requires w.h.calls[id].answer.Given? && w.h.calls[id].answer.reply == Renewed(true)
    ensures
      var v := Do(su, w, Local(RenewReturn(owner, Success), next));
      v.h == w.h && owner in v.d.pulls && v.d.pulls[owner] == w.d.pulls[owner] && owner !in v.d.renewal
  {
  }

  // ------------------------------------------------------------------ the whole way

  lemma ThenMore(su: Setup, w: World, acts: seq<Action>, act: Action)
    ensures Then(su, w, acts + [act]) == Do(su, Then(su, w, acts), act)
  {
    ThenThen(su, w, acts, [act]);
    ThenOne(su, Then(su, w, acts), act);
  }

  /** At most n calls more than before, with the next n numbers, and no time has passed. */
  predicate FewCalls(w: World, v: World, id: nat, n: nat) {
    v.h.now == w.h.now && forall i | i in v.h.calls && i !in w.h.calls :: id <= i < id + n
  }

  lemma IsClaimed(su: Setup, w: World, owner: Owner, a: Attempt, id: nat)
    requires owner in w.d.pulls && w.d.pulls[owner] == a && a.at == Claiming && owner !in w.d.renewal
    requires id + 1 !in w.h.calls && a.key !in Prune(Replay(w.h.log), a.key, w.h.now)
    requires Calls(w, owner, id, a.key, Acquire(PULL_LEASE)) && w.h.calls[id].answer == H.Pending
    ensures
      var v := Do(su, Do(su, w, Store(H.TakeEffect(id, w.h.now))), Local(PullReturn(owner, Success, true), id + 1));
      && Stands(v, owner, Resume(su.cfg, a, Answered(First, true)), Claim(owner, w.h.now + PULL_LEASE, false))
      && v.h.now == w.h.now && v.h.calls.Keys == w.h.calls.Keys
  {
    var u := Do(su, w, Store(H.TakeEffect(id, w.h.now)));
    TakesEffect(su, w, id);
    assert Stands(u, owner, a, Claim(owner, w.h.now + PULL_LEASE, false));
    Returns(su, u, owner, id, id + 1);
  }

  lemma TakesClaim(su: Setup, w: World, owner: Owner, key: Key, delivery: Option<int>, id: nat)
    returns (acts: seq<Action>)
    requires owner !in w.d.pulls && owner !in w.d.pushes && owner !in w.d.renewal
    requires id !in w.h.calls && id + 1 !in w.h.calls && key !in Prune(Replay(w.h.log), key, w.h.now)
    ensures
      var v := Then(su, w, acts);
      && Stands(v, owner, Attempt(key, delivery, Feeding, true, false, []), Claim(owner, w.h.now + PULL_LEASE, false))
      && FewCalls(w, v, id, 1)
  {
    var a, b, c := Local(Deliver(owner, key, delivery), id), Store(H.TakeEffect(id, w.h.now)),
      Local(PullReturn(owner, Success, true), id + 1);
    Arrives(su, w, owner, key, delivery, id);
    IsClaimed(su, Do(su, w, a), owner, Start(key, delivery), id);
    ThenOne(su, w, a);
    ThenMore(su, w, [a], b);
    ThenMore(su, w, [a] + [b], c);
    acts := [a] + [b] + [c];
  }

  lemma RenewsOnce(su: Setup, w: World, owner: Owner, a: Attempt, claim: Claim, id: nat) returns (acts: seq<Action>)
    requires Stands(w, owner, a, claim) && a.renewing && claim.owner == owner && !claim.completed
    requires id !in w.h.calls && id + 1 !in w.h.calls
    ensures
      var v := Then(su, w, acts);
      && Stands(v, owner, a, claim.(leaseUntil := w.h.now + PULL_LEASE)) && FewCalls(w, v, id, 1)
  {
    var x, y, z := Local(RenewSend(owner), id), Store(H.TakeEffect(id, w.h.now)),
      Local(RenewReturn(owner, Success), id + 1);
    Renews(su, w, owner, id);
    var u := Do(su, w, x);
    TakesEffect(su, u, id);
    var v := Do(su, u, y);
    RenewalReturns(su, v, owner, id, id + 1);
    ThenOne(su, w, x);
    ThenMore(su, w, [x], y);
    ThenMore(su, w, [x] + [y], z);
    acts := [x] + [y] + [z];
  }

  /** The handler's result and its answer. */
  lemma Dispatches(su: Setup, w: World, owner: Owner, a: Attempt, claim: Claim, id: nat)
    requires Stands(w, owner, a, claim) && a.at == Feeding && id !in w.h.calls
    ensures
      var x := Local(PullStep(owner, Returned), id);
      var v := Do(su, Do(su, w, x), x);
      && Stands(v, owner, a.(at := Completing(false)), claim) && v.h.log == w.h.log && OnlyCall(w, v, id)
      && Calls(v, owner, id, a.key, Complete) && v.h.calls[id].answer == H.Pending
  {
    GoesOn(su, w, owner, id);
    GoesOn(su, Do(su, w, Local(PullStep(owner, Returned), id)), owner, id);
  }

  lemma Completes(su: Setup, w: World, owner: Owner, a: Attempt, claim: Claim, id: nat)
    requires Stands(w, owner, a, claim) && a.at == Completing(false) && claim.owner == owner && id + 1 !in w.h.calls
    requires Calls(w, owner, id, a.key, Complete) && w.h.calls[id].answer == H.Pending
    ensures
      var v := Do(su, Do(su, w, Store(H.TakeEffect(id, w.h.now))), Local(PullReturn(owner, Success, true), id + 1));
      Stands(v, owner, Resume(su.cfg, a, Returned), claim.(completed := true)) && v.h.now == w.h.now
      && v.h.calls.Keys == w.h.calls.Keys
  {
    var u := Do(su, w, Store(H.TakeEffect(id, w.h.now)));
    TakesEffect(su, w, id);
    assert Stands(u, owner, a, claim.(completed := true));
    Returns(su, u, owner, id, id + 1);
  }

  lemma CompletesClaim(su: Setup, w: World, owner: Owner, a: Attempt, claim: Claim, id: nat) returns (acts: seq<Action>)
    requires Stands(w, owner, a, claim) && a.at == Feeding && claim.owner == owner
    requires id !in w.h.calls && id + 1 !in w.h.calls
    ensures
      var v := Then(su, w, acts);
      && Stands(v, owner, Resume(su.cfg, a.(at := Completing(false)), Returned), claim.(completed := true))
      && FewCalls(w, v, id, 1)
  {
    var x, y, z := Local(PullStep(owner, Returned), id), Store(H.TakeEffect(id, w.h.now)),
      Local(PullReturn(owner, Success, true), id + 1);
    Dispatches(su, w, owner, a, claim, id);
    Completes(su, Do(su, Do(su, w, x), x), owner, a.(at := Completing(false)), claim, id);
    ThenOne(su, w, x);
    ThenMore(su, w, [x], x);
    ThenMore(su, w, [x] + [x], y);
    ThenMore(su, w, [x] + [x] + [y], z);
    acts := [x] + [x] + [y] + [z];
  }

  /** After the ack: the hook, if there is one, and the cleanup. */
  lemma Ends(su: Setup, w: World, owner: Owner, a: Attempt, claim: Claim, id: nat) returns (acts: seq<Action>)
    requires Stands(w, owner, a, claim) && (a.at == AckHook || a.at == Cleanup) && id !in w.h.calls
    ensures Stands(Then(su, w, acts), owner, a.(at := Finished, renewing := false), claim)
    ensures Then(su, w, acts).h == w.h
  {
    var x := Local(PullStep(owner, Returned), id);
    GoesOn(su, w, owner, id);
    ThenOne(su, w, x);
    acts := [x];
    if a.at == AckHook {
      GoesOn(su, Do(su, w, x), owner, id);
      ThenMore(su, w, [x], x);
      acts := [x] + [x];
    }
  }

  predicate RenewalsBelong(d: Attempts) {
    d.renewal.Keys <= d.pulls.Keys
  }

  lemma MoveRenewals(cfg: Config, d: Attempts, replies: Replies, move: Move, id: nat)
    requires MayMove(d, replies, move) && RenewalsBelong(d)
    ensures RenewalsBelong(Moved(cfg, d, replies, move, id))
  {
    match move {
      case Deliver(_, _, _) =>
      case PullStep(_, _) =>
      case PullReturn(_, _, _) =>
      case RenewSend(_) =>
      case RenewReturn(_, _) =>
      case Request(_, _, _) =>
      case PushDispatch(_, _) =>
      case PushReturn(_, _) =>
    }
  }

  /** Renewal calls are made by pull attempts. */
  lemma {:induction false} RunsKeepRenewals(su: Setup, acts: seq<Action>)
    ensures RenewalsBelong(After(su, acts).d)
  {
    if acts != [] {
      var w, act := After(su, acts[..|acts| - 1]), acts[|acts| - 1];
      RunsKeepRenewals(su, acts[..|acts| - 1]);
      if Enabled(su, w, act) && act.Local? { MoveRenewals(su.cfg, w.d, Replied(w.h), act.move, act.id); }
    }
  }

  /** From any state of any run in which the message can be claimed, an attempt nobody disturbs
      acks it exactly once, with the claim completed, its lease renewed on the way, and nothing
      left running. */
  lemma UndisturbedDeliveriesAreAcked(
    su: Setup, acts: seq<Action>, owner: Owner, key: Key, delivery: Option<int>, id: nat) returns (more: seq<Action>)
    requires
      var w := After(su, acts);
      && owner !in w.d.pulls && owner !in w.d.pushes && (forall i | id <= i < id + 4 :: i !in w.h.calls)
      && key !in Prune(Replay(w.h.log), key, w.h.now)
    ensures
      var w, v := After(su, acts), After(su, acts + more);
      && owner in v.d.pulls && v.d.pulls[owner] == Attempt(key, delivery, Finished, false, false, [Ack])
      && key in Replay(v.h.log) && Replay(v.h.log)[key] == Claim(owner, w.h.now + PULL_LEASE, true)
  {
    var w := After(su, acts);
    RunsKeepRenewals(su, acts);
    var until := w.h.now + PULL_LEASE;
    var a := Attempt(key, delivery, Feeding, true, false, []);
    var first := TakesClaim(su, w, owner, key, delivery, id);
    var u := Then(su, w, first);
    var second := RenewsOnce(su, u, owner, a, Claim(owner, until, false), id + 1);
    var v := Then(su, u, second);
    var third := CompletesClaim(su, v, owner, a, Claim(owner, until, false), id + 2);
    var x := Then(su, v, third);
    var b := Resume(su.cfg, a.(at := Completing(false)), Returned);
    var last := Ends(su, x, owner, b, Claim(owner, until, true), id + 3);
    FourParts(su, acts, first, second, third, last);
    more := first + second + third + last;
  }

  lemma FourParts(
    su: Setup, acts: seq<Action>, xs: seq<Action>, ys: seq<Action>, zs: seq<Action>, last: seq<Action>)
    ensures
      After(su, acts + (xs + ys + zs + last)) ==
        Then(su, Then(su, Then(su, Then(su, After(su, acts), xs), ys), zs), last)
  {
    var w := After(su, acts);
    ThenThen(su, w, xs, ys);
    ThenThen(su, w, xs + ys, zs);
    ThenThen(su, w, xs + ys + zs, last);
    RunsExtend(su, acts, xs + ys + zs + last);
  }

  // ------------------------------------------------------------------ a request nobody disturbs

  lemma Requests(su: Setup, w: World, owner: Owner, key: Key, id: nat)
    requires owner !in w.d.pulls && owner !in w.d.pushes && id !in w.h.calls
    ensures
      var v := Do(su, w, Local(Request(owner, key, true), id));
      && owner in v.d.pushes && v.d.pushes[owner] == Open(key, true) && v.h.log == w.h.log && OnlyCall(w, v, id)
      && Calls(v, owner, id, key, Acquire(PUSH_LEASE)) && v.h.calls[id].answer == H.Pending
  {
  }

  lemma RequestReturns(su: Setup, w: World, owner: Owner, id: nat, next: nat)
    requires owner in w.d.pushes && PushUsesStorage(w.d.pushes[owner].at) && next !in w.h.calls
    requires id in w.h.calls && w.h.calls[id].answer.Given?
    requires Calls(w, owner, id, w.d.pushes[owner].key, w.h.calls[id].op)
    ensures
      var v := Do(su, w, Local(PushReturn(owner, Success), next));
      var reply := w.h.calls[id].answer.reply;
      var q := Proceed(w.d.pushes[owner], if reply.Claimed? then Answered(reply.result, true) else Returned);
      && owner in v.d.pushes && v.d.pushes[owner] == q && v.h.log == w.h.log && OnlyCall(w, v, next)
      && (!PushUsesStorage(q.at) ==> v.h == w.h)
  {
  }

  lemma RequestDispatches(su: Setup, w: World, owner: Owner, id: nat)
    requires owner in w.d.pushes && w.d.pushes[owner].at == Dispatching && w.d.pushes[owner].tracked
    requires id !in w.h.calls
    ensures
      var v := Do(su, w, Local(PushDispatch(owner, Returned), id));
      && owner in v.d.pushes && v.d.pushes[owner] == Proceed(w.d.pushes[owner], Returned)
      && v.h.log == w.h.log && OnlyCall(w, v, id)
      && Calls(v, owner, id, w.d.pushes[owner].key, Complete) && v.h.calls[id].answer == H.Pending
  {
  }

  /** The request is where p says, and the store holds this claim for it. */
  predicate Waits(w: World, owner: Owner, p: Push, claim: Claim) {
    && owner in w.d.pushes && w.d.pushes[owner] == p
    && p.key in Replay(w.h.log) && Replay(w.h.log)[p.key] == claim
  }

  lemma RequestIsClaimed(su: Setup, w: World, owner: Owner, key: Key, id: nat)
    requires owner in w.d.pushes && w.d.pushes[owner] == Open(key, true) && id + 1 !in w.h.calls
    requires key !in Prune(Replay(w.h.log), key, w.h.now)
    requires Calls(w, owner, id, key, Acquire(PUSH_LEASE)) && w.h.calls[id].answer == H.Pending
    ensures
      var v := Do(su, Do(su, w, Store(H.TakeEffect(id, w.h.now))), Local(PushReturn(owner, Success), id + 1));
      && Waits(v, owner, Push(key, true, Dispatching, false, false), Claim(owner, w.h.now + PUSH_LEASE, false))
      && v.h.now == w.h.now && v.h.calls.Keys == w.h.calls.Keys
  {
    var u := Do(su, w, Store(H.TakeEffect(id, w.h.now)));
    TakesEffect(su, w, id);
    assert Waits(u, owner, Open(key, true), Claim(owner, w.h.now + PUSH_LEASE, false));
    RequestReturns(su, u, owner, id, id + 1);
  }

  lemma RequestCompletes(su: Setup, w: World, owner: Owner, key: Key, claim: Claim, id: nat)
    requires Waits(w, owner, Push(key, true, PushCompleting, true, false), claim) && claim.owner == owner
    requires id + 1 !in w.h.calls
    requires Calls(w, owner, id, key, Complete) && w.h.calls[id].answer == H.Pending
    ensures
      var v := Do(su, Do(su, w, Store(H.TakeEffect(id, w.h.now))), Local(PushReturn(owner, Success), id + 1));
      Waits(v, owner, Push(key, true, Responded(204), true, false), claim.(completed := true))
  {
    var u := Do(su, w, Store(H.TakeEffect(id, w.h.now)));
    TakesEffect(su, w, id);
    assert Waits(u, owner, Push(key, true, PushCompleting, true, false), claim.(completed := true));
    RequestReturns(su, u, owner, id, id + 1);
  }

  /** And a request nobody disturbs, whose message can be claimed and whose dispatch returns, is
      answered 204 with its claim completed. */
  lemma UndisturbedRequestsAreAnswered(su: Setup, acts: seq<Action>, owner: Owner, key: Key, id: nat)
    returns (more: seq<Action>)
    requires
      var w := After(su, acts);
      && owner !in w.d.pulls && owner !in w.d.pushes && (forall i | id <= i < id + 3 :: i !in w.h.calls)
      && key !in Prune(Replay(w.h.log), key, w.h.now)
    ensures
      var w, v := After(su, acts), After(su, acts + more);
      && owner in v.d.pushes && v.d.pushes[owner] == Push(key, true, Responded(204), true, false)
      && key in Replay(v.h.log) && Replay(v.h.log)[key] == Claim(owner, w.h.now + PUSH_LEASE, true)
  {
    var w := After(su, acts);
    var a, b, c := Local(Request(owner, key, true), id), Store(H.TakeEffect(id, w.h.now)),
      Local(PushReturn(owner, Success), id + 1);
    var x, y, z := Local(PushDispatch(owner, Returned), id + 1), Store(H.TakeEffect(id + 1, w.h.now)),
      Local(PushReturn(owner, Success), id + 2);
    RequestTakesClaim(su, w, owner, key, id);
    RequestGetsThrough(su, Do(su, Do(su, Do(su, w, a), b), c), owner, key, Claim(owner, w.h.now + PUSH_LEASE, false),
      id + 1);
    SixSteps(su, acts, a, b, c, x, y, z);
    more := [a, b, c, x, y, z];
  }

  lemma RequestTakesClaim(su: Setup, w: World, owner: Owner, key: Key, id: nat)
    requires owner !in w.d.pulls && owner !in w.d.pushes && id !in w.h.calls && id + 1 !in w.h.calls
    requires key !in Prune(Replay(w.h.log), key, w.h.now)
    ensures
      var v := Do(su, Do(su, Do(su, w, Local(Request(owner, key, true), id)), Store(H.TakeEffect(id, w.h.now))),
        Local(PushReturn(owner, Success), id + 1));
      && Waits(v, owner, Push(key, true, Dispatching, false, false), Claim(owner, w.h.now + PUSH_LEASE, false))
      && OnlyCall(w, v, id)
  {
    Requests(su, w, owner, key, id);
    RequestIsClaimed(su, Do(su, w, Local(Request(owner, key, true), id)), owner, key, id);
  }

  lemma RequestGetsThrough(su: Setup, w: World, owner: Owner, key: Key, claim: Claim, id: nat)
    requires Waits(w, owner, Push(key, true, Dispatching, false, false), claim) && claim.owner == owner
    requires id !in w.h.calls && id + 1 !in w.h.calls
    ensures
      var v := Do(su, Do(su, Do(su, w, Local(PushDispatch(owner, Returned), id)), Store(H.TakeEffect(id, w.h.now))),
        Local(PushReturn(owner, Success), id + 1));
      Waits(v, owner, Push(key, true, Responded(204), true, false), claim.(completed := true))
  {
    RequestDispatches(su, w, owner, id);
    var sent := Do(su, w, Local(PushDispatch(owner, Returned), id));
    assert Waits(sent, owner, Push(key, true, PushCompleting, true, false), claim);
    RequestCompletes(su, sent, owner, key, claim, id);
  }

  lemma SixSteps(su: Setup, acts: seq<Action>, a: Action, b: Action, c: Action, x: Action, y: Action, z: Action)
    ensures
      After(su, acts + [a, b, c, x, y, z]) ==
        Do(su, Do(su, Do(su, Do(su, Do(su, Do(su, After(su, acts), a), b), c), x), y), z)
  {
    var w := After(su, acts);
    ThenOne(su, w, a);
    ThenMore(su, w, [a], b);
    ThenMore(su, w, [a] + [b], c);
    ThenMore(su, w, [a] + [b] + [c], x);
    ThenMore(su, w, [a] + [b] + [c] + [x], y);
    ThenMore(su, w, [a] + [b] + [c] + [x] + [y], z);
    assert [a] + [b] + [c] + [x] + [y] + [z] == [a, b, c, x, y, z];
    RunsExtend(su, acts, [a, b, c, x, y, z]);
  }
}
