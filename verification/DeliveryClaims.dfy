/**
 What the runs of DeliveryRuns leave in the store: an acked message is one whose claim has been
 completed, a failed one gives its claim back, and nobody renews a lease after the attempt is over.

 All of it is about the calls the attempts have made and the moments at which these were
 answered, whatever else happens in between.
 */
module DeliveryClaims {
  import opened Options
  import opened Claims
  import opened PullDelivery
  import opened PushDelivery
  import opened DeliveryRuns
  import H = StoreCalls

  // ------------------------------------------------------------------ calls on record

  predicate IsOf(c: H.Call, key: Key, owner: Owner) {
    c.key == key && c.owner == owner
  }

  /** The owner has made this call on key. */
  predicate Asked(h: H.History, key: Key, owner: Owner, op: Op) {
    exists id :: id in h.calls && IsOf(h.calls[id], key, owner) && h.calls[id].op == op
  }

  /** And it was answered. */
  predicate Told(h: H.History, key: Key, owner: Owner, op: Op) {
    exists id :: id in h.calls && IsOf(h.calls[id], key, owner) && h.calls[id].op == op && h.calls[id].answer.Given?
  }

  predicate ClaimAnswered(c: H.Call, key: Key, owner: Owner, result: ClaimResult) {
    IsOf(c, key, owner) && c.op.Acquire? && c.answer.Given? && c.answer.reply == Claimed(result)
  }

  predicate ClaimedAs(h: H.History, key: Key, owner: Owner, result: ClaimResult) {
    exists id :: id in h.calls && ClaimAnswered(h.calls[id], key, owner, result)
  }

  predicate NeverReleased(h: H.History, owner: Owner) {
    && (forall id | id in h.calls && h.calls[id].owner == owner :: !h.calls[id].op.Release?)
    && (forall i | 0 <= i < |h.log| && h.log[i].Operated? && h.log[i].owner == owner :: !h.log[i].op.Release?)
  }

  /** The attempt has not given its claim back so far: it has not failed. */
  predicate KeepsClaim(a: Attempt) {
    a.at == Claiming || InDispatch(a.at) || a.at == AckHook || Ack in a.trace
  }

  predicate IsEntered(d: Attempts, owner: Owner, key: Key) {
    owner in d.entered && d.entered[owner] == key
  }

  predicate PullSettled(w: World, owner: Owner)
    requires owner in w.d.pulls
  {
    var a := w.d.pulls[owner];
    && RenewsInTime(a) && AcksLate(a)
    && (InDispatch(a.at) || a.at == Releasing ==> !Fresh(w.h.log, owner))
    && (InDispatch(a.at) ==> IsEntered(w.d, owner, a.key))
    && (KeepsClaim(a) ==> NeverReleased(w.h, owner))
    && (Ack in a.trace ==> ClaimedAs(w.h, a.key, owner, Completed) || Told(w.h, a.key, owner, Complete))
    && (a.released ==> Told(w.h, a.key, owner, Release))
  }

  predicate PushSettled(w: World, owner: Owner)
    requires owner in w.d.pushes
  {
    var p := w.d.pushes[owner];
    && (p.tracked && p.at == Dispatching ==> IsEntered(w.d, owner, p.key))
    && (p.at.PushClaiming? || p.at.Dispatching? || p.returned ==> NeverReleased(w.h, owner))
    && (p.tracked && p.returned ==> Asked(w.h, p.key, owner, Complete))
  }

  /** Only an owner that has claimed gives a claim back. */
  predicate ReleasesFollowClaims(h: H.History) {
    forall id | id in h.calls && h.calls[id].op.Release? ::
      h.calls[id].start <= |h.log| && !Fresh(h.log[..h.calls[id].start], h.calls[id].owner)
  }

  ghost predicate Settled(w: World) {
    && ReleasesFollowClaims(w.h)
    && (forall owner | owner in w.d.pulls :: PullSettled(w, owner))
    && (forall owner | owner in w.d.pushes :: PushSettled(w, owner))
  }

  // ------------------------------------------------------------------ what stays

  predicate SameCall(c: H.Call, d: H.Call) {
    d == c.(answer := d.answer) && (c.answer.Given? ==> d.answer == c.answer)
  }

  /** The new event is the effect of a call that was under way. */
  predicate Caused(h: H.History, e: Event) {
    e.Operated? ==> exists id :: id in h.calls && h.calls[id].owner == e.owner && h.calls[id].op == e.op
  }

  predicate Later(h: H.History, g: H.History) {
    && h.log <= g.log
    && (forall i | |h.log| <= i < |g.log| :: Caused(h, g.log[i]))
    && (forall id | id in h.calls :: id in g.calls && SameCall(h.calls[id], g.calls[id]))
  }

  predicate NoNewRelease(h: H.History, g: H.History, owner: Owner) {
    forall id | id in g.calls && id !in h.calls && g.calls[id].owner == owner :: !g.calls[id].op.Release?
  }

  lemma RecordsStay(h: H.History, g: H.History, key: Key, owner: Owner, op: Op, result: ClaimResult)
    requires Later(h, g)
    ensures Asked(h, key, owner, op) ==> Asked(g, key, owner, op)
    ensures Told(h, key, owner, op) ==> Told(g, key, owner, op)
    ensures ClaimedAs(h, key, owner, result) ==> ClaimedAs(g, key, owner, result)
    ensures NeverReleased(h, owner) && NoNewRelease(h, g, owner) ==> NeverReleased(g, owner)
    ensures !Fresh(h.log, owner) ==> !Fresh(g.log, owner)
  {
    if Told(h, key, owner, op) {
      var id :| id in h.calls && IsOf(h.calls[id], key, owner) && h.calls[id].op == op && h.calls[id].answer.Given?;
      assert id in g.calls && SameCall(h.calls[id], g.calls[id]);
    }
    if ClaimedAs(h, key, owner, result) {
      var id :| id in h.calls && ClaimAnswered(h.calls[id], key, owner, result);
      assert id in g.calls && SameCall(h.calls[id], g.calls[id]);
    }
    if NeverReleased(h, owner) && NoNewRelease(h, g, owner) { NoReleaseStays(h, g, owner); }
    if !Fresh(h.log, owner) {
      assert g.log[..|h.log|] == h.log && g.log[..|g.log|] == g.log;
      NotFreshStays(g.log, |h.log|, |g.log|, owner);
    }
  }

  lemma NoReleaseStays(h: H.History, g: H.History, owner: Owner)
    requires Later(h, g) && NeverReleased(h, owner) && NoNewRelease(h, g, owner)
    ensures NeverReleased(g, owner)
  {
    forall i | 0 <= i < |g.log| && g.log[i].Operated? && g.log[i].owner == owner ensures !g.log[i].op.Release? {
      if i < |h.log| { assert g.log[i] == h.log[i]; } else { assert Caused(h, g.log[i]); }
    }
    forall id | id in g.calls && g.calls[id].owner == owner ensures !g.calls[id].op.Release? {
      if id in h.calls { assert SameCall(h.calls[id], g.calls[id]); }
    }
  }

  lemma PullStays(w: World, v: World, owner: Owner)
    requires Later(w.h, v.h) && NoNewRelease(w.h, v.h, owner)
    requires owner in w.d.pulls && owner in v.d.pulls && v.d.pulls[owner] == w.d.pulls[owner]
    requires forall key :: IsEntered(w.d, owner, key) ==> IsEntered(v.d, owner, key)
    requires PullSettled(w, owner)
    ensures PullSettled(v, owner)
  {
    var key := w.d.pulls[owner].key;
    RecordsStay(w.h, v.h, key, owner, Complete, Completed);
    RecordsStay(w.h, v.h, key, owner, Release, Completed);
  }

  lemma PushStays(w: World, v: World, owner: Owner)
    requires Later(w.h, v.h) && NoNewRelease(w.h, v.h, owner)
    requires owner in w.d.pushes && owner in v.d.pushes && v.d.pushes[owner] == w.d.pushes[owner]
    requires forall key :: IsEntered(w.d, owner, key) ==> IsEntered(v.d, owner, key)
    requires PushSettled(w, owner)
    ensures PushSettled(v, owner)
  {
    RecordsStay(w.h, v.h, w.d.pushes[owner].key, owner, Complete, Completed);
  }

  lemma ReleasesStay(h: H.History, g: H.History)
    requires Later(h, g) && ReleasesFollowClaims(h)
    requires forall id | id in g.calls && id !in h.calls && g.calls[id].op.Release? ::
      g.calls[id].start <= |g.log| && !Fresh(g.log[..g.calls[id].start], g.calls[id].owner)
    ensures ReleasesFollowClaims(g)
  {
    forall id | id in g.calls && g.calls[id].op.Release?
      ensures g.calls[id].start <= |g.log| && !Fresh(g.log[..g.calls[id].start], g.calls[id].owner)
    {
      if id in h.calls {
        assert SameCall(h.calls[id], g.calls[id]);
        assert g.log[..h.calls[id].start] == h.log[..h.calls[id].start];
      }
    }
  }

  // ------------------------------------------------------------------ steps

  lemma StoreStepIsLater(su: Setup, w: World, act: H.Action)
    requires Enabled(su, w, Store(act))
    ensures var v := Do(su, w, Store(act)); Later(w.h, v.h) && v.h.calls.Keys == w.h.calls.Keys && v.d == w.d
  {
    var v := Do(su, w, Store(act));
    match act {
      case TakeEffect(id, stamp) => assert Caused(w.h, H.EventOf(w.h, id, stamp));
      case _ =>
    }
  }

  lemma StoreStepSettles(su: Setup, w: World, act: H.Action)
    requires Settled(w) && Enabled(su, w, Store(act))
    ensures Settled(Do(su, w, Store(act)))
  {
    var v := Do(su, w, Store(act));
    StoreStepIsLater(su, w, act);
    ReleasesStay(w.h, v.h);
    forall owner | owner in v.d.pulls ensures PullSettled(v, owner) { PullStays(w, v, owner); }
    forall owner | owner in v.d.pushes ensures PushSettled(v, owner) { PushStays(w, v, owner); }
  }


  /** One more call, or none. */
  predicate OneMoreCall(h: H.History, g: H.History, id: nat) {
    g.log == h.log && id !in h.calls && (g.calls == h.calls || (id in g.calls && g.calls == h.calls[id := g.calls[id]]))
  }

  /** Nothing is different of the other attempts. */
  ghost predicate LeavesOthers(d: Attempts, v: Attempts, owner: Owner) {
    && (forall o | o != owner :: (o in v.pulls <==> o in d.pulls) && (o in d.pulls ==> v.pulls[o] == d.pulls[o]))
    && (forall o | o != owner :: (o in v.pushes <==> o in d.pushes) && (o in d.pushes ==> v.pushes[o] == d.pushes[o]))
    && (forall o | o in d.entered && o != owner :: o in v.entered && v.entered[o] == d.entered[o])
  }

  lemma MovesLeaveOthers(cfg: Config, d: Attempts, replies: Replies, move: Move, id: nat)
    requires MayMove(d, replies, move)
    ensures LeavesOthers(d, Moved(cfg, d, replies, move, id), move.owner)
  {
    match move {
      case Deliver(_, _, _) =>
      case PullStep(_, _) =>
      case PullReturn(_, _, _) =>
      case RenewSend(_) =>
      case RenewReturn(_, _) =>
      case Request(_, _, _) =>
      case PushDispatch(_, _) =>
      case PushReturn(_, _) =>
    }
  }

  lemma SentByMover(d: Attempts, move: Move)
    ensures Sent(d, move).Some? ==> Sent(d, move).value.owner == move.owner
  {
  }

  lemma MovesAreLater(su: Setup, w: World, move: Move, id: nat)
    requires Enabled(su, w, Local(move, id))
    ensures
      var v := Do(su, w, Local(move, id));
      && OneMoreCall(w.h, v.h, id) && Later(w.h, v.h) && LeavesOthers(w.d, v.d, move.owner)
      && (id in v.h.calls ==>
            && Sent(v.d, move) == Some(Sending(v.h.calls[id].key, v.h.calls[id].owner, v.h.calls[id].op))
            && v.h.calls[id].owner == move.owner && v.h.calls[id].start == |w.h.log|)
  {
    MovesLeaveOthers(su.cfg, w.d, Replied(w.h), move, id);
    SentByMover(Do(su, w, Local(move, id)).d, move);
  }

  /** It is enough to look at the attempt that moved, and at a release it may have called for. */
  lemma MoveSettles(su: Setup, w: World, move: Move, id: nat)
    requires Settled(w) && Enabled(su, w, Local(move, id))
    requires
      var v := Do(su, w, Local(move, id));
      && (id in v.h.calls && v.h.calls[id].op.Release? ==> !Fresh(w.h.log, move.owner))
      && (move.owner in v.d.pulls ==> PullSettled(v, move.owner))
      && (move.owner in v.d.pushes ==> PushSettled(v, move.owner))
    ensures Settled(Do(su, w, Local(move, id)))
  {
    var v := Do(su, w, Local(move, id));
    MovesAreLater(su, w, move, id);
    assert v.h.log[..|w.h.log|] == w.h.log;
    ReleasesStay(w.h, v.h);
    forall owner | owner in v.d.pulls ensures PullSettled(v, owner) {
      if owner != move.owner { PullStays(w, v, owner); }
    }
    forall owner | owner in v.d.pushes ensures PushSettled(v, owner) {
      if owner != move.owner { PushStays(w, v, owner); }
    }
  }

  // ------------------------------------------------------------------ a pull attempt moves

  /** The renewal task lives from the claim to the cleanup. */
  predicate RenewsInTime(a: Attempt) {
    a.renewing ==> a.at != Claiming && a.at != Finished
  }

  predicate AcksLate(a: Attempt) {
    Ack in a.trace ==> a.at.AckHook? || a.at.Cleanup? || a.at.Finished?
  }

  /** What one resumption does to acks and releases. */
  predicate Goes(a: Attempt, o: Outcome, b: Attempt) {
    && RenewsInTime(b) && AcksLate(b)
    && (b.at == Releasing ==> InDispatch(a.at) || (a.at == Claiming && o.Answered? && o.result == First))
    && (Ack in b.trace && Ack !in a.trace ==>
          (a.at == Claiming && o.Answered? && o.result == Completed) || (a.at.Completing? && o == Returned))
    && (KeepsClaim(b) ==> KeepsClaim(a) && b.at != Releasing)
    && (b.released ==> a.released || (a.at == Releasing && o == Returned))
  }

  lemma EarlyGoes(cfg: Config, a: Attempt, o: Outcome)
    requires RenewsInTime(a) && AcksLate(a) && Early(a.at)
    ensures Goes(a, o, Resume(cfg, a, o))
  {
    match o { case Answered(_, _) => case Returned => case Rejected(_) => case Raised => case Cancelled => }
  }

  lemma LateGoes(cfg: Config, a: Attempt, o: Outcome)
    requires RenewsInTime(a) && AcksLate(a) && (a.at.Completing? || a.at.AckHook?)
    ensures Goes(a, o, Resume(cfg, a, o))
  {
  }

  lemma FailedGoes(cfg: Config, a: Attempt, o: Outcome)
    requires RenewsInTime(a) && AcksLate(a) && !Early(a.at) && !a.at.Completing? && !a.at.AckHook?
    ensures Goes(a, o, Resume(cfg, a, o))
  {
  }

  lemma ResumeGoes(cfg: Config, a: Attempt, o: Outcome)
    requires RenewsInTime(a) && AcksLate(a)
    ensures Goes(a, o, Resume(cfg, a, o))
  {
    if Early(a.at) {
      EarlyGoes(cfg, a, o);
    } else if a.at.Completing? || a.at.AckHook? {
      LateGoes(cfg, a, o);
    } else {
      FailedGoes(cfg, a, o);
    }
  }

  /** The attempt went from a to b; the call it makes next is on record. */
  ghost predicate PullWent(cfg: Config, w: World, v: World, owner: Owner, o: Outcome, id: nat) {
    && owner in w.d.pulls && owner in v.d.pulls && v.d.pulls[owner] == Resume(cfg, w.d.pulls[owner], o)
    && OneMoreCall(w.h, v.h, id) && Later(w.h, v.h)
    && (id in v.h.calls ==>
          PullSends(v.d, owner) == Some(Sending(v.h.calls[id].key, v.h.calls[id].owner, v.h.calls[id].op)))
    && (w.d.pulls[owner].at == Claiming && o.Answered? ==> HasReply(w, owner, Claimed(o.result)))
    && (UsesStorage(w.d.pulls[owner].at) && o == Returned ==> IsAnswered(w, owner))
    && (if w.d.pulls[owner].at == Claiming && v.d.pulls[owner].at == Feeding then
          IsEntered(v.d, owner, v.d.pulls[owner].key)
        else forall key :: IsEntered(w.d, owner, key) ==> IsEntered(v.d, owner, key))
  }

  /** Answers to the awaited call are on record for good. */
  lemma AnsweredIsTold(w: World, owner: Owner, key: Key, op: Op)
    requires Awaits(w, owner, key, op) && IsAnswered(w, owner)
    ensures Told(w.h, key, owner, op)
    ensures op.Acquire? && HasReply(w, owner, Claimed(Completed)) ==> ClaimedAs(w.h, key, owner, Completed)
  {
    assert w.d.current[owner] in w.h.calls;
    assert ClaimAnswered(w.h.calls[w.d.current[owner]], key, owner, Completed) ||
      !(op.Acquire? && HasReply(w, owner, Claimed(Completed)));
  }

  lemma ClaimedIsNotFresh(w: World, owner: Owner)
    requires owner in w.d.pulls && PullInv(w, owner) && w.d.pulls[owner].at == Claiming
    requires HasReply(w, owner, Claimed(First))
    ensures !Fresh(w.h.log, owner)
  {
    FirstsAreNotFresh(w.h.log, w.d.pulls[owner].key, owner);
  }

  lemma PullWentOn(cfg: Config, w: World, v: World, owner: Owner, o: Outcome, id: nat)
    requires PullWent(cfg, w, v, owner, o, id) && PullInv(w, owner) && PullSettled(w, owner)
    ensures PullSettled(v, owner)
    ensures id in v.h.calls && v.h.calls[id].op.Release? ==> !Fresh(w.h.log, owner)
  {
    var a, b := w.d.pulls[owner], v.d.pulls[owner];
    ResumeFacts(cfg, a, o);
    ResumeGoes(cfg, a, o);
    RecordsStay(w.h, v.h, a.key, owner, Complete, Completed);
    RecordsStay(w.h, v.h, a.key, owner, Release, Completed);
    if a.at == Claiming && o.Answered? && o.result == First { ClaimedIsNotFresh(w, owner); }
    if UsesStorage(a.at) && IsAnswered(w, owner) { AnsweredIsTold(w, owner, a.key, PullOp(a.at)); }
  }

  lemma PullStepWent(su: Setup, w: World, owner: Owner, outcome: Outcome, id: nat)
    requires Enabled(su, w, Local(PullStep(owner, outcome), id))
    ensures PullWent(su.cfg, w, Do(su, w, Local(PullStep(owner, outcome), id)), owner, outcome, id)
  {
    MovesAreLater(su, w, PullStep(owner, outcome), id);
    ResumeFacts(su.cfg, w.d.pulls[owner], outcome);
  }

  lemma PullReturnWent(su: Setup, w: World, owner: Owner, io: Io, parsed: bool, id: nat)
    requires Enabled(su, w, Local(PullReturn(owner, io, parsed), id))
    ensures
      var o := OutcomeOf(io, Answer(Replied(w.h), w.d.current, owner), parsed);
      PullWent(su.cfg, w, Do(su, w, Local(PullReturn(owner, io, parsed), id)), owner, o, id)
  {
    MovesAreLater(su, w, PullReturn(owner, io, parsed), id);
    ResumeFacts(su.cfg, w.d.pulls[owner], OutcomeOf(io, Answer(Replied(w.h), w.d.current, owner), parsed));
    AnswersAreClaims(w, owner, io, parsed);
  }

  /** A stranger has released nothing. */
  lemma NewcomersNeverReleased(su: Setup, w: World, v: World, owner: Owner)
    requires Inv(su, w) && owner !in w.d.pulls && owner !in w.d.pushes
    requires Later(w.h, v.h) && NoNewRelease(w.h, v.h, owner)
    ensures NeverReleased(v.h, owner)
  {
    Strangers(su, w, owner);
    NoReleaseStays(w.h, v.h, owner);
  }

  lemma DeliverSettles(su: Setup, w: World, owner: Owner, key: Key, delivery: Option<int>, id: nat)
    requires Inv(su, w) && Settled(w) && Enabled(su, w, Local(Deliver(owner, key, delivery), id))
    ensures Settled(Do(su, w, Local(Deliver(owner, key, delivery), id)))
  {
    var move := Deliver(owner, key, delivery);
    var v := Do(su, w, Local(move, id));
    MovesAreLater(su, w, move, id);
    assert v.d.pulls[owner] == Start(key, delivery);
    NewcomersNeverReleased(su, w, v, owner);
    MoveSettles(su, w, move, id);
  }

  lemma PullStepSettles(su: Setup, w: World, owner: Owner, outcome: Outcome, id: nat)
    requires Inv(su, w) && Settled(w) && Enabled(su, w, Local(PullStep(owner, outcome), id))
    ensures Settled(Do(su, w, Local(PullStep(owner, outcome), id)))
  {
    KnownOf(su, w, owner);
    PullStepWent(su, w, owner, outcome, id);
    PullWentOn(su.cfg, w, Do(su, w, Local(PullStep(owner, outcome), id)), owner, outcome, id);
    MoveSettles(su, w, PullStep(owner, outcome), id);
  }

  lemma PullReturnSettles(su: Setup, w: World, owner: Owner, io: Io, parsed: bool, id: nat)
    requires Inv(su, w) && Settled(w) && Enabled(su, w, Local(PullReturn(owner, io, parsed), id))
    ensures Settled(Do(su, w, Local(PullReturn(owner, io, parsed), id)))
  {
    KnownOf(su, w, owner);
    PullReturnWent(su, w, owner, io, parsed, id);
    PullWentOn(su.cfg, w, Do(su, w, Local(PullReturn(owner, io, parsed), id)), owner,
      OutcomeOf(io, Answer(Replied(w.h), w.d.current, owner), parsed), id);
    MoveSettles(su, w, PullReturn(owner, io, parsed), id);
  }

  /** The renewal task touches nothing else of its attempt, and calls for nothing but renewals. */
  lemma RenewalWent(su: Setup, w: World, move: Move, id: nat)
    requires Enabled(su, w, Local(move, id)) && (move.RenewSend? || move.RenewReturn?)
    ensures
      var v := Do(su, w, Local(move, id));
      && move.owner in v.d.pulls && v.d.pushes == w.d.pushes && v.d.entered == w.d.entered
      && v.d.pulls[move.owner] == w.d.pulls[move.owner].(renewing := v.d.pulls[move.owner].renewing)
      && w.d.pulls[move.owner].renewing
      && !(id in v.h.calls && v.h.calls[id].op.Release?)
  {
    MovesAreLater(su, w, move, id);
  }

  lemma RenewalKeepsSettled(w: World, v: World, owner: Owner)
    requires Later(w.h, v.h) && NoNewRelease(w.h, v.h, owner) && owner in w.d.pulls && w.d.pulls[owner].renewing
    requires owner in v.d.pulls && v.d.entered == w.d.entered
    requires v.d.pulls[owner] == w.d.pulls[owner].(renewing := v.d.pulls[owner].renewing)
    requires PullSettled(w, owner)
    ensures PullSettled(v, owner)
  {
    RecordsStay(w.h, v.h, w.d.pulls[owner].key, owner, Complete, Completed);
    RecordsStay(w.h, v.h, w.d.pulls[owner].key, owner, Release, Completed);
  }

  lemma RenewalSettles(su: Setup, w: World, move: Move, id: nat)
    requires Inv(su, w) && Settled(w) && Enabled(su, w, Local(move, id)) && (move.RenewSend? || move.RenewReturn?)
    ensures Settled(Do(su, w, Local(move, id)))
  {
    RenewalWent(su, w, move, id);
    MovesAreLater(su, w, move, id);
    RenewalKeepsSettled(w, Do(su, w, Local(move, id)), move.owner);
    MoveSettles(su, w, move, id);
  }

  // ------------------------------------------------------------------ a push request moves

  lemma RequestSettles(su: Setup, w: World, owner: Owner, key: Key, tracked: bool, id: nat)
    requires Inv(su, w) && Settled(w) && Enabled(su, w, Local(Request(owner, key, tracked), id))
    ensures Settled(Do(su, w, Local(Request(owner, key, tracked), id)))
  {
    var move := Request(owner, key, tracked);
    var v := Do(su, w, Local(move, id));
    MovesAreLater(su, w, move, id);
    assert v.d.pushes[owner] == Open(key, tracked);
    NewcomersNeverReleased(su, w, v, owner);
    MoveSettles(su, w, move, id);
  }

  ghost predicate PushWent(w: World, v: World, owner: Owner, o: Outcome, id: nat) {
    && owner in w.d.pushes && owner in v.d.pushes && !Over(w.d.pushes[owner].at)
    && v.d.pushes[owner] == Proceed(w.d.pushes[owner], o)
    && OneMoreCall(w.h, v.h, id) && Later(w.h, v.h)
    && (PushSends(v.d, owner).Some? <==> id in v.h.calls)
    && (id in v.h.calls ==>
          PushSends(v.d, owner) == Some(Sending(v.h.calls[id].key, v.h.calls[id].owner, v.h.calls[id].op)))
    && (if v.d.pushes[owner].at == Dispatching then IsEntered(v.d, owner, v.d.pushes[owner].key)
        else forall key :: IsEntered(w.d, owner, key) ==> IsEntered(v.d, owner, key))
  }

  lemma PushWentOn(w: World, v: World, owner: Owner, o: Outcome, id: nat)
    requires PushWent(w, v, owner, o, id) && PushInv(w, owner) && PushSettled(w, owner)
    ensures PushSettled(v, owner)
    ensures id in v.h.calls && v.h.calls[id].op.Release? ==> !Fresh(w.h.log, owner)
  {
    var p, q := w.d.pushes[owner], v.d.pushes[owner];
    ProceedFacts(p, o);
    RecordsStay(w.h, v.h, p.key, owner, Complete, Completed);
    if q.at == PushCompleting {
      assert IsOf(v.h.calls[id], p.key, owner) && v.h.calls[id].op == Complete;
    }
  }

  lemma PushDispatchWent(su: Setup, w: World, owner: Owner, outcome: Outcome, id: nat)
    requires Enabled(su, w, Local(PushDispatch(owner, outcome), id))
    ensures PushWent(w, Do(su, w, Local(PushDispatch(owner, outcome), id)), owner, outcome, id)
  {
    MovesAreLater(su, w, PushDispatch(owner, outcome), id);
    ProceedFacts(w.d.pushes[owner], outcome);
  }

  lemma PushReturnWent(su: Setup, w: World, owner: Owner, io: Io, id: nat)
    requires Enabled(su, w, Local(PushReturn(owner, io), id))
    ensures
      var o := OutcomeOf(io, Answer(Replied(w.h), w.d.current, owner), true);
      PushWent(w, Do(su, w, Local(PushReturn(owner, io), id)), owner, o, id)
  {
    MovesAreLater(su, w, PushReturn(owner, io), id);
    ProceedFacts(w.d.pushes[owner], OutcomeOf(io, Answer(Replied(w.h), w.d.current, owner), true));
  }

  lemma PushMoveSettles(su: Setup, w: World, move: Move, o: Outcome, id: nat)
    requires Inv(su, w) && Settled(w) && Enabled(su, w, Local(move, id))
    requires move.owner in w.d.pushes && PushWent(w, Do(su, w, Local(move, id)), move.owner, o, id)
    ensures Settled(Do(su, w, Local(move, id)))
  {
    KnownOf(su, w, move.owner);
    PushWentOn(w, Do(su, w, Local(move, id)), move.owner, o, id);
    MovesAreLater(su, w, move, id);
    assert move.owner !in Do(su, w, Local(move, id)).d.pulls;
    MoveSettles(su, w, move, id);
  }

  // ------------------------------------------------------------------ every run

  lemma StepSettles(su: Setup, w: World, act: Action)
    requires Inv(su, w) && Settled(w)
    ensures Settled(Do(su, w, act))
  {
    if Enabled(su, w, act) {
      match act {
        case Store(_) => StoreStepSettles(su, w, act.act);
        case Local(Deliver(owner, key, delivery), id) => DeliverSettles(su, w, owner, key, delivery, id);
        case Local(PullStep(owner, outcome), id) => PullStepSettles(su, w, owner, outcome, id);
        case Local(PullReturn(owner, io, parsed), id) => PullReturnSettles(su, w, owner, io, parsed, id);
        case Local(RenewSend(_), id) => RenewalSettles(su, w, act.move, id);
        case Local(RenewReturn(_, _), id) => RenewalSettles(su, w, act.move, id);
        case Local(Request(owner, key, tracked), id) => RequestSettles(su, w, owner, key, tracked, id);
        case Local(PushDispatch(owner, outcome), id) =>
          PushDispatchWent(su, w, owner, outcome, id);
          PushMoveSettles(su, w, act.move, outcome, id);
        case Local(PushReturn(owner, io), id) =>
          PushReturnWent(su, w, owner, io, id);
          PushMoveSettles(su, w, act.move, OutcomeOf(io, Answer(Replied(w.h), w.d.current, owner), true), id);
      }
    }
  }

  lemma {:induction false} RunsSettle(su: Setup, acts: seq<Action>)
    ensures Settled(After(su, acts))
  {
    if acts != [] {
      RunsSettle(su, acts[..|acts| - 1]);
      RunsKeepInv(su, acts[..|acts| - 1]);
      StepSettles(su, After(su, acts[..|acts| - 1]), acts[|acts| - 1]);
    }
  }

  // ------------------------------------------------------------------ what an ack leaves in the store

  /** The claim call of an owner is unique, so its answer is. */
  lemma OneClaimAnswer(su: Setup, w: World, key: Key, owner: Owner)
    requires Inv(su, w) && ClaimedAs(w.h, key, owner, First)
    ensures !ClaimedAs(w.h, key, owner, Completed)
  {
    var a :| a in w.h.calls && ClaimAnswered(w.h.calls[a], key, owner, First);
    forall b | b in w.h.calls ensures !ClaimAnswered(w.h.calls[b], key, owner, Completed) {
      if w.h.calls[b].op.Acquire? && w.h.calls[b].owner == owner { assert a == b; }
    }
  }

  /** The store recorded the completion the moment the call was answered, or had it recorded
      already, unless the owner no longer held the claim. */
  predicate Completes(log: seq<Event>, c: H.Call) {
    && c.op == Complete && c.answer.Given? && c.answer.at <= |log|
    && (Owns(Replay(log[..c.answer.at]), c.key, c.owner) ==>
          || Replay(log[..c.answer.at])[c.key].completed
          || (c.answer.at < |log| && var e := log[c.answer.at];
              e.Operated? && e.key == c.key && e.owner == c.owner && e.op == Complete))
  }

  lemma AnsweredCompletions(su: Setup, w: World, id: nat)
    requires Inv(su, w) && id in w.h.calls && w.h.calls[id].op == Complete && w.h.calls[id].answer.Given?
    ensures Completes(w.h.log, w.h.calls[id])
  {
    var c := w.h.calls[id];
    assert H.Atomic(w.h, c);
    if H.Unchanging(w.h.log, c, c.answer.at, c.answer.read) {
      assert Effect(Replay(w.h.log[..c.answer.at]), c.key, c.owner, c.op, c.answer.read, 0.0)
        == Replay(w.h.log[..c.answer.at]);
    }
  }

  /** Complete first, then ack: an acked message either had its claim answered Completed, or the
      attempt's own complete call has been answered, and the store has the completion on record
      unless the attempt had lost its claim. With a First claim it is always the second. */
  lemma AckedDeliveriesAreCompleted(su: Setup, acts: seq<Action>, owner: Owner) returns (id: nat)
    requires var d := After(su, acts).d; owner in d.pulls && Ack in d.pulls[owner].trace
    ensures
      var w := After(su, acts);
      var key := w.d.pulls[owner].key;
      && id in w.h.calls
      && (|| (ClaimAnswered(w.h.calls[id], key, owner, Completed) && !ClaimedAs(w.h, key, owner, First))
          || (IsOf(w.h.calls[id], key, owner) && Completes(w.h.log, w.h.calls[id])))
  {
    RunsKeepInv(su, acts);
    RunsSettle(su, acts);
    var w := After(su, acts);
    var key := w.d.pulls[owner].key;
    assert PullSettled(w, owner);
    if ClaimedAs(w.h, key, owner, Completed) {
      id :| id in w.h.calls && ClaimAnswered(w.h.calls[id], key, owner, Completed);
      if ClaimedAs(w.h, key, owner, First) { OneClaimAnswer(su, w, key, owner); }
    } else {
      id :| id in w.h.calls && IsOf(w.h.calls[id], key, owner) && w.h.calls[id].op == Complete
            && w.h.calls[id].answer.Given?;
      AnsweredCompletions(su, w, id);
    }
  }

  /** The store has forgotten nothing about key from position n on. */
  predicate ForgotNothing(log: seq<Event>, key: Key, n: nat) {
    forall i | n <= i < |log| && log[i].key == key :: !log[i].Forgot?
  }

  lemma CompletionsStand(su: Setup, w: World, id: nat)
    requires Inv(su, w) && id in w.h.calls && w.h.calls[id].op == Complete && w.h.calls[id].answer.Given?
    requires NeverReleased(w.h, w.h.calls[id].owner)
    requires
      var c := w.h.calls[id];
      && c.answer.at <= |w.h.log| && Owns(Replay(w.h.log[..c.answer.at]), c.key, c.owner)
      && ForgotNothing(w.h.log, c.key, c.answer.at)
    ensures
      var c := w.h.calls[id];
      && Owns(Replay(w.h.log), c.key, c.owner) && Replay(w.h.log)[c.key].completed
      && forall other, lease, now ::
           ReplyTo(Replay(w.h.log), c.key, other, Acquire(lease), now) == Claimed(Completed)
  {
    var c, log := w.h.calls[id], w.h.log;
    AnsweredCompletions(su, w, id);
    if Replay(log[..c.answer.at])[c.key].completed {
      CompletionHolds(log, su.slack, c.answer.at, c.key, c.owner);
    } else {
      assert log[..c.answer.at + 1] == log[..c.answer.at] + [log[c.answer.at]];
      ReplayAppend(log[..c.answer.at], log[c.answer.at]);
      CompletionHolds(log, su.slack, c.answer.at + 1, c.key, c.owner);
    }
  }

  /** An attempt that acks has not given its claim back and never will; so if it held the claim
      when its complete call was answered, every claim of the message from then on is answered
      Completed, for as long as the store does not forget it. */
  lemma AckedDeliveriesAreAbsorbed(su: Setup, acts: seq<Action>, owner: Owner, id: nat)
    requires var d := After(su, acts).d; owner in d.pulls && Ack in d.pulls[owner].trace
    requires
      var w := After(su, acts);
      && id in w.h.calls && IsOf(w.h.calls[id], w.d.pulls[owner].key, owner) && Completes(w.h.log, w.h.calls[id])
      && Owns(Replay(w.h.log[..w.h.calls[id].answer.at]), w.d.pulls[owner].key, owner)
      && ForgotNothing(w.h.log, w.d.pulls[owner].key, w.h.calls[id].answer.at)
    ensures
      var w := After(su, acts);
      var key := w.d.pulls[owner].key;
      && Owns(Replay(w.h.log), key, owner) && Replay(w.h.log)[key].completed
      && NeverReleased(w.h, owner)
      && forall other, lease, now ::
           ReplyTo(Replay(w.h.log), key, other, Acquire(lease), now) == Claimed(Completed)
  {
    RunsKeepInv(su, acts);
    RunsSettle(su, acts);
    var w := After(su, acts);
    assert PullSettled(w, owner);
    CompletionsStand(su, w, id);
  }

  /** The same for a request whose dispatch returned: it has made its complete call, it never
      gives its claim back, and once that call is answered, with the claim still its own, the
      message stays absorbed. */
  lemma ReturnedRequestsAreCompleted(su: Setup, acts: seq<Action>, owner: Owner) returns (id: nat)
    requires
      var d := After(su, acts).d;
      owner in d.pushes && d.pushes[owner].tracked && d.pushes[owner].returned
    ensures
      var w := After(su, acts);
      var key := w.d.pushes[owner].key;
      && id in w.h.calls && IsOf(w.h.calls[id], key, owner) && w.h.calls[id].op == Complete
      && NeverReleased(w.h, owner)
      && (w.h.calls[id].answer.Given? ==>
            && Completes(w.h.log, w.h.calls[id])
            && (Owns(Replay(w.h.log[..w.h.calls[id].answer.at]), key, owner)
                && ForgotNothing(w.h.log, key, w.h.calls[id].answer.at) ==>
                  forall other, lease, now ::
                    ReplyTo(Replay(w.h.log), key, other, Acquire(lease), now) == Claimed(Completed)))
  {
    RunsKeepInv(su, acts);
    RunsSettle(su, acts);
    var w := After(su, acts);
    var key := w.d.pushes[owner].key;
    assert PushSettled(w, owner);
    id :| id in w.h.calls && IsOf(w.h.calls[id], key, owner) && w.h.calls[id].op == Complete;
    if w.h.calls[id].answer.Given? {
      AnsweredCompletions(su, w, id);
      if Owns(Replay(w.h.log[..w.h.calls[id].answer.at]), key, owner)
        && ForgotNothing(w.h.log, key, w.h.calls[id].answer.at) {
        CompletionsStand(su, w, id);
      }
    }
  }

  // ------------------------------------------------------------------ what a failure leaves there

  lemma AnsweredReleases(su: Setup, w: World, id: nat)
    requires Inv(su, w) && ReleasesFollowClaims(w.h)
    requires id in w.h.calls && w.h.calls[id].op == Release && w.h.calls[id].answer.Given?
    ensures Gone(w.h.log, w.h.calls[id].key, w.h.calls[id].owner)
  {
    var c, log := w.h.calls[id], w.h.log;
    var n := c.answer.at;
    assert H.Atomic(w.h, c);
    NotFreshStays(log, c.start, n, c.owner);
    if H.Unchanging(log, c, n, c.answer.read) {
      assert Effect(Replay(log[..n]), c.key, c.owner, c.op, c.answer.read, 0.0) == Replay(log[..n]);
      GoneForGood(log, n, su.slack, c.key, c.owner);
    } else {
      assert log[..n + 1] == log[..n] + [log[n]];
      ReplayAppend(log[..n], log[n]);
      NotFreshStays(log, n, n + 1, c.owner);
      GoneForGood(log, n + 1, su.slack, c.key, c.owner);
    }
  }

  /** After failed work whose release call returned, no claim of this attempt is stored, then or
      ever after; the next delivery of the message is not held up by it. */
  lemma ReleasedDeliveriesLeaveNoClaim(su: Setup, acts: seq<Action>, owner: Owner)
    requires var d := After(su, acts).d; owner in d.pulls && d.pulls[owner].released
    ensures var w := After(su, acts); !Owns(Replay(w.h.log), w.d.pulls[owner].key, owner)
  {
    RunsKeepInv(su, acts);
    RunsSettle(su, acts);
    var w := After(su, acts);
    assert PullSettled(w, owner);
    var id :| id in w.h.calls && IsOf(w.h.calls[id], w.d.pulls[owner].key, owner) && w.h.calls[id].op == Release
              && w.h.calls[id].answer.Given?;
    AnsweredReleases(su, w, id);
  }

  // ------------------------------------------------------------------ how a wait ends

  /** What the code sees when its storage call ends: the call's own answer, a claim's with whether
      the message then parses; a failure; or a cancellation. */
  predicate SeesIo(w: World, owner: Owner, io: Io, claiming: bool, parsed: bool, o: Outcome) {
    match io
    case Interrupt => o == Cancelled
    case Failure => o == Raised
    case Success =>
      if claiming then
        o.Answered? && o.parsed == parsed && HasReply(w, owner, Claimed(o.result))
      else o == Returned
  }

  /** The reply fits the operation. */
  lemma RepliesFit(su: Setup, w: World, id: nat)
    requires Inv(su, w) && id in w.h.calls && w.h.calls[id].answer.Given?
    ensures w.h.calls[id].op.Acquire? <==> w.h.calls[id].answer.reply.Claimed?
  {
    assert H.Atomic(w.h, w.h.calls[id]);
  }

  /** An attempt goes on exactly as its coroutine does on what it sees. */
  lemma PullsGoOnAsTheySee(su: Setup, acts: seq<Action>, owner: Owner, io: Io, parsed: bool, id: nat)
    requires Enabled(su, After(su, acts), Local(PullReturn(owner, io, parsed), id))
    ensures
      var w, v := After(su, acts), Do(su, After(su, acts), Local(PullReturn(owner, io, parsed), id));
      && owner in v.d.pulls
      && exists o ::
           && SeesIo(w, owner, io, w.d.pulls[owner].at == Claiming, parsed, o)
           && v.d.pulls[owner] == Resume(su.cfg, w.d.pulls[owner], o)
  {
    RunsKeepInv(su, acts);
    var w := After(su, acts);
    KnownOf(su, w, owner);
    PullReturnWent(su, w, owner, io, parsed, id);
    if io == Success { RepliesFit(su, w, w.d.current[owner]); }
    var o := OutcomeOf(io, Answer(Replied(w.h), w.d.current, owner), parsed);
    assert SeesIo(w, owner, io, w.d.pulls[owner].at == Claiming, parsed, o);
  }

  /** So does a request. */
  lemma RequestsGoOnAsTheySee(su: Setup, acts: seq<Action>, owner: Owner, io: Io, id: nat)
    requires Enabled(su, After(su, acts), Local(PushReturn(owner, io), id))
    ensures
      var w, v := After(su, acts), Do(su, After(su, acts), Local(PushReturn(owner, io), id));
      && owner in v.d.pushes
      && exists o ::
           && SeesIo(w, owner, io, w.d.pushes[owner].at == PushClaiming, true, o)
           && v.d.pushes[owner] == Proceed(w.d.pushes[owner], o)
  {
    RunsKeepInv(su, acts);
    var w := After(su, acts);
    KnownOf(su, w, owner);
    PushReturnWent(su, w, owner, io, id);
    if io == Success { RepliesFit(su, w, w.d.current[owner]); }
    var o := OutcomeOf(io, Answer(Replied(w.h), w.d.current, owner), true);
    assert SeesIo(w, owner, io, w.d.pushes[owner].at == PushClaiming, true, o);
  }

  // ------------------------------------------------------------------ renewals

  /** The renewal loop stopped by itself: its call was refused, failed, or was interrupted. */
  ghost predicate StopsRenewing(su: Setup, acts: seq<Action>, i: nat, owner: Owner)
    requires i < |acts|
  {
    var w := After(su, acts[..i]);
    && Enabled(su, w, acts[i]) && acts[i].Local? && acts[i].move.RenewReturn? && acts[i].move.owner == owner
    && !(acts[i].move.io == Success && Answer(Replied(w.h), w.d.renewal, owner) == Some(Renewed(true)))
  }

  /** It stops for a reason only: the wait failed or was cancelled, or the answer was no grant. */
  lemma RenewalsStopForAReason(su: Setup, acts: seq<Action>, i: nat, owner: Owner)
    requires i < |acts| && StopsRenewing(su, acts, i, owner) && acts[i].move.io == Success
    ensures
      var w := After(su, acts[..i]);
      && owner in w.d.renewal && w.d.renewal[owner] in w.h.calls
      && w.h.calls[w.d.renewal[owner]].answer.Given?
      && w.h.calls[w.d.renewal[owner]].answer.reply != Renewed(true)
  {
  }

  ghost predicate StoppedRenewing(su: Setup, acts: seq<Action>, owner: Owner) {
    exists i | 0 <= i < |acts| :: StopsRenewing(su, acts, i, owner)
  }

  ghost predicate Renews(su: Setup, acts: seq<Action>, owner: Owner) {
    var d := After(su, acts).d;
    if owner in d.pulls then
      && (d.pulls[owner].renewing <==>
            && d.pulls[owner].at != Claiming && d.pulls[owner].at != Finished
            && !StoppedRenewing(su, acts, owner))
      && (d.pulls[owner].at == Claiming ==> !StoppedRenewing(su, acts, owner))
    else !StoppedRenewing(su, acts, owner)
  }

  lemma StoppedBefore(su: Setup, acts: seq<Action>, owner: Owner)
    requires acts != []
    ensures StoppedRenewing(su, acts, owner) <==>
      StoppedRenewing(su, acts[..|acts| - 1], owner) || StopsRenewing(su, acts, |acts| - 1, owner)
  {
    var before := acts[..|acts| - 1];
    forall i | 0 <= i < |before| ensures StopsRenewing(su, acts, i, owner) <==> StopsRenewing(su, before, i, owner) {
      assert before[..i] == acts[..i];
    }
    if StoppedRenewing(su, before, owner) {
      var i :| 0 <= i < |before| && StopsRenewing(su, before, i, owner);
      assert StopsRenewing(su, acts, i, owner);
    }
  }

  lemma ResumeRenews(cfg: Config, a: Attempt, o: Outcome)
    requires a.at == Claiming || a.at == Finished ==> !a.renewing
    ensures
      var b := Resume(cfg, a, o);
      b.at != Claiming && (b.renewing <==> b.at != Finished && (a.at == Claiming || a.renewing))
    ensures a.at == Finished ==> Resume(cfg, a, o).at == Finished
  {
  }

  lemma StoreStepRenews(su: Setup, acts: seq<Action>, owner: Owner)
    requires acts != [] && acts[|acts| - 1].Store? && Renews(su, acts[..|acts| - 1], owner)
    ensures Renews(su, acts, owner)
  {
    StoppedBefore(su, acts, owner);
  }

  /** The step as the renewing of owner sees it; stops: the renewal loop stopped by itself. */
  ghost predicate RenewalGoes(d: Attempts, v: Attempts, owner: Owner, stops: bool) {
    && (owner in d.pulls ==> owner in v.pulls)
    && (stops ==> owner in d.pulls && d.pulls[owner].renewing && !v.pulls[owner].renewing
                  && v.pulls[owner].at == d.pulls[owner].at)
    && (owner in v.pulls && owner !in d.pulls ==> !v.pulls[owner].renewing && v.pulls[owner].at == Claiming)
    && (owner in d.pulls && !stops ==>
          var a, b := d.pulls[owner], v.pulls[owner];
          || (b.at == a.at && b.renewing == a.renewing)
          || (b.at != Claiming && a.at != Finished
              && (b.renewing <==> b.at != Finished && (a.at == Claiming || a.renewing))))
  }

  lemma MovesGo(su: Setup, w: World, move: Move, id: nat, owner: Owner, stops: bool)
    requires Enabled(su, w, Local(move, id))
    requires owner in w.d.pulls && (w.d.pulls[owner].at == Claiming || w.d.pulls[owner].at == Finished) ==>
      !w.d.pulls[owner].renewing
    requires stops <==>
      && move.RenewReturn? && move.owner == owner
      && !(move.io == Success && Answer(Replied(w.h), w.d.renewal, owner) == Some(Renewed(true)))
    ensures RenewalGoes(w.d, Do(su, w, Local(move, id)).d, owner, stops)
  {
    MovesLeaveOthers(su.cfg, w.d, Replied(w.h), move, id);
    if move.owner == owner {
      match move {
        case PullStep(_, o) => ResumeRenews(su.cfg, w.d.pulls[owner], o);
        case PullReturn(_, io, parsed) =>
          ResumeRenews(su.cfg, w.d.pulls[owner], OutcomeOf(io, Answer(Replied(w.h), w.d.current, owner), parsed));
        case _ =>
      }
    }
  }

  lemma MoveRenews(su: Setup, acts: seq<Action>, owner: Owner)
    requires acts != [] && acts[|acts| - 1].Local? && Renews(su, acts[..|acts| - 1], owner)
    ensures Renews(su, acts, owner)
  {
    StoppedBefore(su, acts, owner);
    var w, act := After(su, acts[..|acts| - 1]), acts[|acts| - 1];
    if Enabled(su, w, act) {
      MovesGo(su, w, act.move, act.id, owner, StopsRenewing(su, acts, |acts| - 1, owner));
    }
  }

  /** The lease of an attempt is renewed from its First answer until it is over or its renewal
      loop has met a call that was refused or failed, and not a moment longer: a finished attempt
      makes no renewal call. */
  lemma {:induction false} RenewsWhileInFlight(su: Setup, acts: seq<Action>, owner: Owner)
    ensures Renews(su, acts, owner)
    ensures
      var w := After(su, acts);
      forall id | Enabled(su, w, Local(RenewSend(owner), id)) ::
        && w.d.pulls[owner].at != Claiming && w.d.pulls[owner].at != Finished
        && !StoppedRenewing(su, acts, owner)
  {
    if acts != [] {
      RenewsWhileInFlight(su, acts[..|acts| - 1], owner);
      if acts[|acts| - 1].Store? { StoreStepRenews(su, acts, owner); } else { MoveRenews(su, acts, owner); }
    }
  }

  // ------------------------------------------------------------------ what counts as dispatched

  /** The action is the normal return of owner's dispatcher call for key. */
  ghost predicate DispatchReturns(su: Setup, w: World, act: Action, owner: Owner, key: Key) {
    && Enabled(su, w, act) && act.Local?
    && (|| (act.move == PullStep(owner, Returned) && w.d.pulls[owner].at == Feeding && w.d.pulls[owner].key == key)
        || (act.move == PushDispatch(owner, Returned) && w.d.pushes[owner].tracked && w.d.pushes[owner].key == key))
  }

  lemma NewlyFed(su: Setup, w: World, act: Action, owner: Owner, key: Key)
    requires !Fed(w.d, owner, key) && Fed(Do(su, w, act).d, owner, key)
    ensures DispatchReturns(su, w, act, owner, key)
  {
    if act.Local? {
      match act.move {
        case PullStep(_, _) =>
        case PushDispatch(_, _) =>
        case _ =>
      }
    }
  }

  /** Being on record as dispatched means just that, so the theorems about acks and answers speak
      of dispatcher calls that returned normally. */
  lemma {:induction false} FedMeansReturned(su: Setup, acts: seq<Action>, owner: Owner, key: Key) returns (i: nat)
    requires Fed(After(su, acts).d, owner, key)
    ensures i < |acts| && DispatchReturns(su, After(su, acts[..i]), acts[i], owner, key)
  {
    var before := acts[..|acts| - 1];
    if Fed(After(su, before).d, owner, key) {
      i := FedMeansReturned(su, before, owner, key);
      assert before[..i] == acts[..i];
    } else {
      i := |before|;
      NewlyFed(su, After(su, before), acts[i], owner, key);
    }
  }
}
