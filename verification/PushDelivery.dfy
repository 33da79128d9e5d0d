/**
 One push request: _PushDeliveryCoordinator and the two push endpoints of
 src/chattice/integrations/fastapi/router.py, from the claim on.

 Like PullDelivery: a machine with one state per await, and the endpoint itself, statement by
 statement, for a script that fixes the outcome of every await.
 */
module PushDelivery {
  import opened Options
  import opened Claims
  import opened PullDelivery

  datatype PushAwait =
    | PushClaiming
    | Dispatching
    | PushReleasing
    | PushCompleting
    | Responded(status: int)
    | Aborted                       // cancelled: the request gets no response

  /** tracked: a store is configured and the envelope carries a message id. returned: the
      dispatcher call of this request returned. released: its release call returned. */
  datatype Push = Push(key: Key, tracked: bool, at: PushAwait, returned: bool, released: bool)

  function Open(key: Key, tracked: bool): Push {
    Push(key, tracked, if tracked then PushClaiming else Dispatching, false, false)
  }

  /** Only the claim lets a storage failure show; release and complete log it and go on. */
  function Proceed(p: Push, o: Outcome): Push {
    match p.at
    case PushClaiming => (
      match o
      case Answered(First, _) => p.(at := Dispatching)
      case Answered(Completed, _) => p.(at := Responded(204))
      case Answered(Active, _) => p.(at := Responded(429))
      case Cancelled => p.(at := Aborted)
      case _ => p.(at := Responded(500)))
    case Dispatching => (
      match o
      case Returned => p.(returned := true, at := if p.tracked then PushCompleting else Responded(204))
      case Cancelled => p.(at := Aborted)
      case _ => p.(at := if p.tracked then PushReleasing else Responded(500)))
    case PushReleasing => p.(at := if o == Cancelled then Aborted else Responded(500), released := o == Returned)
    case PushCompleting => p.(at := if o == Cancelled then Aborted else Responded(204))
    case _ => p
  }

  // ------------------------------------------------------------------ one whole request

  datatype PushScript = PushScript(claim: Outcome, feed: Outcome, release: Outcome, complete: Outcome)

  function PickPush(s: PushScript, at: PushAwait): Outcome {
    match at
    case PushClaiming => s.claim
    case Dispatching => s.feed
    case PushReleasing => s.release
    case PushCompleting => s.complete
    case _ => Returned
  }

  predicate Over(at: PushAwait) {
    at.Responded? || at == Aborted
  }

  function Left(at: PushAwait): nat {
    match at
    case PushClaiming => 3
    case Dispatching => 2
    case PushReleasing => 1
    case PushCompleting => 1
    case _ => 0
  }

  function DrivePush(p: Push, s: PushScript): Push
    decreases Left(p.at)
  {
    if Over(p.at) then p else DrivePush(Proceed(p, PickPush(s, p.at)), s)
  }

  /** The request gets as far as the dispatcher. */
  predicate Feeds(tracked: bool, s: PushScript) {
    tracked ==> s.claim.Answered? && s.claim.result == First
  }

  /** The await the request is cancelled in, if it is. */
  predicate CutShort(tracked: bool, s: PushScript) {
    || (tracked && s.claim == Cancelled)
    || (Feeds(tracked, s) && s.feed == Cancelled)
    || (Feeds(tracked, s) && tracked && s.feed == Returned && s.complete == Cancelled)
    || (Feeds(tracked, s) && tracked && s.feed !in {Returned, Cancelled} && s.release == Cancelled)
  }

  /** What every request is answered: 204 for a dispatch that returned or a delivery found
      completed, 429 for one that is active elsewhere, 500 for a claim or a dispatch that
      failed; and the release is called exactly after a failed dispatch of a tracked one. */
  lemma RequestsAreAnswered(key: Key, tracked: bool, s: PushScript)
    ensures
      var p := DrivePush(Open(key, tracked), s);
      && Over(p.at)
      && (p.at == Aborted <==> CutShort(tracked, s))
      && (p.at == Responded(204) <==>
            && !CutShort(tracked, s)
            && (if Feeds(tracked, s) then s.feed == Returned else s.claim.Answered? && s.claim.result == Completed))
      && (p.at == Responded(429) <==> tracked && s.claim.Answered? && s.claim.result == Active)
      && (p.at == Responded(500) <==>
            !CutShort(tracked, s) && (if Feeds(tracked, s) then s.feed != Returned else !s.claim.Answered?))
      && (p.returned <==> Feeds(tracked, s) && s.feed == Returned)
      && (p.released <==> tracked && Feeds(tracked, s) && s.feed !in {Returned, Cancelled} && s.release == Returned)
  {
    var p := Open(key, tracked);
    var q := Proceed(p, PickPush(s, p.at));
    assert DrivePush(p, s) == DrivePush(q, s);
    if !Over(q.at) {
      var r := Proceed(q, PickPush(s, q.at));
      assert DrivePush(q, s) == DrivePush(r, s);
      if !Over(r.at) {
        assert DrivePush(r, s) == Proceed(r, PickPush(s, r.at));
      }
    }
  }

  // ------------------------------------------------------------------ the coroutines

  /** The coordinator's claim: None lets the request go on. */
  method CoordinatorClaim(tracked: bool, s: PushScript) returns (short: Option<PushAwait>)
    ensures short == if Feeds(tracked, s) then None else Some(Proceed(Open("", true), s.claim).at)
  {
    if !tracked { return None; }
    if s.claim == Cancelled { return Some(Aborted); }
    if !s.claim.Answered? { return Some(Responded(500)); }
    if s.claim.result == Completed { return Some(Responded(204)); }
    if s.claim.result == Active { return Some(Responded(429)); }
    return None;
  }

  /** The endpoint, from the claim on: it ends as the machine ends. */
  method Endpoint(key: Key, tracked: bool, s: PushScript) returns (at: PushAwait, released: bool)
    ensures at == DrivePush(Open(key, tracked), s).at
    ensures released == DrivePush(Open(key, tracked), s).released
  {
    RequestsAreAnswered(key, tracked, s);
    var short := CoordinatorClaim(tracked, s);
    if short.Some? { return short.value, false; }
    if s.feed == Cancelled { return Aborted, false; }
    if s.feed != Returned {
      if tracked {
        if s.release == Cancelled { return Aborted, false; }
        released := s.release == Returned;
      } else {
        released := false;
      }
      return Responded(500), released;
    }
    if tracked && s.complete == Cancelled { return Aborted, false; }
    return Responded(204), false;
  }
}
