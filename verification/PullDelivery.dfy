/**
 One pull delivery: PubSubPullRunner._handle of src/chattice/transports/pubsub_runner.py.

 The attempt is a machine with one state per await. Resume says what the code between two
 awaits does when the first one returns, raises, or is cancelled. Handle is the coroutine
 itself, statement by statement, for a script that fixes the outcome of every await.
 */
module PullDelivery {
  import opened Options
  import opened Claims

  /** PoisonAck is the ack of the terminal policy; Ack is every other ack. */
  datatype Disposition = Ack | PoisonAck | Nack

  /** hooks: an observability object with the delivery hooks is configured. */
  datatype Config = Config(maxAttempts: int, hooks: bool)

  datatype Await =
    | Claiming
    | Feeding
    | Answering
    | Notifying
    | Completing(rejected: bool)   // rejected: after CapabilityNotSupported
    | AckHook
    | Releasing
    | Poisoning
    | NackHook
    | Cleanup                      // the finally block: awaiting the cancelled renewal task
    | Finished

  /** How an await ends. Raised stands for any Exception other than CapabilityNotSupported. */
  datatype Outcome =
    | Answered(result: ClaimResult, parsed: bool)   // the claim; parsed: the message then parses
    | Returned
    | Rejected(notify: bool)                        // CapabilityNotSupported; notify: there is a bot and a space
    | Raised
    | Cancelled

  datatype Attempt = Attempt(
    key: Key,
    delivery: Option<int>,         // message.delivery_attempt
    at: Await,
    renewing: bool,                // the renewal task exists and has not been joined
    released: bool,                // its release call returned
    trace: seq<Disposition>)

  function Start(key: Key, delivery: Option<int>): Attempt {
    Attempt(key, delivery, Claiming, false, false, [])
  }

  function Dispose(a: Attempt, d: Disposition, next: Await): Attempt {
    a.(trace := a.trace + [d], at := next)
  }

  /** The branch after the release attempt of the except block. */
  function AfterRelease(cfg: Config, a: Attempt): Attempt {
    match a.delivery
    case None => a.(at := Cleanup)   // comparing None with an int raises TypeError
    case Some(n) =>
      if n >= cfg.maxAttempts then a.(at := Poisoning)
      else Dispose(a, Nack, if cfg.hooks then NackHook else Cleanup)
  }

  function Resume(cfg: Config, a: Attempt, o: Outcome): Attempt {
    match a.at
    case Claiming => (
      match o
      case Answered(First, parsed) => a.(renewing := true, at := if parsed then Feeding else Releasing)
      case Answered(Completed, _) => Dispose(a, Ack, Finished)
      case Answered(Active, _) => Dispose(a, Nack, Finished)
      case Cancelled => a.(at := Finished)
      case _ => Dispose(a, Nack, Finished))
    case Feeding => (
      match o
      case Cancelled => Dispose(a, Nack, Cleanup)
      case Returned => a.(at := Answering)
      case _ => a.(at := Releasing))
    case Answering => (
      match o
      case Cancelled => Dispose(a, Nack, Cleanup)
      case Returned => a.(at := Completing(false))
      case Rejected(notify) => a.(at := if notify then Notifying else Completing(true))
      case _ => a.(at := Releasing))
    case Notifying => (
      match o
      case Cancelled => Dispose(a, Nack, Cleanup)
      case Returned => a.(at := Completing(true))
      case _ => a.(at := Releasing))
    case Completing(rejected) => (
      match o
      case Cancelled => Dispose(a, Nack, Cleanup)
      case Returned => Dispose(a, Ack, if cfg.hooks && !rejected then AckHook else Cleanup)
      case _ => a.(at := Releasing))
    case AckHook =>
      if o == Cancelled then Dispose(a, Nack, Cleanup) else a.(at := Cleanup)
    case Releasing =>
      if o == Cancelled then a.(at := Cleanup) else AfterRelease(cfg, a.(released := o == Returned))
    case Poisoning =>
      if o == Cancelled then a.(at := Cleanup) else Dispose(a, PoisonAck, Cleanup)
    case NackHook => a.(at := Cleanup)
    case Cleanup => a.(at := Finished, renewing := false)
    case Finished => a
  }

  // ------------------------------------------------------------------ one whole run

  /** The outcome of every await of one run; each await is reached at most once. */
  datatype Script = Script(
    claim: Outcome, feed: Outcome, answer: Outcome, notify: Outcome, complete: Outcome,
    ackHook: Outcome, release: Outcome, poison: Outcome)

  function Pick(s: Script, at: Await): Outcome {
    match at
    case Claiming => s.claim
    case Feeding => s.feed
    case Answering => s.answer
    case Notifying => s.notify
    case Completing(_) => s.complete
    case AckHook => s.ackHook
    case Releasing => s.release
    case Poisoning => s.poison
    case _ => Returned
  }

  function Rank(at: Await): nat {
    match at
    case Claiming => 9
    case Feeding => 8
    case Answering => 7
    case Notifying => 6
    case Completing(_) => 5
    case AckHook => 2
    case Releasing => 4
    case Poisoning => 3
    case NackHook => 2
    case Cleanup => 1
    case Finished => 0
  }

  lemma ResumeFalls(cfg: Config, a: Attempt, o: Outcome)
    requires a.at != Finished
    ensures Rank(Resume(cfg, a, o).at) < Rank(a.at)
  {
  }

  /** Resume the attempt until its coroutine has returned. */
  function Drive(cfg: Config, a: Attempt, s: Script): Attempt
    decreases Rank(a.at)
  {
    if a.at == Finished then a else
      ResumeFalls(cfg, a, Pick(s, a.at));
      Drive(cfg, Resume(cfg, a, Pick(s, a.at)), s)
  }

  function Run(cfg: Config, key: Key, delivery: Option<int>, s: Script): Attempt {
    Drive(cfg, Start(key, delivery), s)
  }

  /** The awaits the run reaches, read off the script. */
  predicate Dispatches(s: Script) {
    s.claim == Answered(First, true)
  }

  /** The handler answer was delivered, or its rejection was reported. */
  predicate ReachesComplete(s: Script) {
    && Dispatches(s) && s.feed == Returned
    && (s.answer == Returned
        || (s.answer.Rejected? && (s.answer.notify ==> s.notify == Returned)))
  }

  predicate ReachesAckHook(cfg: Config, s: Script) {
    cfg.hooks && ReachesComplete(s) && s.answer == Returned && s.complete == Returned
  }

  /** Some Exception, not a cancellation, ended the work before the ack. */
  predicate Fails(s: Script) {
    || s.claim == Answered(First, false)
    || (Dispatches(s) && s.feed !in {Returned, Cancelled})
    || (Dispatches(s) && s.feed == Returned && s.answer.Answered?)
    || (Dispatches(s) && s.feed == Returned && s.answer == Raised)
    || (Dispatches(s) && s.feed == Returned && s.answer == Rejected(true) && s.notify !in {Returned, Cancelled})
    || (ReachesComplete(s) && s.complete !in {Returned, Cancelled})
  }

  /** The run ends without ack and without nack: cancelled in the claim, in the release or
      before the poison ack, or stopped by a missing delivery counter. */
  predicate Silent(cfg: Config, delivery: Option<int>, s: Script) {
    || s.claim == Cancelled
    || (Fails(s) && (|| s.release == Cancelled
                     || delivery == None
                     || (delivery.value >= cfg.maxAttempts && s.poison == Cancelled)))
  }

  // The dispositions still to come at each await, read off the script.

  function FromRelease(cfg: Config, delivery: Option<int>, s: Script): seq<Disposition> {
    if s.release == Cancelled || delivery == None then []
    else if delivery.value < cfg.maxAttempts then [Nack]
    else if s.poison == Cancelled then [] else [PoisonAck]
  }

  function FromComplete(cfg: Config, delivery: Option<int>, s: Script, rejected: bool): seq<Disposition> {
    if s.complete == Cancelled then [Nack]
    else if s.complete != Returned then FromRelease(cfg, delivery, s)
    else if cfg.hooks && !rejected && s.ackHook == Cancelled then [Ack, Nack]
    else [Ack]
  }

  function FromNotify(cfg: Config, delivery: Option<int>, s: Script): seq<Disposition> {
    if s.notify == Cancelled then [Nack]
    else if s.notify != Returned then FromRelease(cfg, delivery, s)
    else FromComplete(cfg, delivery, s, true)
  }

  function FromAnswer(cfg: Config, delivery: Option<int>, s: Script): seq<Disposition> {
    match s.answer
    case Cancelled => [Nack]
    case Returned => FromComplete(cfg, delivery, s, false)
    case Rejected(notify) => if notify then FromNotify(cfg, delivery, s) else FromComplete(cfg, delivery, s, true)
    case _ => FromRelease(cfg, delivery, s)
  }

  function FromDispatch(cfg: Config, delivery: Option<int>, s: Script): seq<Disposition> {
    if s.feed == Cancelled then [Nack]
    else if s.feed != Returned then FromRelease(cfg, delivery, s)
    else FromAnswer(cfg, delivery, s)
  }

  function FromClaim(cfg: Config, delivery: Option<int>, s: Script): seq<Disposition> {
    match s.claim
    case Answered(First, parsed) => if parsed then FromDispatch(cfg, delivery, s) else FromRelease(cfg, delivery, s)
    case Answered(Completed, _) => [Ack]
    case Cancelled => []
    case _ => [Nack]
  }

  function Remaining(cfg: Config, delivery: Option<int>, s: Script, at: Await): seq<Disposition> {
    match at
    case Claiming => FromClaim(cfg, delivery, s)
    case Feeding => FromDispatch(cfg, delivery, s)
    case Answering => FromAnswer(cfg, delivery, s)
    case Notifying => FromNotify(cfg, delivery, s)
    case Completing(rejected) => FromComplete(cfg, delivery, s, rejected)
    case AckHook => if s.ackHook == Cancelled then [Nack] else []
    case Releasing => FromRelease(cfg, delivery, s)
    case Poisoning => if s.poison == Cancelled then [] else [PoisonAck]
    case _ => []
  }

  /** The attempt went on, emitting what the script gives up by going on. */
  predicate Disposes(cfg: Config, a: Attempt, b: Attempt, s: Script) {
    && b.delivery == a.delivery && Rank(b.at) < Rank(a.at)
    && b.trace + Remaining(cfg, a.delivery, s, b.at) == a.trace + Remaining(cfg, a.delivery, s, a.at)
  }

  predicate Early(at: Await) {
    at.Claiming? || at.Feeding? || at.Answering? || at.Notifying?
  }

  lemma ClaimDisposes(cfg: Config, a: Attempt, s: Script)
    requires a.at == Claiming
    ensures Disposes(cfg, a, Resume(cfg, a, Pick(s, a.at)), s)
  {
    var left := Remaining(cfg, a.delivery, s, Resume(cfg, a, Pick(s, a.at)).at);
    Emitted(a.trace, Ack, left);
    Emitted(a.trace, Nack, left);
  }

  lemma EarlyDisposes(cfg: Config, a: Attempt, s: Script)
    requires Early(a.at) && a.at != Claiming
    ensures Disposes(cfg, a, Resume(cfg, a, Pick(s, a.at)), s)
  {
    var left := Remaining(cfg, a.delivery, s, Resume(cfg, a, Pick(s, a.at)).at);
    Emitted(a.trace, Ack, left);
    Emitted(a.trace, Nack, left);
  }

  lemma LateDisposes(cfg: Config, a: Attempt, s: Script)
    requires a.at.Completing? || a.at.AckHook?
    ensures Disposes(cfg, a, Resume(cfg, a, Pick(s, a.at)), s)
  {
    var left := Remaining(cfg, a.delivery, s, Resume(cfg, a, Pick(s, a.at)).at);
    Emitted(a.trace, Ack, left);
    Emitted(a.trace, Nack, left);
  }

  lemma FailedDisposes(cfg: Config, a: Attempt, s: Script)
    requires !Early(a.at) && !a.at.Completing? && !a.at.AckHook? && a.at != Finished
    ensures Disposes(cfg, a, Resume(cfg, a, Pick(s, a.at)), s)
  {
    var left := Remaining(cfg, a.delivery, s, Resume(cfg, a, Pick(s, a.at)).at);
    Emitted(a.trace, PoisonAck, left);
    Emitted(a.trace, Nack, left);
  }

  /** One resumption emits exactly the dispositions the script gives up. */
  lemma ResumeDisposes(cfg: Config, a: Attempt, s: Script)
    requires a.at != Finished
    ensures Disposes(cfg, a, Resume(cfg, a, Pick(s, a.at)), s)
  {
    if a.at == Claiming {
      ClaimDisposes(cfg, a, s);
    } else if Early(a.at) {
      EarlyDisposes(cfg, a, s);
    } else if a.at.Completing? || a.at.AckHook? {
      LateDisposes(cfg, a, s);
    } else {
      FailedDisposes(cfg, a, s);
    }
  }

  lemma Emitted(trace: seq<Disposition>, d: Disposition, rest: seq<Disposition>)
    ensures (trace + [d]) + rest == trace + ([d] + rest)
  {
  }

  /** The machine, driven to its end from any await, disposes as the script says. */
  lemma {:induction false} DriveDisposes(cfg: Config, a: Attempt, s: Script)
    ensures Drive(cfg, a, s).trace == a.trace + Remaining(cfg, a.delivery, s, a.at)
    decreases Rank(a.at)
  {
    if a.at != Finished {
      ResumeDisposes(cfg, a, s);
      DriveDisposes(cfg, Resume(cfg, a, Pick(s, a.at)), s);
    }
  }

  /** The exact number of dispositions of every run. One, except for the silent runs and for a
      cancellation inside the hook that follows the ack, which nacks the acked message. */
  lemma DispositionsPerRun(cfg: Config, key: Key, delivery: Option<int>, s: Script)
    ensures
      var trace := Run(cfg, key, delivery, s).trace;
      && |trace| <= 2
      && (|trace| == 0 <==> Silent(cfg, delivery, s))
      && (|trace| == 2 <==> ReachesAckHook(cfg, s) && s.ackHook == Cancelled)
      && (|trace| == 2 ==> trace == [Ack, Nack])
  {
    DriveDisposes(cfg, Start(key, delivery), s);
  }

  /** Runs that break the rule of one disposition, with any counter and any limit: cancelled in
      the hook after the ack the message is nacked too, and a failed message without a delivery
      counter is neither acked nor nacked. */
  lemma AckedAndNackedOrNeither(maxAttempts: int, hooks: bool, key: Key, delivery: Option<int>)
    ensures
      var s := Script(Answered(First, true), Returned, Returned, Returned, Returned, Cancelled, Returned, Returned);
      Run(Config(maxAttempts, true), key, delivery, s).trace == [Ack, Nack]
    ensures
      var s := Script(Answered(First, true), Raised, Returned, Returned, Returned, Returned, Returned, Returned);
      Run(Config(maxAttempts, hooks), key, None, s).trace == []
  {
    var hooked := Script(Answered(First, true), Returned, Returned, Returned, Returned, Cancelled, Returned, Returned);
    DriveDisposes(Config(maxAttempts, true), Start(key, delivery), hooked);
    var failed := Script(Answered(First, true), Raised, Returned, Returned, Returned, Returned, Returned, Returned);
    DriveDisposes(Config(maxAttempts, hooks), Start(key, None), failed);
  }

  /** The promise of the coroutine's documentation, where it holds: with a delivery counter,
      no hooks, and no cancellation, a run disposes of its message exactly once; with no hooks
      it never does so twice. */
  lemma SingleDisposition(cfg: Config, key: Key, delivery: Option<int>, s: Script)
    requires !cfg.hooks && delivery.Some?
    ensures |Run(cfg, key, delivery, s).trace| <= 1
    ensures (forall at :: Pick(s, at) != Cancelled) ==> |Run(cfg, key, delivery, s).trace| == 1
  {
    DispositionsPerRun(cfg, key, delivery, s);
    assert Pick(s, Claiming) == s.claim && Pick(s, Releasing) == s.release && Pick(s, Poisoning) == s.poison;
  }

  /** A run acks by the normal branch only after the claim was completed or found completed,
      and poison-acks only a failed message that has used up its attempts. */
  lemma AcksAreEarned(cfg: Config, key: Key, delivery: Option<int>, s: Script)
    ensures
      var trace := Run(cfg, key, delivery, s).trace;
      && (Ack in trace <==> (s.claim.Answered? && s.claim.result == Completed)
                            || (ReachesComplete(s) && s.complete == Returned))
      && (PoisonAck in trace <==> Fails(s) && s.release != Cancelled && s.poison != Cancelled
                                  && delivery.Some? && delivery.value >= cfg.maxAttempts)
  {
    DriveDisposes(cfg, Start(key, delivery), s);
  }

  /** From this await on, the run comes to its release call. */
  predicate ComesToRelease(s: Script, at: Await)
    decreases Rank(at)
  {
    match at
    case Claiming => s.claim == Answered(First, false) || (Dispatches(s) && ComesToRelease(s, Feeding))
    case Feeding => s.feed != Cancelled && (s.feed == Returned ==> ComesToRelease(s, Answering))
    case Answering => (
      match s.answer
      case Cancelled => false
      case Returned => ComesToRelease(s, Completing(false))
      case Rejected(notify) => ComesToRelease(s, if notify then Notifying else Completing(true))
      case _ => true)
    case Notifying => s.notify != Cancelled && (s.notify == Returned ==> ComesToRelease(s, Completing(true)))
    case Completing(_) => s.complete !in {Returned, Cancelled}
    case Releasing => true
    case _ => false
  }

  lemma {:induction false} DriveReleases(cfg: Config, a: Attempt, s: Script)
    requires Rank(Releasing) <= Rank(a.at) ==> !a.released
    requires a.at == Claiming || a.at == Finished ==> !a.renewing
    ensures Drive(cfg, a, s).released <==> a.released || (ComesToRelease(s, a.at) && s.release == Returned)
    ensures Drive(cfg, a, s).at == Finished && !Drive(cfg, a, s).renewing
    decreases Rank(a.at)
  {
    if a.at != Finished {
      ResumeDisposes(cfg, a, s);
      DriveReleases(cfg, Resume(cfg, a, Pick(s, a.at)), s);
    }
  }

  /** A run gives its claim back exactly when its work failed, and the call was let through; and
      however it ends, its renewal task has ended before it. */
  lemma ReleasesFollowFailures(cfg: Config, key: Key, delivery: Option<int>, s: Script)
    ensures
      var a := Run(cfg, key, delivery, s);
      && a.at == Finished && !a.renewing
      && (a.released <==> Fails(s) && s.release == Returned)
  {
    DriveReleases(cfg, Start(key, delivery), s);
  }

  /** The run from a comes by this await. */
  predicate Reaches(cfg: Config, a: Attempt, s: Script, at: Await)
    decreases Rank(a.at)
  {
    a.at == at || (a.at != Finished &&
                   (ResumeFalls(cfg, a, Pick(s, a.at)); Reaches(cfg, Resume(cfg, a, Pick(s, a.at)), s, at)))
  }

  /** The failed attempt is nacked for another try. */
  predicate TriesAgain(cfg: Config, delivery: Option<int>, s: Script) {
    s.release != Cancelled && delivery.Some? && delivery.value < cfg.maxAttempts
  }

  lemma {:induction false} ReachesRelease(cfg: Config, a: Attempt, s: Script)
    ensures Reaches(cfg, a, s, Releasing) <==> ComesToRelease(s, a.at)
    decreases Rank(a.at)
  {
    if a.at != Finished {
      ResumeFalls(cfg, a, Pick(s, a.at));
      ReachesRelease(cfg, Resume(cfg, a, Pick(s, a.at)), s);
    }
  }

  lemma {:induction false} ReachesNackHook(cfg: Config, a: Attempt, s: Script)
    ensures Reaches(cfg, a, s, NackHook) <==>
      a.at == NackHook || (cfg.hooks && ComesToRelease(s, a.at) && TriesAgain(cfg, a.delivery, s))
    decreases Rank(a.at)
  {
    if a.at != Finished {
      ResumeFalls(cfg, a, Pick(s, a.at));
      ReachesNackHook(cfg, Resume(cfg, a, Pick(s, a.at)), s);
    }
  }

  lemma {:induction false} ReachesCleanup(cfg: Config, a: Attempt, s: Script)
    ensures Reaches(cfg, a, s, Cleanup) <==>
      a.at != Finished && (a.at == Claiming ==> s.claim.Answered? && s.claim.result == First)
    decreases Rank(a.at)
  {
    if a.at != Finished {
      ResumeFalls(cfg, a, Pick(s, a.at));
      ReachesCleanup(cfg, Resume(cfg, a, Pick(s, a.at)), s);
    }
  }

  /** Which awaits after the work a run comes by: the release exactly on failure, the nack hook
      exactly on a failure that is to be tried again, and the join of the renewal task always once
      the claim was answered First. */
  lemma AwaitsOfARun(cfg: Config, key: Key, delivery: Option<int>, s: Script)
    ensures
      var a := Start(key, delivery);
      && (Reaches(cfg, a, s, Releasing) <==> Fails(s))
      && (Reaches(cfg, a, s, NackHook) <==> cfg.hooks && Fails(s) && TriesAgain(cfg, delivery, s))
      && (Reaches(cfg, a, s, Cleanup) <==> s.claim.Answered? && s.claim.result == First)
  {
    ReachesRelease(cfg, Start(key, delivery), s);
    ReachesNackHook(cfg, Start(key, delivery), s);
    ReachesCleanup(cfg, Start(key, delivery), s);
  }

  // ------------------------------------------------------------------ the coroutine

  /** How the part of the try block up to the ack ended. */
  datatype Ending = Normal | Exceptional | Interrupted

  /** What the except blocks dispose of. */
  function FromEnding(cfg: Config, delivery: Option<int>, s: Script, ending: Ending): seq<Disposition> {
    match ending
    case Normal => []
    case Interrupted => [Nack]
    case Exceptional => FromRelease(cfg, delivery, s)
  }

  /** The body of the try block: parse, dispatch, answer, complete, ack, and the hook. */
  method Process(cfg: Config, s: Script) returns (ending: Ending, trace: seq<Disposition>)
    requires s.claim.Answered? && s.claim.result == First
    ensures forall delivery :: FromClaim(cfg, delivery, s) == trace + FromEnding(cfg, delivery, s, ending)
  {
    trace := [];
    if !s.claim.parsed { return Exceptional, trace; }
    if s.feed == Cancelled { return Interrupted, trace; }
    if s.feed != Returned { return Exceptional, trace; }
    if s.answer.Rejected? {
      if s.answer.notify {
        if s.notify == Cancelled { return Interrupted, trace; }
        if s.notify != Returned { return Exceptional, trace; }
      }
    } else if s.answer == Cancelled {
      return Interrupted, trace;
    } else if s.answer != Returned {
      return Exceptional, trace;
    }
    if s.complete == Cancelled { return Interrupted, trace; }
    if s.complete != Returned { return Exceptional, trace; }
    trace := trace + [Ack];
    if s.answer.Rejected? { return Normal, trace; }
    if cfg.hooks && s.ackHook == Cancelled { return Interrupted, trace; }
    return Normal, trace;
  }

  /** _handle: what it acks and nacks is what the machine above acks and nacks. */
  method Handle(cfg: Config, key: Key, delivery: Option<int>, s: Script) returns (trace: seq<Disposition>)
    ensures trace == Run(cfg, key, delivery, s).trace
  {
    DriveDisposes(cfg, Start(key, delivery), s);
    if s.claim == Cancelled { return []; }
    if !s.claim.Answered? { return [Nack]; }
    if s.claim.result == Completed { return [Ack]; }
    if s.claim.result == Active { return [Nack]; }
    var ending;
    ending, trace := Process(cfg, s);
    if ending == Interrupted {
      trace := trace + [Nack];
    } else if ending == Exceptional {
      if s.release == Cancelled || delivery == None { return; }
      if delivery.value >= cfg.maxAttempts {
        if s.poison != Cancelled { trace := trace + [PoisonAck]; }
      } else {
        trace := trace + [Nack];
      }
    }
  }

  // ------------------------------------------------------------------ the renewal loop

  /** What one call of renew inside the loop does. */
  datatype RenewOutcome = Granted | Refused | Failed

  /** _renew_loop, cancelled when script is used up: it calls renew until the first call that
      is refused or fails, and never again. */
  method RenewLoop(script: seq<RenewOutcome>) returns (calls: nat)
    ensures calls <= |script|
    ensures forall i | 0 <= i < calls - 1 :: script[i] == Granted
    ensures calls < |script| ==> calls > 0 && script[calls - 1] != Granted
  {
    calls := 0;
    while calls < |script|
      invariant calls <= |script|
      invariant forall i | 0 <= i < calls :: script[i] == Granted
    {
      var renewed := script[calls];
      calls := calls + 1;
      if renewed == Failed { return; }
      if renewed == Refused { return; }
    }
  }
}
