/**
 The idempotency contract of src/chattice/idempotency.py: claim, complete, release and renew
 over one claim per delivery key, and what every history of those operations keeps.

 A history is a log of atomic operations. The in-process store performs each operation in one
 step between two awaits, so its histories are exactly such logs; RedisClaims shows that the
 WATCH/MULTI store has histories of the same kind, plus the two expiry events below.
 */
module Claims {
  import opened Options

  type Key = string

  /** The token new_owner() makes for one delivery attempt. Tokens are never reused. */
  type Owner = nat

  datatype Claim = Claim(owner: Owner, leaseUntil: real, completed: bool)

  type Store = map<Key, Claim>

  datatype ClaimResult = First | Completed | Active

  datatype Op = Acquire(lease: real) | Complete | Release | Renew(lease: real)

  datatype Reply = Claimed(result: ClaimResult) | Done | Renewed(granted: bool)

  // ------------------------------------------------------------------ one operation

  function Prune(s: Store, key: Key, now: real): Store {
    if key in s && !s[key].completed && s[key].leaseUntil <= now then s - {key} else s
  }

  predicate Owns(s: Store, key: Key, owner: Owner) {
    key in s && s[key].owner == owner
  }

  /** The reply of one operation. now is the clock reading the expiry check uses. */
  function ReplyTo(s: Store, key: Key, owner: Owner, op: Op, now: real): Reply {
    match op
    case Acquire(_) =>
      var pruned := Prune(s, key, now);
      Claimed(if key !in pruned then First else if pruned[key].completed then Completed else Active)
    case Renew(_) => Renewed(Owns(s, key, owner) && !s[key].completed)
    case _ => Done
  }

  /** The store after one operation. stamp is the clock reading a lease is counted from. */
  function Effect(s: Store, key: Key, owner: Owner, op: Op, now: real, stamp: real): Store {
    match op
    case Acquire(lease) =>
      var pruned := Prune(s, key, now);
      if key in pruned then pruned else pruned[key := Claim(owner, stamp + lease, false)]
    case Complete =>
      if Owns(s, key, owner) then s[key := s[key].(completed := true)] else s
    case Release =>
      if Owns(s, key, owner) then s - {key} else s
    case Renew(lease) =>
      if Owns(s, key, owner) && !s[key].completed then s[key := s[key].(leaseUntil := stamp + lease)] else s
  }

  /** No operation touches another key, another owner's live claim, or undoes a completion
      other than by its own owner's release. */
  lemma OperationsAreOwnerSafe(s: Store, key: Key, owner: Owner, op: Op, now: real, stamp: real)
    ensures forall k | k != key ::
      (k in s <==> k in Effect(s, key, owner, op, now, stamp)) &&
      (k in s ==> Effect(s, key, owner, op, now, stamp)[k] == s[k])
    ensures key in s && s[key].owner != owner && (s[key].completed || now < s[key].leaseUntil) ==>
      Effect(s, key, owner, op, now, stamp) == s
    ensures key in s && s[key].completed && !(op.Release? && s[key].owner == owner) ==>
      Effect(s, key, owner, op, now, stamp) == s
    ensures key !in s && !op.Acquire? ==> Effect(s, key, owner, op, now, stamp) == s
  {
    if key in s && s[key].completed && op.Complete? && s[key].owner == owner {
      assert s[key].(completed := true) == s[key];
    }
  }

  /** A claim is granted exactly on a key that is free or whose lease has run out, a renewal exactly
      to the stored owner of an uncompleted claim; and a granted lease holds off every other claim
      until its end, counted from the stamp, and none after that. */
  lemma LeasesLastAsGranted(
    s: Store, key: Key, owner: Owner, op: Op, now: real, stamp: real, other: Owner, wanted: real, later: real)
    requires op.Acquire? || op.Renew?
    ensures
      var reply, after := ReplyTo(s, key, owner, op, now), Effect(s, key, owner, op, now, stamp);
      var granted := reply == Claimed(First) || reply == Renewed(true);
      && (granted <==>
            if op.Acquire? then key !in s || (!s[key].completed && s[key].leaseUntil <= now)
            else Owns(s, key, owner) && !s[key].completed)
      && (granted ==>
            && Owns(after, key, owner)
            && ReplyTo(after, key, other, Acquire(wanted), later) ==
                 Claimed(if later < stamp + op.lease then Active else First))
      && (!granted && op.Renew? ==> reply == Renewed(false) && after == s)
  {
  }

  // ------------------------------------------------------------------ histories

  /** Lapsed and Forgot happen only in a store that lets entries expire by themselves. */
  datatype Event =
    | Operated(key: Key, owner: Owner, op: Op, now: real, stamp: real)
    | Lapsed(key: Key, now: real)
    | Forgot(key: Key, now: real)

  function Next(s: Store, e: Event): Store {
    match e
    case Operated(key, owner, op, now, stamp) => Effect(s, key, owner, op, now, stamp)
    case Lapsed(key, _) => s - {key}
    case Forgot(key, _) => s - {key}
  }

  function Replay(log: seq<Event>): Store {
    if log == [] then map[] else Next(Replay(log[..|log| - 1]), log[|log| - 1])
  }

  lemma ReplayAppend(log: seq<Event>, e: Event)
    ensures Replay(log + [e]) == Next(Replay(log), e)
  {
    assert (log + [e])[..|log|] == log;
  }

  /** The owner has not asked for a claim yet: what new_owner() guarantees of a new attempt. */
  predicate Fresh(log: seq<Event>, owner: Owner) {
    forall i | 0 <= i < |log| && log[i].Operated? && log[i].op.Acquire? :: log[i].owner != owner
  }

  /** e may follow log: the clock is monotone, an owner claims once, and a store drops on its
      own only a claim whose lease has run out (up to slack) or one that is completed. */
  predicate Follows(log: seq<Event>, e: Event, slack: real) {
    && (log != [] ==> log[|log| - 1].now <= e.now)
    && match e
       case Operated(_, owner, op, _, _) => op.Acquire? ==> Fresh(log, owner)
       case Lapsed(key, now) =>
         key in Replay(log) && !Replay(log)[key].completed && Replay(log)[key].leaseUntil <= now + slack
       case Forgot(key, _) => key in Replay(log) && Replay(log)[key].completed
  }

  predicate Legal(log: seq<Event>, slack: real) {
    log == [] || (Legal(log[..|log| - 1], slack) && Follows(log[..|log| - 1], log[|log| - 1], slack))
  }

  lemma LegalAppend(log: seq<Event>, e: Event, slack: real)
    requires Legal(log, slack) && Follows(log, e, slack)
    ensures Legal(log + [e], slack)
  {
    assert (log + [e])[..|log|] == log;
  }

  // ------------------------------------------------------------------ lease exclusion

  /** The event grants owner a lease on key: a first claim or a successful renewal. */
  predicate Grants(s: Store, e: Event, key: Key, owner: Owner) {
    && e.Operated? && e.key == key && e.owner == owner
    && var reply := ReplyTo(s, key, owner, e.op, e.now);
       reply == Claimed(First) || reply == Renewed(true)
  }

  /** The end of the last lease owner was granted on key and has not released since. */
  function LastGrant(log: seq<Event>, key: Key, owner: Owner): Option<real> {
    if log == [] then None else
      var before, e := log[..|log| - 1], log[|log| - 1];
      if Grants(Replay(before), e, key, owner) then Some(e.stamp + e.op.lease)
      else if e.Operated? && e.key == key && e.owner == owner && e.op.Release? then None
      else LastGrant(before, key, owner)
  }

  /** The owner has not been heard of at all. */
  predicate Unheard(log: seq<Event>, owner: Owner) {
    forall i | 0 <= i < |log| && log[i].Operated? :: log[i].owner != owner
  }

  /** A fresh owner is stored nowhere and holds no grant. */
  lemma {:induction false} FreshOwnersHoldNothing(log: seq<Event>, key: Key, owner: Owner)
    requires Fresh(log, owner)
    ensures !Owns(Replay(log), key, owner) && LastGrant(log, key, owner) == None
  {
    if log != [] {
      FreshOwnersHoldNothing(log[..|log| - 1], key, owner);
    }
  }

  predicate NeverCompletedBy(log: seq<Event>, key: Key, owner: Owner) {
    forall i | 0 <= i < |log| && log[i].Operated? && log[i].op == Complete && log[i].key == key :: log[i].owner != owner
  }

  lemma {:induction false} UncompletedClaims(log: seq<Event>, key: Key, owner: Owner)
    requires NeverCompletedBy(log, key, owner)
    ensures Owns(Replay(log), key, owner) ==> !Replay(log)[key].completed
  {
    if log != [] {
      UncompletedClaims(log[..|log| - 1], key, owner);
    }
  }

  /** The store forgot nothing about key, or had nothing of owner's that it may forget. */
  predicate Remembered(log: seq<Event>, key: Key, owner: Owner) {
    || (forall i | 0 <= i < |log| && log[i].Forgot? :: log[i].key != key)
    || NeverCompletedBy(log, key, owner)
  }

  /** Whatever the store forgot of owner's on key had outlived the lease. */
  predicate ForgottenLate(log: seq<Event>, slack: real, key: Key, owner: Owner) {
    forall i | 0 <= i < |log| && log[i].Forgot? && log[i].key == key && Owns(Replay(log[..i]), key, owner) ::
      LastGrant(log[..i], key, owner).Some? ==> LastGrant(log[..i], key, owner).value <= log[i].now + slack
  }

  lemma ForgottenLateBefore(log: seq<Event>, slack: real, key: Key, owner: Owner, n: nat)
    requires n <= |log| && ForgottenLate(log, slack, key, owner)
    ensures ForgottenLate(log[..n], slack, key, owner)
  {
    forall i | 0 <= i < n && log[..n][i].Forgot? && log[..n][i].key == key && Owns(Replay(log[..n][..i]), key, owner)
      ensures LastGrant(log[..n][..i], key, owner).Some? ==>
        LastGrant(log[..n][..i], key, owner).value <= log[..n][i].now + slack
    {
      assert log[..n][..i] == log[..i] && log[..n][i] == log[i];
    }
  }

  lemma LegalPrefix(log: seq<Event>, n: nat, slack: real)
    requires Legal(log, slack) && n < |log|
    ensures Legal(log[..n], slack) && Follows(log[..n], log[n], slack)
  {
    var before := log[..|log| - 1];
    if n < |before| {
      LegalPrefix(before, n, slack);
      assert before[..n] == log[..n];
    }
  }

  lemma RememberedIsLate(log: seq<Event>, slack: real, key: Key, owner: Owner)
    requires Legal(log, slack) && Remembered(log, key, owner)
    ensures ForgottenLate(log, slack, key, owner)
  {
    forall i | 0 <= i < |log| && log[i].Forgot? && log[i].key == key ensures !Owns(Replay(log[..i]), key, owner) {
      LegalPrefix(log, i, slack);
      UncompletedClaims(log[..i], key, owner);
    }
  }

  /** While a granted, unreleased lease has not run out, its owner is the stored owner, unless
      the store forgets completions before their leases are over. */
  lemma {:induction false} LeaseHolds(log: seq<Event>, slack: real, key: Key, owner: Owner)
    requires Legal(log, slack) && 0.0 <= slack && ForgottenLate(log, slack, key, owner)
    requires LastGrant(log, key, owner).Some?
    ensures
      var until := LastGrant(log, key, owner).value;
      || (Owns(Replay(log), key, owner) && (Replay(log)[key].completed || Replay(log)[key].leaseUntil == until))
      || until <= log[|log| - 1].now + slack
  {
    var before, e := log[..|log| - 1], log[|log| - 1];
    if !Grants(Replay(before), e, key, owner) {
      ForgottenLateBefore(log, slack, key, owner, |log| - 1);
      LeaseHolds(before, slack, key, owner);
      if e.Operated? && e.key == key && e.owner == owner && e.op.Acquire? {
        FreshOwnersHoldNothing(before, key, owner);
      }
    }
  }

  /** While a granted, unreleased lease has not run out, its owner is the stored owner. */
  lemma LeaseExclusion(log: seq<Event>, slack: real, key: Key, owner: Owner)
    requires Legal(log, slack) && 0.0 <= slack && Remembered(log, key, owner)
    requires LastGrant(log, key, owner).Some?
    ensures
      var until := LastGrant(log, key, owner).value;
      || (Owns(Replay(log), key, owner) && (Replay(log)[key].completed || Replay(log)[key].leaseUntil == until))
      || until <= log[|log| - 1].now + slack
  {
    RememberedIsLate(log, slack, key, owner);
    LeaseHolds(log, slack, key, owner);
  }

  /** No two attempts hold unexpired leases on one key: at any instant t not before the last
      event, two owners with grants that reach past t are the same owner. */
  lemma AtMostOneUnexpiredLease(log: seq<Event>, slack: real, key: Key, a: Owner, b: Owner, t: real)
    requires Legal(log, slack) && 0.0 <= slack && Remembered(log, key, a) && Remembered(log, key, b)
    requires LastGrant(log, key, a).Some? && t + slack < LastGrant(log, key, a).value
    requires LastGrant(log, key, b).Some? && t + slack < LastGrant(log, key, b).value
    requires log[|log| - 1].now <= t
    ensures a == b && Owns(Replay(log), key, a)
  {
    LeaseExclusion(log, slack, key, a);
    LeaseExclusion(log, slack, key, b);
  }

  /** A second First answer on a key comes only once the earlier unreleased lease is over: two
      reclaimers of one expired claim are never both answered First within a lease. */
  lemma SecondFirstNeedsExpiry(log: seq<Event>, slack: real, key: Key, a: Owner, e: Event)
    requires Legal(log, slack) && 0.0 <= slack && Remembered(log, key, a) && Follows(log, e, slack)
    requires e.Operated? && e.key == key && e.op.Acquire?
    requires ReplyTo(Replay(log), key, e.owner, e.op, e.now) == Claimed(First)
    ensures e.owner != a || LastGrant(log, key, a) == None
    ensures LastGrant(log, key, a).Some? ==> LastGrant(log, key, a).value <= e.now + slack
  {
    FreshOwnersHoldNothing(log, key, e.owner);
    if LastGrant(log, key, a).Some? {
      LeaseExclusion(log, slack, key, a);
    }
  }

  // ------------------------------------------------------------------ completion absorbs

  /** A completed claim stays, with its owner, until that owner releases it or the store
      forgets it; renewals and claims racing with the completion change nothing. */
  lemma {:induction false} CompletionAbsorbs(log: seq<Event>, n: nat, key: Key, owner: Owner)
    requires n <= |log|
    requires Owns(Replay(log[..n]), key, owner) && Replay(log[..n])[key].completed
    requires forall i | n <= i < |log| && log[i].key == key ::
      log[i].Operated? && !(log[i].op.Release? && log[i].owner == owner)
    ensures key in Replay(log) && Replay(log)[key] == Replay(log[..n])[key]
    ensures forall other, lease, now ::
      ReplyTo(Replay(log), key, other, Acquire(lease), now) == Claimed(Completed)
  {
    if n == |log| {
      assert log[..n] == log;
    } else {
      var before, e := log[..|log| - 1], log[|log| - 1];
      assert before[..n] == log[..n];
      CompletionAbsorbs(before, n, key, owner);
      if e.Operated? {
        OperationsAreOwnerSafe(Replay(before), e.key, e.owner, e.op, e.now, e.stamp);
      }
    }
  }

  /** A store that does not forget keeps a completion until its owner's release: a completed claim
      never lapses. */
  lemma {:induction false} CompletionHolds(log: seq<Event>, slack: real, n: nat, key: Key, owner: Owner)
    requires Legal(log, slack) && n <= |log| && Owns(Replay(log[..n]), key, owner) && Replay(log[..n])[key].completed
    requires forall i | n <= i < |log| && log[i].key == key ::
      !log[i].Forgot? && (log[i].Operated? && log[i].op.Release? ==> log[i].owner != owner)
    ensures Owns(Replay(log), key, owner) && Replay(log)[key].completed
    ensures forall other, lease, now ::
      ReplyTo(Replay(log), key, other, Acquire(lease), now) == Claimed(Completed)
  {
    if n == |log| {
      assert log[..n] == log;
    } else {
      var before, e := log[..|log| - 1], log[|log| - 1];
      assert before[..n] == log[..n];
      CompletionHolds(before, slack, n, key, owner);
      if e.Operated? {
        OperationsAreOwnerSafe(Replay(before), e.key, e.owner, e.op, e.now, e.stamp);
      }
    }
  }

  /** From the stored owner's complete on, every claim of the delivery is answered Completed,
      whoever asks and however late, until that owner releases it or the store forgets it. */
  lemma CompletedDeliveriesAreAbsorbed(log: seq<Event>, n: nat, key: Key, owner: Owner)
    requires n < |log| && log[n].Operated? && log[n].op == Complete && log[n].key == key && log[n].owner == owner
    requires Owns(Replay(log[..n]), key, owner)
    requires forall i | n < i < |log| && log[i].key == key ::
      log[i].Operated? && !(log[i].op.Release? && log[i].owner == owner)
    ensures Owns(Replay(log), key, owner) && Replay(log)[key].leaseUntil == Replay(log[..n])[key].leaseUntil
    ensures forall other, lease, now ::
      ReplyTo(Replay(log), key, other, Acquire(lease), now) == Claimed(Completed)
  {
    assert log[..n + 1] == log[..n] + [log[n]];
    ReplayAppend(log[..n], log[n]);
    assert Owns(Replay(log[..n + 1]), key, owner) && Replay(log[..n + 1])[key].completed;
    CompletionAbsorbs(log, n + 1, key, owner);
  }

  // ------------------------------------------------------------------ conservation of claims

  function Count(b: bool): nat {
    if b then 1 else 0
  }

  /** Claims on key that were answered First. */
  function Firsts(log: seq<Event>, key: Key): nat {
    if log == [] then 0 else
      var before, e := log[..|log| - 1], log[|log| - 1];
      Firsts(before, key)
      + Count(e.Operated? && e.key == key && e.op.Acquire? &&
              ReplyTo(Replay(before), key, e.owner, e.op, e.now) == Claimed(First))
  }

  /** Releases of key that deleted a claim. */
  function Releases(log: seq<Event>, key: Key): nat {
    if log == [] then 0 else
      var before, e := log[..|log| - 1], log[|log| - 1];
      Releases(before, key)
      + Count(e.Operated? && e.key == key && e.op.Release? && Owns(Replay(before), key, e.owner))
  }

  /** Claims on key that were dropped because their lease, or their retention, ran out. */
  function Expiries(log: seq<Event>, key: Key): nat {
    if log == [] then 0 else
      var before, e := log[..|log| - 1], log[|log| - 1];
      Expiries(before, key)
      + Count(e.key == key && key in Replay(before) &&
              (e.Operated? && e.op.Acquire? ==> key !in Prune(Replay(before), key, e.now)) &&
              (e.Operated? ==> e.op.Acquire?))
  }

  /** Every First answer is paid for by a release, an expiry, or the claim stored now. */
  lemma {:induction false} ClaimsAreConserved(log: seq<Event>, key: Key)
    ensures Firsts(log, key) == Releases(log, key) + Expiries(log, key) + Count(key in Replay(log))
  {
    if log != [] {
      ClaimsAreConserved(log[..|log| - 1], key);
    }
  }

  // ------------------------------------------------------------------ the in-process store

  /** MemoryIdempotencyStorage. Every method body runs under the key's lock without an await
      inside, so it is one step; the lock objects themselves carry no state worth modelling. */
  class MemoryIdempotencyStorage {
    var claims: map<Key, Claim>

    constructor ()
      ensures claims == map[]
    {
      claims := map[];
    }

    method PruneExpired(key: Key, now: real)
      modifies this
      ensures claims == Prune(old(claims), key, now)
    {
      if key in claims && !claims[key].completed {
        if claims[key].leaseUntil <= now {
          claims := claims - {key};
        }
      }
    }

    /** checked and stamped are the two clock readings of the body, in that order. */
    method Acquire(key: Key, owner: Owner, lease: real, checked: real, stamped: real) returns (r: ClaimResult)
      modifies this
      ensures Claimed(r) == ReplyTo(old(claims), key, owner, Op.Acquire(lease), checked)
      ensures claims == Effect(old(claims), key, owner, Op.Acquire(lease), checked, stamped)
    {
      PruneExpired(key, checked);
      if key !in claims {
        claims := claims[key := Claim(owner, stamped + lease, false)];
        return First;
      }
      if claims[key].completed {
        return Completed;
      }
      return Active;
    }

    method Complete(key: Key, owner: Owner)
      modifies this
      ensures forall now, stamp :: claims == Effect(old(claims), key, owner, Op.Complete, now, stamp)
    {
      if key in claims && claims[key].owner == owner {
        claims := claims[key := claims[key].(completed := true)];
      }
    }

    method Release(key: Key, owner: Owner)
      modifies this
      ensures forall now, stamp :: claims == Effect(old(claims), key, owner, Op.Release, now, stamp)
    {
      if key in claims && claims[key].owner == owner {
        claims := claims - {key};
      }
    }

    method Renew(key: Key, owner: Owner, lease: real, now: real) returns (granted: bool)
      modifies this
      ensures Renewed(granted) == ReplyTo(old(claims), key, owner, Op.Renew(lease), now)
      ensures claims == Effect(old(claims), key, owner, Op.Renew(lease), now, now)
    {
      if key !in claims || claims[key].owner != owner || claims[key].completed {
        return false;
      }
      claims := claims[key := claims[key].(leaseUntil := now + lease)];
      return true;
    }
  }
}
