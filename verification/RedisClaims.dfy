/**
 RedisIdempotencyStorage of src/chattice/idempotency.py as programs of RedisTransactions, and
 the proof that its runs are histories of the claim contract: each call behaves like the one
 atomic operation of Claims, placed between its start and its end.
 */
module RedisClaims {
  import opened Options
  import C = Claims
  import opened RedisTransactions

  datatype Request = Request(owner: C.Owner, op: C.Op)

  type Value = C.Claim

  type State = System<Value, C.Reply, Request>

  type Log = seq<Change<Value, Request>>

  // ------------------------------------------------------------------ the programs

  function AcquireBody(value: Value, ttl: real): Body<Value, C.Reply> {
    (raw: Option<Value>, clock: Clock) =>
      match raw
      case None => Commit(Put(value, Some(ttl)), C.Claimed(C.First))
      case Some(claim) =>
        if claim.completed then Return(C.Claimed(C.Completed))
        else if claim.leaseUntil > clock.first then Return(C.Claimed(C.Active))
        else Commit(Put(value, Some(ttl)), C.Claimed(C.First))
  }

  function RenewBody(owner: C.Owner, lease: real): Body<Value, C.Reply> {
    (raw: Option<Value>, clock: Clock) =>
      match raw
      case None => Return(C.Renewed(false))
      case Some(claim) =>
        if claim.owner != owner || claim.completed then Return(C.Renewed(false))
        else Commit(Put(C.Claim(owner, clock.first + lease, false), Some(Ttl(lease))), C.Renewed(true))
  }

  /** _owner_op: complete keeps the lease and takes the retention TTL, release deletes. */
  function OwnerOpBody(owner: C.Owner, delete: bool, retention: real): Body<Value, C.Reply> {
    (raw: Option<Value>, clock: Clock) =>
      match raw
      case None => Return(C.Done)
      case Some(claim) =>
        if claim.owner != owner then Return(C.Done)
        else if delete then Commit(Delete, C.Done)
        else Commit(Put(C.Claim(owner, claim.leaseUntil, true), Some(Ttl(retention))), C.Done)
  }

  function ProgramOf(retention: real, r: Request, now: real): Program<Value, C.Reply> {
    match r.op
    case Acquire(lease) =>
      var value := C.Claim(r.owner, now + lease, false);
      Program(SetNx(value, Ttl(lease), C.Claimed(C.First)), AcquireBody(value, Ttl(lease)))
    case Complete => Program(Straight, OwnerOpBody(r.owner, false, retention))
    case Release => Program(Straight, OwnerOpBody(r.owner, true, retention))
    case Renew(lease) => Program(Straight, RenewBody(r.owner, lease))
  }

  function Store(retention: real): Code<Value, C.Reply, Request> {
    (r: Request, now: real) => ProgramOf(retention, r, now)
  }

  // ------------------------------------------------------------------ the history as claim events

  /** The claims the server held after log. */
  ghost function Held(log: Log): C.Store {
    var entries := Contents<Value, Request>(log);
    map key | key in entries :: entries[key].value
  }

  /** The clock reading the stored lease was counted from. */
  function LeaseStart(e: Change<Value, Request>): real
    requires e.Wrote?
  {
    match (e.tag.op, e.write)
    case (Acquire(lease), Put(claim, _)) => claim.leaseUntil - lease
    case (Renew(lease), Put(claim, _)) => claim.leaseUntil - lease
    case _ => e.now
  }

  ghost function EventOf(before: Log, e: Change<Value, Request>): C.Event {
    match e
    case Wrote(_, tag, key, _, now) => C.Operated(key, tag.owner, tag.op, now, LeaseStart(e))
    case Dropped(key, now) =>
      if At(before, key).Some? && At(before, key).value.completed then C.Forgot(key, now) else C.Lapsed(key, now)
  }

  ghost function Events(log: Log): seq<C.Event>
    ensures |Events(log)| == |log|
  {
    if log == [] then [] else
      var before := log[..|log| - 1];
      Events(before) + [EventOf(before, log[|log| - 1])]
  }

  lemma {:induction false} EventAt(log: Log, i: nat)
    requires i < |log|
    ensures Events(log)[i] == EventOf(log[..i], log[i])
  {
    var before := log[..|log| - 1];
    if i < |before| {
      EventAt(before, i);
      assert before[..i] == log[..i];
    }
  }

  lemma {:induction false} EventsPrefix(log: Log, n: nat)
    requires n <= |log|
    ensures Events(log)[..n] == Events(log[..n])
  {
    if n == |log| {
      assert log[..n] == log;
    } else {
      var before := log[..|log| - 1];
      EventsPrefix(before, n);
      assert before[..n] == log[..n];
      assert Events(log)[..n] == Events(before)[..n];
    }
  }

  lemma EventsAppend(log: Log, n: nat)
    requires n < |log|
    ensures Events(log[..n + 1]) == Events(log[..n]) + [EventOf(log[..n], log[n])]
  {
    assert log[..n + 1][..n] == log[..n] && log[..n + 1][n] == log[n];
  }

  // ------------------------------------------------------------------ one change, one operation

  /** The write is what the atomic operation does to the store, and the reply is its reply. */
  ghost predicate Matches(
    store: C.Store, c: Call<Value, C.Reply, Request>, write: Write<Value>, reply: C.Reply, now: real, start: real)
  {
    && reply == C.ReplyTo(store, c.key, c.tag.owner, c.tag.op, now)
    && C.Effect(store, c.key, c.tag.owner, c.tag.op, now, start) ==
         match write case Put(v, _) => store[c.key := v] case Delete => store - {c.key}
  }

  lemma WriteMatches(retention: real, s: State, client: nat)
    requires client in s.calls && s.calls[client].at.Finished? && s.calls[client].at.wrote
    requires RunsProgram(Store(retention), s.calls[client], s.now) && Justified(s, client)
    ensures
      var c, e := s.calls[client], s.log[s.calls[client].at.at];
      && Matches(Held(s.log[..c.at.at]), c, e.write, c.at.reply, c.at.read, LeaseStart(e))
      && c.since <= LeaseStart(e) <= c.at.read
  {
    var c := s.calls[client];
    var e := s.log[c.at.at];
    var raw := At(s.log[..c.at.at], c.key);
    if c.tag.op == C.Complete && raw.Some? {
      assert raw.value.(completed := true) == C.Claim(c.tag.owner, raw.value.leaseUntil, true);
    }
  }

  /** A call that wrote nothing answers as the operation does at its GET, which there changes
      nothing. */
  lemma ReadMatches(retention: real, s: State, client: nat)
    requires client in s.calls && s.calls[client].at.Finished? && !s.calls[client].at.wrote
    requires RunsProgram(Store(retention), s.calls[client], s.now) && Justified(s, client)
    ensures
      var c := s.calls[client];
      var store := Held(s.log[..c.at.at]);
      && c.at.reply == C.ReplyTo(store, c.key, c.tag.owner, c.tag.op, c.at.read)
      && forall start :: C.Effect(store, c.key, c.tag.owner, c.tag.op, c.at.read, start) == store
  {
  }

  /** What a call of the store wrote: a claim for the lease it asked for, a completed claim
      for the retention time, or nothing. */
  lemma WritesOfCalls(retention: real, acts: seq<Action<Request>>, i: nat)
    requires i < |After(Store(retention), acts).log| && After(Store(retention), acts).log[i].Wrote?
    ensures
      var e := After(Store(retention), acts).log[i];
      match e.tag.op
      case Acquire(lease) =>
        e.write.Put? && e.write.value == C.Claim(e.tag.owner, LeaseStart(e) + lease, false)
        && e.write.ttl == Some(Ttl(lease)) && LeaseStart(e) <= e.now
      case Renew(lease) =>
        e.write.Put? && e.write.value == C.Claim(e.tag.owner, LeaseStart(e) + lease, false)
        && e.write.ttl == Some(Ttl(lease)) && LeaseStart(e) <= e.now
      case Complete =>
        e.write.Put? && e.write.value.owner == e.tag.owner && e.write.value.completed
        && e.write.ttl == Some(Ttl(retention))
      case Release => e.write.Delete?
  {
    RunsKeepInv(Store(retention), acts);
    RunsKeepCode(Store(retention), acts);
    var s := After(Store(retention), acts);
    assert Accounted(s, i);
    var client := s.log[i].client;
    assert CallInv(s, client) && RunsProgram(Store(retention), s.calls[client], s.now);
    assert Justified(s, client);
  }

  // ------------------------------------------------------------------ leases and TTLs

  /** The lease is not a whole number of milliseconds, and longer than one. */
  predicate FallsShort(lease: real) {
    lease * 1000.0 > 1.0 && (lease * 1000.0).Floor as real != lease * 1000.0
  }

  /** The PX expiry is at most a millisecond short of the lease, and covers it exactly when
      the lease is a whole number of milliseconds or no longer than one. */
  lemma TtlShortfall(lease: real)
    ensures lease - Ttl(lease) < 0.001
    ensures Ttl(lease) < lease <==> FallsShort(lease)
  {
  }

  /** Change j is the last one of the key that change i touches. */
  ghost predicate LastBefore(log: Log, j: nat, i: nat)
    requires i < |log|
  {
    j < i && log[j].key == log[i].key && forall k | j < k < i :: log[k].key != log[i].key
  }

  predicate Grants(e: Change<Value, Request>, lease: real) {
    e.Wrote? && (e.tag.op == C.Acquire(lease) || e.tag.op == C.Renew(lease))
  }

  /** The server dropped, at position i, an uncompleted claim whose lease had not run out. */
  ghost predicate DroppedEarly(log: Log, i: nat) {
    && i < |log| && log[i].Dropped?
    && var gone := At(log[..i], log[i].key);
       gone.Some? && !gone.value.completed && log[i].now < gone.value.leaseUntil
  }

  /** A claim the server drops was last written by the call that completed it, and then lived
      for the retention time, or by the one that granted its lease. */
  lemma DroppedClaims(retention: real, acts: seq<Action<Request>>, i: nat) returns (j: nat)
    requires i < |After(Store(retention), acts).log| && After(Store(retention), acts).log[i].Dropped?
    ensures
      var log := After(Store(retention), acts).log;
      var gone := At(log[..i], log[i].key);
      && LastBefore(log, j, i) && log[j].Wrote? && gone.Some? && log[j].tag.owner == gone.value.owner
      && (if gone.value.completed then
            && log[j].tag.op == C.Complete && log[j].write == Put(gone.value, Some(Ttl(retention)))
            && log[j].now + Ttl(retention) <= log[i].now
          else
            && (log[j].tag.op.Acquire? || log[j].tag.op.Renew?)
            && log[j].write == Put(gone.value, Some(Ttl(log[j].tag.op.lease)))
            && gone.value.leaseUntil - log[j].tag.op.lease + Ttl(log[j].tag.op.lease) <= log[i].now)
  {
    j := DropsFollowTtls(Store(retention), acts, i);
    WritesOfCalls(retention, acts, j);
  }

  /** A claim dropped early had been granted for a lease that falls short. */
  lemma EarlyDropsFallShort(retention: real, acts: seq<Action<Request>>, i: nat) returns (j: nat)
    requires DroppedEarly(After(Store(retention), acts).log, i)
    ensures
      var log := After(Store(retention), acts).log;
      LastBefore(log, j, i) && exists lease :: Grants(log[j], lease) && FallsShort(lease)
  {
    j := DroppedClaims(retention, acts, i);
    var e := After(Store(retention), acts).log[j];
    TtlShortfall(e.tag.op.lease);
    assert Grants(e, e.tag.op.lease);
  }

  /** A claim granted for this lease is dropped early, at position i of the run's history. */
  ghost predicate CutShort(retention: real, acts: seq<Action<Request>>, i: nat, lease: real) {
    var log := After(Store(retention), acts).log;
    DroppedEarly(log, i) && exists j | 0 <= j < i :: LastBefore(log, j, i) && Grants(log[j], lease)
  }

  /** A claim granted for a lease that falls short, on any key, by any owner, can be dropped
      early: by the server, as soon as the TTL has run out. */
  lemma ShortLeasesCanBeCut(retention: real, lease: real, key: Key, owner: C.Owner)
    requires FallsShort(lease)
    ensures
      var claim := Request(owner, C.Acquire(lease));
      CutShort(retention, [Invoke(0, key, claim), Advance(0, Once(0.0)), Tick(Ttl(lease)), Expire(key)], 1, lease)
  {
    var code := Store(retention);
    var r := Request(owner, C.Acquire(lease));
    var acts := [Invoke(0, key, r), Advance(0, Once(0.0)), Tick(Ttl(lease)), Expire(key)];
    TtlShortfall(lease);
    var s0: State := Init();
    var s1, s2 := Do(code, s0, acts[0]), Do(code, Do(code, s0, acts[0]), acts[1]);
    var s3, s4 := Do(code, s2, acts[2]), Do(code, Do(code, s2, acts[2]), acts[3]);
    assert acts[..1] == [acts[0]] && acts[..2][..1] == acts[..1] && acts[..3][..2] == acts[..2] && acts[..4] == acts;
    assert After(code, acts[..1]) == s1;
    assert After(code, acts[..2]) == s2;
    assert After(code, acts[..3]) == s3;
    assert After(code, acts) == s4;
    var claim := C.Claim(owner, lease, false);
    assert s2.log == [Wrote(0, r, key, Put(claim, Some(Ttl(lease))), 0.0)];
    assert s2.entries == map[key := Entry(claim, Some(Ttl(lease)))];
    assert s4.log == s2.log + [Dropped(key, Ttl(lease))];
    assert s4.log[..1] == s2.log;
    RunsKeepInv(code, acts[..2]);
    assert LastBefore(s4.log, 0, 1) && Grants(s4.log[0], lease);
  }

  /** A claim lives as long as its lease in every run, exactly for the leases that do not fall
      short of their TTL. */
  lemma LeasesAreCutShortExactly(retention: real, lease: real)
    ensures (exists acts: seq<Action<Request>>, i: nat :: CutShort(retention, acts, i, lease)) <==> FallsShort(lease)
  {
    if FallsShort(lease) {
      ShortLeasesCanBeCut(retention, lease, "", 0);
    }
    forall acts: seq<Action<Request>>, i: nat | CutShort(retention, acts, i, lease) ensures FallsShort(lease) {
      var j := EarlyDropsFallShort(retention, acts, i);
    }
  }

  // ------------------------------------------------------------------ every run

  /** new_owner() never repeats: no two claim calls carry the same token. */
  ghost predicate FreshOwners(s: State) {
    forall a, b | a in s.calls && b in s.calls && a != b && s.calls[a].tag.op.Acquire? && s.calls[b].tag.op.Acquire? ::
      s.calls[a].tag.owner != s.calls[b].tag.owner
  }

  /** The TTLs of the leases asked for fall short of them by at most slack. */
  ghost predicate Covered(s: State, slack: real) {
    forall a | a in s.calls :: Covers(s.calls[a].tag.op, slack)
  }

  predicate Covers(op: C.Op, slack: real) {
    match op
    case Acquire(lease) => lease <= Ttl(lease) + slack
    case Renew(lease) => lease <= Ttl(lease) + slack
    case _ => true
  }

  /** One millisecond covers every lease. */
  lemma AMillisecondCovers(s: State)
    ensures Covered(s, 0.001)
  {
    forall a | a in s.calls ensures Covers(s.calls[a].tag.op, 0.001) {
      match s.calls[a].tag.op {
        case Acquire(lease) => TtlShortfall(lease);
        case Renew(lease) => TtlShortfall(lease);
        case _ =>
      }
    }
  }

  lemma CallOfChange(retention: real, acts: seq<Action<Request>>, n: nat) returns (client: nat)
    requires n < |After(Store(retention), acts).log| && After(Store(retention), acts).log[n].Wrote?
    ensures
      var s := After(Store(retention), acts);
      && client == s.log[n].client && client in s.calls
      && s.calls[client].at.Finished? && s.calls[client].at.wrote && s.calls[client].at.at == n
      && Justified(s, client) && RunsProgram(Store(retention), s.calls[client], s.now)
  {
    RunsKeepInv(Store(retention), acts);
    RunsKeepCode(Store(retention), acts);
    var s := After(Store(retention), acts);
    assert Accounted(s, n);
    client := s.log[n].client;
    assert CallInv(s, client);
  }

  lemma WritersAreFresh(retention: real, acts: seq<Action<Request>>, n: nat)
    requires var s := After(Store(retention), acts); n < |s.log| && FreshOwners(s)
    requires var e := After(Store(retention), acts).log[n]; e.Wrote? && e.tag.op.Acquire?
    ensures var s := After(Store(retention), acts); C.Fresh(Events(s.log[..n]), s.log[n].tag.owner)
  {
    var s := After(Store(retention), acts);
    var before := s.log[..n];
    var client := CallOfChange(retention, acts, n);
    forall i | 0 <= i < n && Events(before)[i].Operated? && Events(before)[i].op.Acquire?
      ensures Events(before)[i].owner != s.log[n].tag.owner
    {
      EventAt(before, i);
      assert before[i] == s.log[i];
      var earlier := CallOfChange(retention, acts, i);
    }
  }

  lemma HeldNext(log: Log, n: nat)
    requires n < |log|
    ensures Held(log[..n + 1]) ==
      match log[n]
      case Wrote(_, _, key, Put(value, _), _) => Held(log[..n])[key := value]
      case Wrote(_, _, key, Delete, _) => Held(log[..n]) - {key}
      case Dropped(key, _) => Held(log[..n]) - {key}
  {
    ContentsNext(log, n);
  }

  lemma ChangeReplays(retention: real, acts: seq<Action<Request>>, n: nat)
    requires n < |After(Store(retention), acts).log|
    ensures
      var log := After(Store(retention), acts).log;
      C.Next(Held(log[..n]), EventOf(log[..n], log[n])) == Held(log[..n + 1])
  {
    var s := After(Store(retention), acts);
    HeldNext(s.log, n);
    if s.log[n].Wrote? {
      var client := CallOfChange(retention, acts, n);
      WriteMatches(retention, s, client);
      var c := s.calls[client];
      assert EventOf(s.log[..n], s.log[n]) == C.Operated(c.key, c.tag.owner, c.tag.op, c.at.read, LeaseStart(s.log[n]));
    }
  }

  lemma ChangeFollows(retention: real, slack: real, acts: seq<Action<Request>>, n: nat)
    requires var s := After(Store(retention), acts); n < |s.log| && FreshOwners(s) && Covered(s, slack)
    requires var log := After(Store(retention), acts).log; C.Replay(Events(log[..n])) == Held(log[..n])
    ensures var log := After(Store(retention), acts).log; C.Follows(Events(log[..n]), EventOf(log[..n], log[n]), slack)
  {
    var s := After(Store(retention), acts);
    if s.log[n].Dropped? {
      var j := DroppedClaims(retention, acts, n);
      var client := CallOfChange(retention, acts, j);
      assert Covers(s.calls[client].tag.op, slack);
    } else if s.log[n].tag.op.Acquire? {
      WritersAreFresh(retention, acts, n);
    }
    if n > 0 {
      RunsKeepInv(Store(retention), acts);
      EventAt(s.log[..n], n - 1);
      assert s.log[..n][n - 1] == s.log[n - 1];
    }
  }

  lemma ReplayExtends(log: Log, n: nat)
    requires n < |log| && C.Replay(Events(log[..n])) == Held(log[..n])
    requires C.Next(Held(log[..n]), EventOf(log[..n], log[n])) == Held(log[..n + 1])
    ensures C.Replay(Events(log[..n + 1])) == Held(log[..n + 1])
  {
    EventsAppend(log, n);
    C.ReplayAppend(Events(log[..n]), EventOf(log[..n], log[n]));
  }

  lemma NothingHeld()
    ensures Held([]) == map[] && Events([]) == [] && C.Replay([]) == map[]
  {
    assert Contents<Value, Request>([]) == map[];
  }

  lemma {:induction false} PrefixReplays(retention: real, acts: seq<Action<Request>>, n: nat)
    requires n <= |After(Store(retention), acts).log|
    ensures C.Replay(Events(After(Store(retention), acts).log[..n])) == Held(After(Store(retention), acts).log[..n])
  {
    if n == 0 {
      NothingHeld();
    } else {
      PrefixReplays(retention, acts, n - 1);
      ChangeReplays(retention, acts, n - 1);
      ReplayExtends(After(Store(retention), acts).log, n - 1);
    }
  }

  lemma {:induction false} PrefixIsLegal(retention: real, slack: real, acts: seq<Action<Request>>, n: nat)
    requires var s := After(Store(retention), acts); n <= |s.log| && FreshOwners(s) && Covered(s, slack)
    ensures C.Legal(Events(After(Store(retention), acts).log[..n]), slack)
  {
    var log := After(Store(retention), acts).log;
    if n == 0 {
      assert log[..n] == [];
    } else {
      PrefixIsLegal(retention, slack, acts, n - 1);
      PrefixReplays(retention, acts, n - 1);
      ChangeFollows(retention, slack, acts, n - 1);
      EventsAppend(log, n - 1);
      C.LegalAppend(Events(log[..n - 1]), EventOf(log[..n - 1], log[n - 1]), slack);
    }
  }

  /** Every run of the Redis store is a legal history of the claim contract whose replay is
      what the server holds, so lease exclusion, absorption and conservation hold of it. */
  lemma RunsAreClaimHistories(retention: real, slack: real, acts: seq<Action<Request>>)
    requires FreshOwners(After(Store(retention), acts)) && Covered(After(Store(retention), acts), slack)
    ensures
      var s := After(Store(retention), acts);
      && C.Legal(Events(s.log), slack)
      && forall key :: Stored(s.entries, key) ==
           (if key in C.Replay(Events(s.log)) then Some(C.Replay(Events(s.log))[key]) else None)
  {
    var s := After(Store(retention), acts);
    assert s.log[..|s.log|] == s.log;
    PrefixIsLegal(retention, slack, acts, |s.log|);
    PrefixReplays(retention, acts, |s.log|);
    RunsKeepInv(Store(retention), acts);
  }

  /** Every finished call is the atomic operation at one point of that history, inside the
      call: at its SET NX or EXEC when it wrote, at its deciding GET when it did not. */
  lemma CallsAreAtomic(retention: real, acts: seq<Action<Request>>, client: nat)
    requires var s := After(Store(retention), acts); client in s.calls && s.calls[client].at.Finished?
    ensures
      var s := After(Store(retention), acts);
      var c, f, events := s.calls[client], s.calls[client].at, Events(s.log);
      && c.start <= f.at <= |events| && c.since <= f.read <= s.now
      && var store := C.Replay(events[..f.at]);
         && f.reply == C.ReplyTo(store, c.key, c.tag.owner, c.tag.op, f.read)
         && (if f.wrote then
               f.at < |events| && exists start | c.since <= start <= f.read ::
                 events[f.at] == C.Operated(c.key, c.tag.owner, c.tag.op, f.read, start)
             else
               forall start :: C.Effect(store, c.key, c.tag.owner, c.tag.op, f.read, start) == store)
  {
    RunsKeepInv(Store(retention), acts);
    RunsKeepCode(Store(retention), acts);
    var s := After(Store(retention), acts);
    var c, f := s.calls[client], s.calls[client].at;
    assert CallInv(s, client) && RunsProgram(Store(retention), c, s.now);
    assert Justified(s, client);
    PrefixReplays(retention, acts, f.at);
    EventsPrefix(s.log, f.at);
    if f.wrote {
      EventAt(s.log, f.at);
      WriteMatches(retention, s, client);
    } else {
      ReadMatches(retention, s, client);
    }
  }

  // ------------------------------------------------------------------ how long duplicates are absorbed

  /** A completed claim is forgotten no earlier than the retention time after the EXEC of the
      call that completed it. */
  lemma CompletedClaimsAreRetained(retention: real, acts: seq<Action<Request>>, i: nat) returns (j: nat)
    requires i < |After(Store(retention), acts).log| && Events(After(Store(retention), acts).log)[i].Forgot?
    ensures
      var log := After(Store(retention), acts).log;
      && LastBefore(log, j, i) && log[j].Wrote? && log[j].tag.op == C.Complete
      && At(log[..i], log[i].key).Some? && log[j].tag.owner == At(log[..i], log[i].key).value.owner
      && log[j].now + Ttl(retention) <= log[i].now
  {
    EventAt(After(Store(retention), acts).log, i);
    j := DroppedClaims(retention, acts, i);
  }

  /** Between positions j and n the owner of change j did not release its key, and no more than
      the retention time passed. */
  ghost predicate Retained(retention: real, log: Log, j: nat, n: nat)
    requires j < n <= |log| && log[j].Wrote?
  {
    forall i | j < i < n ::
      && log[i].now < log[j].now + Ttl(retention)
      && (log[i].Wrote? && log[i].key == log[j].key && log[i].tag.op.Release? ==> log[i].tag.owner != log[j].tag.owner)
  }

  /** For the retention time after its EXEC, a completion stays on the server unless its own
      owner releases it. */
  lemma {:induction false} CompletionsStay(retention: real, acts: seq<Action<Request>>, j: nat, n: nat)
    requires j < n <= |After(Store(retention), acts).log|
    requires var e := After(Store(retention), acts).log[j]; e.Wrote? && e.tag.op == C.Complete
    requires Retained(retention, After(Store(retention), acts).log, j, n)
    ensures
      var log := After(Store(retention), acts).log;
      var held := Held(log[..n]);
      log[j].key in held && held[log[j].key].completed && held[log[j].key].owner == log[j].tag.owner
  {
    var log, m := After(Store(retention), acts).log, n - 1;
    HeldNext(log, m);
    if m == j {
      WritesOfCalls(retention, acts, j);
    } else {
      CompletionsStay(retention, acts, j, m);
      var e, key := log[m], log[j].key;
      if e.key == key && e.Dropped? {
        var k := DroppedClaims(retention, acts, m);
        RunsKeepInv(Store(retention), acts);
        assert false;
      } else if e.key == key {
        ChangeReplays(retention, acts, m);
        C.OperationsAreOwnerSafe(Held(log[..m]), key, e.tag.owner, e.tag.op, e.now, LeaseStart(e));
      }
    }
  }

  /** Redis absorbs duplicates for the retention time: a claim that starts after a completion
      and reads within that time is answered Completed, unless the owner released it. */
  lemma DuplicatesAreAbsorbed(retention: real, acts: seq<Action<Request>>, j: nat, client: nat)
    requires var s := After(Store(retention), acts); client in s.calls && s.calls[client].at.Finished?
    requires
      var s := After(Store(retention), acts);
      var c := s.calls[client];
      && j < c.start <= c.at.at <= |s.log| && s.log[j].Wrote? && s.log[j].tag.op == C.Complete
      && c.key == s.log[j].key && c.tag.op.Acquire?
      && c.at.read < s.log[j].now + Ttl(retention)
      && forall i | j < i < c.at.at && s.log[i].Wrote? && s.log[i].key == c.key && s.log[i].tag.op.Release? ::
           s.log[i].tag.owner != s.log[j].tag.owner
    ensures After(Store(retention), acts).calls[client].at.reply == C.Claimed(C.Completed)
  {
    var s := After(Store(retention), acts);
    var f := s.calls[client].at;
    RunsKeepInv(Store(retention), acts);
    assert CallInv(s, client) && Justified(s, client);
    assert forall i | 0 <= i < f.at :: s.log[i].now <= s.log[f.at - 1].now <= f.read;
    CompletionsStay(retention, acts, j, f.at);
    CallsAreAtomic(retention, acts, client);
    EventsPrefix(s.log, f.at);
    PrefixReplays(retention, acts, f.at);
  }

  // ------------------------------------------------------------------ lease exclusion on the server

  /** No lease asked for is longer than completions are retained. */
  ghost predicate LeasesWithin(s: State, limit: real) {
    forall a | a in s.calls && (s.calls[a].tag.op.Acquire? || s.calls[a].tag.op.Renew?) ::
      s.calls[a].tag.op.lease <= limit
  }

  /** A grant on record is that of a write, for the lease its call asked for. */
  lemma {:induction false} GrantOfCall(
    retention: real, acts: seq<Action<Request>>, n: nat, key: Key, owner: C.Owner) returns (g: nat)
    requires n <= |After(Store(retention), acts).log|
    requires C.LastGrant(Events(After(Store(retention), acts).log[..n]), key, owner).Some?
    ensures
      var log := After(Store(retention), acts).log;
      && g < n && log[g].Wrote? && (log[g].tag.op.Acquire? || log[g].tag.op.Renew?)
      && C.LastGrant(Events(log[..n]), key, owner).value == LeaseStart(log[g]) + log[g].tag.op.lease
      && LeaseStart(log[g]) <= log[g].now
  {
    var log, m := After(Store(retention), acts).log, n - 1;
    EventsAppend(log, m);
    var before, e := Events(log[..m]), EventOf(log[..m], log[m]);
    assert (before + [e])[..m] == before;
    if C.Grants(C.Replay(before), e, key, owner) {
      g := m;
      WritesOfCalls(retention, acts, m);
    } else {
      g := GrantOfCall(retention, acts, m, key, owner);
    }
  }

  lemma GrantUnmoved(before: seq<C.Event>, e: C.Event, key: Key, owner: C.Owner)
    requires e.key != key || (e.Operated? && e.op == C.Complete)
    ensures C.LastGrant(before + [e], key, owner) == C.LastGrant(before, key, owner)
  {
    assert (before + [e])[..|before|] == before;
  }

  lemma {:induction false} GrantStays(log: Log, key: Key, owner: C.Owner, m: nat, n: nat)
    requires m <= n <= |log|
    requires forall k | m <= k < n && log[k].key == key :: log[k].Wrote? && log[k].tag.op == C.Complete
    ensures C.LastGrant(Events(log[..n]), key, owner) == C.LastGrant(Events(log[..m]), key, owner)
  {
    if m < n {
      GrantStays(log, key, owner, m, n - 1);
      EventsAppend(log, n - 1);
      GrantUnmoved(Events(log[..n - 1]), EventOf(log[..n - 1], log[n - 1]), key, owner);
    }
  }

  /** A grant on record ends no later than the longest lease after the last change. */
  lemma GrantsEnd(retention: real, acts: seq<Action<Request>>, j: nat, key: Key, owner: C.Owner, limit: real)
    requires LeasesWithin(After(Store(retention), acts), limit) && j < |After(Store(retention), acts).log|
    requires C.LastGrant(Events(After(Store(retention), acts).log[..j]), key, owner).Some?
    ensures
      var log := After(Store(retention), acts).log;
      C.LastGrant(Events(log[..j]), key, owner).value <= log[j].now + limit
  {
    var s := After(Store(retention), acts);
    var g := GrantOfCall(retention, acts, j, key, owner);
    var client := CallOfChange(retention, acts, g);
    RunsKeepInv(Store(retention), acts);
    assert s.log[g].now <= s.log[j].now;
  }

  /** A completion is forgotten only once the lease of its claim is over, too. */
  lemma ForgottenAfterTheLease(retention: real, acts: seq<Action<Request>>, i: nat, owner: C.Owner)
    requires LeasesWithin(After(Store(retention), acts), Ttl(retention))
    requires
      var log := After(Store(retention), acts).log;
      && i < |log| && log[i].Dropped? && EventOf(log[..i], log[i]).Forgot?
      && At(log[..i], log[i].key).Some? && At(log[..i], log[i].key).value.owner == owner
      && C.LastGrant(Events(log[..i]), log[i].key, owner).Some?
    ensures
      var log := After(Store(retention), acts).log;
      C.LastGrant(Events(log[..i]), log[i].key, owner).value <= log[i].now
  {
    var log := After(Store(retention), acts).log;
    var j := DroppedClaims(retention, acts, i);
    GrantStays(log, log[i].key, owner, j, i);
    GrantsEnd(retention, acts, j, log[i].key, owner, Ttl(retention));
  }

  lemma ForgottenLate(retention: real, acts: seq<Action<Request>>, key: Key, owner: C.Owner)
    requires LeasesWithin(After(Store(retention), acts), Ttl(retention))
    ensures C.ForgottenLate(Events(After(Store(retention), acts).log), 0.001, key, owner)
  {
    var log := After(Store(retention), acts).log;
    var events := Events(log);
    forall i | 0 <= i < |events| && events[i].Forgot? && events[i].key == key
      && C.Owns(C.Replay(events[..i]), key, owner)
      ensures C.LastGrant(events[..i], key, owner).Some? ==>
        C.LastGrant(events[..i], key, owner).value <= events[i].now + 0.001
    {
      EventAt(log, i);
      EventsPrefix(log, i);
      PrefixReplays(retention, acts, i);
      if C.LastGrant(events[..i], key, owner).Some? { ForgottenAfterTheLease(retention, acts, i, owner); }
    }
  }

  lemma LastEventIsPast(retention: real, acts: seq<Action<Request>>)
    requires After(Store(retention), acts).log != []
    ensures
      var s := After(Store(retention), acts);
      Events(s.log)[|s.log| - 1].now <= s.now
  {
    RunsKeepInv(Store(retention), acts);
    EventAt(After(Store(retention), acts).log, |After(Store(retention), acts).log| - 1);
  }

  /** In every run over Redis, an owner whose granted, unreleased lease ends more than a
      millisecond from now is the owner stored on the server, with that lease or completed; if
      the owner has completed, given that completions are retained longer than leases last. */
  lemma LeasesAreExclusive(retention: real, acts: seq<Action<Request>>, key: Key, owner: C.Owner)
    requires FreshOwners(After(Store(retention), acts))
    requires
      var s := After(Store(retention), acts);
      LeasesWithin(s, Ttl(retention)) || C.NeverCompletedBy(Events(s.log), key, owner)
    requires
      var s := After(Store(retention), acts);
      && C.LastGrant(Events(s.log), key, owner).Some?
      && s.now + 0.001 < C.LastGrant(Events(s.log), key, owner).value
    ensures
      var s := After(Store(retention), acts);
      && key in s.entries && s.entries[key].value.owner == owner
      && (|| s.entries[key].value.completed
          || s.entries[key].value.leaseUntil == C.LastGrant(Events(s.log), key, owner).value)
  {
    var s := After(Store(retention), acts);
    AMillisecondCovers(s);
    RunsAreClaimHistories(retention, 0.001, acts);
    if C.NeverCompletedBy(Events(s.log), key, owner) {
      C.RememberedIsLate(Events(s.log), 0.001, key, owner);
    } else {
      ForgottenLate(retention, acts, key, owner);
    }
    C.LeaseHolds(Events(s.log), 0.001, key, owner);
    LastEventIsPast(retention, acts);
    assert Stored(s.entries, key) == Some(C.Replay(Events(s.log))[key]);
  }
}
