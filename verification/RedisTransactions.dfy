/**
 Optimistic transactions over a Redis server: the shape shared by every retry loop of
 src/chattice/idempotency.py and src/chattice/fsm/record.py.

   optional opening (SET NX, or a plain GET)
   loop: WATCH key; GET key; decide from the value and the clock;
         return, or MULTI one write EXEC; on WatchError go round again

 The server is a versioned map: every change of a key, expiry included, gives the key a new
 version, and EXEC applies its write only if the version WATCH saw is still current. Clients
 interleave between any two commands, time passes, keys expire, and a client may lose its
 connection before or after EXEC.

 Main result (RunsKeepInv with Justified): each call takes effect at one point between its
 start and its end, as if its decision had been made on the stored value of that point, and the
 history of those points replays to exactly the server's contents, deadlines included.
 */
module RedisTransactions {
  import opened Options

  type Key = string

  // ------------------------------------------------------------------ programs

  /** max(1, int(seconds * 1000)): the PX argument. */
  function Millis(seconds: real): nat {
    var m := (seconds * 1000.0).Floor;
    if m < 1 then 1 else m
  }

  /** How long an entry written with that PX argument lives. */
  function Ttl(seconds: real): real {
    Millis(seconds) as real / 1000.0
  }

  datatype Write<V> = Put(value: V, ttl: Option<real>) | Delete

  datatype Decision<V, R> = Return(reply: R) | Commit(write: Write<V>, reply: R)

  /** The clock readings of one round of the loop, in order; no body takes more than three. */
  datatype Clock = Clock(first: real, second: real, third: real)

  predicate Between(c: Clock, from: real, to: real) {
    from <= c.first <= c.second <= c.third <= to
  }

  function Once(now: real): Clock {
    Clock(now, now, now)
  }

  /** The loop body: from the value read and the clock readings after it. */
  type Body<!V, !R> = (Option<V>, Clock) -> Decision<V, R>

  datatype Glance<!V, !R> = Answer(reply: R) | Enter(body: Body<V, R>)

  datatype Opening<!V, !R> =
    | Straight
    | SetNx(value: V, ttl: real, reply: R)
    | Peek(look: (Option<V>, real) -> Glance<V, R>)

  datatype Program<!V, !R> = Program(opening: Opening<V, R>, body: Body<V, R>)

  /** The code of a call, from what it was called with and the clock at its start. */
  type Code<!V, !R, !T> = (T, real) -> Program<V, R>

  // ------------------------------------------------------------------ the system

  /** What makes a finished call right: the decision it acted on. */
  datatype Origin = ByNx | ByLook | ByBody

  datatype Progress<V, R> =
    | Opened
    | Peeked(raw: Option<V>, at: nat, read: real)
    | Looping
    | Watched(version: nat)
    | Got(raw: Option<V>, version: nat, at: nat, read: real)
    | Ready(raw: Option<V>, write: Write<V>, reply: R, version: nat, clock: Clock)
    | Finished(reply: R, at: nat, read: real, clock: Clock, wrote: bool, origin: Origin)
    | Lost

  /** since and start: the clock and the history length when the call began. */
  datatype Call<!V, !R, T> = Call(
    key: Key, tag: T, opening: Opening<V, R>, body: Body<V, R>, since: real, start: nat, at: Progress<V, R>)

  datatype Entry<V> = Entry(value: V, deadline: Option<real>)

  /** The history: writes that took effect, and entries the server dropped. */
  datatype Change<V, T> =
    | Wrote(client: nat, tag: T, key: Key, write: Write<V>, now: real)
    | Dropped(key: Key, now: real)

  datatype System<!V, !R, T> = System(
    now: real,
    entries: map<Key, Entry<V>>,
    versions: map<Key, nat>,
    log: seq<Change<V, T>>,
    calls: map<nat, Call<V, R, T>>)

  datatype Action<T> =
    | Tick(now: real)
    | Invoke(client: nat, key: Key, tag: T)
    | Advance(client: nat, clock: Clock)   // the client's next command or local decision
    | Lose(client: nat)                    // the call fails; a sent EXEC may have been applied
    | Expire(key: Key)

  ghost function Init<V, R, T>(): System<V, R, T> {
    System(0.0, map[], map[], [], map[])
  }

  function Version(versions: map<Key, nat>, key: Key): nat {
    if key in versions then versions[key] else 0
  }

  function Bump(versions: map<Key, nat>, key: Key): map<Key, nat> {
    versions[key := Version(versions, key) + 1]
  }

  function Stored<V>(entries: map<Key, Entry<V>>, key: Key): Option<V> {
    if key in entries then Some(entries[key].value) else None
  }

  function Deadline(now: real, ttl: Option<real>): Option<real> {
    match ttl case Some(seconds) => Some(now + seconds) case None => None
  }

  function Changed<V, T>(entries: map<Key, Entry<V>>, e: Change<V, T>): map<Key, Entry<V>> {
    match e
    case Wrote(_, _, key, Put(value, ttl), now) => entries[key := Entry(value, Deadline(now, ttl))]
    case Wrote(_, _, key, Delete, _) => entries - {key}
    case Dropped(key, _) => entries - {key}
  }

  ghost function Happened<V, R, T>(s: System<V, R, T>, e: Change<V, T>): System<V, R, T> {
    s.(entries := Changed(s.entries, e), versions := Bump(s.versions, e.key), log := s.log + [e])
  }

  /** One command of the client, and what it does locally until the next one. */
  ghost function AdvanceCall<V, R, T>(s: System<V, R, T>, client: nat, clock: Clock): System<V, R, T>
    requires client in s.calls
  {
    var c := s.calls[client];
    var raw := Stored(s.entries, c.key);
    match c.at
    case Opened => (
      match c.opening
      case Straight => s.(calls := s.calls[client := c.(at := Looping)])
      case SetNx(value, ttl, reply) =>
        if raw == None then
          var done := c.(at := Finished(reply, |s.log|, s.now, Once(s.now), true, ByNx));
          Happened(s, Wrote(client, c.tag, c.key, Put(value, Some(ttl)), s.now)).(calls := s.calls[client := done])
        else
          s.(calls := s.calls[client := c.(at := Looping)])
      case Peek(_) => s.(calls := s.calls[client := c.(at := Peeked(raw, |s.log|, s.now))]))
    case Peeked(seen, at, read) => (
      match c.opening
      case Peek(look) => (
        match look(seen, s.now)
        case Answer(reply) =>
          s.(calls := s.calls[client := c.(at := Finished(reply, at, read, Once(s.now), false, ByLook))])
        case Enter(body) => s.(calls := s.calls[client := c.(at := Looping, body := body)]))
      case _ => s)
    case Looping => s.(calls := s.calls[client := c.(at := Watched(Version(s.versions, c.key)))])
    case Watched(version) => s.(calls := s.calls[client := c.(at := Got(raw, version, |s.log|, s.now))])
    case Got(seen, version, at, read) => (
      match c.body(seen, clock)
      case Return(reply) =>
        s.(calls := s.calls[client := c.(at := Finished(reply, at, read, clock, false, ByBody))])
      case Commit(write, reply) =>
        s.(calls := s.calls[client := c.(at := Ready(seen, write, reply, version, clock))]))
    case Ready(_, write, reply, version, readings) =>
      if version == Version(s.versions, c.key) then
        var done := c.(at := Finished(reply, |s.log|, s.now, readings, true, ByBody));
        Happened(s, Wrote(client, c.tag, c.key, write, s.now)).(calls := s.calls[client := done])
      else
        s.(calls := s.calls[client := c.(at := Looping)])   // WatchError
    case _ => s
  }

  ghost predicate Enabled<V, R, T>(s: System<V, R, T>, act: Action<T>) {
    match act
    case Tick(now) => s.now <= now
    case Invoke(client, _, _) => client !in s.calls
    case Advance(client, clock) =>
      client in s.calls && (s.calls[client].at.Got? ==> Between(clock, s.calls[client].at.read, s.now))
    case Lose(client) => client in s.calls && !s.calls[client].at.Finished?
    case Expire(key) => Due(s.entries, key, s.now)
  }

  predicate Due<V>(entries: map<Key, Entry<V>>, key: Key, now: real) {
    key in entries && entries[key].deadline.Some? && entries[key].deadline.value <= now
  }

  ghost function Do<V, R, T>(code: Code<V, R, T>, s: System<V, R, T>, act: Action<T>): System<V, R, T> {
    if !Enabled(s, act) then s else
      match act
      case Tick(now) => s.(now := now)
      case Invoke(client, key, tag) =>
        var p := code(tag, s.now);
        s.(calls := s.calls[client := Call(key, tag, p.opening, p.body, s.now, |s.log|, Opened)])
      case Advance(client, clock) => AdvanceCall(s, client, clock)
      case Lose(client) => s.(calls := s.calls[client := s.calls[client].(at := Lost)])
      case Expire(key) => Happened(s, Dropped(key, s.now))
  }

  ghost function After<V, R, T>(code: Code<V, R, T>, acts: seq<Action<T>>): System<V, R, T> {
    if acts == [] then Init() else Do(code, After(code, acts[..|acts| - 1]), acts[|acts| - 1])
  }

  lemma Unfold<V, R, T>(code: Code<V, R, T>, acts: seq<Action<T>>, n: nat)
    requires n < |acts|
    ensures After(code, acts[..n + 1]) == Do(code, After(code, acts[..n]), acts[n])
  {
    assert acts[..n + 1][..n] == acts[..n];
  }

  // ------------------------------------------------------------------ the history

  ghost function Contents<V, T>(log: seq<Change<V, T>>): map<Key, Entry<V>> {
    if log == [] then map[] else Changed(Contents(log[..|log| - 1]), log[|log| - 1])
  }

  ghost function At<V, T>(log: seq<Change<V, T>>, key: Key): Option<V> {
    Stored(Contents(log), key)
  }

  /** Position at of the history is where it was at time t. */
  ghost predicate Placed<V, T>(log: seq<Change<V, T>>, at: nat, t: real) {
    && at <= |log|
    && (at > 0 ==> log[at - 1].now <= t)
    && (at < |log| ==> t <= log[at].now)
  }

  /** The call's reply is what its code decides on the value stored at history position at,
      with clock readings taken during the call; a writing call's write is the change there. */
  ghost predicate Justified<V(!new), R(!new), T(!new)>(s: System<V, R, T>, client: nat)
    requires client in s.calls && s.calls[client].at.Finished?
  {
    var c, f := s.calls[client], s.calls[client].at;
    && c.start <= f.at && Placed(s.log, f.at, f.read)
    && c.since <= f.read <= s.now && Between(f.clock, c.since, s.now)
    && (if f.wrote then
          && f.at < |s.log| && f.clock.third <= f.read
          && s.log[f.at].Wrote? && s.log[f.at].client == client && s.log[f.at].tag == c.tag
          && s.log[f.at].key == c.key && s.log[f.at].now == f.read
          && match f.origin
             case ByNx => c.opening.SetNx? && At(s.log[..f.at], c.key) == None
                          && s.log[f.at].write == Put(c.opening.value, Some(c.opening.ttl))
                          && f.reply == c.opening.reply
             case ByBody => c.body(At(s.log[..f.at], c.key), f.clock) == Commit(s.log[f.at].write, f.reply)
             case ByLook => false
        else
          && f.read <= f.clock.first
          && match f.origin
             case ByNx => false
             case ByLook =>
               c.opening.Peek? && c.opening.look(At(s.log[..f.at], c.key), f.clock.first) == Answer(f.reply)
             case ByBody => c.body(At(s.log[..f.at], c.key), f.clock) == Return(f.reply))
  }

  // ------------------------------------------------------------------ the invariant

  ghost predicate CallInv<V(!new), R(!new), T(!new)>(s: System<V, R, T>, client: nat)
    requires client in s.calls
  {
    var c := s.calls[client];
    var current := Version(s.versions, c.key);
    && c.start <= |s.log| && c.since <= s.now
    && match c.at
       case Peeked(raw, at, read) =>
         && c.opening.Peek? && c.start <= at && Placed(s.log, at, read) && c.since <= read <= s.now
         && At(s.log[..at], c.key) == raw
       case Watched(version) => version <= current
       case Got(raw, version, at, read) =>
         && version <= current && c.start <= at && Placed(s.log, at, read) && c.since <= read <= s.now
         && At(s.log[..at], c.key) == raw
         && (version == current ==> Stored(s.entries, c.key) == raw)
       case Ready(raw, write, reply, version, clock) =>
         && version <= current && Between(clock, c.since, s.now)
         && c.body(raw, clock) == Commit(write, reply)
         && (version == current ==> Stored(s.entries, c.key) == raw)
       case Finished(_, _, _, _, _, _) => Justified(s, client)
       case _ => true
  }

  /** A change in the history belongs to the one call that finished with it, or dropped an
      entry whose deadline had come. */
  ghost predicate Accounted<V(!new), R(!new), T(!new)>(s: System<V, R, T>, i: nat)
    requires i < |s.log|
  {
    match s.log[i]
    case Wrote(client, _, _, _, _) =>
      client in s.calls && var f := s.calls[client].at; f.Finished? && f.wrote && f.at == i
    case Dropped(key, now) => Due(Contents(s.log[..i]), key, now)
  }

  ghost predicate LogInv<V(!new), R(!new), T(!new)>(s: System<V, R, T>) {
    && s.entries == Contents(s.log)
    && (forall i | 0 <= i < |s.log| :: s.log[i].now <= s.now)
    && (forall i, j | 0 <= i <= j < |s.log| :: s.log[i].now <= s.log[j].now)
    && (forall i | 0 <= i < |s.log| :: Accounted(s, i))
  }

  ghost predicate Inv<V(!new), R(!new), T(!new)>(s: System<V, R, T>) {
    && LogInv(s)
    && forall client | client in s.calls :: CallInv(s, client)
  }

  // ------------------------------------------------------------------ preservation

  lemma ContentsAppend<V, T>(log: seq<Change<V, T>>, e: Change<V, T>)
    ensures Contents(log + [e]) == Changed(Contents(log), e)
  {
    assert (log + [e])[..|log|] == log;
  }

  lemma ContentsNext<V, T>(log: seq<Change<V, T>>, n: nat)
    requires n < |log|
    ensures Contents(log[..n + 1]) == Changed(Contents(log[..n]), log[n])
  {
    assert log[..n + 1] == log[..n] + [log[n]];
    ContentsAppend(log[..n], log[n]);
  }

  /** A step of another client keeps the call's invariant. */
  lemma OtherCallKeeps<V(!new), R(!new), T(!new)>(s: System<V, R, T>, v: System<V, R, T>, client: nat)
    requires client in s.calls && client in v.calls && v.calls[client] == s.calls[client]
    requires CallInv(s, client) && s.now <= v.now && s.log <= v.log
    requires |s.log| < |v.log| ==> s.now <= v.log[|s.log|].now
    requires forall key :: Version(s.versions, key) <= Version(v.versions, key)
    requires forall key ::
      Version(s.versions, key) == Version(v.versions, key) ==> Stored(s.entries, key) == Stored(v.entries, key)
    ensures CallInv(v, client)
  {
    assert forall at: nat | at <= |s.log| :: v.log[..at] == s.log[..at];
  }

  /** A step that changes one client's call and leaves the server alone. */
  lemma QuietStep<V(!new), R(!new), T(!new)>(s: System<V, R, T>, v: System<V, R, T>, client: nat)
    requires Inv(s) && s.now <= v.now
    requires v.entries == s.entries && v.versions == s.versions && v.log == s.log
    requires forall o | o in v.calls && o != client :: o in s.calls && v.calls[o] == s.calls[o]
    requires forall o | o in s.calls :: o in v.calls
    requires client in v.calls ==> CallInv(v, client)
    requires client in s.calls && s.calls[client].at.Finished? ==> v.calls[client] == s.calls[client]
    ensures Inv(v)
  {
    forall o | o in v.calls ensures CallInv(v, o) {
      if o != client { OtherCallKeeps(s, v, o); }
    }
    forall i | 0 <= i < |v.log| ensures Accounted(v, i) {
      assert Accounted(s, i);
    }
  }

  /** Appending one accounted change keeps the others accounted. */
  lemma AppendKeepsAccounts<V(!new), R(!new), T(!new)>(
    s: System<V, R, T>, v: System<V, R, T>, e: Change<V, T>, i: nat)
    requires LogInv(s) && v.log == s.log + [e] && i < |v.log|
    requires forall o | o in s.calls && (e.Wrote? ==> o != e.client) :: o in v.calls && v.calls[o] == s.calls[o]
    requires e.Wrote? && e.client in s.calls ==> !s.calls[e.client].at.Finished?
    requires e.Wrote? ==> e.client in v.calls
    requires e.Wrote? ==> var f := v.calls[e.client].at; f.Finished? && f.wrote && f.at == |s.log|
    requires e.Dropped? ==> Due(s.entries, e.key, e.now)
    ensures Accounted(v, i)
  {
    if i < |s.log| {
      assert Accounted(s, i) && v.log[..i] == s.log[..i];
    } else {
      assert v.log[..i] == s.log;
    }
  }

  /** A change gives its key a new version and touches no other key. */
  lemma ChangeIsSeen<V, R, T>(s: System<V, R, T>, e: Change<V, T>)
    ensures
      var v := Happened(s, e);
      && (forall key :: Version(s.versions, key) <= Version(v.versions, key))
      && (forall key ::
            Version(s.versions, key) == Version(v.versions, key) ==> Stored(s.entries, key) == Stored(v.entries, key))
  {
  }

  lemma AppendKeepsOrder<V(!new), R(!new), T(!new)>(s: System<V, R, T>, v: System<V, R, T>, e: Change<V, T>)
    requires LogInv(s) && s.now == e.now && v.now == s.now && v.log == s.log + [e]
    ensures forall i | 0 <= i < |v.log| :: v.log[i].now <= v.now
    ensures forall i, j | 0 <= i <= j < |v.log| :: v.log[i].now <= v.log[j].now
  {
  }

  /** The calls that the change does not belong to. */
  lemma AppendKeepsCalls<V(!new), R(!new), T(!new)>(
    s: System<V, R, T>, v: System<V, R, T>, e: Change<V, T>, client: nat)
    requires s.now == e.now && v == Happened(s, e).(calls := v.calls)
    requires client in s.calls && client in v.calls && v.calls[client] == s.calls[client] && CallInv(s, client)
    ensures CallInv(v, client)
  {
    ChangeIsSeen(s, e);
    OtherCallKeeps(s, v, client);
  }

  /** A step that appends one change to the history. */
  lemma ServerStep<V(!new), R(!new), T(!new)>(s: System<V, R, T>, v: System<V, R, T>, e: Change<V, T>)
    requires Inv(s) && s.now == e.now && v == Happened(s, e).(calls := v.calls)
    requires v.calls.Keys == s.calls.Keys
    requires forall o | o in s.calls && (e.Wrote? ==> o != e.client) :: v.calls[o] == s.calls[o]
    requires e.Wrote? ==> e.client in v.calls && CallInv(v, e.client) && !s.calls[e.client].at.Finished?
    requires e.Wrote? ==> var f := v.calls[e.client].at; f.Finished? && f.wrote && f.at == |s.log|
    requires e.Dropped? ==> Due(s.entries, e.key, e.now)
    ensures Inv(v)
  {
    ContentsAppend(s.log, e);
    AppendKeepsOrder(s, v, e);
    forall o | o in v.calls ensures CallInv(v, o) {
      if e.Wrote? ==> o != e.client { AppendKeepsCalls(s, v, e, o); }
    }
    forall i | 0 <= i < |v.log| ensures Accounted(v, i) {
      AppendKeepsAccounts(s, v, e, i);
    }
  }

  lemma ExecKeepsInv<V(!new), R(!new), T(!new)>(s: System<V, R, T>, client: nat, clock: Clock)
    requires Inv(s) && client in s.calls && s.calls[client].at.Ready?
    requires s.calls[client].at.version == Version(s.versions, s.calls[client].key)
    ensures Inv(AdvanceCall(s, client, clock))
  {
    var v, c := AdvanceCall(s, client, clock), s.calls[client];
    assert CallInv(s, client);
    var e := Wrote(client, c.tag, c.key, c.at.write, s.now);
    assert v.log == s.log + [e];
    assert v.log[..|s.log|] == s.log;
    assert At(s.log, c.key) == Stored(s.entries, c.key) == c.at.raw;
    assert Justified(v, client);
    ServerStep(s, v, e);
  }

  lemma SetNxKeepsInv<V(!new), R(!new), T(!new)>(s: System<V, R, T>, client: nat, clock: Clock)
    requires Inv(s) && client in s.calls && s.calls[client].at.Opened? && s.calls[client].opening.SetNx?
    requires Stored(s.entries, s.calls[client].key) == None
    ensures Inv(AdvanceCall(s, client, clock))
  {
    var v, c := AdvanceCall(s, client, clock), s.calls[client];
    assert CallInv(s, client);
    var e := Wrote(client, c.tag, c.key, Put(c.opening.value, Some(c.opening.ttl)), s.now);
    assert v.log == s.log + [e];
    assert v.log[..|s.log|] == s.log;
    assert At(s.log, c.key) == None;
    assert Justified(v, client);
    ServerStep(s, v, e);
  }

  /** The client's decision after the GET of its opening. */
  lemma LookKeepsInv<V(!new), R(!new), T(!new)>(s: System<V, R, T>, client: nat, clock: Clock)
    requires Inv(s) && client in s.calls && s.calls[client].at.Peeked?
    ensures Inv(AdvanceCall(s, client, clock))
  {
    var v, c := AdvanceCall(s, client, clock), s.calls[client];
    assert CallInv(s, client);
    if c.opening.Peek? {
      match c.opening.look(c.at.raw, s.now) {
        case Answer(_) => assert Justified(v, client);
        case Enter(_) => assert CallInv(v, client);
      }
    }
    QuietStep(s, v, client);
  }

  /** The client's decision after the GET of its loop. */
  lemma DecisionKeepsInv<V(!new), R(!new), T(!new)>(s: System<V, R, T>, client: nat, clock: Clock)
    requires Inv(s) && client in s.calls && s.calls[client].at.Got?
    requires Between(clock, s.calls[client].at.read, s.now)
    ensures Inv(AdvanceCall(s, client, clock))
  {
    var v, c := AdvanceCall(s, client, clock), s.calls[client];
    assert CallInv(s, client);
    match c.body(c.at.raw, clock) {
      case Return(_) => assert Justified(v, client);
      case Commit(_, _) => assert CallInv(v, client);
    }
    QuietStep(s, v, client);
  }

  /** A GET outside a decision: the opening's, or the one after WATCH. */
  lemma GetKeepsInv<V(!new), R(!new), T(!new)>(s: System<V, R, T>, client: nat, clock: Clock)
    requires Inv(s) && client in s.calls
    requires s.calls[client].at.Watched? || (s.calls[client].at.Opened? && s.calls[client].opening.Peek?)
    ensures Inv(AdvanceCall(s, client, clock))
  {
    var v, c := AdvanceCall(s, client, clock), s.calls[client];
    assert CallInv(s, client);
    assert s.log[..|s.log|] == s.log;
    assert At(s.log, c.key) == Stored(s.entries, c.key);
    assert CallInv(v, client);
    QuietStep(s, v, client);
  }

  /** A command that reads no value: WATCH, a SET NX or an EXEC that fails, or none. */
  lemma OtherCommandKeepsInv<V(!new), R(!new), T(!new)>(s: System<V, R, T>, client: nat, clock: Clock)
    requires Inv(s) && client in s.calls
    requires !s.calls[client].at.Got? && !s.calls[client].at.Peeked? && !s.calls[client].at.Watched?
    requires s.calls[client].at.Ready? ==> s.calls[client].at.version != Version(s.versions, s.calls[client].key)
    requires s.calls[client].at.Opened? ==> !s.calls[client].opening.Peek?
    requires s.calls[client].at.Opened? && s.calls[client].opening.SetNx? ==>
      Stored(s.entries, s.calls[client].key) != None
    ensures Inv(AdvanceCall(s, client, clock))
  {
    var v := AdvanceCall(s, client, clock);
    assert CallInv(s, client);
    assert CallInv(v, client);
    QuietStep(s, v, client);
  }

  lemma AdvanceKeepsInv<V(!new), R(!new), T(!new)>(s: System<V, R, T>, client: nat, clock: Clock)
    requires Inv(s) && client in s.calls
    requires s.calls[client].at.Got? ==> Between(clock, s.calls[client].at.read, s.now)
    ensures Inv(AdvanceCall(s, client, clock))
  {
    var c := s.calls[client];
    if c.at.Ready? && c.at.version == Version(s.versions, c.key) {
      ExecKeepsInv(s, client, clock);
    } else if c.at.Opened? && c.opening.SetNx? && Stored(s.entries, c.key) == None {
      SetNxKeepsInv(s, client, clock);
    } else if c.at.Got? {
      DecisionKeepsInv(s, client, clock);
    } else if c.at.Peeked? {
      LookKeepsInv(s, client, clock);
    } else if c.at.Watched? || (c.at.Opened? && c.opening.Peek?) {
      GetKeepsInv(s, client, clock);
    } else {
      OtherCommandKeepsInv(s, client, clock);
    }
  }

  lemma TickKeepsInv<V(!new), R(!new), T(!new)>(s: System<V, R, T>, now: real)
    requires Inv(s) && s.now <= now
    ensures Inv(s.(now := now))
  {
    var v := s.(now := now);
    forall o | o in v.calls ensures CallInv(v, o) { OtherCallKeeps(s, v, o); }
    forall i | 0 <= i < |v.log| ensures Accounted(v, i) {
      assert Accounted(s, i);
    }
  }

  lemma StepKeepsInv<V(!new), R(!new), T(!new)>(code: Code<V, R, T>, s: System<V, R, T>, act: Action<T>)
    requires Inv(s)
    ensures Inv(Do(code, s, act))
  {
    if Enabled(s, act) {
      var v := Do(code, s, act);
      match act {
        case Tick(now) => TickKeepsInv(s, now);
        case Invoke(client, _, _) => QuietStep(s, v, client);
        case Advance(client, clock) => AdvanceKeepsInv(s, client, clock);
        case Lose(client) => assert CallInv(s, client); QuietStep(s, v, client);
        case Expire(key) => ServerStep(s, v, Dropped(key, s.now));
      }
    }
  }

  /** In every run, the history replays to the server's contents, every finished call is
      justified by it, and the server has dropped only entries whose deadline had come. */
  lemma {:induction false} RunsKeepInv<V(!new), R(!new), T(!new)>(code: Code<V, R, T>, acts: seq<Action<T>>)
    ensures Inv(After(code, acts))
  {
    if acts != [] {
      RunsKeepInv(code, acts[..|acts| - 1]);
      StepKeepsInv(code, After(code, acts[..|acts| - 1]), acts[|acts| - 1]);
    }
  }

  // ------------------------------------------------------------------ who wrote an entry

  /** The last change of a stored key is the write that stored its entry. */
  lemma {:induction false} WriterOf<V, T>(log: seq<Change<V, T>>, key: Key) returns (j: nat)
    requires key in Contents(log)
    ensures j < |log| && log[j].Wrote? && log[j].key == key && log[j].write.Put?
    ensures Contents(log)[key] == Entry(log[j].write.value, Deadline(log[j].now, log[j].write.ttl))
    ensures forall i | j < i < |log| :: log[i].key != key
  {
    var n := |log| - 1;
    if log[n].key == key {
      j := n;
    } else {
      j := WriterOf(log[..n], key);
      forall i | j < i < |log| ensures log[i].key != key {
        if i < n { assert log[i] == log[..n][i]; }
      }
    }
  }

  /** An entry the server dropped had been written with a TTL, that long ago or longer, and
      not touched since. */
  lemma DropsFollowTtls<V(!new), R(!new), T(!new)>(code: Code<V, R, T>, acts: seq<Action<T>>, i: nat) returns (j: nat)
    requires i < |After(code, acts).log| && After(code, acts).log[i].Dropped?
    ensures
      var log := After(code, acts).log;
      && j < i && log[j].Wrote? && log[j].key == log[i].key
      && log[j].write.Put? && log[j].write.ttl.Some?
      && At(log[..i], log[i].key) == Some(log[j].write.value)
      && log[j].now + log[j].write.ttl.value <= log[i].now
      && forall k | j < k < i :: log[k].key != log[i].key
  {
    RunsKeepInv(code, acts);
    var s := After(code, acts);
    assert Accounted(s, i);
    j := WriterOf(s.log[..i], s.log[i].key);
    forall k | j < k < i ensures s.log[k].key != s.log[i].key {
      assert s.log[k] == s.log[..i][k];
    }
  }

  // ------------------------------------------------------------------ the code of a call

  /** The first of the clock readings a call decided on, or will. */
  function Horizon<V, R, T>(c: Call<V, R, T>, now: real): real {
    match c.at
    case Finished(_, _, _, clock, _, _) => clock.first
    case Ready(_, _, _, _, clock) => clock.first
    case Got(_, _, _, read) => read
    case _ => now
  }

  /** A call runs its program: the given opening, and as loop body the program's own or the
      one its opening entered with before its last decision. */
  ghost predicate RunsProgram<V(!new), R(!new), T(!new)>(code: Code<V, R, T>, c: Call<V, R, T>, now: real) {
    && c.since <= now
    && c.opening == code(c.tag, c.since).opening
    && (|| c.body == code(c.tag, c.since).body
        || (c.opening.Peek? && EnteredWith(c.opening.look, c.body, c.since, Horizon(c, now))))
  }

  ghost predicate EnteredWith<V(!new), R(!new)>(
    look: (Option<V>, real) -> Glance<V, R>, body: Body<V, R>, since: real, now: real)
  {
    exists raw, t :: since <= t <= now && look(raw, t) == Enter(body)
  }

  ghost predicate CodeInv<V(!new), R(!new), T(!new)>(code: Code<V, R, T>, s: System<V, R, T>) {
    forall client | client in s.calls :: RunsProgram(code, s.calls[client], s.now)
  }

  lemma EnteringKeepsCode<V(!new), R(!new), T(!new)>(
    code: Code<V, R, T>, s: System<V, R, T>, client: nat, clock: Clock)
    requires client in s.calls && RunsProgram(code, s.calls[client], s.now)
    requires s.calls[client].at.Peeked? && s.calls[client].opening.Peek?
    ensures RunsProgram(code, AdvanceCall(s, client, clock).calls[client], s.now)
  {
    var v, c := AdvanceCall(s, client, clock), s.calls[client];
    if c.opening.look(c.at.raw, s.now).Enter? {
      assert c.opening.look(c.at.raw, s.now) == Enter(v.calls[client].body);
      assert EnteredWith(c.opening.look, v.calls[client].body, c.since, s.now);
    }
  }

  /** Advancing changes only the call's progress, and only entering changes its body. */
  lemma AdvanceChanges<V(!new), R(!new), T(!new)>(s: System<V, R, T>, client: nat, clock: Clock)
    requires client in s.calls
    ensures
      var v := AdvanceCall(s, client, clock);
      && client in v.calls && v.now == s.now && v.calls == s.calls[client := v.calls[client]]
      && v.calls[client] == s.calls[client].(at := v.calls[client].at, body := v.calls[client].body)
      && (!s.calls[client].at.Peeked? ==> v.calls[client].body == s.calls[client].body)
  {
    var v, c := AdvanceCall(s, client, clock), s.calls[client];
    match c.at {
      case Opened =>
        match c.opening { case Straight => case SetNx(_, _, _) => case Peek(_) => }
      case Peeked(seen, _, _) =>
        if c.opening.Peek? {
          match c.opening.look(seen, s.now) { case Answer(_) => case Enter(_) => }
        } else {
          assert v == s;
        }
      case Got(seen, _, _, _) =>
        match c.body(seen, clock) { case Return(_) => case Commit(_, _) => }
      case Ready(_, _, _, version, _) =>
        if version == Version(s.versions, c.key) {} else {}
      case _ =>
    }
  }

  lemma HorizonAdvances<V(!new), R(!new), T(!new)>(s: System<V, R, T>, client: nat, clock: Clock)
    requires Inv(s) && client in s.calls
    requires s.calls[client].at.Got? ==> Between(clock, s.calls[client].at.read, s.now)
    ensures Horizon(s.calls[client], s.now) <= Horizon(AdvanceCall(s, client, clock).calls[client], s.now)
  {
    assert CallInv(s, client);
  }

  lemma AdvanceKeepsCode<V(!new), R(!new), T(!new)>(
    code: Code<V, R, T>, s: System<V, R, T>, client: nat, clock: Clock)
    requires Inv(s) && CodeInv(code, s) && client in s.calls
    requires s.calls[client].at.Got? ==> Between(clock, s.calls[client].at.read, s.now)
    ensures
      var v := AdvanceCall(s, client, clock);
      && v.now == s.now && v.calls.Keys == s.calls.Keys
      && (forall o | o in s.calls && o != client :: v.calls[o] == s.calls[o])
      && RunsProgram(code, v.calls[client], s.now)
  {
    AdvanceChanges(s, client, clock);
    HorizonAdvances(s, client, clock);
    assert RunsProgram(code, s.calls[client], s.now);
    if s.calls[client].at.Peeked? && s.calls[client].opening.Peek? {
      EnteringKeepsCode(code, s, client, clock);
    }
  }

  lemma LaterStillRuns<V(!new), R(!new), T(!new)>(code: Code<V, R, T>, c: Call<V, R, T>, now: real, later: real)
    requires RunsProgram(code, c, now) && now <= later
    ensures RunsProgram(code, c, later)
  {
  }

  lemma StepKeepsCode<V(!new), R(!new), T(!new)>(code: Code<V, R, T>, s: System<V, R, T>, act: Action<T>)
    requires Inv(s) && CodeInv(code, s)
    ensures CodeInv(code, Do(code, s, act))
  {
    var v := Do(code, s, act);
    if Enabled(s, act) && act.Advance? {
      AdvanceKeepsCode(code, s, act.client, act.clock);
    } else if Enabled(s, act) && act.Tick? {
      forall o | o in s.calls ensures RunsProgram(code, s.calls[o], v.now) {
        LaterStillRuns(code, s.calls[o], s.now, v.now);
      }
    } else if Enabled(s, act) && act.Lose? {
      assert CallInv(s, act.client) && RunsProgram(code, s.calls[act.client], s.now);
    }
  }

  lemma {:induction false} RunsKeepCode<V(!new), R(!new), T(!new)>(code: Code<V, R, T>, acts: seq<Action<T>>)
    ensures CodeInv(code, After(code, acts))
  {
    if acts != [] {
      RunsKeepCode(code, acts[..|acts| - 1]);
      RunsKeepInv(code, acts[..|acts| - 1]);
      StepKeepsCode(code, After(code, acts[..|acts| - 1]), acts[|acts| - 1]);
    }
  }

  // ------------------------------------------------------------------ calls one after another

  /** At some point of the run the first call had finished and the second was not yet made. */
  ghost predicate FinishedBefore<V, R, T>(code: Code<V, R, T>, acts: seq<Action<T>>, first: nat, second: nat) {
    exists n | 0 <= n <= |acts| :: FinishedAt(After(code, acts[..n]), first, second)
  }

  ghost predicate FinishedAt<V, R, T>(s: System<V, R, T>, first: nat, second: nat) {
    first in s.calls && s.calls[first].at.Finished? && second !in s.calls
  }

  /** From then on the first call is as it was, and the second, once made, began later. */
  ghost predicate Ordered<V, R, T>(s: System<V, R, T>, c: Call<V, R, T>, first: nat, second: nat) {
    && first in s.calls && s.calls[first] == c && c.at.Finished? && c.at.at <= |s.log|
    && (second in s.calls ==> c.at.at <= s.calls[second].start)
  }

  lemma StepKeepsOrder<V, R, T>(
    code: Code<V, R, T>, s: System<V, R, T>, act: Action<T>, c: Call<V, R, T>, first: nat, second: nat)
    requires Ordered(s, c, first, second)
    ensures Ordered(Do(code, s, act), c, first, second)
  {
    if act.Advance? && Enabled(s, act) {
      AdvanceKeepsStart(s, act.client, act.clock);
    }
  }

  lemma AdvanceKeepsStart<V, R, T>(s: System<V, R, T>, client: nat, clock: Clock)
    requires client in s.calls
    ensures
      var v := AdvanceCall(s, client, clock);
      && |s.log| <= |v.log| && v.calls.Keys == s.calls.Keys
      && (s.calls[client].at.Finished? ==> v == s)
      && (forall o | o in s.calls && o != client :: v.calls[o] == s.calls[o])
      && v.calls[client].start == s.calls[client].start
  {
    var c := s.calls[client];
    match c.at {
      case Opened =>
        match c.opening { case Straight => case SetNx(_, _, _) => case Peek(_) => }
      case Peeked(seen, _, _) =>
        if c.opening.Peek? { match c.opening.look(seen, s.now) { case Answer(_) => case Enter(_) => } }
      case Got(seen, _, _, _) =>
        match c.body(seen, clock) { case Return(_) => case Commit(_, _) => }
      case _ =>
    }
  }

  lemma {:induction false} RunsKeepOrder<V, R, T>(
    code: Code<V, R, T>, acts: seq<Action<T>>, n: nat, first: nat, second: nat)
    requires n <= |acts| && FinishedAt(After(code, acts[..n]), first, second)
    requires After(code, acts[..n]).calls[first].at.at <= |After(code, acts[..n]).log|
    ensures Ordered(After(code, acts), After(code, acts[..n]).calls[first], first, second)
  {
    if n == |acts| {
      assert acts[..n] == acts;
    } else {
      var before := acts[..|acts| - 1];
      assert before[..n] == acts[..n];
      RunsKeepOrder(code, before, n, first, second);
      StepKeepsOrder(code, After(code, before), acts[|acts| - 1], After(code, acts[..n]).calls[first], first, second);
    }
  }

  /** A call made after another had finished begins no earlier in the history than the moment
      the other took effect. */
  lemma LaterCallsBeginLater<V(!new), R(!new), T(!new)>(
    code: Code<V, R, T>, acts: seq<Action<T>>, first: nat, second: nat)
    requires FinishedBefore(code, acts, first, second) && second in After(code, acts).calls
    ensures
      var s := After(code, acts);
      first in s.calls && s.calls[first].at.Finished? && s.calls[first].at.at <= s.calls[second].start
  {
    var n :| 0 <= n <= |acts| && FinishedAt(After(code, acts[..n]), first, second);
    RunsKeepInv(code, acts[..n]);
    assert CallInv(After(code, acts[..n]), first) && Justified(After(code, acts[..n]), first);
    RunsKeepOrder(code, acts, n, first, second);
  }
}
