/**
 RedisFSMRecordStorage of src/chattice/fsm/record.py as programs of RedisTransactions:
 compare-and-set and the lazy deletion of get_record, each atomic at its EXEC or its GET.
 */
module RedisRecords {
  import opened Options
  import opened Records
  import opened RedisTransactions

  datatype Request = Get | CompareAndSet(expected: int, replacement: Record)

  datatype Reply = Fetched(record: Option<Record>) | Cas(reply: CasReply)

  type State = System<Record, Reply, Request>

  function PutRecord(r: Record, now: real): RedisTransactions.Write<Record> {
    Put(r, match r.expiresAt case Some(e) => Some(Ttl(e - now)) case None => None)
  }

  /** Delete only the exact record that was read; otherwise the newer value wins. */
  function LazyDelete(seen: Record): Body<Record, Reply> {
    (raw: Option<Record>, clock: Clock) =>
      if raw != Some(seen) then Return(Fetched(Visible(raw, clock.first))) else Commit(Delete, Fetched(None))
  }

  function GetProgram(): Program<Record, Reply> {
    Program(
      Peek((raw: Option<Record>, now: real) =>
        if raw.Some? && Expired(raw.value, now) then Enter(LazyDelete(raw.value)) else Answer(Fetched(raw))),
      (raw: Option<Record>, clock: Clock) => Return(Fetched(Visible(raw, clock.first))))
  }

  /** One clock reading each for the expiry check, for updated_at and for the TTL. */
  function CasBody(expected: int, replacement: Record): Body<Record, Reply> {
    (raw: Option<Record>, clock: Clock) =>
      match CasOn(Visible(raw, clock.first), expected, replacement, clock.second)
      case Conflict(found) => Return(Cas(Conflict(found)))
      case Stored(record) => Commit(PutRecord(record, clock.third), Cas(Stored(record)))
  }

  function ProgramOf(r: Request): Program<Record, Reply> {
    match r
    case Get => GetProgram()
    case CompareAndSet(expected, replacement) => Program(Straight, CasBody(expected, replacement))
  }

  function Server(): Code<Record, Reply, Request> {
    (r: Request, now: real) => ProgramOf(r)
  }

  // ------------------------------------------------------------------ each call is atomic

  lemma FinishedCall(acts: seq<Action<Request>>, client: nat)
    requires var s := After(Server(), acts); client in s.calls && s.calls[client].at.Finished?
    ensures
      var s := After(Server(), acts);
      Justified(s, client) && RunsProgram(Server(), s.calls[client], s.now)
  {
    RunsKeepInv(Server(), acts);
    RunsKeepCode(Server(), acts);
    assert CallInv(After(Server(), acts), client);
  }

  /** Every finished compare_and_set is the atomic one at one point of the history: it compared
      with the record stored there, seen with the first of its clock readings, and it wrote,
      exactly when it succeeded, the replacement stamped with the second over that record, to
      live until its expiry as counted from the third. */
  lemma CompareAndSetIsAtomic(acts: seq<Action<Request>>, client: nat)
    requires
      var s := After(Server(), acts);
      client in s.calls && s.calls[client].at.Finished? && s.calls[client].tag.CompareAndSet?
    ensures
      var s := After(Server(), acts);
      var c, f := s.calls[client], s.calls[client].at;
      && c.start <= f.at <= |s.log| && Between(f.clock, c.since, s.now)
      && var raw := At(s.log[..f.at], c.key);
         && f.reply == Cas(CasOn(Visible(raw, f.clock.first), c.tag.expected, c.tag.replacement, f.clock.second))
         && (f.wrote <==> f.reply.reply.Stored?)
         && (f.wrote ==>
               && f.at < |s.log| && f.clock.third <= f.read
               && s.log[f.at] == Wrote(client, c.tag, c.key, PutRecord(f.reply.reply.record, f.clock.third), f.read))
  {
    FinishedCall(acts, client);
  }

  /** get_record answers with the record visible at one point of the history; when it deletes,
      what it deletes had expired, so a record written meanwhile is never destroyed. */
  lemma GetRecordIsAtomic(acts: seq<Action<Request>>, client: nat)
    requires
      var s := After(Server(), acts);
      client in s.calls && s.calls[client].at.Finished? && s.calls[client].tag.Get?
    ensures
      var s := After(Server(), acts);
      var c, f := s.calls[client], s.calls[client].at;
      && c.start <= f.at <= |s.log| && Between(f.clock, c.since, s.now)
      && var raw := At(s.log[..f.at], c.key);
         && f.reply == Fetched(Visible(raw, f.clock.first))
         && (f.wrote ==>
               && f.at < |s.log| && s.log[f.at] == Wrote(client, c.tag, c.key, Delete, f.read)
               && raw.Some? && Expired(raw.value, f.clock.first) && Expired(raw.value, f.read))
  {
    FinishedCall(acts, client);
    var s := After(Server(), acts);
    var c, f := s.calls[client], s.calls[client].at;
    if f.origin == ByBody && c.body != GetProgram().body {
      var earlier, t :| c.since <= t <= f.clock.first && c.opening.look(earlier, t) == Enter(c.body);
      assert c.body == LazyDelete(earlier.value) && Expired(earlier.value, t);
    }
  }

  /** What a change of the history wrote: a stamped replacement, or the deletion of an expired
      record. */
  lemma WritesOfCalls(acts: seq<Action<Request>>, i: nat)
    requires i < |After(Server(), acts).log| && After(Server(), acts).log[i].Wrote?
    ensures
      var s := After(Server(), acts);
      var client := s.log[i].client;
      && client in s.calls && s.calls[client].at.Finished? && s.calls[client].at.wrote && s.calls[client].at.at == i
      && s.calls[client].tag == s.log[i].tag && s.calls[client].key == s.log[i].key
      && s.log[i].now == s.calls[client].at.read
  {
    RunsKeepInv(Server(), acts);
    var s := After(Server(), acts);
    assert Accounted(s, i) && CallInv(s, s.log[i].client);
    assert Justified(s, s.log[i].client);
  }

  lemma PutsAreReplacements(acts: seq<Action<Request>>, i: nat)
    requires
      i < |After(Server(), acts).log| && After(Server(), acts).log[i].Wrote? && After(Server(), acts).log[i].write.Put?
    ensures
      var e := After(Server(), acts).log[i];
      && e.tag.CompareAndSet? && e.write.value.revision == e.tag.expected + 1
      && (e.tag.expected == 0 || e.tag.expected == RevisionOf(At(After(Server(), acts).log[..i], e.key)))
      && exists now | now <= e.now :: e.write == PutRecord(e.write.value, now)
  {
    WritesOfCalls(acts, i);
    var s := After(Server(), acts);
    var client := s.log[i].client;
    if s.calls[client].tag.Get? {
      GetRecordIsAtomic(acts, client);
      assert false;
    } else {
      CompareAndSetIsAtomic(acts, client);
      assert s.log[i].write == PutRecord(s.log[i].write.value, s.calls[client].at.clock.third);
    }
  }

  /** The server by itself drops only records that are within a millisecond of their expiry. */
  lemma DropsOnlyExpired(acts: seq<Action<Request>>, i: nat)
    requires i < |After(Server(), acts).log| && After(Server(), acts).log[i].Dropped?
    ensures
      var log := After(Server(), acts).log;
      var gone := At(log[..i], log[i].key);
      gone.Some? && Expired(gone.value, log[i].now + 0.001)
  {
    var j := DropsFollowTtls(Server(), acts, i);
    PutsAreReplacements(acts, j);
  }

  lemma TtlsFollow(seconds: real)
    ensures seconds - 0.001 < Ttl(seconds) && (Ttl(seconds) <= seconds || Ttl(seconds) == 0.001)
  {
  }

  /** The server keeps a record without an expiry for good, and any other no longer than the time
      its writer saw left at the clock reading for the TTL, counted from the EXEC: short of it by
      less than a millisecond, and one millisecond at the least. */
  lemma DeadlinesFollowExpiries(acts: seq<Action<Request>>, key: Key) returns (j: nat, read: real)
    requires key in After(Server(), acts).entries
    ensures
      var s := After(Server(), acts);
      var e := s.entries[key];
      && j < |s.log| && read <= s.log[j].now <= s.now && LastWrite(s.log, j, key)
      && (e.value.expiresAt == None <==> e.deadline == None)
      && (e.value.expiresAt.Some? ==>
            var left, lives := e.value.expiresAt.value - read, e.deadline.value - s.log[j].now;
            left - 0.001 < lives && (lives <= left || lives == 0.001))
  {
    RunsKeepInv(Server(), acts);
    var s := After(Server(), acts);
    j := WriterOf(s.log, key);
    PutsAreReplacements(acts, j);
    read :| read <= s.log[j].now && s.log[j].write == PutRecord(s.log[j].write.value, read);
    if s.entries[key].value.expiresAt.Some? { TtlsFollow(s.entries[key].value.expiresAt.value - read); }
  }

  ghost predicate LastWrite(log: seq<Change<Record, Request>>, j: nat, key: Key) {
    && j < |log| && log[j].Wrote? && log[j].key == key
    && forall i | j < i < |log| :: log[i].key != key
  }

  // ------------------------------------------------------------------ liveness at EXEC

  lemma {:induction false} StoredRevisionsArePositive(acts: seq<Action<Request>>, n: nat, key: Key)
    requires n <= |After(Server(), acts).log|
    ensures var raw := At(After(Server(), acts).log[..n], key); raw.Some? ==> raw.value.revision >= 1
  {
    var log := After(Server(), acts).log;
    if At(log[..n], key).Some? {
      var j := WriterOf(log[..n], key);
      assert log[j] == log[..n][j];
      PutsAreReplacements(acts, j);
      StoredRevisionsArePositive(acts, j, key);
    }
  }

  /** A successful compare_and_set finds the expected revision live at its EXEC exactly when
      the record it compared with has not expired between its first clock reading and the
      EXEC; so always, when that record carries no expiry. */
  lemma LiveAtExec(acts: seq<Action<Request>>, client: nat)
    requires
      var s := After(Server(), acts);
      && client in s.calls && s.calls[client].at.Finished? && s.calls[client].tag.CompareAndSet?
      && s.calls[client].at.wrote
    ensures
      var s := After(Server(), acts);
      var c, f := s.calls[client], s.calls[client].at;
      && f.at <= |s.log|
      && var raw := At(s.log[..f.at], c.key);
         && (RevisionOf(Visible(raw, f.read)) == c.tag.expected <==>
               !(raw.Some? && !Expired(raw.value, f.clock.first) && Expired(raw.value, f.read)))
         && (raw == None || raw.value.expiresAt == None ==> RevisionOf(Visible(raw, f.read)) == c.tag.expected)
  {
    CompareAndSetIsAtomic(acts, client);
    var s := After(Server(), acts);
    StoredRevisionsArePositive(acts, s.calls[client].at.at, s.calls[client].key);
  }

  // ------------------------------------------------------------------ a compare_and_set over an expired record

  /** A compare_and_set that nobody disturbs: it decides at once, and its EXEC comes later. */
  function Undisturbed(client: nat, key: Key, tag: Request, now: real, later: real): seq<Action<Request>> {
    var act := Advance(client, Once(now));
    [Invoke(client, key, tag), act, act, act, act, Tick(later), act]
  }

  lemma UndisturbedRuns(acts: seq<Action<Request>>, client: nat, key: Key, tag: Request, now: real, later: real)
    ensures
      var act, code := Advance(client, Once(now)), Server();
      After(code, acts + Undisturbed(client, key, tag, now, later)) ==
        Do(code, Do(code, Do(code, Do(code, Do(code, Do(code, Do(code, After(code, acts), Invoke(client, key, tag)),
          act), act), act), act), Tick(later)), act)
  {
    var more, n, code := Undisturbed(client, key, tag, now, later), |acts|, Server();
    var all := acts + more;
    assert all[..n] == acts && all[..n + 7] == all;
    assert forall i | 0 <= i < 7 :: all[n + i] == more[i];
    Unfold(code, all, n);
    Unfold(code, all, n + 1);
    Unfold(code, all, n + 2);
    Unfold(code, all, n + 3);
    Unfold(code, all, n + 4);
    Unfold(code, all, n + 5);
    Unfold(code, all, n + 6);
  }

  lemma WatchingRuns(s: State, client: nat, key: Key, tag: Request)
    requires client !in s.calls && tag.CompareAndSet?
    ensures
      var act, code := Advance(client, Once(s.now)), Server();
      var c := Call(key, tag, Straight, CasBody(tag.expected, tag.replacement), s.now, |s.log|, Opened);
      Do(code, Do(code, Do(code, s, Invoke(client, key, tag)), act), act) ==
        s.(calls := s.calls[client := c.(at := Watched(Version(s.versions, key)))])
  {
    var act, code := Advance(client, Once(s.now)), Server();
    var c := Call(key, tag, Straight, CasBody(tag.expected, tag.replacement), s.now, |s.log|, Opened);
    var begun := Do(code, s, Invoke(client, key, tag));
    assert begun == s.(calls := s.calls[client := c]);
    var looping := Do(code, begun, act);
    assert looping == s.(calls := s.calls[client := c.(at := Looping)]);
  }

  lemma ReadingRuns(s: State, client: nat, expected: int, replacement: Record)
    requires client in s.calls && s.calls[client].at == Watched(Version(s.versions, s.calls[client].key))
    requires s.calls[client].body == CasBody(expected, replacement)
    requires RevisionOf(Visible(RedisTransactions.Stored(s.entries, s.calls[client].key), s.now)) == expected
    ensures
      var c, act, code := s.calls[client], Advance(client, Once(s.now)), Server();
      var raw := RedisTransactions.Stored(s.entries, c.key);
      var record := Stamp(Visible(raw, s.now), replacement, s.now);
      var reply := Cas(CasReply.Stored(record));
      Do(code, Do(code, s, act), act) ==
        s.(calls := s.calls[client :=
          c.(at := Ready(raw, PutRecord(record, s.now), reply, Version(s.versions, c.key), Once(s.now)))])
  {
    var c, act, code := s.calls[client], Advance(client, Once(s.now)), Server();
    var raw := RedisTransactions.Stored(s.entries, c.key);
    var got := Do(code, s, act);
    assert got == s.(calls := s.calls[client := c.(at := Got(raw, Version(s.versions, c.key), |s.log|, s.now))]);
  }

  lemma DecidingRuns(s: State, client: nat, key: Key, expected: int, replacement: Record)
    requires client !in s.calls
    requires RevisionOf(Visible(RedisTransactions.Stored(s.entries, key), s.now)) == expected
    ensures
      var raw := RedisTransactions.Stored(s.entries, key);
      var record := Stamp(Visible(raw, s.now), replacement, s.now);
      var reply := Cas(CasReply.Stored(record));
      var at := Ready(raw, PutRecord(record, s.now), reply, Version(s.versions, key), Once(s.now));
      var tag := CompareAndSet(expected, replacement);
      var act, code := Advance(client, Once(s.now)), Server();
      Do(code, Do(code, Do(code, Do(code, Do(code, s, Invoke(client, key, tag)), act), act), act), act) ==
        s.(calls := s.calls[client := Call(key, tag, Straight, CasBody(expected, replacement), s.now, |s.log|, at)])
  {
    var tag := CompareAndSet(expected, replacement);
    WatchingRuns(s, client, key, tag);
    var c := Call(key, tag, Straight, CasBody(expected, replacement), s.now, |s.log|, Opened);
    var watched := s.(calls := s.calls[client := c.(at := Watched(Version(s.versions, key)))]);
    ReadingRuns(watched, client, expected, replacement);
  }

  lemma ExecRuns(s: State, client: nat, clock: Clock, later: real)
    requires client in s.calls && s.calls[client].at.Ready? && s.now <= later
    requires s.calls[client].at.version == Version(s.versions, s.calls[client].key)
    ensures
      var c := s.calls[client];
      Do(Server(), Do(Server(), s, Tick(later)), Advance(client, clock)) ==
        Happened(s.(now := later), Wrote(client, c.tag, c.key, c.at.write, later))
          .(calls := s.calls[client := c.(at := Finished(c.at.reply, |s.log|, later, c.at.clock, true, ByBody))])
  {
    var ticked := Do(Server(), s, Tick(later));
    assert ticked == s.(now := later);
  }

  lemma UndisturbedWrites(
    acts: seq<Action<Request>>, s: State, client: nat, key: Key, expected: int, replacement: Record, later: real)
    requires s == After(Server(), acts) && client !in s.calls && s.now <= later
    requires RevisionOf(Visible(RedisTransactions.Stored(s.entries, key), s.now)) == expected
    ensures
      var tag := CompareAndSet(expected, replacement);
      var v := After(Server(), acts + Undisturbed(client, key, tag, s.now, later));
      var record := Stamp(Visible(RedisTransactions.Stored(s.entries, key), s.now), replacement, s.now);
      var e := Wrote(client, tag, key, PutRecord(record, s.now), later);
      && v.now == later && v.entries == Changed(s.entries, e) && v.log == s.log + [e]
      && v.calls.Keys == s.calls.Keys + {client}
      && v.calls[client].tag == tag && v.calls[client].key == key
      && v.calls[client].at ==
           Finished(Cas(CasReply.Stored(record)), |s.log|, later, Once(s.now), true, ByBody)
  {
    UndisturbedRuns(acts, client, key, CompareAndSet(expected, replacement), s.now, later);
    DecidingRuns(s, client, key, expected, replacement);
    var tag, act, code := CompareAndSet(expected, replacement), Advance(client, Once(s.now)), Server();
    var ready := Do(code, Do(code, Do(code, Do(code, Do(code, s, Invoke(client, key, tag)), act), act), act), act);
    ExecRuns(ready, client, Once(s.now), later);
  }

  /** The first record, computed at 0 to expire at 1, reaches the server at 0.5 and so stays
      there until 1.5; the second compare_and_set reads it at 0.5 and sends its EXEC at 1. */
  function OverwritingRun(key: Key, first: Record, second: Record): seq<Action<Request>> {
    Undisturbed(0, key, CompareAndSet(0, first), 0.0, 0.5) + Undisturbed(1, key, CompareAndSet(1, second), 0.5, 1.0)
  }

  /** A run in which compare_and_set replaces a record that had expired before its EXEC. */
  lemma ExpiryAtExecIsOverlooked(key: Key, first: Record, second: Record)
    requires first.expiresAt == Some(1.0)
    ensures
      var s := After(Server(), OverwritingRun(key, first, second));
      && 1 in s.calls && s.calls[1].at.Finished? && s.calls[1].at.wrote && s.calls[1].tag == CompareAndSet(1, second)
      && s.calls[1].at.at <= |s.log|
      && RevisionOf(Visible(At(s.log[..s.calls[1].at.at], key), s.calls[1].at.read)) == 0
  {
    var former := Undisturbed(0, key, CompareAndSet(0, first), 0.0, 0.5);
    assert [] + former == former;
    UndisturbedWrites([], Init(), 0, key, 0, first, 0.5);
    var stored, s := Stamp(None, first, 0.0), After(Server(), former);
    assert RedisTransactions.Stored(s.entries, key) == Some(stored);
    UndisturbedWrites(former, s, 1, key, 1, second, 1.0);
    var v := After(Server(), OverwritingRun(key, first, second));
    assert v.log[..1] == s.log;
    RunsKeepInv(Server(), former);
    assert At(v.log[..1], key) == Some(stored);
  }

  // ------------------------------------------------------------------ the lazy deletion

  lemma LookingRuns(s: State, client: nat, key: Key, seen: Record)
    requires client !in s.calls && RedisTransactions.Stored(s.entries, key) == Some(seen) && Expired(seen, s.now)
    ensures
      var act, code, p := Advance(client, Once(s.now)), Server(), GetProgram();
      var c := Call(key, Get, p.opening, LazyDelete(seen), s.now, |s.log|, Looping);
      Do(code, Do(code, Do(code, s, Invoke(client, key, Get)), act), act) == s.(calls := s.calls[client := c])
  {
    var act, code, p := Advance(client, Once(s.now)), Server(), GetProgram();
    var c := Call(key, Get, p.opening, p.body, s.now, |s.log|, Opened);
    var begun := Do(code, s, Invoke(client, key, Get));
    assert begun == s.(calls := s.calls[client := c]);
    var peeked := Do(code, begun, act);
    assert peeked == s.(calls := s.calls[client := c.(at := Peeked(Some(seen), |s.log|, s.now))]);
    assert p.opening.look(Some(seen), s.now) == Enter(LazyDelete(seen));
  }

  lemma DeletingRuns(s: State, client: nat, seen: Record)
    requires client in s.calls && s.calls[client].at == Looping && s.calls[client].body == LazyDelete(seen)
    requires RedisTransactions.Stored(s.entries, s.calls[client].key) == Some(seen)
    ensures
      var act, code, c := Advance(client, Once(s.now)), Server(), s.calls[client];
      var ready := Ready(Some(seen), Delete, Fetched(None), Version(s.versions, c.key), Once(s.now));
      Do(code, Do(code, Do(code, s, act), act), act) == s.(calls := s.calls[client := c.(at := ready)])
  {
    var act, code, c := Advance(client, Once(s.now)), Server(), s.calls[client];
    var version := Version(s.versions, c.key);
    var watched := Do(code, s, act);
    assert watched == s.(calls := s.calls[client := c.(at := Watched(version))]);
    var got := Do(code, watched, act);
    assert got == s.(calls := s.calls[client := c.(at := Got(Some(seen), version, |s.log|, s.now))]);
  }

  /** A get_record that nobody disturbs. */
  function UndisturbedGet(client: nat, key: Key, now: real): seq<Action<Request>> {
    var act := Advance(client, Once(now));
    [Invoke(client, key, Get), act, act, act, act, act, act]
  }

  lemma UndisturbedGetRuns(acts: seq<Action<Request>>, client: nat, key: Key, now: real)
    ensures
      var act, code := Advance(client, Once(now)), Server();
      After(code, acts + UndisturbedGet(client, key, now)) ==
        Do(code, Do(code, Do(code, Do(code, Do(code, Do(code, Do(code, After(code, acts), Invoke(client, key, Get)),
          act), act), act), act), act), act)
  {
    var n, code, more := |acts|, Server(), UndisturbedGet(client, key, now);
    var all := acts + more;
    assert all[..n] == acts && all[..n + 7] == all;
    assert forall i | 0 <= i < 7 :: all[n + i] == more[i];
    Unfold(code, all, n);
    Unfold(code, all, n + 1);
    Unfold(code, all, n + 2);
    Unfold(code, all, n + 3);
    Unfold(code, all, n + 4);
    Unfold(code, all, n + 5);
    Unfold(code, all, n + 6);
  }

  lemma DeletionTakesEffect(s: State, client: nat)
    requires client in s.calls && s.calls[client].at.Ready? && s.calls[client].at.write == Delete
    requires s.calls[client].at.version == Version(s.versions, s.calls[client].key)
    ensures
      var v := Do(Server(), s, Advance(client, Once(s.now)));
      && v.entries == s.entries - {s.calls[client].key}
      && client in v.calls && v.calls[client].at.Finished? && v.calls[client].at.reply == s.calls[client].at.reply
  {
  }

  /** A get_record that nobody disturbs and that meets an expired record answers None and deletes
      it. */
  lemma ExpiredRecordsAreDeleted(acts: seq<Action<Request>>, client: nat, key: Key)
    requires
      var s := After(Server(), acts);
      client !in s.calls && key in s.entries && Expired(s.entries[key].value, s.now)
    ensures
      var s := After(Server(), acts);
      var v := After(Server(), acts + UndisturbedGet(client, key, s.now));
      && v.entries == s.entries - {key}
      && client in v.calls && v.calls[client].at.Finished? && v.calls[client].at.reply == Fetched(None)
  {
    var s := After(Server(), acts);
    var seen := s.entries[key].value;
    UndisturbedGetRuns(acts, client, key, s.now);
    LookingRuns(s, client, key, seen);
    var looping := Call(key, Get, GetProgram().opening, LazyDelete(seen), s.now, |s.log|, Looping);
    var looked := s.(calls := s.calls[client := looping]);
    DeletingRuns(looked, client, seen);
    var ready := Ready(Some(seen), Delete, Fetched(None), Version(s.versions, key), Once(s.now));
    DeletionTakesEffect(looked.(calls := looked.calls[client := looping.(at := ready)]), client);
  }
}
