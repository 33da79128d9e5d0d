/**
 Concurrent updates over the Redis record store of src/chattice/fsm/record.py. An update is one
 get_record and one compare_and_set computed from its answer, each a call of RedisRecords; any
 number of them interleave command by command. While no record of a key carries an expiry, no
 update of that key is lost.
 */
module RedisUpdates {
  import opened Options
  import opened Records
  import opened RedisRecords
  import opened RedisTransactions

  type Log = seq<Change<Record, Request>>

  /** What each compare_and_set call on a key is for, and the get_record call whose answer its
      replacement was computed from. A blind one has no reader. */
  datatype Source = Source(update: Update, reader: nat)

  ghost predicate Computed(s: State, client: nat, from: Source)
    requires client in s.calls && s.calls[client].tag.CompareAndSet?
  {
    var c := s.calls[client];
    match from.update
    case Blind(expected, record) => c.tag == CompareAndSet(expected, record)
    case _ =>
      && from.reader in s.calls
      && var r := s.calls[from.reader];
         && r.key == c.key && r.tag.Get? && r.at.Finished? && r.at.reply.Fetched?
         && c.tag == CompareAndSet(RevisionOf(r.at.reply.record), Replacement(from.update, r.at.reply.record))
  }

  /** Every compare_and_set of the key is one of the planned updates. */
  ghost predicate Follows(s: State, key: Key, plan: map<nat, Source>) {
    forall client | client in s.calls && s.calls[client].key == key && s.calls[client].tag.CompareAndSet? ::
      client in plan && Computed(s, client, plan[client])
  }

  /** No record written to the key carries an expiry. */
  ghost predicate NeverExpires(log: Log, key: Key) {
    forall i | 0 <= i < |log| && log[i].key == key && log[i].Wrote? && log[i].write.Put? ::
      log[i].write.value.expiresAt == None
  }

  ghost function Writes(log: Log, key: Key): nat {
    if log == [] then 0 else
      Writes(log[..|log| - 1], key) + (if log[|log| - 1].key == key then 1 else 0)
  }

  lemma WritesNext(log: Log, n: nat, key: Key)
    requires n < |log|
    ensures Writes(log[..n + 1], key) == Writes(log[..n], key) + if log[n].key == key then 1 else 0
  {
    assert log[..n + 1][..n] == log[..n];
  }

  lemma StoredNeverExpires(acts: seq<Action<Request>>, key: Key, n: nat)
    requires var log := After(Server(), acts).log; n <= |log| && NeverExpires(log, key)
    ensures
      var raw := At(After(Server(), acts).log[..n], key);
      raw.Some? ==> raw.value.expiresAt == None
  {
    var log := After(Server(), acts).log;
    if At(log[..n], key).Some? {
      var j := WriterOf(log[..n], key);
      assert log[j] == log[..n][j];
    }
  }

  /** Without an expiry in play, all that happens to a key is compare_and_set. */
  lemma OnlyReplacements(acts: seq<Action<Request>>, key: Key, i: nat)
    requires
      var log := After(Server(), acts).log;
      i < |log| && log[i].key == key && NeverExpires(log, key)
    ensures
      var e := After(Server(), acts).log[i];
      e.Wrote? && e.write.Put? && e.tag.CompareAndSet?
  {
    var s := After(Server(), acts);
    var log := s.log;
    if log[i].Dropped? {
      var j := DropsFollowTtls(Server(), acts, i);
      PutsAreReplacements(acts, j);
      assert false;
    } else {
      WritesOfCalls(acts, i);
      if s.calls[log[i].client].tag.Get? {
        StoredNeverExpires(acts, key, i);
        GetRecordIsAtomic(acts, log[i].client);
        assert false;
      } else {
        CompareAndSetIsAtomic(acts, log[i].client);
      }
    }
  }

  /** The stored revision counts the writes of the key, so one revision names one record. */
  lemma {:induction false} RevisionsCount(acts: seq<Action<Request>>, key: Key, n: nat)
    requires var log := After(Server(), acts).log; n <= |log| && NeverExpires(log, key)
    ensures
      var log := After(Server(), acts).log;
      && RevisionOf(At(log[..n], key)) == Writes(log[..n], key)
      && (At(log[..n], key) == None <==> Writes(log[..n], key) == 0)
  {
    var s := After(Server(), acts);
    if n == 0 {
      assert s.log[..0] == [];
    } else {
      var m := n - 1;
      RevisionsCount(acts, key, m);
      WritesNext(s.log, m, key);
      ContentsNext(s.log, m);
      if s.log[m].key == key {
        OnlyReplacements(acts, key, m);
        WritesOfCalls(acts, m);
        CompareAndSetIsAtomic(acts, s.log[m].client);
        StoredNeverExpires(acts, key, m);
      }
    }
  }

  lemma {:induction false} WritesGrow(log: Log, key: Key, m: nat, n: nat)
    requires m <= n <= |log|
    ensures Writes(log[..m], key) <= Writes(log[..n], key)
    ensures Writes(log[..m], key) == Writes(log[..n], key) ==> forall i | m <= i < n :: log[i].key != key
  {
    if m < n {
      WritesGrow(log, key, m, n - 1);
      WritesNext(log, n - 1, key);
    }
  }

  lemma {:induction false} Untouched(log: Log, key: Key, m: nat, n: nat)
    requires m <= n <= |log| && forall i | m <= i < n :: log[i].key != key
    ensures At(log[..m], key) == At(log[..n], key)
  {
    if m < n {
      Untouched(log, key, m, n - 1);
      ContentsNext(log, n - 1);
    }
  }

  /** Two moments at which the key has the same revision see the same record. */
  lemma SameRevisionSameRecord(acts: seq<Action<Request>>, key: Key, m: nat, n: nat)
    requires var log := After(Server(), acts).log; m <= |log| && n <= |log| && NeverExpires(log, key)
    requires
      var log := After(Server(), acts).log;
      RevisionOf(At(log[..m], key)) == RevisionOf(At(log[..n], key))
    ensures var log := After(Server(), acts).log; At(log[..m], key) == At(log[..n], key)
  {
    var log := After(Server(), acts).log;
    RevisionsCount(acts, key, m);
    RevisionsCount(acts, key, n);
    if m <= n {
      WritesGrow(log, key, m, n);
      Untouched(log, key, m, n);
    } else {
      WritesGrow(log, key, n, m);
      Untouched(log, key, n, m);
    }
  }

  /** A successful update lands on exactly the record it was computed from. */
  lemma LandsOnWhatItRead(acts: seq<Action<Request>>, key: Key, plan: map<nat, Source>, i: nat)
    requires
      var s := After(Server(), acts);
      && NeverExpires(s.log, key) && Follows(s, key, plan) && i < |s.log| && s.log[i].key == key
    ensures
      var s := After(Server(), acts);
      var e := s.log[i];
      && e.Wrote? && e.write.Put? && e.client in plan && e.write.value.updatedAt.Some?
      && var before := At(s.log[..i], key);
         && e.write.value ==
              Stamp(before, Replacement(plan[e.client].update, before), e.write.value.updatedAt.value)
         && (!plan[e.client].update.Blind? ==>
               && plan[e.client].reader in s.calls && s.calls[plan[e.client].reader].at.Finished?
               && s.calls[plan[e.client].reader].at.reply == Fetched(before))
  {
    var s := After(Server(), acts);
    OnlyReplacements(acts, key, i);
    WritesOfCalls(acts, i);
    var client := s.log[i].client;
    CompareAndSetIsAtomic(acts, client);
    StoredNeverExpires(acts, key, i);
    assert Computed(s, client, plan[client]);
    if !plan[client].update.Blind? {
      var reader := plan[client].reader;
      GetRecordIsAtomic(acts, reader);
      StoredNeverExpires(acts, key, s.calls[reader].at.at);
      SameRevisionSameRecord(acts, key, s.calls[reader].at.at, i);
    }
  }

  /** Whatever expires when, a successful update stores its own change of the record its get_record
      answered with, and keeps everything else of that record, its expiry and schema version
      included. */
  lemma UpdatesKeepTheRest(acts: seq<Action<Request>>, client: nat, from: Source)
    requires
      var s := After(Server(), acts);
      && client in s.calls && s.calls[client].tag.CompareAndSet? && s.calls[client].at.Finished?
      && s.calls[client].at.wrote && Computed(s, client, from)
    ensures
      var s := After(Server(), acts);
      var c := s.calls[client];
      && c.at.at < |s.log| && s.log[c.at.at].Wrote? && s.log[c.at.at].key == c.key && s.log[c.at.at].write.Put?
      && var read := if from.update.Blind? then None else s.calls[from.reader].at.reply.record;
         var after := s.log[c.at.at].write.value;
         && Updates(read, from.update, after)
         && after.revision == c.tag.expected + 1 && after.updatedAt == Some(c.at.clock.second)
  {
    CompareAndSetIsAtomic(acts, client);
    var s := After(Server(), acts);
    var c := s.calls[client];
    var read := if from.update.Blind? then None else s.calls[from.reader].at.reply.record;
    var raw := At(s.log[..c.at.at], c.key);
    StampedUpdates(from.update, read, Visible(raw, c.at.clock.first), c.at.clock.second);
  }

  /** The record left by applying the successful updates of key one after another, each stamped
      with the time its write carries. */
  ghost function Serial(log: Log, key: Key, plan: map<nat, Source>): Option<Record> {
    if log == [] then None else
      var before, e := Serial(log[..|log| - 1], key, plan), log[|log| - 1];
      if e.key == key && e.Wrote? && e.write.Put? && e.client in plan && e.write.value.updatedAt.Some? then
        Some(Stamp(before, Replacement(plan[e.client].update, before), e.write.value.updatedAt.value))
      else before
  }

  lemma {:induction false} PrefixIsSerial(acts: seq<Action<Request>>, key: Key, plan: map<nat, Source>, n: nat)
    requires
      var s := After(Server(), acts);
      n <= |s.log| && NeverExpires(s.log, key) && Follows(s, key, plan)
    ensures
      var log := After(Server(), acts).log;
      At(log[..n], key) == Serial(log[..n], key, plan)
  {
    var log := After(Server(), acts).log;
    if n == 0 {
      assert log[..0] == [];
    } else {
      PrefixIsSerial(acts, key, plan, n - 1);
      ContentsNext(log, n - 1);
      assert log[..n][..n - 1] == log[..n - 1];
      if log[n - 1].key == key {
        LandsOnWhatItRead(acts, key, plan, n - 1);
      }
    }
  }

  /** While no record of the key carries an expiry, concurrent updates over Redis lose nothing:
      the stored record is the fold of all successful updates in the order of their EXECs, each
      applied to the result of the one before, and the revisions are 1, 2, 3, ... */
  lemma NoUpdateIsLost(acts: seq<Action<Request>>, key: Key, plan: map<nat, Source>)
    requires NeverExpires(After(Server(), acts).log, key) && Follows(After(Server(), acts), key, plan)
    ensures
      var s := After(Server(), acts);
      && RedisTransactions.Stored(s.entries, key) == Serial(s.log, key, plan)
      && RevisionOf(Serial(s.log, key, plan)) == Writes(s.log, key)
      && forall i | 0 <= i < |s.log| && s.log[i].key == key ::
           s.log[i].Wrote? && s.log[i].write.Put? && s.log[i].write.value.revision == Writes(s.log[..i], key) + 1
  {
    var s := After(Server(), acts);
    RunsKeepInv(Server(), acts);
    assert s.log[..|s.log|] == s.log;
    PrefixIsSerial(acts, key, plan, |s.log|);
    RevisionsCount(acts, key, |s.log|);
    forall i | 0 <= i < |s.log| && s.log[i].key == key
      ensures s.log[i].Wrote? && s.log[i].write.Put? && s.log[i].write.value.revision == Writes(s.log[..i], key) + 1
    {
      LandsOnWhatItRead(acts, key, plan, i);
      RevisionsCount(acts, key, i);
    }
  }

  ghost predicate Conflicted(s: State, client: nat) {
    && client in s.calls && s.calls[client].at.Finished? && s.calls[client].at.reply.Cas?
    && s.calls[client].at.reply.reply.Conflict?
  }

  /** A compare_and_set computed from the answer of a get_record that finished before it began
      conflicts exactly when the key was written in between. */
  lemma ConflictsArePaidFor(acts: seq<Action<Request>>, key: Key, client: nat, from: Source)
    requires NeverExpires(After(Server(), acts).log, key) && !from.update.Blind?
    requires
      var s := After(Server(), acts);
      && client in s.calls && s.calls[client].key == key && s.calls[client].tag.CompareAndSet?
      && s.calls[client].at.Finished? && Computed(s, client, from)
      && s.calls[from.reader].at.at <= s.calls[client].start
    ensures
      var s := After(Server(), acts);
      var c, r := s.calls[client], s.calls[from.reader];
      && r.at.at <= c.at.at <= |s.log|
      && (Conflicted(s, client) <==> exists i | r.at.at <= i < c.at.at :: s.log[i].key == key)
  {
    var s := After(Server(), acts);
    var c, r := s.calls[client], s.calls[from.reader];
    CompareAndSetIsAtomic(acts, client);
    GetRecordIsAtomic(acts, from.reader);
    StoredNeverExpires(acts, key, c.at.at);
    StoredNeverExpires(acts, key, r.at.at);
    RevisionsCount(acts, key, c.at.at);
    RevisionsCount(acts, key, r.at.at);
    WritesGrow(s.log, key, r.at.at, c.at.at);
    if forall i | r.at.at <= i < c.at.at :: s.log[i].key != key {
      Untouched(s.log, key, r.at.at, c.at.at);
    }
  }

  // ------------------------------------------------------------------ the retry loop of update_data

  /** One turn of the loop: its get_record and the compare_and_set computed from the answer. */
  datatype Round = Round(reader: nat, caster: nat)

  ghost predicate IsRound(acts: seq<Action<Request>>, key: Key, update: Update, round: Round) {
    var s := After(Server(), acts);
    && round.caster in s.calls && s.calls[round.caster].key == key && s.calls[round.caster].tag.CompareAndSet?
    && s.calls[round.caster].at.Finished?
    && Computed(s, round.caster, Source(update, round.reader))
    && FinishedBefore(Server(), acts, round.reader, round.caster)
  }

  /** A call of update_data as far as it has got: each turn but the last conflicted, and the
      next began after that. */
  ghost predicate IsLoop(acts: seq<Action<Request>>, key: Key, update: Update, rounds: seq<Round>) {
    && rounds != [] && (forall i | 0 <= i < |rounds| :: IsRound(acts, key, update, rounds[i]))
    && forall i | 0 < i < |rounds| :: IsRetry(acts, rounds, i)
  }

  ghost predicate IsRetry(acts: seq<Action<Request>>, rounds: seq<Round>, i: nat)
    requires 0 < i < |rounds|
  {
    && Conflicted(After(Server(), acts), rounds[i - 1].caster)
    && FinishedBefore(Server(), acts, rounds[i - 1].caster, rounds[i].reader)
  }

  /** How many turns of the loop have conflicted. */
  ghost function Conflicts(s: State, rounds: seq<Round>): nat {
    if rounds == [] then 0 else
      Conflicts(s, rounds[..|rounds| - 1]) + (if Conflicted(s, rounds[|rounds| - 1].caster) then 1 else 0)
  }

  lemma RoundIsPaidFor(acts: seq<Action<Request>>, key: Key, update: Update, round: Round)
    requires NeverExpires(After(Server(), acts).log, key) && !update.Blind? && IsRound(acts, key, update, round)
    ensures
      var s := After(Server(), acts);
      var c, r := s.calls[round.caster], s.calls[round.reader];
      && r.start <= r.at.at <= c.at.at <= |s.log|
      && Writes(s.log[..r.at.at], key) + (if Conflicted(s, round.caster) then 1 else 0) <= Writes(s.log[..c.at.at], key)
  {
    var s := After(Server(), acts);
    LaterCallsBeginLater(Server(), acts, round.reader, round.caster);
    ConflictsArePaidFor(acts, key, round.caster, Source(update, round.reader));
    FinishedCall(acts, round.reader);
    WritesGrow(s.log, key, s.calls[round.reader].at.at, s.calls[round.caster].at.at);
  }

  lemma LoopBefore(acts: seq<Action<Request>>, key: Key, update: Update, rounds: seq<Round>, n: nat)
    requires IsLoop(acts, key, update, rounds) && 0 < n <= |rounds|
    ensures IsLoop(acts, key, update, rounds[..n])
  {
    forall i | 0 < i < n ensures IsRetry(acts, rounds[..n], i) {
      assert IsRetry(acts, rounds, i);
    }
  }

  /** However often the loop turns, its conflicts are at most the writes of the key from its
      first get_record to its last compare_and_set. */
  lemma {:induction false} ConflictsAreWrites(acts: seq<Action<Request>>, key: Key, update: Update, rounds: seq<Round>)
    requires NeverExpires(After(Server(), acts).log, key) && !update.Blind? && IsLoop(acts, key, update, rounds)
    ensures
      var s := After(Server(), acts);
      var r, c := s.calls[rounds[0].reader], s.calls[rounds[|rounds| - 1].caster];
      && r.start <= c.at.at <= |s.log|
      && Writes(s.log[..r.start], key) + Conflicts(s, rounds) <= Writes(s.log[..c.at.at], key)
  {
    var s, n := After(Server(), acts), |rounds| - 1;
    RoundIsPaidFor(acts, key, update, rounds[n]);
    if n == 0 {
      assert Conflicts(s, rounds[..0]) == 0;
      var r := s.calls[rounds[0].reader];
      WritesGrow(s.log, key, r.start, r.at.at);
    } else {
      LoopBefore(acts, key, update, rounds, n);
      ConflictsAreWrites(acts, key, update, rounds[..n]);
      assert IsRetry(acts, rounds, n);
      LaterCallsBeginLater(Server(), acts, rounds[n - 1].caster, rounds[n].reader);
      WritesGrow(s.log, key, s.calls[rounds[n - 1].caster].at.at, s.calls[rounds[n].reader].at.at);
    }
  }

  /** A write of the key is the success of the one call that finished with it. */
  lemma WriterSucceeded(acts: seq<Action<Request>>, key: Key, i: nat)
    requires var log := After(Server(), acts).log; NeverExpires(log, key) && i < |log| && log[i].key == key
    ensures
      var s := After(Server(), acts);
      && s.log[i].Wrote? && s.log[i].client in s.calls && !Conflicted(s, s.log[i].client)
      && s.calls[s.log[i].client].at.Finished? && s.calls[s.log[i].client].at.at == i
  {
    OnlyReplacements(acts, key, i);
    WritesOfCalls(acts, i);
    CompareAndSetIsAtomic(acts, After(Server(), acts).log[i].client);
  }

  /** No call of the loop writes before its last turn ends. */
  lemma OthersWrote(acts: seq<Action<Request>>, key: Key, rounds: seq<Round>, i: nat, j: nat)
    requires var log := After(Server(), acts).log; NeverExpires(log, key) && i < |log| && log[i].key == key
    requires j < |rounds| && (j < |rounds| - 1 ==> IsRetry(acts, rounds, j + 1))
    requires
      var s := After(Server(), acts);
      var last := rounds[|rounds| - 1].caster;
      last in s.calls && s.calls[last].at.Finished? && i < s.calls[last].at.at
    ensures After(Server(), acts).log[i].Wrote? && After(Server(), acts).log[i].client != rounds[j].caster
  {
    WriterSucceeded(acts, key, i);
  }

  /** update_data gives up after no conflict, and over Redis and without expiry it pays for each
      with another writer's success: from its first get_record to its last compare_and_set, the
      key was written at least as often as the loop conflicted, and by others only. */
  lemma RetriesAreBounded(acts: seq<Action<Request>>, key: Key, update: Update, rounds: seq<Round>)
    requires NeverExpires(After(Server(), acts).log, key) && !update.Blind? && IsLoop(acts, key, update, rounds)
    ensures
      var s := After(Server(), acts);
      var r, c := s.calls[rounds[0].reader], s.calls[rounds[|rounds| - 1].caster];
      && r.start <= c.at.at <= |s.log|
      && Conflicts(s, rounds) <= Writes(s.log[..c.at.at], key) - Writes(s.log[..r.start], key)
      && forall i | r.start <= i < c.at.at && s.log[i].key == key ::
           s.log[i].Wrote? && forall j | 0 <= j < |rounds| :: s.log[i].client != rounds[j].caster
  {
    ConflictsAreWrites(acts, key, update, rounds);
    var s := After(Server(), acts);
    var r, c := s.calls[rounds[0].reader], s.calls[rounds[|rounds| - 1].caster];
    forall i | r.start <= i < c.at.at && s.log[i].key == key
      ensures s.log[i].Wrote? && forall j | 0 <= j < |rounds| :: s.log[i].client != rounds[j].caster
    {
      WriterSucceeded(acts, key, i);
      forall j | 0 <= j < |rounds| ensures s.log[i].client != rounds[j].caster {
        OthersWrote(acts, key, rounds, i, j);
      }
    }
  }
}
