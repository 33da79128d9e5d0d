/**
 Every interleaving of record updates over the in-process store: the read and the
 compare-and-set of each update are separate steps, with other writers, expiry and time in
 between. The ghost of the run is the log of successful compare-and-sets.
 */
module RecordRuns {
  import opened Options
  import opened Records

  /** now, stamp: the clock readings of the expiry check and of updated_at.
      base: the write whose record the compare-and-set found live. seen: the write whose record
      the replacement was computed from. Both are positions in the log. */
  datatype Write = Write(
    key: StorageKey, update: Update, seen: Option<nat>, base: Option<nat>, record: Record, now: real, stamp: real)

  datatype Phase =
    | Checking                       // finish() looks before it mutates
    | Reading
    | Writing(expected: int, seen: Option<nat>)
    | Returned(wrote: Option<nat>)   // the position of its write, if it wrote
    | Conflicted                     // FSMRecordConflict surfaced to the caller

  /** fails: conflicts so far. begin: writes to the key before the call. */
  datatype Proc = Proc(key: StorageKey, update: Update, at: Phase, fails: nat, begin: nat)

  datatype World = World(now: real, records: Store, log: seq<Write>, procs: map<nat, Proc>)

  datatype Action =
    | Tick(now: real)
    | Look(key: StorageKey)          // get_record by anyone
    | Begin(pid: nat, key: StorageKey, update: Update)
    | Advance(pid: nat, stamp: real)

  function Init(): World {
    World(0.0, map[], [], map[])
  }

  /** The last write to key. */
  function Last(log: seq<Write>, key: StorageKey): (r: Option<nat>)
    ensures r.Some? ==> r.value < |log| && log[r.value].key == key
    ensures forall i | 0 <= i < |log| && log[i].key == key :: r.Some? && i <= r.value
  {
    if log == [] then None
    else if log[|log| - 1].key == key then Some(|log| - 1)
    else Last(log[..|log| - 1], key)
  }

  function LiveWrite(log: seq<Write>, key: StorageKey, now: real): Option<nat> {
    match Last(log, key)
    case Some(i) => if Expired(log[i].record, now) then None else Some(i)
    case None => None
  }

  function RecordAt(log: seq<Write>, i: Option<nat>): Option<Record> {
    if i.Some? && i.value < |log| then Some(log[i.value].record) else None
  }

  function Writes(log: seq<Write>, key: StorageKey): nat {
    if log == [] then 0 else
      Writes(log[..|log| - 1], key) + (if log[|log| - 1].key == key then 1 else 0)
  }

  predicate IsUpdateData(u: Update) {
    u.Mutate? && u.m.Merge?
  }

  /** Only update_data catches the conflict and reads again. */
  function AfterConflict(p: Proc): Proc {
    p.(at := if IsUpdateData(p.update) then Reading else Conflicted, fails := p.fails + 1)
  }

  function AdvanceProc(w: World, pid: nat, stamp: real): World
    requires pid in w.procs
  {
    var p := w.procs[pid];
    match p.at
    case Checking =>
      w.(records := Prune(w.records, p.key, w.now),
         procs := w.procs[pid := p.(at := if Live(w.records, p.key, w.now) == None then Returned(None) else Reading)])
    case Reading =>
      var seen := Live(w.records, p.key, w.now);
      w.(records := Prune(w.records, p.key, w.now),
         procs := w.procs[pid := p.(at := Writing(RevisionOf(seen), LiveWrite(w.log, p.key, w.now)))])
    case Writing(expected, seen) =>
      var replacement := Replacement(p.update, RecordAt(w.log, seen));
      var records := CasEffect(w.records, p.key, expected, replacement, w.now, stamp);
      (match CasReplyTo(w.records, p.key, expected, replacement, w.now, stamp)
       case Stored(record) =>
         var write := Write(p.key, p.update, seen, LiveWrite(w.log, p.key, w.now), record, w.now, stamp);
         w.(records := records, log := w.log + [write], procs := w.procs[pid := p.(at := Returned(Some(|w.log|)))])
       case Conflict(_) =>
         w.(records := records, procs := w.procs[pid := AfterConflict(p)]))
    case _ => w
  }

  function Start(update: Update): Phase {
    match update
    case Mutate(Finish) => Checking
    case Blind(expected, _) => Writing(expected, None)
    case _ => Reading
  }

  predicate Enabled(w: World, act: Action) {
    match act
    case Tick(now) => w.now <= now
    case Look(_) => true
    case Begin(pid, _, _) => pid !in w.procs
    case Advance(pid, _) => pid in w.procs
  }

  function Do(w: World, act: Action): World {
    if !Enabled(w, act) then w else
      match act
      case Tick(now) => w.(now := now)
      case Look(key) => w.(records := Prune(w.records, key, w.now))
      case Begin(pid, key, update) =>
        w.(procs := w.procs[pid := Proc(key, update, Start(update), 0, Writes(w.log, key))])
      case Advance(pid, stamp) => AdvanceProc(w, pid, stamp)
  }

  function After(acts: seq<Action>): World {
    if acts == [] then Init() else Do(After(acts[..|acts| - 1]), acts[|acts| - 1])
  }

  // ------------------------------------------------------------------ the invariant

  /** The store is the log seen through expiry. */
  ghost predicate StoreInv(w: World) {
    && (forall key | key in w.records ::
          Last(w.log, key).Some? && w.log[Last(w.log, key).value].record == w.records[key])
    && (forall key | key !in w.records && Last(w.log, key).Some? ::
          Expired(w.log[Last(w.log, key).value].record, w.now))
  }

  predicate WriteInv(log: seq<Write>, j: nat)
    requires j < |log|
  {
    var e := log[j];
    && e.base == LiveWrite(log[..j], e.key, e.now)
    && (e.seen.Some? ==> e.seen.value < j && log[e.seen.value].key == e.key)
    && e.record == Stamp(RecordAt(log, e.base), Replacement(e.update, RecordAt(log, e.seen)), e.stamp)
    && (!e.update.Blind? ==> RevisionOf(RecordAt(log, e.seen)) == RevisionOf(RecordAt(log, e.base)))
  }

  predicate LogInv(log: seq<Write>) {
    && (forall j | 0 <= j < |log| :: WriteInv(log, j))
    && (forall j | 0 <= j < |log| :: log[j].record.revision >= 1)
    && (forall i, j | 0 <= i <= j < |log| :: log[i].now <= log[j].now)
  }

  predicate ProcInv(w: World, p: Proc) {
    && p.begin <= Writes(w.log, p.key)
    && (p.at.Writing? && !p.update.Blind? ==>
          && p.at.expected == RevisionOf(RecordAt(w.log, p.at.seen))
          && (p.at.seen.Some? ==> p.at.seen.value < |w.log| && w.log[p.at.seen.value].key == p.key))
    && (p.update.Blind? ==> p.at !in {Checking, Reading} && (p.at.Writing? ==> p.at.seen == None))
    && (p.at.Returned? && p.at.wrote.Some? ==>
          var i := p.at.wrote.value;
          i < |w.log| && w.log[i].key == p.key && w.log[i].update == p.update && p.begin < Writes(w.log, p.key))
  }

  ghost predicate Inv(w: World) {
    && StoreInv(w) && LogInv(w.log)
    && (forall j | 0 <= j < |w.log| :: w.log[j].now <= w.now)
    && forall pid | pid in w.procs :: ProcInv(w, w.procs[pid])
  }

  lemma LastAppend(log: seq<Write>, e: Write, key: StorageKey)
    ensures Last(log + [e], key) == if e.key == key then Some(|log|) else Last(log, key)
    ensures Writes(log + [e], key) == Writes(log, key) + if e.key == key then 1 else 0
  {
    assert (log + [e])[..|log|] == log;
  }

  lemma LiveIsLiveWrite(w: World, key: StorageKey)
    requires StoreInv(w)
    ensures Live(w.records, key, w.now) == RecordAt(w.log, LiveWrite(w.log, key, w.now))
  {
  }

  lemma PruningKeepsStore(w: World, key: StorageKey)
    requires StoreInv(w)
    ensures StoreInv(w.(records := Prune(w.records, key, w.now)))
  {
  }

  /** What a successful compare-and-set appends. */
  predicate MayAppend(log: seq<Write>, e: Write) {
    && (log != [] ==> log[|log| - 1].now <= e.now)
    && e.base == LiveWrite(log, e.key, e.now)
    && (e.seen.Some? ==> e.seen.value < |log| && log[e.seen.value].key == e.key)
    && e.record == Stamp(RecordAt(log, e.base), Replacement(e.update, RecordAt(log, e.seen)), e.stamp)
    && (!e.update.Blind? ==> RevisionOf(RecordAt(log, e.seen)) == RevisionOf(RecordAt(log, e.base)))
  }

  lemma AppendKeepsLog(log: seq<Write>, e: Write)
    requires LogInv(log) && MayAppend(log, e)
    ensures LogInv(log + [e])
  {
    var longer := log + [e];
    forall j | 0 <= j < |longer| ensures WriteInv(longer, j) {
      if j < |log| {
        assert WriteInv(log, j) && longer[..j] == log[..j];
      } else {
        assert longer[..j] == log;
      }
    }
    assert RevisionOf(RecordAt(log, e.base)) >= 0;
  }

  lemma AppendKeepsStore(w: World, v: World, e: Write)
    requires StoreInv(w)
    requires v.log == w.log + [e] && v.records == w.records[e.key := e.record] && v.now == w.now
    ensures StoreInv(v)
  {
    forall key ensures Last(v.log, key) == if e.key == key then Some(|w.log|) else Last(w.log, key) {
      LastAppend(w.log, e, key);
    }
  }

  lemma AppendKeepsProc(w: World, v: World, e: Write, p: Proc)
    requires ProcInv(w, p) && v.log == w.log + [e]
    ensures ProcInv(v, p)
  {
    LastAppend(w.log, e, p.key);
  }

  lemma StoredCas(w: World, pid: nat, stamp: real)
    requires Inv(w) && pid in w.procs && w.procs[pid].at.Writing?
    requires |AdvanceProc(w, pid, stamp).log| > |w.log|
    ensures
      var p, v := w.procs[pid], AdvanceProc(w, pid, stamp);
      var e := v.log[|w.log|];
      && v.log == w.log + [e] && MayAppend(w.log, e)
      && e.key == p.key && e.update == p.update && v.records == w.records[e.key := e.record]
      && v.procs == w.procs[pid := p.(at := Returned(Some(|w.log|)))] && v.now == w.now == e.now
  {
    assert ProcInv(w, w.procs[pid]);
    LiveIsLiveWrite(w, w.procs[pid].key);
  }

  lemma StoredCasKeepsInv(w: World, v: World, pid: nat, e: Write)
    requires Inv(w) && pid in w.procs && ProcInv(w, w.procs[pid])
    requires MayAppend(w.log, e) && e.key == w.procs[pid].key && e.update == w.procs[pid].update && e.now == w.now
    requires v == World(w.now, w.records[e.key := e.record], w.log + [e],
                        w.procs[pid := w.procs[pid].(at := Returned(Some(|w.log|)))])
    ensures Inv(v)
  {
    AppendKeepsLog(w.log, e);
    AppendKeepsStore(w, v, e);
    forall o | o in v.procs ensures ProcInv(v, v.procs[o]) {
      if o != pid { AppendKeepsProc(w, v, e, w.procs[o]); } else { LastAppend(w.log, e, e.key); }
    }
  }

  lemma CasKeepsInv(w: World, pid: nat, stamp: real)
    requires Inv(w) && pid in w.procs && w.procs[pid].at.Writing?
    ensures Inv(AdvanceProc(w, pid, stamp))
  {
    var p, v := w.procs[pid], AdvanceProc(w, pid, stamp);
    assert ProcInv(w, p);
    if |v.log| > |w.log| {
      StoredCas(w, pid, stamp);
      StoredCasKeepsInv(w, v, pid, v.log[|w.log|]);
    } else {
      PruningKeepsStore(w, p.key);
      assert ProcInv(v, v.procs[pid]);
      QuietStep(w, v, pid);
    }
  }

  /** A step that leaves the log alone. */
  lemma QuietStep(w: World, v: World, pid: nat)
    requires Inv(w) && v.log == w.log && w.now <= v.now && StoreInv(v)
    requires forall o | o in v.procs && o != pid :: o in w.procs && v.procs[o] == w.procs[o]
    requires pid in v.procs ==> ProcInv(v, v.procs[pid])
    ensures Inv(v)
  {
    forall o | o in v.procs ensures ProcInv(v, v.procs[o]) {
      if o != pid { assert ProcInv(w, w.procs[o]); }
    }
  }

  lemma AdvanceKeepsInv(w: World, pid: nat, stamp: real)
    requires Inv(w) && pid in w.procs
    ensures Inv(AdvanceProc(w, pid, stamp))
  {
    var p, v := w.procs[pid], AdvanceProc(w, pid, stamp);
    assert ProcInv(w, p);
    if p.at.Writing? {
      CasKeepsInv(w, pid, stamp);
    } else {
      LiveIsLiveWrite(w, p.key);
      PruningKeepsStore(w, p.key);
      assert ProcInv(v, v.procs[pid]);
      QuietStep(w, v, pid);
    }
  }

  lemma TickKeepsInv(w: World, now: real)
    requires Inv(w) && w.now <= now
    ensures Inv(w.(now := now))
  {
    var v := w.(now := now);
    forall o | o in v.procs ensures ProcInv(v, v.procs[o]) { assert ProcInv(w, w.procs[o]); }
  }

  lemma LookKeepsInv(w: World, key: StorageKey)
    requires Inv(w)
    ensures Inv(w.(records := Prune(w.records, key, w.now)))
  {
    var v := w.(records := Prune(w.records, key, w.now));
    PruningKeepsStore(w, key);
    forall o | o in v.procs ensures ProcInv(v, v.procs[o]) { assert ProcInv(w, w.procs[o]); }
  }

  lemma StepKeepsInv(w: World, act: Action)
    requires Inv(w)
    ensures Inv(Do(w, act))
  {
    if Enabled(w, act) {
      var v := Do(w, act);
      match act {
        case Tick(now) => TickKeepsInv(w, now);
        case Look(key) => LookKeepsInv(w, key);
        case Begin(pid, key, update) => QuietStep(w, v, pid);
        case Advance(pid, stamp) => AdvanceKeepsInv(w, pid, stamp);
      }
    }
  }

  lemma {:induction false} RunsKeepInv(acts: seq<Action>)
    ensures Inv(After(acts))
  {
    if acts != [] {
      RunsKeepInv(acts[..|acts| - 1]);
      StepKeepsInv(After(acts[..|acts| - 1]), acts[|acts| - 1]);
    }
  }

  // ------------------------------------------------------------------ no lost update

  /** Some write to key at or after position i has expired by now. */
  predicate ExpiredSince(log: seq<Write>, key: StorageKey, i: nat, now: real) {
    exists k | i <= k < |log| :: log[k].key == key && Expired(log[k].record, now)
  }

  /** Until a record of the key expires, revisions strictly grow, so one revision names one write. */
  lemma {:induction false} RevisionsGrow(log: seq<Write>, key: StorageKey, i: nat, j: nat, now: real)
    requires LogInv(log) && i < j < |log| && log[i].key == key && log[j].key == key && log[j].now <= now
    requires forall k | i <= k < j && log[k].key == key :: !Expired(log[k].record, now)
    ensures log[i].record.revision < log[j].record.revision
    decreases j
  {
    assert WriteInv(log, j);
    var m := Last(log[..j], key);
    assert log[..j][i].key == key;
    assert m.Some? && i <= m.value && !Expired(log[m.value].record, log[j].now);
    if i < m.value {
      RevisionsGrow(log, key, i, m.value, now);
    }
  }

  /** The condition under which write j was made over the write it was computed from. */
  predicate LandsWhereItRead(log: seq<Write>, j: nat)
    requires j < |log|
  {
    var e := log[j];
    match e.seen
    case None => e.base == None
    case Some(i) => i < j && (e.base == e.seen <==> !ExpiredSince(log[..j], e.key, i, e.now))
  }

  lemma WriteLands(log: seq<Write>, j: nat)
    requires LogInv(log) && j < |log| && !log[j].update.Blind?
    ensures LandsWhereItRead(log, j)
  {
    var e, before := log[j], log[..j];
    assert WriteInv(log, j);
    if e.seen.Some? {
      var i := e.seen.value;
      assert before[i].key == e.key;
      var m := Last(before, e.key).value;
      if e.base == e.seen {
        forall k | i <= k < |before| && before[k].key == e.key ensures !Expired(before[k].record, e.now) {
          assert k <= m == i;
        }
      } else if !ExpiredSince(before, e.key, i, e.now) {
        assert e.base == Some(m) && i < m && log[m] == before[m];
        forall k | i <= k < m && log[k].key == e.key ensures !Expired(log[k].record, e.now) {
          assert log[k] == before[k];
        }
        RevisionsGrow(log, e.key, i, m, e.now);
      }
    }
  }

  /** A successful compare-and-set lands on the very write its replacement was computed from
      exactly when no record of the key, from that write on, had expired by then. An update
      that had read nothing lands on nothing. */
  lemma LandsOnWhatItRead(acts: seq<Action>, j: nat)
    requires j < |After(acts).log| && !After(acts).log[j].update.Blind?
    ensures LandsWhereItRead(After(acts).log, j)
  {
    RunsKeepInv(acts);
    WriteLands(After(acts).log, j);
  }

  lemma Unfold(acts: seq<Action>, n: nat)
    requires n < |acts|
    ensures After(acts[..n + 1]) == Do(After(acts[..n]), acts[n])
  {
    assert acts[..n + 1][..n] == acts[..n];
  }

  function ShortLived(a: Data): Record {
    Record(None, a, 0, None, Some(1.0), 0)
  }

  /** Writer 1 reads revision 1 of a record that then expires; writer 2 starts the key over at
      revision 1; writer 1's compare-and-set matches that revision. */
  function LosingRun(key: StorageKey, a: Data, b: Data): seq<Action> {
    [Begin(0, key, Replace(ShortLived(a))), Advance(0, 0.0), Advance(0, 0.0),
     Begin(1, key, Mutate(SetState(Some("x")))), Advance(1, 0.0), Tick(2.0),
     Begin(2, key, Mutate(SetData(b))), Advance(2, 2.0), Advance(2, 2.0), Advance(1, 2.0)]
  }

  function FirstWrite(key: StorageKey, a: Data): Write {
    Write(key, Replace(ShortLived(a)), None, None, ShortLived(a).(revision := 1, updatedAt := Some(0.0)), 0.0, 0.0)
  }

  function SecondWrite(key: StorageKey, b: Data): Write {
    Write(key, Mutate(SetData(b)), None, None, Record(None, b, 1, Some(2.0), None, 0), 2.0, 2.0)
  }

  lemma LosingRunStart(key: StorageKey, a: Data, b: Data)
    ensures
      var w := After(LosingRun(key, a, b)[..3]);
      && w.now == 0.0 && w.log == [FirstWrite(key, a)] && w.records == map[key := FirstWrite(key, a).record]
      && w.procs.Keys == {0}
  {
    var acts := LosingRun(key, a, b);
    assert acts[..0] == [];
    Unfold(acts, 0);
    Unfold(acts, 1);
    assert After(acts[..2]).procs[0].at == Writing(0, None);
    Unfold(acts, 2);
  }

  lemma LosingRunBegin(key: StorageKey, a: Data, b: Data)
    ensures
      var w := After(LosingRun(key, a, b)[..4]);
      && w.now == 0.0 && w.log == [FirstWrite(key, a)] && w.records == map[key := FirstWrite(key, a).record]
      && w.procs.Keys == {0, 1} && w.procs[1] == Proc(key, Mutate(SetState(Some("x"))), Reading, 0, 1)
  {
    LosingRunStart(key, a, b);
    Unfold(LosingRun(key, a, b), 3);
    OneWrite(FirstWrite(key, a));
  }

  lemma ReadingTheFirst(w: World, key: StorageKey, a: Data)
    requires w.now == 0.0 && w.log == [FirstWrite(key, a)] && w.records == map[key := FirstWrite(key, a).record]
    requires 1 in w.procs && w.procs[1] == Proc(key, Mutate(SetState(Some("x"))), Reading, 0, 1)
    ensures
      Do(w, Advance(1, 0.0))
        == w.(procs := w.procs[1 := Proc(key, Mutate(SetState(Some("x"))), Writing(1, Some(0)), 0, 1)])
  {
    ReadsTheFirst(w, key, a);
  }

  lemma LosingRunRead(key: StorageKey, a: Data, b: Data)
    ensures
      var w := After(LosingRun(key, a, b)[..6]);
      && w.now == 2.0 && w.log == [FirstWrite(key, a)] && w.records == map[key := FirstWrite(key, a).record]
      && w.procs.Keys == {0, 1} && w.procs[1] == Proc(key, Mutate(SetState(Some("x"))), Writing(1, Some(0)), 0, 1)
  {
    LosingRunBegin(key, a, b);
    Unfold(LosingRun(key, a, b), 4);
    ReadingTheFirst(After(LosingRun(key, a, b)[..4]), key, a);
    Unfold(LosingRun(key, a, b), 5);
  }

  lemma OneWrite(e: Write)
    ensures Writes([e], e.key) == 1
  {
    LastAppend([], e, e.key);
    assert [] + [e] == [e];
  }

  lemma ReadsTheFirst(w: World, key: StorageKey, a: Data)
    requires w.now == 0.0 && w.log == [FirstWrite(key, a)] && w.records == map[key := FirstWrite(key, a).record]
    ensures Live(w.records, key, w.now) == Some(FirstWrite(key, a).record) && Prune(w.records, key, w.now) == w.records
    ensures LiveWrite(w.log, key, w.now) == Some(0)
  {
  }

  lemma LosingRunSecond(key: StorageKey, a: Data, b: Data)
    ensures
      var w := After(LosingRun(key, a, b)[..7]);
      && w.now == 2.0 && w.log == [FirstWrite(key, a)] && w.records == map[key := FirstWrite(key, a).record]
      && w.procs.Keys == {0, 1, 2} && w.procs[1] == Proc(key, Mutate(SetState(Some("x"))), Writing(1, Some(0)), 0, 1)
      && w.procs[2].key == key && w.procs[2].update == Mutate(SetData(b)) && w.procs[2].at == Reading
  {
    LosingRunRead(key, a, b);
    Unfold(LosingRun(key, a, b), 6);
  }

  lemma RestartingTheKey(w: World, key: StorageKey, a: Data, b: Data)
    requires w.now == 2.0 && w.log == [FirstWrite(key, a)] && w.records == map[key := FirstWrite(key, a).record]
    requires 2 in w.procs && w.procs[2].key == key && w.procs[2].update == Mutate(SetData(b))
      && w.procs[2].at == Reading
    ensures
      var v := Do(Do(w, Advance(2, 2.0)), Advance(2, 2.0));
      && v.now == 2.0 && v.log == [FirstWrite(key, a), SecondWrite(key, b)]
      && v.records == map[key := SecondWrite(key, b).record]
      && forall pid | pid in w.procs && pid != 2 :: pid in v.procs && v.procs[pid] == w.procs[pid]
  {
    assert LiveWrite([FirstWrite(key, a)], key, 2.0) == None;
    var read := Do(w, Advance(2, 2.0));
    assert read.procs[2].at == Writing(0, None) && read.records == map[] && read.log == w.log;
  }

  lemma LosingRunRestart(key: StorageKey, a: Data, b: Data)
    ensures
      var w := After(LosingRun(key, a, b)[..9]);
      && w.now == 2.0 && w.log == [FirstWrite(key, a), SecondWrite(key, b)]
      && w.records == map[key := SecondWrite(key, b).record]
      && 1 in w.procs && w.procs[1] == Proc(key, Mutate(SetState(Some("x"))), Writing(1, Some(0)), 0, 1)
  {
    LosingRunSecond(key, a, b);
    RestartingTheKey(After(LosingRun(key, a, b)[..7]), key, a, b);
    RestartIsNext(key, a, b);
  }

  lemma RestartIsNext(key: StorageKey, a: Data, b: Data)
    ensures
      After(LosingRun(key, a, b)[..9])
        == Do(Do(After(LosingRun(key, a, b)[..7]), Advance(2, 2.0)), Advance(2, 2.0))
  {
    var acts := LosingRun(key, a, b);
    TwoMore(acts, 7);
    assert acts[7] == Advance(2, 2.0) && acts[8] == Advance(2, 2.0);
  }

  lemma TwoMore(acts: seq<Action>, n: nat)
    requires n + 1 < |acts|
    ensures After(acts[..n + 2]) == Do(Do(After(acts[..n]), acts[n]), acts[n + 1])
  {
    Unfold(acts, n);
    Unfold(acts, n + 1);
  }

  /** A run that shows the condition matters: writer 1 lands on writer 2's record and wipes out
      the data writer 2 stored. */
  lemma ExpiryCanLoseAnUpdate(key: StorageKey, a: Data, b: Data)
    ensures
      var w := After(LosingRun(key, a, b));
      && |w.log| == 3 && w.log[1] == SecondWrite(key, b) && w.log[2].seen == Some(0) && w.log[2].base == Some(1)
      && w.log[1].record.data == b && w.log[2].record.data == a && key in w.records && w.records[key] == w.log[2].record
  {
    var acts := LosingRun(key, a, b);
    LosingRunRestart(key, a, b);
    assert acts[..10] == acts;
    assert LiveWrite([FirstWrite(key, a), SecondWrite(key, b)], key, 2.0) == Some(1);
    Unfold(acts, 9);
  }

  predicate NeverExpires(log: seq<Write>, key: StorageKey) {
    forall i | 0 <= i < |log| && log[i].key == key :: log[i].record.expiresAt == None
  }

  /** The record left by applying the successful updates of key one after another. */
  function Serial(log: seq<Write>, key: StorageKey): Option<Record> {
    if log == [] then None else
      var before, e := Serial(log[..|log| - 1], key), log[|log| - 1];
      if e.key == key then Some(Stamp(before, Replacement(e.update, before), e.stamp)) else before
  }

  lemma SerialWrite(log: seq<Write>, key: StorageKey, j: nat)
    requires LogInv(log) && NeverExpires(log, key) && j < |log| && log[j].key == key
    requires Serial(log[..j], key) == RecordAt(log[..j], Last(log[..j], key))
    ensures
      var before := Serial(log[..j], key);
      log[j].record == Stamp(before, Replacement(log[j].update, before), log[j].stamp)
  {
    var e, before := log[j], log[..j];
    assert WriteInv(log, j);
    if Last(before, key).Some? {
      assert before[Last(before, key).value] == log[Last(before, key).value];
    }
    assert RecordAt(log, e.base) == Serial(before, key);
    if !e.update.Blind? {
      WriteLands(log, j);
      if e.seen.Some? {
        forall k | e.seen.value <= k < |before| && before[k].key == key ensures !Expired(before[k].record, e.now) {
          assert before[k] == log[k];
        }
      }
    }
  }

  lemma SerialAppend(log: seq<Write>, e: Write, key: StorageKey)
    ensures Serial(log + [e], key) ==
      (var before := Serial(log, key);
       if e.key == key then Some(Stamp(before, Replacement(e.update, before), e.stamp)) else before)
    ensures RecordAt(log + [e], Last(log + [e], key)) ==
      if e.key == key then Some(e.record) else RecordAt(log, Last(log, key))
  {
    assert (log + [e])[..|log|] == log;
  }

  lemma {:induction false} PrefixIsSerial(log: seq<Write>, key: StorageKey, n: nat)
    requires LogInv(log) && n <= |log| && NeverExpires(log, key)
    ensures Serial(log[..n], key) == RecordAt(log[..n], Last(log[..n], key))
    ensures RevisionOf(Serial(log[..n], key)) == Writes(log[..n], key)
  {
    if n > 0 {
      PrefixIsSerial(log, key, n - 1);
      var before, e := log[..n - 1], log[n - 1];
      assert log[..n] == before + [e];
      LastAppend(before, e, key);
      SerialAppend(before, e, key);
      if e.key == key {
        SerialWrite(log, key, n - 1);
      }
    }
  }

  /** While no record of the key carries an expiry, concurrent updates lose nothing: the stored
      record is the fold of all successful updates in order, each applied to the result of the
      one before, and the revisions are 1, 2, 3, ... */
  lemma NoUpdateIsLost(acts: seq<Action>, key: StorageKey)
    requires NeverExpires(After(acts).log, key)
    ensures
      var w := After(acts);
      && Live(w.records, key, w.now) == Serial(w.log, key)
      && RevisionOf(Serial(w.log, key)) == Writes(w.log, key)
      && forall j | 0 <= j < |w.log| && w.log[j].key == key :: w.log[j].record.revision == Writes(w.log[..j], key) + 1
  {
    RunsKeepInv(acts);
    var w := After(acts);
    assert w.log[..|w.log|] == w.log;
    PrefixIsSerial(w.log, key, |w.log|);
    LiveIsLiveWrite(w, key);
    forall j | 0 <= j < |w.log| && w.log[j].key == key ensures w.log[j].record.revision == Writes(w.log[..j], key) + 1 {
      PrefixIsSerial(w.log, key, j + 1);
      assert w.log[..j + 1] == w.log[..j] + [w.log[j]];
      LastAppend(w.log[..j], w.log[j], key);
    }
  }

  /** What every successful update stored: its own change of the record it had read, everything
      else of that record kept, one revision on from the record it landed on. */
  lemma UpdatesKeepTheRest(acts: seq<Action>, j: nat)
    requires j < |After(acts).log|
    ensures
      var e, log := After(acts).log[j], After(acts).log;
      && Updates(RecordAt(log, e.seen), e.update, e.record)
      && e.record.revision == RevisionOf(RecordAt(log, e.base)) + 1 && e.record.updatedAt == Some(e.stamp)
  {
    RunsKeepInv(acts);
    var e, log := After(acts).log[j], After(acts).log;
    assert WriteInv(log, j);
    StampedUpdates(e.update, RecordAt(log, e.seen), RecordAt(log, e.base), e.stamp);
  }

  // ------------------------------------------------------------------ how updates end

  /** update_data never lets a conflict out, every other update lets out its first; and only a
      finish may return without having written. */
  predicate Surfaces(p: Proc) {
    && (IsUpdateData(p.update) ==> p.at != Conflicted)
    && (!IsUpdateData(p.update) ==> p.fails == if p.at == Conflicted then 1 else 0)
    && (p.at == Returned(None) || p.at == Checking ==> p.update == Mutate(Finish))
  }

  lemma {:induction false} ConflictsSurface(acts: seq<Action>, pid: nat)
    requires pid in After(acts).procs
    ensures Surfaces(After(acts).procs[pid])
  {
    if acts != [] {
      var before, act := acts[..|acts| - 1], acts[|acts| - 1];
      if pid in After(before).procs { ConflictsSurface(before, pid); }
      if act.Advance? && act.pid in After(before).procs {
        ConflictsSurface(before, act.pid);
        AdvanceSurfaces(After(before), act.pid, act.stamp);
      }
    }
  }

  lemma AdvanceSurfaces(w: World, pid: nat, stamp: real)
    requires pid in w.procs && Surfaces(w.procs[pid])
    ensures pid in AdvanceProc(w, pid, stamp).procs && Surfaces(AdvanceProc(w, pid, stamp).procs[pid])
    ensures forall o | o in w.procs && o != pid ::
      o in AdvanceProc(w, pid, stamp).procs && AdvanceProc(w, pid, stamp).procs[o] == w.procs[o]
    ensures AdvanceProc(w, pid, stamp).procs.Keys == w.procs.Keys
  {
  }

  /** The update has ended. */
  predicate Done(at: Phase) {
    at.Returned? || at == Conflicted
  }

  /** The compare-and-set about to be made will find the revision it expects. */
  predicate WillLand(w: World, p: Proc) {
    p.at.Writing? ==> p.at.expected == RevisionOf(Live(w.records, p.key, w.now))
  }

  /** A finish that has yet to look finds no record. */
  predicate HasNothingToFinish(w: World, p: Proc) {
    p.at == Checking && Live(w.records, p.key, w.now) == None
  }

  /** How many more steps an update needs when it is alone. */
  function StepsLeft(w: World, p: Proc): nat {
    match p.at
    case Checking => 3
    case Reading => 2
    case Writing(_, _) => if IsUpdateData(p.update) && !WillLand(w, p) then 3 else 1
    case _ => 0
  }

  lemma AloneItGoesOn(w: World, pid: nat, stamp: real)
    requires pid in w.procs && !Done(w.procs[pid].at)
    ensures
      var v := Do(w, Advance(pid, stamp));
      && pid in v.procs && v.procs[pid].key == w.procs[pid].key && v.procs[pid].update == w.procs[pid].update
      && v.now == w.now && StepsLeft(v, v.procs[pid]) < StepsLeft(w, w.procs[pid]) && WillLand(v, v.procs[pid])
      && (WillLand(w, w.procs[pid]) ==> v.procs[pid].at != Conflicted)
      && (Done(v.procs[pid].at) && v.procs[pid].at.Returned? ==>
            (v.procs[pid].at.wrote == None <==> HasNothingToFinish(w, w.procs[pid])))
      && (!Done(v.procs[pid].at) ==> !HasNothingToFinish(w, w.procs[pid]) && v.procs[pid].at != Checking)
  {
  }

  /** From any state of any run, an update ends within three steps of its own if nobody else takes
      one; and it succeeds, if it has yet to read, or is an update_data, or has read what is still
      there. It has then written, but for a finish that finds no record. */
  lemma {:induction false} UndisturbedUpdatesEnd(acts: seq<Action>, pid: nat, stamp: real) returns (more: seq<Action>)
    requires pid in After(acts).procs
    ensures |more| <= StepsLeft(After(acts), After(acts).procs[pid]) <= 3
    ensures forall i | 0 <= i < |more| :: more[i] == Advance(pid, stamp)
    ensures
      var w, v := After(acts), After(acts + more);
      && pid in v.procs && Done(v.procs[pid].at)
      && (WillLand(w, w.procs[pid]) && !Done(w.procs[pid].at) ==> v.procs[pid].at.Returned?)
      && (IsUpdateData(w.procs[pid].update) ==> v.procs[pid].at.Returned? && v.procs[pid].at.wrote.Some?)
      && (!Done(w.procs[pid].at) && v.procs[pid].at.Returned? ==>
            (v.procs[pid].at.wrote == None <==> HasNothingToFinish(w, w.procs[pid])))
    decreases StepsLeft(After(acts), After(acts).procs[pid])
  {
    var w := After(acts);
    ConflictsSurface(acts, pid);
    if Done(w.procs[pid].at) {
      more := [];
      assert acts + more == acts;
    } else {
      var act := Advance(pid, stamp);
      AloneItGoesOn(w, pid, stamp);
      assert (acts + [act])[..|acts|] == acts;
      var rest := UndisturbedUpdatesEnd(acts + [act], pid, stamp);
      more := [act] + rest;
      assert acts + more == acts + [act] + rest;
    }
  }

  /** finish of a key without a record returns at its first read and writes nothing. */
  lemma {:induction false} FinishOfNothing(acts: seq<Action>, pid: nat, key: StorageKey, stamp: real)
    requires pid !in After(acts).procs && Live(After(acts).records, key, After(acts).now) == None
    ensures
      var v := After(acts + [Begin(pid, key, Mutate(Finish))] + [Advance(pid, stamp)]);
      && v.log == After(acts).log && pid in v.procs && v.procs[pid].at == Returned(None)
  {
    Extend(acts, Begin(pid, key, Mutate(Finish)));
    Extend(acts + [Begin(pid, key, Mutate(Finish))], Advance(pid, stamp));
    FinishLooks(After(acts), pid, key, stamp);
  }

  lemma FinishLooks(w: World, pid: nat, key: StorageKey, stamp: real)
    requires pid !in w.procs && Live(w.records, key, w.now) == None
    ensures
      var v := Do(Do(w, Begin(pid, key, Mutate(Finish))), Advance(pid, stamp));
      v.log == w.log && pid in v.procs && v.procs[pid].at == Returned(None)
  {
  }

  lemma Extend(acts: seq<Action>, act: Action)
    ensures After(acts + [act]) == Do(After(acts), act)
  {
    assert (acts + [act])[..|acts|] == acts;
  }

  // ------------------------------------------------------------------ the retry bound

  /** The conflicts of an update_data call are bounded by the writes since it began. */
  predicate RetryInv(w: World, p: Proc) {
    IsUpdateData(p.update) ==>
      match p.at
      case Writing(expected, _) => p.begin + p.fails <= expected <= Writes(w.log, p.key)
      case Returned(Some(_)) => p.begin + p.fails + 1 <= Writes(w.log, p.key)
      case _ => p.begin + p.fails <= Writes(w.log, p.key)
  }

  lemma LiveRevisionCountsWrites(w: World, key: StorageKey)
    requires Inv(w) && NeverExpires(w.log, key)
    ensures RevisionOf(Live(w.records, key, w.now)) == Writes(w.log, key)
  {
    assert w.log[..|w.log|] == w.log;
    PrefixIsSerial(w.log, key, |w.log|);
    LiveIsLiveWrite(w, key);
  }

  lemma OwnStepKeepsRetries(w: World, pid: nat, stamp: real)
    requires Inv(w) && pid in w.procs && NeverExpires(w.log, w.procs[pid].key) && RetryInv(w, w.procs[pid])
    ensures RetryInv(AdvanceProc(w, pid, stamp), AdvanceProc(w, pid, stamp).procs[pid])
  {
    var v := AdvanceProc(w, pid, stamp);
    LiveRevisionCountsWrites(w, w.procs[pid].key);
    assert ProcInv(w, w.procs[pid]);
    if w.procs[pid].at.Writing? && |v.log| > |w.log| {
      StoredCas(w, pid, stamp);
      LastAppend(w.log, v.log[|w.log|], w.procs[pid].key);
    }
  }

  lemma LogGrowsOnlyByCas(w: World, act: Action)
    requires Inv(w)
    ensures Do(w, act).log == w.log || (act.Advance? && act.pid in w.procs && w.procs[act.pid].at.Writing?
              && |Do(w, act).log| > |w.log|)
  {
  }

  lemma OtherStepKeepsRetries(w: World, act: Action, pid: nat)
    requires Inv(w) && pid in w.procs && RetryInv(w, w.procs[pid]) && !(act.Advance? && act.pid == pid)
    ensures pid in Do(w, act).procs && Do(w, act).procs[pid] == w.procs[pid] && RetryInv(Do(w, act), w.procs[pid])
  {
    var v := Do(w, act);
    LogGrowsOnlyByCas(w, act);
    if v.log != w.log {
      StoredCas(w, act.pid, act.stamp);
      LastAppend(w.log, v.log[|w.log|], w.procs[pid].key);
    }
  }

  lemma StepKeepsRetries(w: World, act: Action, key: StorageKey, pid: nat)
    requires Inv(w) && NeverExpires(w.log, key)
    requires pid in w.procs && w.procs[pid].key == key ==> RetryInv(w, w.procs[pid])
    requires pid in Do(w, act).procs && Do(w, act).procs[pid].key == key
    ensures RetryInv(Do(w, act), Do(w, act).procs[pid])
  {
    if pid in w.procs && w.procs[pid].key == key {
      if act.Advance? && act.pid == pid {
        OwnStepKeepsRetries(w, pid, act.stamp);
      } else {
        OtherStepKeepsRetries(w, act, pid);
      }
    }
  }

  lemma {:induction false} RunsKeepRetries(acts: seq<Action>, key: StorageKey, pid: nat)
    requires NeverExpires(After(acts).log, key) && pid in After(acts).procs && After(acts).procs[pid].key == key
    ensures RetryInv(After(acts), After(acts).procs[pid])
  {
    if acts != [] {
      var before, act := acts[..|acts| - 1], acts[|acts| - 1];
      var w, v := After(before), After(acts);
      assert NeverExpires(w.log, key) by {
        assert forall i | 0 <= i < |w.log| :: w.log[i] == v.log[i];
      }
      if pid in w.procs {
        RunsKeepRetries(before, key, pid);
      }
      RunsKeepInv(before);
      StepKeepsRetries(w, act, key, pid);
    }
  }

  /** update_data gives up after no conflict: with no expiry in play, every conflict it meets
      is paid for by another writer's success on its key during the call. */
  lemma RetriesAreBounded(acts: seq<Action>, pid: nat)
    requires
      var w := After(acts);
      pid in w.procs && IsUpdateData(w.procs[pid].update) && NeverExpires(w.log, w.procs[pid].key)
    ensures
      var w := After(acts);
      var p := w.procs[pid];
      var own := if p.at.Returned? && p.at.wrote.Some? then 1 else 0;
      p.fails <= Writes(w.log, p.key) - p.begin - own
  {
    RunsKeepInv(acts);
    RunsKeepRetries(acts, After(acts).procs[pid].key, pid);
    assert ProcInv(After(acts), After(acts).procs[pid]);
  }
}
