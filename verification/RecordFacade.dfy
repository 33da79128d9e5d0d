/**
 BaseStorageFromRecord of src/chattice/fsm/record.py over the in-process record store, and
 MemoryStorage of src/chattice/fsm/storage.py: the same six operations on a versioned record
 with compare-and-set, and on a plain mutable entry. Run by themselves the two cannot be told
 apart.
 */
module RecordFacade {
  import opened Options
  import opened Records

  /** The clock readings of one call, in order. */
  type Clock = nat -> real

  datatype Op = GetState | GetData | Write(m: Mutation)

  datatype Output = State(state: Option<string>) | Contents(data: Data) | Nothing | Raised

  // ------------------------------------------------------------------ the plain store

  datatype Slot = Slot(state: Option<string>, data: Data)

  type Slots = map<StorageKey, Slot>

  function SlotOf(m: Slots, key: StorageKey): Slot {
    if key in m then m[key] else Slot(None, map[])
  }

  function SlotEffect(m: Slots, key: StorageKey, op: Op): Slots {
    match op
    case Write(SetState(state)) =>
      if state == None && key !in m then m else m[key := SlotOf(m, key).(state := state)]
    case Write(SetData(data)) => m[key := SlotOf(m, key).(data := data)]
    case Write(Merge(partial)) => m[key := SlotOf(m, key).(data := SlotOf(m, key).data + partial)]
    case Write(Finish) => m - {key}
    case _ => m
  }

  function SlotOutput(m: Slots, key: StorageKey, op: Op): Output {
    match op
    case GetState => State(SlotOf(m, key).state)
    case GetData => Contents(SlotOf(m, key).data)
    case Write(Merge(partial)) => Contents(SlotOf(m, key).data + partial)
    case _ => Nothing
  }

  /** Entries are made by the first write that has something to store, and removed by finish. */
  lemma EntriesAreMadeOnDemand(m: Slots, key: StorageKey, op: Op, other: StorageKey)
    ensures
      var v := SlotEffect(m, key, op);
      && (other != key || !op.Write? ==> (other in v <==> other in m) && (other in m ==> v[other] == m[other]))
      && (op.Write? ==> (key in v <==> op.m != Mutation.Finish && (key in m || op.m != Mutation.SetState(None))))
  {
  }

  class MemoryStorage {
    var records: map<StorageKey, Slot>

    constructor ()
      ensures records == map[]
    {
      records := map[];
    }

    /** _record: the entry of key, made on demand. */
    method Ensure(key: StorageKey)
      modifies this
      ensures records == old(records)[key := SlotOf(old(records), key)]
    {
      if key !in records {
        records := records[key := Slot(None, map[])];
      }
    }

    method GetState(key: StorageKey) returns (r: Option<string>)
      ensures State(r) == SlotOutput(records, key, Op.GetState)
    {
      return if key in records then records[key].state else None;
    }

    method SetState(key: StorageKey, state: Option<string>)
      modifies this
      ensures records == SlotEffect(old(records), key, Write(Mutation.SetState(state)))
    {
      if state == None && key !in records {
        return;
      }
      Ensure(key);
      records := records[key := records[key].(state := state)];
    }

    method GetData(key: StorageKey) returns (r: Data)
      ensures Contents(r) == SlotOutput(records, key, Op.GetData)
    {
      return if key in records then records[key].data else map[];
    }

    method SetData(key: StorageKey, data: Data)
      modifies this
      ensures records == SlotEffect(old(records), key, Write(Mutation.SetData(data)))
    {
      Ensure(key);
      records := records[key := records[key].(data := data)];
    }

    method UpdateData(key: StorageKey, partial: Data) returns (r: Data)
      modifies this
      ensures records == SlotEffect(old(records), key, Write(Merge(partial)))
      ensures Contents(r) == SlotOutput(old(records), key, Write(Merge(partial)))
    {
      Ensure(key);
      records := records[key := records[key].(data := records[key].data + partial)];
      return records[key].data;
    }

    method Finish(key: StorageKey)
      modifies this
      ensures records == SlotEffect(old(records), key, Write(Mutation.Finish))
    {
      records := records - {key};
    }
  }

  // ------------------------------------------------------------------ the facade

  /** One read and compare-and-set with clock readings i, i + 1 and i + 2: the reply and the
      store. */
  function Mutated(s: Store, key: StorageKey, m: Mutation, clock: Clock, i: nat): (CasReply, Store) {
    var seen, pruned := Live(s, key, clock(i)), Prune(s, key, clock(i));
    var replacement := Replacement(Mutate(m), seen);
    (CasReplyTo(pruned, key, RevisionOf(seen), replacement, clock(i + 1), clock(i + 2)),
     CasEffect(pruned, key, RevisionOf(seen), replacement, clock(i + 1), clock(i + 2)))
  }

  /** The whole effect of one facade call: its output and the record store after it. With no
      other writer, update_data conflicts at most once: when the record expires under it. */
  function FacadeCall(s: Store, key: StorageKey, op: Op, clock: Clock): (Output, Store) {
    match op
    case GetState =>
      var r := Live(s, key, clock(0));
      (State(if r.Some? then r.value.state else None), Prune(s, key, clock(0)))
    case GetData =>
      var r := Live(s, key, clock(0));
      (Contents(if r.Some? then r.value.data else map[]), Prune(s, key, clock(0)))
    case Write(Merge(partial)) =>
      var first := Mutated(s, key, Merge(partial), clock, 0);
      var last := if first.0.Stored? then first else Mutated(first.1, key, Merge(partial), clock, 3);
      (if last.0.Stored? then Contents(last.0.record.data) else Raised, last.1)
    case Write(Finish) =>
      if Live(s, key, clock(0)) == None then (Nothing, Prune(s, key, clock(0)))
      else
        var last := Mutated(Prune(s, key, clock(0)), key, Mutation.Finish, clock, 1);
        (if last.0.Stored? then Nothing else Raised, last.1)
    case Write(m) =>
      var last := Mutated(s, key, m, clock, 0);
      (if last.0.Stored? then Nothing else Raised, last.1)
  }

  class BaseStorageFromRecord {
    const store: MemoryFSMRecordStorage

    constructor (store: MemoryFSMRecordStorage)
      ensures this.store == store
    {
      this.store := store;
    }

    method GetState(key: StorageKey, clock: Clock) returns (r: Option<string>)
      modifies store
      ensures (State(r), store.records) == FacadeCall(old(store.records), key, Op.GetState, clock)
    {
      var record := store.GetRecord(key, clock(0));
      return if record.Some? then record.value.state else None;
    }

    method GetData(key: StorageKey, clock: Clock) returns (r: Data)
      modifies store
      ensures (Contents(r), store.records) == FacadeCall(old(store.records), key, Op.GetData, clock)
    {
      var record := store.GetRecord(key, clock(0));
      return if record.Some? then record.value.data else map[];
    }

    /** _mutate; the caller's clock readings start at i. */
    method Mutate(key: StorageKey, m: Mutation, clock: Clock, i: nat) returns (r: CasReply)
      modifies store
      ensures (r, store.records) == Mutated(old(store.records), key, m, clock, i)
      ensures r.Stored? ==> Changes(Live(old(store.records), key, clock(i)), m, r.record)
    {
      MutationsKeepTheRest(store.records, key, m, clock, i);
      var current := store.GetRecord(key, clock(i));
      var revision := if current.Some? then current.value.revision else 0;
      r := store.CompareAndSet(key, revision, Replacement(Update.Mutate(m), current), clock(i + 1), clock(i + 2));
    }

    method SetState(key: StorageKey, state: Option<string>, clock: Clock) returns (r: Output)
      modifies store
      ensures (r, store.records) == FacadeCall(old(store.records), key, Write(Mutation.SetState(state)), clock)
    {
      var reply := Mutate(key, Mutation.SetState(state), clock, 0);
      return if reply.Stored? then Nothing else Raised;
    }

    method SetData(key: StorageKey, data: Data, clock: Clock) returns (r: Output)
      modifies store
      ensures (r, store.records) == FacadeCall(old(store.records), key, Write(Mutation.SetData(data)), clock)
    {
      var reply := Mutate(key, Mutation.SetData(data), clock, 0);
      return if reply.Stored? then Nothing else Raised;
    }

    method UpdateData(key: StorageKey, partial: Data, clock: Clock) returns (merged: Data)
      modifies store
      ensures
        (Contents(merged), store.records) == FacadeCall(old(store.records), key, Write(Merge(partial)), clock)
    {
      var i := 0;
      while true
        invariant i == 0 || i == 3
        invariant i == 0 ==> store.records == old(store.records)
        invariant i == 3 ==> key !in store.records
        invariant i == 3 ==> Mutated(old(store.records), key, Merge(partial), clock, 0).0.Conflict?
        invariant i == 3 ==> store.records == Mutated(old(store.records), key, Merge(partial), clock, 0).1
        decreases 3 - i
      {
        ghost var before := store.records;
        var current := store.GetRecord(key, clock(i));
        var revision := if current.Some? then current.value.revision else 0;
        merged := (if current.Some? then current.value.data else map[]) + partial;
        var replacement := Replacement(Update.Mutate(Merge(partial)), current);
        var reply := store.CompareAndSet(key, revision, replacement, clock(i + 1), clock(i + 2));
        assert (reply, store.records) == Mutated(before, key, Merge(partial), clock, i);
        if reply.Stored? {
          return merged;
        }
        i := i + 3;
      }
    }

    method Finish(key: StorageKey, clock: Clock) returns (r: Output)
      modifies store
      ensures (r, store.records) == FacadeCall(old(store.records), key, Write(Mutation.Finish), clock)
    {
      var current := store.GetRecord(key, clock(0));
      if current == None {
        return Nothing;
      }
      var reply := Mutate(key, Mutation.Finish, clock, 1);
      return if reply.Stored? then Nothing else Raised;
    }
  }

  // ------------------------------------------------------------------ what every write keeps

  /** One read and compare-and-set either stores what the mutation makes of the record that was
      read, one revision on, or finds that record expired in the meantime. */
  lemma MutationsKeepTheRest(s: Store, key: StorageKey, m: Mutation, clock: Clock, i: nat)
    ensures
      var seen, v := Live(s, key, clock(i)), Mutated(s, key, m, clock, i);
      && (forall k | k != key :: (k in v.1 <==> k in s) && (k in s ==> v.1[k] == s[k]))
      && (v.0.Stored? ==>
            && key in v.1 && v.1[key] == v.0.record && Changes(seen, m, v.0.record)
            && v.0.record.revision == RevisionOf(seen) + 1 && v.0.record.updatedAt == Some(clock(i + 2)))
      && (v.0.Conflict? ==> key !in v.1 && seen.Some? && Expired(seen.value, clock(i + 1)))
  {
    var seen, pruned := Live(s, key, clock(i)), Prune(s, key, clock(i));
    var replacement := Replacement(Mutate(m), seen);
    CompareAndSetDecides(pruned, key, RevisionOf(seen), replacement, clock(i + 1), clock(i + 2));
    StampedUpdates(Mutate(m), seen, Live(pruned, key, clock(i + 1)), clock(i + 2));
  }

  /** The record a writing call of the facade computes from. finish reads once more, and
      update_data reads again after a conflict, when the record it read has just gone. */
  function ReadBy(s: Store, key: StorageKey, m: Mutation, clock: Clock): Option<Record> {
    match m
    case Finish => Live(Prune(s, key, clock(0)), key, clock(1))
    case Merge(_) =>
      var seen := Live(s, key, clock(0));
      if seen.Some? && Expired(seen.value, clock(1)) && seen.value.revision != 0 then None else seen
    case _ => Live(s, key, clock(0))
  }

  /** set_state keeps the data, set_data and update_data keep the state, and all of them and finish
      keep the expiry and the schema version of the record they read; no other key is touched. A
      call that stores nothing is a finish without a record, or raises and leaves none. */
  lemma WritesKeepTheRest(s: Store, key: StorageKey, m: Mutation, clock: Clock)
    ensures
      var v := FacadeCall(s, key, Write(m), clock);
      var before := ReadBy(s, key, m, clock);
      && (forall k | k != key :: (k in v.1 <==> k in s) && (k in s ==> v.1[k] == s[k]))
      && (key in v.1 ==> Changes(before, m, v.1[key]) && v.1[key].revision == RevisionOf(before) + 1)
      && (key !in v.1 <==> v.0 == Raised || (m == Mutation.Finish && Live(s, key, clock(0)) == None))
      && (v.0 == Raised ==> !m.Merge? && (m == Mutation.Finish ==> Live(s, key, clock(0)).Some?))
      && (m.Merge? ==> key in v.1 && v.0 == Contents(v.1[key].data))
  {
    MutationsKeepTheRest(s, key, m, clock, 0);
    match m {
      case Merge(_) => MutationsKeepTheRest(Mutated(s, key, m, clock, 0).1, key, m, clock, 3);
      case Finish => MutationsKeepTheRest(Prune(s, key, clock(0)), key, m, clock, 1);
      case _ =>
    }
  }

  // ------------------------------------------------------------------ observational equality

  datatype Call = Call(key: StorageKey, op: Op, clock: Clock)

  function SlotsAfter(calls: seq<Call>): Slots {
    if calls == [] then map[] else
      var c := calls[|calls| - 1]; SlotEffect(SlotsAfter(calls[..|calls| - 1]), c.key, c.op)
  }

  function StoreAfter(calls: seq<Call>): Store {
    if calls == [] then map[] else
      var c := calls[|calls| - 1]; FacadeCall(StoreAfter(calls[..|calls| - 1]), c.key, c.op, c.clock).1
  }

  /** The facade never brings an expiry in, so no record it wrote can expire; and key by key the
      record shows what the slot shows, an absent one like an empty one. */
  ghost predicate SameView(m: Slots, s: Store) {
    && (forall key | key in s :: s[key].expiresAt == None)
    && (forall key ::
          SlotOf(m, key) == if key in s then Slot(s[key].state, s[key].data) else Slot(None, map[]))
  }

  /** Without expiries the clock does not matter, and a mutation by itself never conflicts. */
  lemma MutationsSucceed(s: Store, key: StorageKey, m: Mutation, clock: Clock, i: nat)
    requires forall k | k in s :: s[k].expiresAt == None
    ensures forall t :: Live(s, key, t) == (if key in s then Some(s[key]) else None) && Prune(s, key, t) == s
    ensures
      var seen := if key in s then Some(s[key]) else None;
      var record := Stamp(seen, Replacement(Mutate(m), seen), clock(i + 2));
      Mutated(s, key, m, clock, i) == (Stored(record), s[key := record])
  {
  }

  lemma StoringKeepsView(m: Slots, s: Store, key: StorageKey, slot: Slot, record: Record)
    requires SameView(m, s) && record.expiresAt == None && slot == Slot(record.state, record.data)
    ensures SameView(m[key := slot], s[key := record])
  {
    var slots, after := m[key := slot], s[key := record];
    forall k
      ensures SlotOf(slots, k) == if k in after then Slot(after[k].state, after[k].data) else Slot(None, map[])
    {
      assert SlotOf(m, k) == if k in s then Slot(s[k].state, s[k].data) else Slot(None, map[]);
    }
  }

  lemma MutationKeepsView(m: Slots, s: Store, key: StorageKey, mutation: Mutation, clock: Clock)
    requires SameView(m, s)
    ensures FacadeCall(s, key, Write(mutation), clock).0 == SlotOutput(m, key, Write(mutation))
    ensures SameView(SlotEffect(m, key, Write(mutation)), FacadeCall(s, key, Write(mutation), clock).1)
  {
    var after, slot := FacadeCall(s, key, Write(mutation), clock).1, SlotOf(m, key);
    assert slot == if key in s then Slot(s[key].state, s[key].data) else Slot(None, map[]);
    MutationsSucceed(s, key, mutation, clock, 0);
    MutationsSucceed(s, key, mutation, clock, 1);
    match mutation {
      case SetState(state) => StoringKeepsView(m, s, key, slot.(state := state), after[key]);
      case SetData(data) => StoringKeepsView(m, s, key, slot.(data := data), after[key]);
      case Merge(partial) => StoringKeepsView(m, s, key, slot.(data := slot.data + partial), after[key]);
      case Finish =>
        if key in s { StoringKeepsView(m, s, key, Slot(None, map[]), after[key]); }
    }
    var slots := SlotEffect(m, key, Write(mutation));
    forall k
      ensures SlotOf(slots, k) == if k in after then Slot(after[k].state, after[k].data) else Slot(None, map[])
    {
      assert SlotOf(m, k) == if k in s then Slot(s[k].state, s[k].data) else Slot(None, map[]);
    }
  }

  lemma CallKeepsView(m: Slots, s: Store, key: StorageKey, op: Op, clock: Clock)
    requires SameView(m, s)
    ensures FacadeCall(s, key, op, clock).0 == SlotOutput(m, key, op)
    ensures SameView(SlotEffect(m, key, op), FacadeCall(s, key, op, clock).1)
  {
    match op {
      case Write(mutation) => MutationKeepsView(m, s, key, mutation, clock);
      case _ =>
        assert SlotOf(m, key) == if key in s then Slot(s[key].state, s[key].data) else Slot(None, map[]);
    }
  }

  lemma {:induction false} RunsKeepView(calls: seq<Call>)
    ensures SameView(SlotsAfter(calls), StoreAfter(calls))
  {
    if calls != [] {
      var before, c := calls[..|calls| - 1], calls[|calls| - 1];
      RunsKeepView(before);
      CallKeepsView(SlotsAfter(before), StoreAfter(before), c.key, c.op, c.clock);
    }
  }

  /** From empty stores, after any sequence of calls, whatever the clock says, the next call
      answers the same on both; in particular the facade never raises a conflict. */
  lemma StoresCannotBeToldApart(calls: seq<Call>, next: Call)
    ensures
      FacadeCall(StoreAfter(calls), next.key, next.op, next.clock).0
        == SlotOutput(SlotsAfter(calls), next.key, next.op)
    ensures SlotOutput(SlotsAfter(calls), next.key, next.op) != Raised
  {
    RunsKeepView(calls);
    CallKeepsView(SlotsAfter(calls), StoreAfter(calls), next.key, next.op, next.clock);
  }

  /** What get_state and get_data answer, given what they answered before the write. */
  predicate ReadsBack(m: Mutation, was: Slot, now: Slot) {
    match m
    case SetState(state) => now == was.(state := state)
    case SetData(data) => now == was.(data := data)
    case Merge(partial) => now.state == was.state && IsMerge(was.data, partial, now.data)
    case Finish => now == Slot(None, map[])
  }

  /** The answers of the two reads, on the record store. */
  function Reads(s: Store, key: StorageKey, clock: Clock): (Output, Output) {
    (FacadeCall(s, key, GetState, clock).0, FacadeCall(s, key, GetData, clock).0)
  }

  function Shown(s: Store, key: StorageKey): Slot {
    if key in s then Slot(s[key].state, s[key].data) else Slot(None, map[])
  }

  lemma ReadsShow(m: Slots, s: Store, key: StorageKey, clock: Clock)
    requires SameView(m, s)
    ensures Reads(s, key, clock) == (State(Shown(s, key).state), Contents(Shown(s, key).data))
  {
  }

  lemma WritesShow(m: Slots, s: Store, key: StorageKey, mutation: Mutation, clock: Clock, other: StorageKey)
    requires SameView(m, s)
    ensures
      var v := FacadeCall(s, key, Write(mutation), clock).1;
      ReadsBack(mutation, Shown(s, key), Shown(v, key)) && (other != key ==> Shown(v, other) == Shown(s, other))
  {
    WritesKeepTheRest(s, key, mutation, clock);
    MutationsSucceed(s, key, mutation, clock, 0);
    MutationsSucceed(s, key, mutation, clock, 1);
  }

  /** Reads see the last write of their key, and no write of another. */
  lemma ReadsSeeTheLastWrite(calls: seq<Call>, key: StorageKey, m: Mutation, clock: Clock, other: StorageKey)
    ensures
      var was, now := StoreAfter(calls), StoreAfter(calls + [Call(key, Write(m), clock)]);
      && (forall c, d | other != key :: Reads(now, other, c) == Reads(was, other, d))
      && forall c, d ::
           && Reads(was, key, c).0.State? && Reads(was, key, c).1.Contents?
           && Reads(now, key, d).0.State? && Reads(now, key, d).1.Contents?
           && ReadsBack(m, Slot(Reads(was, key, c).0.state, Reads(was, key, c).1.data),
                Slot(Reads(now, key, d).0.state, Reads(now, key, d).1.data))
  {
    var more := calls + [Call(key, Write(m), clock)];
    assert more[..|calls|] == calls;
    RunsKeepView(calls);
    RunsKeepView(more);
    var was, now := StoreAfter(calls), StoreAfter(more);
    WritesShow(SlotsAfter(calls), was, key, m, clock, other);
    forall k, c ensures Reads(was, k, c) == (State(Shown(was, k).state), Contents(Shown(was, k).data)) {
      ReadsShow(SlotsAfter(calls), was, k, c);
    }
    forall k, c ensures Reads(now, k, c) == (State(Shown(now, k).state), Contents(Shown(now, k).data)) {
      ReadsShow(SlotsAfter(more), now, k, c);
    }
  }
}
