/**
 Versioned FSM records: FSMRecord, compare-and-set with lazy whole-record expiry, and the
 in-process store of src/chattice/fsm/record.py.
 */
module Records {
  import opened Options

  datatype StorageKey = StorageKey(user: Option<string>, space: Option<string>, thread: Option<string>)

  /** Canonical JSON: what a record's data holds once it has passed the JSON contract. */
  datatype Json =
    | Null
    | Bool(b: bool)
    | Number(n: int)
    | Text(s: string)
    | List(items: seq<Json>)
    | Object(fields: map<string, Json>)

  type Data = map<string, Json>

  datatype Record = Record(
    state: Option<string>, data: Data, revision: int,
    updatedAt: Option<real>, expiresAt: Option<real>, schema: int)

  type Store = map<StorageKey, Record>

  datatype CasReply = Stored(record: Record) | Conflict(found: int)

  predicate Expired(r: Record, now: real) {
    r.expiresAt.Some? && r.expiresAt.value <= now
  }

  function Prune(s: Store, key: StorageKey, now: real): Store {
    if key in s && Expired(s[key], now) then s - {key} else s
  }

  /** A stored record as a reader sees it. */
  function Visible(r: Option<Record>, now: real): Option<Record> {
    if r.Some? && Expired(r.value, now) then None else r
  }

  /** What get_record answers. */
  function Live(s: Store, key: StorageKey, now: real): Option<Record> {
    if key in s then Visible(Some(s[key]), now) else None
  }

  function RevisionOf(r: Option<Record>): int {
    if r.Some? then r.value.revision else 0
  }

  /** A replacement as it is stored over current. */
  function Stamp(current: Option<Record>, replacement: Record, stamp: real): Record {
    replacement.(revision := RevisionOf(current) + 1, updatedAt := Some(stamp))
  }

  /** compare_and_set against the current live record. */
  function CasOn(current: Option<Record>, expected: int, replacement: Record, stamp: real): CasReply {
    var found := RevisionOf(current);
    if found == expected then Stored(Stamp(current, replacement, stamp)) else Conflict(found)
  }

  function CasReplyTo(s: Store, key: StorageKey, expected: int, replacement: Record, now: real, stamp: real): CasReply {
    CasOn(Live(s, key, now), expected, replacement, stamp)
  }

  function CasEffect(s: Store, key: StorageKey, expected: int, replacement: Record, now: real, stamp: real): Store {
    match CasReplyTo(s, key, expected, replacement, now, stamp)
    case Stored(record) => s[key := record]
    case Conflict(_) => Prune(s, key, now)
  }

  /** MemoryFSMRecordStorage. Both bodies run under the key's lock without an await inside. */
  class MemoryFSMRecordStorage {
    var records: map<StorageKey, Record>

    constructor ()
      ensures records == map[]
    {
      records := map[];
    }

    method GetRecord(key: StorageKey, now: real) returns (r: Option<Record>)
      modifies this
      ensures r == Live(old(records), key, now)
      ensures records == Prune(old(records), key, now)
    {
      if key !in records {
        return None;
      }
      if Expired(records[key], now) {
        records := records - {key};
        return None;
      }
      return Some(records[key]);
    }

    /** now and stamp are the clock readings of the expiry check and of updated_at. */
    method CompareAndSet(key: StorageKey, expected: int, replacement: Record, now: real, stamp: real)
      returns (r: CasReply)
      modifies this
      ensures r == CasReplyTo(old(records), key, expected, replacement, now, stamp)
      ensures records == CasEffect(old(records), key, expected, replacement, now, stamp)
    {
      var current := if key in records then Some(records[key]) else None;
      if current.Some? && Expired(current.value, now) {
        records := records - {key};
        current := None;
      }
      var currentRevision := if current.Some? then current.value.revision else 0;
      if currentRevision != expected {
        return Conflict(currentRevision);
      }
      var stored := replacement.(revision := currentRevision + 1, updatedAt := Some(stamp));
      records := records[key := stored];
      return Stored(stored);
    }
  }

  // ------------------------------------------------------------------ updates on top of it

  /** The writing operations of BaseStorage; Merge is update_data. */
  datatype Mutation =
    | SetState(state: Option<string>)
    | SetData(data: Data)
    | Merge(partial: Data)
    | Finish

  /** What a compare_and_set may be for: an operation of BaseStorageFromRecord, or a direct use,
      Replace with the revision just read, Blind with any revision. */
  datatype Update =
    | Mutate(m: Mutation)
    | Replace(record: Record)
    | Blind(expected: int, record: Record)

  /** The replacement an update computes from the record it read. */
  function Replacement(u: Update, current: Option<Record>): Record {
    var base := if current.Some? then current.value else Record(None, map[], 0, None, None, 0);
    var kept := Record(base.state, base.data, 0, None, base.expiresAt, base.schema);
    match u
    case Mutate(SetState(state)) => kept.(state := state)
    case Mutate(SetData(data)) => kept.(data := data)
    case Mutate(Merge(partial)) => kept.(data := base.data + partial)
    case Mutate(Finish) => kept.(state := None, data := map[])
    case Replace(record) => record
    case Blind(_, record) => record
  }

  // ------------------------------------------------------------------ what an update promises

  function StateOf(r: Option<Record>): Option<string> {
    if r.Some? then r.value.state else None
  }

  function DataOf(r: Option<Record>): Data {
    if r.Some? then r.value.data else map[]
  }

  /** The mapping before with the pairs of partial put over it. */
  predicate IsMerge(before: Data, partial: Data, after: Data) {
    && (forall k | k in partial :: k in after && after[k] == partial[k])
    && (forall k | k in before && k !in partial :: k in after && after[k] == before[k])
    && (forall k | k in after :: k in before || k in partial)
  }

  /** Every operation changes the one thing it is for and keeps the rest, the expiry and the schema
      version always; a key without a record starts without either. */
  predicate Changes(before: Option<Record>, m: Mutation, after: Record) {
    && after.expiresAt == (if before.Some? then before.value.expiresAt else None)
    && after.schema == (if before.Some? then before.value.schema else 0)
    && match m
       case SetState(state) => after.state == state && after.data == DataOf(before)
       case SetData(data) => after.state == StateOf(before) && after.data == data
       case Merge(partial) => after.state == StateOf(before) && IsMerge(DataOf(before), partial, after.data)
       case Finish => after.state == None && after.data == map[]
  }

  /** The same of any update: a direct use stores what it was given. */
  predicate Updates(before: Option<Record>, u: Update, after: Record) {
    match u
    case Mutate(m) => Changes(before, m, after)
    case Replace(record) => SameContent(after, record)
    case Blind(_, record) => SameContent(after, record)
  }

  predicate SameContent(a: Record, b: Record) {
    a.state == b.state && a.data == b.data && a.expiresAt == b.expiresAt && a.schema == b.schema
  }

  /** Stamping a replacement for what was read keeps the promise, whatever it is stored over. */
  lemma StampedUpdates(u: Update, read: Option<Record>, current: Option<Record>, stamp: real)
    ensures
      var after := Stamp(current, Replacement(u, read), stamp);
      Updates(read, u, after) && after.revision == RevisionOf(current) + 1 && after.updatedAt == Some(stamp)
  {
  }

  /** compare_and_set stores exactly over the expected revision, the next one and stamped, and
      otherwise answers with the revision it found; it touches no other key, and of its own key
      it otherwise drops at most an expired record. */
  lemma CompareAndSetDecides(
    s: Store, key: StorageKey, expected: int, replacement: Record, now: real, stamp: real)
    ensures
      var reply, v := CasReplyTo(s, key, expected, replacement, now, stamp),
        CasEffect(s, key, expected, replacement, now, stamp);
      var found := if key in s && !Expired(s[key], now) then s[key].revision else 0;
      && (forall k | k != key :: (k in v <==> k in s) && (k in s ==> v[k] == s[k]))
      && (if found == expected then
            && reply.Stored? && key in v && v[key] == reply.record
            && SameContent(v[key], replacement) && v[key].revision == expected + 1 && v[key].updatedAt == Some(stamp)
          else
            && reply == Conflict(found)
            && (key in v <==> key in s && !Expired(s[key], now)) && (key in v ==> v[key] == s[key]))
  {
  }
}
