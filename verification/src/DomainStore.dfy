/** The event-sourced store: per-field last-writer-wins over Lamport stamps, with tombstones and snapshots. */
module DomainStore {
  import opened Common
  import opened Bytes
  import opened Proto
  import opened Lamport

  type Bytes16 = b: Blob | |b| == 16 witness seq(16, _ => 0)

  datatype EntityId = EntityId(bytes: Bytes16)

  datatype EntityType = Conversation | Thread | Contact | Account | Deal | Project | Task | Board | BoardColumn

  datatype FieldValue =
    | Null
    | Text(text: string)
    | Int(i: int)
    | Bool(b: bool)
    | Money(minor: int)
    | Timestamp(ms: nat)
    | Ref(id: EntityId)
    | WalletRef(wallet: Wallet)
    | Tag(text: string)

  datatype Action = Upsert(fields: seq<(string, FieldValue)>) | Delete

  datatype DomainEvent = DomainEvent(space: GroupId, kind: EntityType, id: EntityId, action: Action, clock: Stamp)

  datatype Key = Key(kind: EntityType, id: EntityId)

  datatype Entity = Entity(space: GroupId, fields: map<string, (FieldValue, Stamp)>, deleted: Option<Stamp>)

  type Records = map<Key, Entity>

  function KeyOf(e: DomainEvent): Key
  {
    Key(e.kind, e.id)
  }

  // Folding

  function SetField(fields: map<string, (FieldValue, Stamp)>, name: string, value: FieldValue, clock: Stamp)
    : map<string, (FieldValue, Stamp)>
  {
    if name !in fields || Before(fields[name].1, clock) then fields[name := (value, clock)] else fields
  }

  function SetFields(fields: map<string, (FieldValue, Stamp)>, updates: seq<(string, FieldValue)>, clock: Stamp)
    : map<string, (FieldValue, Stamp)>
  {
    if updates == [] then fields
    else
      var (name, value) := updates[|updates| - 1];
      SetField(SetFields(fields, updates[..|updates| - 1], clock), name, value, clock)
  }

  function Entombed(deleted: Option<Stamp>, clock: Stamp): Option<Stamp>
  {
    if deleted.None? || Before(deleted.value, clock) then Some(clock) else deleted
  }

  function Updated(r: Entity, e: DomainEvent): Entity
  {
    match e.action
    case Upsert(updates) => r.(fields := SetFields(r.fields, updates, e.clock))
    case Delete => r.(deleted := Entombed(r.deleted, e.clock))
  }

  /** The record an event is folded into: the existing one, or a fresh one in the event's space. */
  function RecordFor(records: Records, e: DomainEvent): Entity
  {
    if KeyOf(e) in records then records[KeyOf(e)] else Entity(e.space, map[], None)
  }

  function Applied(records: Records, e: DomainEvent): Records
  {
    records[KeyOf(e) := Updated(RecordFor(records, e), e)]
  }

  function Folded(records: Records, events: seq<DomainEvent>): Records
  {
    if events == [] then records
    else Applied(Folded(records, events[..|events| - 1]), events[|events| - 1])
  }

  lemma {:induction false} FoldedConcat(records: Records, a: seq<DomainEvent>, b: seq<DomainEvent>)
    ensures Folded(records, a + b) == Folded(Folded(records, a), b)
    decreases |b|
  {
    if b == [] {
      assert a + b == a;
    } else {
      FoldedConcat(records, a, b[..|b| - 1]);
      assert (a + b)[..|a + b| - 1] == a + b[..|b| - 1];
    }
  }

  // Snapshots

  datatype Entry = Entry(key: Key, entity: Entity)

  function FromEntries(entries: seq<Entry>): Records
  {
    if entries == [] then map[]
    else
      var last := entries[|entries| - 1];
      FromEntries(entries[..|entries| - 1])[last.key := last.entity]
  }

  /** Live records: those without a tombstone. */
  function Live(records: Records, key: Key): Option<Entity>
  {
    if key in records && records[key].deleted.None? then Some(records[key]) else None
  }

  class Store {
    var records: Records

    constructor ()
      ensures records == map[]
    {
      records := map[];
    }

    /** Rebuild from a snapshot. */
    constructor FromSnapshot(entries: seq<Entry>)
      ensures records == FromEntries(entries)
    {
      records := map[];
      new;
      for i := 0 to |entries|
        invariant records == FromEntries(entries[..i])
      {
        assert entries[..i + 1][..i] == entries[..i];
        records := records[entries[i].key := entries[i].entity];
      }
      assert entries[..|entries|] == entries;
    }

    method Apply(e: DomainEvent)
      modifies this
      ensures records == Applied(old(records), e)
    {
      var key := KeyOf(e);
      if key !in records {
        records := records[key := Entity(e.space, map[], None)];
      }
      var rec := records[key];
      match e.action {
        case Upsert(updates) =>
          var fields := rec.fields;
          for i := 0 to |updates|
            invariant fields == SetFields(rec.fields, updates[..i], e.clock)
          {
            assert updates[..i + 1][..i] == updates[..i];
            var name, value := updates[i].0, updates[i].1;
            var newer := name !in fields || Before(fields[name].1, e.clock);
            if newer {
              fields := fields[name := (value, e.clock)];
            }
          }
          assert updates[..|updates|] == updates;
          rec := rec.(fields := fields);
        case Delete =>
          if rec.deleted.None? || Before(rec.deleted.value, e.clock) {
            rec := rec.(deleted := Some(e.clock));
          }
      }
      records := records[key := rec];
    }

    method ApplyAll(events: seq<DomainEvent>)
      modifies this
      ensures records == Folded(old(records), events)
    {
      for i := 0 to |events|
        invariant records == Folded(old(records), events[..i])
      {
        Apply(events[i]);
        assert events[..i + 1][..i] == events[..i];
      }
      assert events[..|events|] == events;
    }

    /** The entries in whatever order the map yields them; rebuilding from them gives the same records. */
    method Snapshot() returns (entries: seq<Entry>)
      ensures FromEntries(entries) == records
      ensures |entries| == |records|
    {
      entries := [];
      var rest := records.Keys;
      while rest != {}
        invariant rest <= records.Keys
        invariant FromEntries(entries) == map k | k in records && k !in rest :: records[k]
        invariant |entries| + |rest| == |records|
        decreases |rest|
      {
        var k :| k in rest;
        ghost var before := entries;
        entries := entries + [Entry(k, records[k])];
        assert entries[..|entries| - 1] == before;
        rest := rest - {k};
      }
    }
  }
}
