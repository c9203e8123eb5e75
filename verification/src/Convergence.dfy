/** Replicas that received the same events hold the same records, whatever the order and the repeats. */
module Convergence {
  import opened Common
  import opened Proto
  import opened Lamport
  import opened DomainStore

  // Reference reading of an event: the value it proposes for a field

  /** The value the first update of `name` gives; later repeats carry the same stamp and lose. */
  function Proposed(updates: seq<(string, FieldValue)>, name: string): Option<FieldValue>
  {
    if updates == [] then None
    else if updates[0].0 == name then Some(updates[0].1)
    else Proposed(updates[1..], name)
  }

  predicate Sets(e: DomainEvent, key: Key, name: string)
  {
    KeyOf(e) == key && e.action.Upsert? && Proposed(e.action.fields, name).Some?
  }

  predicate Deletes(e: DomainEvent, key: Key)
  {
    KeyOf(e) == key && e.action.Delete?
  }

  /** Two events a replica may see in either order with one outcome. */
  ghost predicate Compatible(a: DomainEvent, b: DomainEvent)
  {
    KeyOf(a) == KeyOf(b) ==>
      && a.space == b.space
      && (a.clock == b.clock ==>
            forall name: string :: Sets(a, KeyOf(a), name) && Sets(b, KeyOf(a), name) ==>
              Proposed(a.action.fields, name) == Proposed(b.action.fields, name))
  }

  ghost predicate Coherent(events: seq<DomainEvent>)
  {
    forall a, b :: a in events && b in events ==> Compatible(a, b)
  }

  predicate SameEvents(a: seq<DomainEvent>, b: seq<DomainEvent>)
  {
    (forall e :: e in a ==> e in b) && (forall e :: e in b ==> e in a)
  }

  // What a fold leaves in one field

  lemma {:induction false} ProposedSnoc(updates: seq<(string, FieldValue)>, name: string)
    requires updates != []
    ensures var rest, last := Proposed(updates[..|updates| - 1], name), updates[|updates| - 1];
            Proposed(updates, name) == if rest.Some? then rest else if last.0 == name then Some(last.1) else None
  {
    if |updates| > 1 {
      ProposedSnoc(updates[1..], name);
      assert updates[1..][..|updates| - 2] == updates[..|updates| - 1][1..];
    } else {
      assert updates[..0] == [] && updates[1..] == [];
    }
  }

  /** An upsert writes each field it proposes when that field is missing or older, and touches no other. */
  lemma {:induction false} SetFieldsExactly(fields: map<string, (FieldValue, Stamp)>,
                                            updates: seq<(string, FieldValue)>, clock: Stamp, name: string)
    ensures var after, p := SetFields(fields, updates, clock), Proposed(updates, name);
            if p.Some? && (name !in fields || Before(fields[name].1, clock)) then
              name in after && after[name] == (p.value, clock)
            else (name in after <==> name in fields) && (name in fields ==> after[name] == fields[name])
    decreases |updates|
  {
    if updates != [] {
      SetFieldsExactly(fields, updates[..|updates| - 1], clock, name);
      ProposedSnoc(updates, name);
      BeforeTotal(clock, clock);
    }
  }

  // The summary of a set of events

  /** `r` is what the events about `key` add up to. */
  ghost predicate Summary(r: Entity, events: seq<DomainEvent>, key: Key)
  {
    && (forall e :: e in events && KeyOf(e) == key ==> r.space == e.space)
    && (forall e, name :: e in events && Sets(e, key, name) ==> name in r.fields && !Before(r.fields[name].1, e.clock))
    && (forall name :: name in r.fields ==> HasWriter(events, key, name, r.fields[name].0, r.fields[name].1))
    && (forall e :: e in events && Deletes(e, key) ==> r.deleted.Some? && !Before(r.deleted.value, e.clock))
    && (r.deleted.Some? ==> HasDeleter(events, key, r.deleted.value))
  }

  ghost predicate HasWriter(events: seq<DomainEvent>, key: Key, name: string, value: FieldValue, clock: Stamp)
  {
    exists e :: e in events && Sets(e, key, name) && e.clock == clock && Proposed(e.action.fields, name) == Some(value)
  }

  ghost predicate HasDeleter(events: seq<DomainEvent>, key: Key, clock: Stamp)
  {
    exists e :: e in events && Deletes(e, key) && e.clock == clock
  }

  predicate Mentions(events: seq<DomainEvent>, key: Key)
  {
    exists e :: e in events && KeyOf(e) == key
  }

  ghost predicate Summarizes(records: Records, events: seq<DomainEvent>)
  {
    forall key: Key ::
      && (key in records <==> Mentions(events, key))
      && (key in records ==> Summary(records[key], events, key))
  }

  lemma WritersGrow(events: seq<DomainEvent>, e: DomainEvent, key: Key, name: string, value: FieldValue, clock: Stamp)
    requires HasWriter(events, key, name, value, clock)
    ensures HasWriter(events + [e], key, name, value, clock)
  {
    var w :| w in events && Sets(w, key, name) && w.clock == clock && Proposed(w.action.fields, name) == Some(value);
    assert w in events + [e];
  }

  lemma DeletersGrow(events: seq<DomainEvent>, e: DomainEvent, key: Key, clock: Stamp)
    requires HasDeleter(events, key, clock)
    ensures HasDeleter(events + [e], key, clock)
  {
    var w :| w in events && Deletes(w, key) && w.clock == clock;
    assert w in events + [e];
  }

  /** A record summarizes its events after one more about it, old record or fresh. */
  lemma UpsertSummarizes(r: Entity, events: seq<DomainEvent>, e: DomainEvent)
    requires Summary(r, events, KeyOf(e)) && r.space == e.space && e.action.Upsert?
    ensures Summary(Updated(r, e), events + [e], KeyOf(e))
  {
    var key, r', longer := KeyOf(e), Updated(r, e), events + [e];
    forall name | name in r'.fields ensures HasWriter(longer, key, name, r'.fields[name].0, r'.fields[name].1) {
      SetFieldsExactly(r.fields, e.action.fields, e.clock, name);
      if name in r.fields && r'.fields[name] == r.fields[name] {
        WritersGrow(events, e, key, name, r.fields[name].0, r.fields[name].1);
      } else {
        assert e in longer && Sets(e, key, name);
      }
    }
    forall w, name | w in longer && Sets(w, key, name)
      ensures name in r'.fields && !Before(r'.fields[name].1, w.clock)
    {
      SetFieldsExactly(r.fields, e.action.fields, e.clock, name);
      BeforeTotal(e.clock, w.clock);
      if name in r.fields {
        BeforeTotal(r.fields[name].1, e.clock);
        if Before(r.fields[name].1, e.clock) && Before(e.clock, w.clock) {
          BeforeTransitive(r.fields[name].1, e.clock, w.clock);
        }
      }
    }
    if r.deleted.Some? { DeletersGrow(events, e, key, r.deleted.value); }
  }

  lemma DeleteSummarizes(r: Entity, events: seq<DomainEvent>, e: DomainEvent)
    requires Summary(r, events, KeyOf(e)) && r.space == e.space && e.action.Delete?
    ensures Summary(Updated(r, e), events + [e], KeyOf(e))
  {
    var key, r', longer := KeyOf(e), Updated(r, e), events + [e];
    forall name | name in r'.fields ensures HasWriter(longer, key, name, r'.fields[name].0, r'.fields[name].1) {
      WritersGrow(events, e, key, name, r.fields[name].0, r.fields[name].1);
    }
    forall w | w in longer && Deletes(w, key) ensures r'.deleted.Some? && !Before(r'.deleted.value, w.clock) {
      BeforeTotal(e.clock, w.clock);
      if r.deleted.Some? && Before(r.deleted.value, e.clock) && Before(e.clock, w.clock) {
        BeforeTransitive(r.deleted.value, e.clock, w.clock);
      }
    }
    if r'.deleted == Some(e.clock) {
      assert e in longer && Deletes(e, key);
    } else {
      DeletersGrow(events, e, key, r.deleted.value);
    }
  }

  lemma OthersSummarize(r: Entity, events: seq<DomainEvent>, e: DomainEvent, key: Key)
    requires Summary(r, events, key) && key != KeyOf(e)
    ensures Summary(r, events + [e], key)
  {
    forall name | name in r.fields ensures HasWriter(events + [e], key, name, r.fields[name].0, r.fields[name].1) {
      WritersGrow(events, e, key, name, r.fields[name].0, r.fields[name].1);
    }
    if r.deleted.Some? { DeletersGrow(events, e, key, r.deleted.value); }
  }

  lemma AppliedSummarizes(records: Records, events: seq<DomainEvent>, e: DomainEvent)
    requires Summarizes(records, events) && Coherent(events + [e])
    ensures Summarizes(Applied(records, e), events + [e])
  {
    hide Summary, Updated, Compatible;
    var key, r, longer := KeyOf(e), RecordFor(records, e), events + [e];
    RecordIsFresh(records, events, e);
    if e.action.Upsert? { UpsertSummarizes(r, events, e); } else { DeleteSummarizes(r, events, e); }
    forall k: Key
      ensures (k in Applied(records, e) <==> Mentions(longer, k))
              && (k in Applied(records, e) ==> Summary(Applied(records, e)[k], longer, k))
    {
      assert e in longer;
      if k != key {
        assert Mentions(longer, k) <==> Mentions(events, k);
        if k in records { OthersSummarize(records[k], events, e, k); }
      }
    }
  }

  /** The record an event is folded into summarizes the earlier events and is in the event's space. */
  lemma RecordIsFresh(records: Records, events: seq<DomainEvent>, e: DomainEvent)
    requires Summarizes(records, events) && Coherent(events + [e])
    ensures Summary(RecordFor(records, e), events, KeyOf(e)) && RecordFor(records, e).space == e.space
  {
    if KeyOf(e) in records {
      var w :| w in events && KeyOf(w) == KeyOf(e);
      assert w in events + [e] && e in events + [e];
      assert Compatible(w, e);
    } else {
      assert !Mentions(events, KeyOf(e));
    }
  }

  lemma {:induction false} FoldSummarizes(events: seq<DomainEvent>)
    requires Coherent(events)
    ensures Summarizes(Folded(map[], events), events)
  {
    hide Compatible, Summary;
    if events == [] {
      assert forall key :: !Mentions(events, key);
    } else {
      var rest, e := events[..|events| - 1], events[|events| - 1];
      assert events == rest + [e];
      FoldSummarizes(rest);
      AppliedSummarizes(Folded(map[], rest), rest, e);
    }
  }

  // One summary per set of events

  lemma FieldsAgree(r: Entity, r': Entity, events: seq<DomainEvent>, events': seq<DomainEvent>, key: Key, name: string)
    requires Summary(r, events, key) && Summary(r', events', key) && SameEvents(events, events') && Coherent(events)
    requires name in r.fields
    ensures name in r'.fields && r'.fields[name] == r.fields[name]
  {
    var w :| w in events && Sets(w, key, name) && w.clock == r.fields[name].1
        && Proposed(w.action.fields, name) == Some(r.fields[name].0);
    assert w in events' && name in r'.fields;
    assert HasWriter(events', key, name, r'.fields[name].0, r'.fields[name].1);
    var w' :| w' in events' && Sets(w', key, name) && w'.clock == r'.fields[name].1
        && Proposed(w'.action.fields, name) == Some(r'.fields[name].0);
    assert w' in events;
    BeforeTotal(w.clock, w'.clock);
    assert Compatible(w, w');
  }

  lemma SummaryIsUnique(r: Entity, r': Entity, events: seq<DomainEvent>, events': seq<DomainEvent>, key: Key)
    requires Summary(r, events, key) && Summary(r', events', key)
    requires SameEvents(events, events') && Coherent(events) && Mentions(events, key)
    ensures r == r'
  {
    var e :| e in events && KeyOf(e) == key;
    assert r.space == e.space == r'.space;
    assert Coherent(events');
    forall name | name in r.fields ensures name in r'.fields && r'.fields[name] == r.fields[name] {
      FieldsAgree(r, r', events, events', key, name);
    }
    forall name | name in r'.fields ensures name in r.fields {
      FieldsAgree(r', r, events', events, key, name);
    }
    assert r.fields == r'.fields;
    DeletionsAgree(r, r', events, events', key);
  }

  lemma DeletionsAgree(r: Entity, r': Entity, events: seq<DomainEvent>, events': seq<DomainEvent>, key: Key)
    requires Summary(r, events, key) && Summary(r', events', key) && SameEvents(events, events')
    ensures r.deleted == r'.deleted
  {
    if r.deleted.Some? {
      var w :| w in events && Deletes(w, key) && w.clock == r.deleted.value;
      assert w in events';
    }
    if r'.deleted.Some? {
      var w' :| w' in events' && Deletes(w', key) && w'.clock == r'.deleted.value;
      assert w' in events;
    }
    if r.deleted.Some? && r'.deleted.Some? { BeforeTotal(r.deleted.value, r'.deleted.value); }
  }

  /**
   * Convergence: two replicas that folded the same set of coherent events, in any order and with
   * any repeats, hold equal records.
   */
  lemma Converge(a: seq<DomainEvent>, b: seq<DomainEvent>)
    requires SameEvents(a, b) && Coherent(a)
    ensures Folded(map[], a) == Folded(map[], b)
  {
    hide Summary, Folded;
    var ra, rb := Folded(map[], a), Folded(map[], b);
    assert Coherent(b);
    FoldSummarizes(a);
    FoldSummarizes(b);
    forall key: Key ensures (key in ra <==> key in rb) && (key in ra ==> ra[key] == rb[key]) {
      assert Mentions(a, key) <==> Mentions(b, key);
      if key in ra { SummaryIsUnique(ra[key], rb[key], a, b, key); }
    }
  }

  /** Two events commute on a fresh store exactly when they are compatible. */
  lemma CommuteExactly(a: DomainEvent, b: DomainEvent)
    ensures Folded(map[], [a, b]) == Folded(map[], [b, a]) <==> Compatible(a, b)
  {
    if Compatible(a, b) {
      assert Compatible(b, a) && Compatible(a, a) && Compatible(b, b);
      Converge([a, b], [b, a]);
    } else {
      IncompatibleDiverge(a, b);
    }
  }

  lemma FoldTwo(a: DomainEvent, b: DomainEvent)
    ensures Folded(map[], [a, b]) == Applied(Applied(map[], a), b)
  {
    assert [a, b][..1] == [a] && [a][..0] == [];
    assert Folded(map[], [a]) == Applied(Folded(map[], []), a);
  }

  lemma IncompatibleDiverge(a: DomainEvent, b: DomainEvent)
    requires !Compatible(a, b)
    ensures Folded(map[], [a, b]) != Folded(map[], [b, a])
  {
    FoldTwo(a, b);
    FoldTwo(b, a);
    var key, x, y := KeyOf(a), Applied(Applied(map[], a), b), Applied(Applied(map[], b), a);
    if a.space == b.space {
      var name :| Sets(a, key, name) && Sets(b, key, name)
          && Proposed(a.action.fields, name) != Proposed(b.action.fields, name);
      BeforeTotal(a.clock, b.clock);
      SetFieldsExactly(map[], a.action.fields, a.clock, name);
      SetFieldsExactly(map[], b.action.fields, b.clock, name);
      SetFieldsExactly(Applied(map[], a)[key].fields, b.action.fields, b.clock, name);
      SetFieldsExactly(Applied(map[], b)[key].fields, a.action.fields, a.clock, name);
      assert x[key].fields[name].0 == Proposed(a.action.fields, name).value;
      assert y[key].fields[name].0 == Proposed(b.action.fields, name).value;
    } else {
      assert x[key].space == a.space && y[key].space == b.space;
    }
  }

  /** Any two replicas that saw the same part of `events`, in any order and with any repeats, agree. */
  ghost predicate ReplicasAgree(events: seq<DomainEvent>)
  {
    forall x: seq<DomainEvent>, y: seq<DomainEvent> ::
      SameEvents(x, y) && PartOf(x, events) ==> Folded(map[], x) == Folded(map[], y)
  }

  predicate PartOf(x: seq<DomainEvent>, events: seq<DomainEvent>)
  {
    forall e :: e in x ==> e in events
  }

  /** Replicas agree on every part of a history exactly when its events are pairwise compatible. */
  lemma ConvergeExactly(events: seq<DomainEvent>)
    ensures ReplicasAgree(events) <==> Coherent(events)
  {
    hide Folded, Compatible;
    if Coherent(events) {
      forall x, y | SameEvents(x, y) && PartOf(x, events) ensures Folded(map[], x) == Folded(map[], y) {
        Converge(x, y);
      }
    }
    if ReplicasAgree(events) {
      forall a, b | a in events && b in events ensures Compatible(a, b) {
        assert SameEvents([a, b], [b, a]) && PartOf([a, b], events);
        CommuteExactly(a, b);
      }
    }
  }

  /** One stamp on two different values of a field: the replica that hears `a` first keeps `a`'s value for good. */
  lemma EqualStampsDiverge(space: GroupId, id: EntityId, clock: Stamp)
    ensures var a := DomainEvent(space, Task, id, Upsert([("title", Text("left"))]), clock);
            var b := DomainEvent(space, Task, id, Upsert([("title", Text("right"))]), clock);
            Folded(map[], [a, b]) != Folded(map[], [b, a])
  {
    var a := DomainEvent(space, Task, id, Upsert([("title", Text("left"))]), clock);
    var b := DomainEvent(space, Task, id, Upsert([("title", Text("right"))]), clock);
    assert Proposed(a.action.fields, "title") == Some(Text("left"));
    assert Proposed(b.action.fields, "title") == Some(Text("right"));
    assert "left"[0] != "right"[0];
    assert Sets(a, KeyOf(a), "title") && Sets(b, KeyOf(a), "title");
    IncompatibleDiverge(a, b);
  }

  // Redelivery

  /** The records already hold everything `e` has to say, or something later. */
  ghost predicate Absorbed(records: Records, e: DomainEvent)
  {
    && KeyOf(e) in records
    && (forall name :: Sets(e, KeyOf(e), name) ==>
          name in records[KeyOf(e)].fields && !Before(records[KeyOf(e)].fields[name].1, e.clock))
    && (e.action.Delete? ==> records[KeyOf(e)].deleted.Some? && !Before(records[KeyOf(e)].deleted.value, e.clock))
  }

  lemma AbsorbedIsIdle(records: Records, e: DomainEvent)
    requires Absorbed(records, e)
    ensures Applied(records, e) == records
  {
    var r := records[KeyOf(e)];
    if e.action.Upsert? {
      var after := SetFields(r.fields, e.action.fields, e.clock);
      forall name
        ensures (name in r.fields <==> name in after) && (name in r.fields ==> after[name] == r.fields[name])
      {
        SetFieldsExactly(r.fields, e.action.fields, e.clock, name);
      }
      assert SetFields(r.fields, e.action.fields, e.clock) == r.fields;
    }
    assert Updated(r, e) == r;
  }

  lemma AppliedAbsorbs(records: Records, e: DomainEvent)
    ensures Absorbed(Applied(records, e), e)
  {
    BeforeTotal(e.clock, e.clock);
    if e.action.Upsert? {
      var r := RecordFor(records, e);
      forall name | Sets(e, KeyOf(e), name)
        ensures name in Updated(r, e).fields && !Before(Updated(r, e).fields[name].1, e.clock)
      {
        SetFieldsExactly(r.fields, e.action.fields, e.clock, name);
      }
    }
  }

  lemma AbsorbedStays(records: Records, e: DomainEvent, later: DomainEvent)
    requires Absorbed(records, e)
    ensures Absorbed(Applied(records, later), e)
  {
    if KeyOf(later) == KeyOf(e) {
      var r := records[KeyOf(e)];
      StampsRise(r, later);
      forall name | Sets(e, KeyOf(e), name)
        ensures name in Updated(r, later).fields && !Before(Updated(r, later).fields[name].1, e.clock)
      {
        NotBeforeTransitive(e.clock, r.fields[name].1, Updated(r, later).fields[name].1);
      }
      if e.action.Delete? { NotBeforeTransitive(e.clock, r.deleted.value, Updated(r, later).deleted.value); }
    }
  }

  lemma NotBeforeTransitive(a: Stamp, b: Stamp, c: Stamp)
    requires !Before(b, a) && !Before(c, b)
    ensures !Before(c, a)
  {
    BeforeTotal(a, b);
    BeforeTotal(b, c);
    if Before(c, a) && a != b { BeforeTransitive(c, a, b); }
  }

  /** Whatever arrives, no field or tombstone moves back in time. */
  lemma StampsRise(r: Entity, e: DomainEvent)
    ensures forall name :: name in r.fields ==>
              name in Updated(r, e).fields && !Before(Updated(r, e).fields[name].1, r.fields[name].1)
    ensures r.deleted.Some? ==> Updated(r, e).deleted.Some? && !Before(Updated(r, e).deleted.value, r.deleted.value)
  {
    forall name | name in r.fields
      ensures name in Updated(r, e).fields && !Before(Updated(r, e).fields[name].1, r.fields[name].1)
    {
      BeforeTotal(r.fields[name].1, e.clock);
      BeforeTotal(r.fields[name].1, r.fields[name].1);
      if e.action.Upsert? { SetFieldsExactly(r.fields, e.action.fields, e.clock, name); }
    }
    if r.deleted.Some? {
      BeforeTotal(r.deleted.value, e.clock);
      BeforeTotal(r.deleted.value, r.deleted.value);
    }
  }

  lemma {:induction false} FoldAbsorbs(records: Records, events: seq<DomainEvent>, e: DomainEvent)
    requires e in events
    ensures Absorbed(Folded(records, events), e)
  {
    hide Absorbed;
    var before, last := events[..|events| - 1], events[|events| - 1];
    if e in before {
      FoldAbsorbs(records, before, e);
      AbsorbedStays(Folded(records, before), e, last);
    } else {
      AppliedAbsorbs(Folded(records, before), e);
    }
  }

  /**
   * Idempotence, with no condition on the events: once a replica has folded `events`, delivering any
   * of them again, in any order and any number of times, changes nothing.
   */
  lemma {:induction false} RedeliveryIsIdle(records: Records, events: seq<DomainEvent>, again: seq<DomainEvent>)
    requires PartOf(again, events)
    ensures Folded(Folded(records, events), again) == Folded(records, events)
    decreases |again|
  {
    hide Absorbed;
    if again != [] {
      var last := again[|again| - 1];
      RedeliveryIsIdle(records, events, again[..|again| - 1]);
      FoldAbsorbs(records, events, last);
      AbsorbedIsIdle(Folded(records, events), last);
    }
  }

  // Catch-up from a snapshot, and deletion

  /**
   * A snapshot of a replica that folded `history`, restored and brought up to date with any list
   * `recent` (overlaps allowed), is the store of any replica that saw the same events.
   */
  lemma SnapshotCatchUp(entries: seq<Entry>, history: seq<DomainEvent>, recent: seq<DomainEvent>,
                        direct: seq<DomainEvent>)
    requires FromEntries(entries) == Folded(map[], history)
    requires SameEvents(history + recent, direct) && Coherent(direct)
    ensures Folded(FromEntries(entries), recent) == Folded(map[], direct)
  {
    hide Compatible;
    FoldedConcat(map[], history, recent);
    Converge(direct, history + recent);
  }

  /** A deletion is final: an entity with any delete among the events is not live, whatever else arrived. */
  lemma DeletedIsInvisible(events: seq<DomainEvent>, e: DomainEvent)
    requires e in events && e.action.Delete?
    ensures Live(Folded(map[], events), KeyOf(e)) == None
  {
    StaysDeleted(events, e);
  }

  lemma {:induction false} StaysDeleted(events: seq<DomainEvent>, e: DomainEvent)
    requires e in events && e.action.Delete?
    ensures KeyOf(e) in Folded(map[], events) && Folded(map[], events)[KeyOf(e)].deleted.Some?
  {
    var rest, last := events[..|events| - 1], events[|events| - 1];
    assert events == rest + [last];
    if last != e { StaysDeleted(rest, e); }
  }
}
