/** A whole system of actors: each stamps its events with its own clock and folds what it receives. */
module Replication {
  import opened Common
  import opened Proto
  import opened Lamport
  import opened DomainStore
  import opened Convergence

  /** One actor: its clock's counter, what it has received so far (its own events too), and its records. */
  datatype Replica = Replica(counter: nat, received: seq<DomainEvent>, records: Records)

  datatype System = System(replicas: map<Wallet, Replica>, emitted: seq<DomainEvent>)

  datatype Move =
    | Emit(actor: Wallet, space: GroupId, kind: EntityType, id: EntityId, action: Action)
    | Receive(actor: Wallet, index: nat)

  const FRESH: Replica := Replica(0, [], map[])

  function At(s: System, w: Wallet): Replica
  {
    if w in s.replicas then s.replicas[w] else FRESH
  }

  /** Tick, stamp, publish, and fold into one's own records. */
  function Emitted(s: System, m: Move): DomainEvent
    requires m.Emit?
  {
    DomainEvent(m.space, m.kind, m.id, m.action, Stamp(Ticked(At(s, m.actor).counter), m.actor))
  }

  /** Any published event may reach any actor at any time, any number of times; the receiver observes its stamp. */
  function Moved(s: System, m: Move): System
  {
    var r := At(s, m.actor);
    match m
    case Emit(w, _, _, _, _) =>
      var e := Emitted(s, m);
      System(s.replicas[w := Replica(e.clock.counter, r.received + [e], Applied(r.records, e))], s.emitted + [e])
    case Receive(w, i) =>
      if i < |s.emitted| then
        var e := s.emitted[i];
        s.(replicas := s.replicas[w := Replica(Observed(r.counter, e.clock), r.received + [e], Applied(r.records, e))])
      else s
  }

  /** An emit publishes one event in its actor's name; an emit or a receipt reaches exactly that actor. */
  lemma MoveEffect(s: System, m: Move)
    ensures m.Emit? ==>
              && |Moved(s, m).emitted| == |s.emitted| + 1 && s.emitted <= Moved(s, m).emitted
              && var e := Moved(s, m).emitted[|s.emitted|];
              && e.space == m.space && e.kind == m.kind && e.id == m.id && e.action == m.action
              && e.clock.actor == m.actor && At(Moved(s, m), m.actor).received == At(s, m.actor).received + [e]
    ensures m.Receive? ==> Moved(s, m).emitted == s.emitted
    ensures m.Receive? && m.index < |s.emitted| ==>
              At(Moved(s, m), m.actor).received == At(s, m.actor).received + [s.emitted[m.index]]
    ensures forall w :: w != m.actor ==> At(Moved(s, m), w) == At(s, w)
  {
  }

  function Evolved(moves: seq<Move>): System
  {
    if moves == [] then System(map[], []) else Moved(Evolved(moves[..|moves| - 1]), moves[|moves| - 1])
  }

  /** No clock that ticks stands at the top of `u64`. */
  predicate NoWrap(moves: seq<Move>)
  {
    forall i :: 0 <= i < |moves| && moves[i].Emit? ==> At(Evolved(moves[..i]), moves[i].actor).counter < U64_MAX
  }

  /** Each entity keeps one space. */
  predicate OneSpace(events: seq<DomainEvent>)
  {
    forall a, b :: a in events && b in events && KeyOf(a) == KeyOf(b) ==> a.space == b.space
  }

  // The invariant of every run

  predicate StampsDiffer(events: seq<DomainEvent>)
  {
    forall i, j :: 0 <= i < j < |events| ==> events[i].clock != events[j].clock
  }

  ghost predicate Sane(s: System)
  {
    && StampsDiffer(s.emitted)
    && (forall e :: e in s.emitted ==> e.clock.counter <= At(s, e.clock.actor).counter)
    && (forall w :: w in s.replicas ==>
          && s.replicas[w].records == Folded(map[], s.replicas[w].received)
          && (forall e :: e in s.replicas[w].received ==> e in s.emitted && e.clock.counter <= s.replicas[w].counter))
  }

  lemma NewStampDiffers(s: System, m: Move)
    requires Sane(s) && m.Emit? && At(s, m.actor).counter < U64_MAX
    ensures StampsDiffer(s.emitted + [Emitted(s, m)])
  {
    hide Folded;
    var longer, e := s.emitted + [Emitted(s, m)], Emitted(s, m);
    forall i, j | 0 <= i < j < |longer| ensures longer[i].clock != longer[j].clock {
      if j == |s.emitted| { assert s.emitted[i] in s.emitted; }
    }
  }

  lemma EmitKeepsSane(s: System, m: Move)
    requires Sane(s) && m.Emit? && At(s, m.actor).counter < U64_MAX
    ensures Sane(Moved(s, m))
  {
    hide Folded, Applied, StampsDiffer;
    var s', e, r := Moved(s, m), Emitted(s, m), At(s, m.actor);
    NewStampDiffers(s, m);
    FoldsReceived(s, m.actor, e);
    forall x | x in s'.emitted ensures x.clock.counter <= At(s', x.clock.actor).counter {
      if x != e { assert x in s.emitted; }
    }
    forall w, x | w in s'.replicas && x in s'.replicas[w].received
      ensures x in s'.emitted && x.clock.counter <= s'.replicas[w].counter
    {
      if w == m.actor {
        if x != e { assert x in r.received; }
      } else {
        assert x in s.replicas[w].received;
      }
    }
  }

  lemma FoldsReceived(s: System, w: Wallet, e: DomainEvent)
    requires Sane(s)
    ensures Applied(At(s, w).records, e) == Folded(map[], At(s, w).received + [e])
  {
    var r := At(s, w);
    assert (r.received + [e])[..|r.received + [e]| - 1] == r.received;
    assert r.records == Folded(map[], r.received);
  }

  lemma ReceiveKeepsSane(s: System, m: Move)
    requires Sane(s) && m.Receive?
    ensures Sane(Moved(s, m))
  {
    hide Folded, Applied;
    if m.index < |s.emitted| { FoldsReceived(s, m.actor, s.emitted[m.index]); }
  }

  lemma {:induction false} RunIsSane(moves: seq<Move>)
    requires NoWrap(moves)
    ensures Sane(Evolved(moves))
  {
    hide Moved, Sane;
    if moves == [] {
      NothingIsSane();
    } else {
      var before, m := moves[..|moves| - 1], moves[|moves| - 1];
      assert NoWrap(before) by {
        forall i | 0 <= i < |before| && before[i].Emit?
          ensures At(Evolved(before[..i]), before[i].actor).counter < U64_MAX
        {
          assert before[..i] == moves[..i];
        }
      }
      RunIsSane(before);
      if m.Emit? { EmitKeepsSane(Evolved(before), m); } else { ReceiveKeepsSane(Evolved(before), m); }
    }
  }

  lemma NothingIsSane()
    ensures Sane(System(map[], []))
  {
  }

  // Main results

  /**
   * System convergence: after any run in which no ticking clock overflows and every entity keeps
   * one space, any two actors that received the same set of events, in any order and with any
   * repeats, hold equal records.
   */
  lemma SystemConverges(moves: seq<Move>, v: Wallet, w: Wallet)
    requires NoWrap(moves)
    requires var s := Evolved(moves); OneSpace(s.emitted) && SameEvents(At(s, v).received, At(s, w).received)
    ensures At(Evolved(moves), v).records == At(Evolved(moves), w).records
  {
    hide Evolved, Folded;
    var s := Evolved(moves);
    RunIsSane(moves);
    ReceivedIsCoherent(s, v);
    Converge(At(s, v).received, At(s, w).received);
    RecordsAreFolds(s, v);
    RecordsAreFolds(s, w);
  }

  lemma RecordsAreFolds(s: System, w: Wallet)
    requires Sane(s)
    ensures At(s, w).records == Folded(map[], At(s, w).received)
  {
  }

  lemma ReceivedIsCoherent(s: System, w: Wallet)
    requires Sane(s) && OneSpace(s.emitted)
    ensures Coherent(At(s, w).received)
  {
    var events := At(s, w).received;
    forall a, b | a in events && b in events ensures Compatible(a, b) {
      assert a in s.emitted && b in s.emitted;
      if a.clock == b.clock {
        var i :| 0 <= i < |s.emitted| && s.emitted[i] == a;
        var j :| 0 <= j < |s.emitted| && s.emitted[j] == b;
        assert i == j;
      }
    }
  }

  /** Causality: an actor's next event is stamped after everything it has received. */
  lemma EmitsAfterReceived(moves: seq<Move>, m: Move, e: DomainEvent)
    requires NoWrap(moves) && m.Emit?
    requires var r := At(Evolved(moves), m.actor); r.counter < U64_MAX && e in r.received
    ensures Before(e.clock, Emitted(Evolved(moves), m).clock)
  {
    hide Evolved, Folded, Applied;
    RunIsSane(moves);
    StampedAfterReceived(Evolved(moves), m, e);
  }

  lemma StampedAfterReceived(s: System, m: Move, e: DomainEvent)
    requires Sane(s) && m.Emit? && At(s, m.actor).counter < U64_MAX && e in At(s, m.actor).received
    ensures Before(e.clock, Emitted(s, m).clock)
  {
    hide Folded, Applied;
    assert e.clock.counter <= At(s, m.actor).counter;
  }
}
