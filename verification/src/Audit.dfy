/** The hash-chained audit log: what makes a chain valid, and what its head hash commits to. */
module Audit {
  import opened Common
  import opened Bytes
  import opened Proto

  /** Everything in a record except its own hash: the pre-image of one link. */
  datatype Link = Link(sequence: nat, timestamp: nat, previous: Digest, event: Event)

  /** BLAKE3 over the canonical encoding of a link. Nothing is assumed of it. */
  type Hasher = Link -> Digest

  /** A chain that was started: it has at least its genesis record. */
  type Chain = c: seq<Record> | |c| > 0 witness [Record(0, 0, ZERO, Genesis, ZERO)]

  datatype AuditError =
    | Empty
    | SequenceBreak(at: nat, expected: nat, found: nat)
    | GenesisNotZero
    | PrevHashMismatch(at: nat)
    | RecordHashMismatch(at: nat)

  function LinkOf(r: Record): Link
  {
    Link(r.sequence, r.timestamp, r.previous, r.event)
  }

  function Seal(h: Hasher, l: Link): Record
  {
    Record(l.sequence, l.timestamp, l.previous, l.event, h(l))
  }

  function Head(records: seq<Record>): Digest
  {
    if records == [] then ZERO else records[|records| - 1].hash
  }

  function Started(h: Hasher, timestamp: nat): Chain
  {
    [Seal(h, Link(0, timestamp, ZERO, Genesis))]
  }

  function NextLink(chain: Chain, event: Event, timestamp: nat): Link
  {
    Link(chain[|chain| - 1].sequence + 1, timestamp, chain[|chain| - 1].hash, event)
  }

  function Appended(h: Hasher, chain: Chain, event: Event, timestamp: nat): Chain
  {
    chain + [Seal(h, NextLink(chain, event, timestamp))]
  }

  /** Record `i` has its position as sequence, links to its predecessor, and recomputes. */
  predicate Sound(h: Hasher, records: seq<Record>, i: nat)
    requires i < |records|
  {
    && records[i].sequence == i
    && records[i].previous == Head(records[..i])
    && records[i].hash == h(LinkOf(records[i]))
  }

  predicate Valid(h: Hasher, records: seq<Record>)
  {
    forall i :: 0 <= i < |records| ==> Sound(h, records, i)
  }

  lemma StartedIsValid(h: Hasher, timestamp: nat)
    ensures Valid(h, Started(h, timestamp)) && |Started(h, timestamp)| == 1
    ensures Started(h, timestamp)[0].event == Genesis && Started(h, timestamp)[0].timestamp == timestamp
  {
    var c := Started(h, timestamp);
    assert c[..0] == [];
  }

  /** Appending keeps a chain valid and leaves every earlier record in place. */
  lemma AppendKeepsValid(h: Hasher, chain: Chain, event: Event, timestamp: nat)
    requires Valid(h, chain)
    ensures Valid(h, Appended(h, chain, event, timestamp))
    ensures chain <= Appended(h, chain, event, timestamp) && |Appended(h, chain, event, timestamp)| == |chain| + 1
    ensures var last := Appended(h, chain, event, timestamp)[|chain|];
            last.event == event && last.timestamp == timestamp
  {
    var longer := Appended(h, chain, event, timestamp);
    assert Sound(h, chain, |chain| - 1);
    forall i | 0 <= i < |longer| ensures Sound(h, longer, i) {
      if i < |chain| {
        assert Sound(h, chain, i) && longer[..i] == chain[..i];
      } else {
        assert longer[..i] == chain;
      }
    }
  }

  /** A step of a chain's life: the events appended to it, with their times. */
  function Built(h: Hasher, genesis: nat, entries: seq<(Event, nat)>): Chain
  {
    if entries == [] then Started(h, genesis)
    else
      Appended(h, Built(h, genesis, entries[..|entries| - 1]), entries[|entries| - 1].0, entries[|entries| - 1].1)
  }

  lemma {:induction false} BuiltIsValid(h: Hasher, genesis: nat, entries: seq<(Event, nat)>)
    ensures Valid(h, Built(h, genesis, entries))
    ensures |Built(h, genesis, entries)| == |entries| + 1
  {
    if entries == [] {
      StartedIsValid(h, genesis);
    } else {
      var rest, last := entries[..|entries| - 1], entries[|entries| - 1];
      BuiltIsValid(h, genesis, rest);
      AppendKeepsValid(h, Built(h, genesis, rest), last.0, last.1);
    }
  }

  /** Two different links with one hash. */
  predicate Collides(h: Hasher, x: Link, y: Link)
  {
    x != y && h(x) == h(y)
  }

  lemma ValidPrefix(h: Hasher, records: seq<Record>, n: nat)
    requires Valid(h, records) && n <= |records|
    ensures Valid(h, records[..n])
  {
    forall i | 0 <= i < n ensures Sound(h, records[..n], i) {
      assert Sound(h, records, i) && records[..n][..i] == records[..i];
    }
  }

  /**
   * Tamper evidence with no assumption on the hash: two valid non-empty chains with one head
   * hash are the same chain, or two of their records are an explicit collision.
   */
  lemma {:induction false} HeadCommitsToHistory(h: Hasher, a: seq<Record>, b: seq<Record>)
    requires a != [] && b != []
    requires Valid(h, a) && Valid(h, b)
    requires Head(a) == Head(b)
    ensures a == b || exists i, j :: 0 <= i < |a| && 0 <= j < |b| && Collides(h, LinkOf(a[i]), LinkOf(b[j]))
    decreases |a|
  {
    var m, n := |a| - 1, |b| - 1;
    assert Sound(h, a, m) && Sound(h, b, n);
    if LinkOf(a[m]) != LinkOf(b[n]) {
      assert Collides(h, LinkOf(a[m]), LinkOf(b[n]));
    } else {
      assert m == n && a[m] == b[n];
      if m > 0 {
        var a', b' := a[..m], b[..n];
        ValidPrefix(h, a, m);
        ValidPrefix(h, b, n);
        HeadCommitsToHistory(h, a', b');
        if a' != b' {
          var i, j :| 0 <= i < |a'| && 0 <= j < |b'| && Collides(h, LinkOf(a'[i]), LinkOf(b'[j]));
          assert Collides(h, LinkOf(a[i]), LinkOf(b[j]));
        }
      }
      assert a == a[..m] + [a[m]] && b == b[..n] + [b[n]];
    }
  }

  /** An edit that keeps the published head breaks verification unless it hits a collision. */
  lemma TamperIsDetected(h: Hasher, honest: seq<Record>, forged: seq<Record>)
    requires honest != [] && forged != [] && forged != honest
    requires Valid(h, honest) && Head(forged) == Head(honest)
    requires forall i, j :: 0 <= i < |honest| && 0 <= j < |forged| ==>
               !Collides(h, LinkOf(honest[i]), LinkOf(forged[j]))
    ensures !Valid(h, forged)
  {
    if Valid(h, forged) {
      HeadCommitsToHistory(h, honest, forged);
      assert false;
    }
  }

  /** The first check record `i` fails, in the order of the walk. */
  function Fault(h: Hasher, records: seq<Record>, i: nat): Result<(), AuditError>
    requires i < |records|
  {
    var r := records[i];
    if r.sequence != i then Err(SequenceBreak(i, i, r.sequence))
    else if i == 0 && r.previous != ZERO then Err(GenesisNotZero)
    else if r.previous != Head(records[..i]) then Err(PrevHashMismatch(i))
    else if r.hash != h(LinkOf(r)) then Err(RecordHashMismatch(i))
    else Ok(())
  }

  /** The walk from record `i` on: the first fault, if there is one. */
  function Walk(h: Hasher, records: seq<Record>, i: nat): Result<(), AuditError>
    requires i <= |records|
    decreases |records| - i
  {
    if i == |records| then Ok(())
    else if Fault(h, records, i).Err? then Fault(h, records, i)
    else Walk(h, records, i + 1)
  }

  /** What the walk says of a record is true of it. */
  lemma FaultIsTrue(h: Hasher, records: seq<Record>, i: nat)
    requires i < |records|
    ensures Fault(h, records, i).Ok? <==> Sound(h, records, i)
    ensures Fault(h, records, i).Err? ==>
              match Fault(h, records, i).error
              case SequenceBreak(at, expected, found) =>
                at == expected == i && found == records[i].sequence && found != expected
              case GenesisNotZero => i == 0 && records[i].previous != Digest(seq(32, _ => 0))
              case PrevHashMismatch(at) => at == i && i > 0 && records[i].previous != records[i - 1].hash
              case RecordHashMismatch(at) => at == i && records[i].hash != h(LinkOf(records[i]))
              case Empty => false
  {
    ZeroBytes(32);
  }

  lemma {:induction false} ZeroBytes(width: nat)
    ensures BigEndian(0, width) == seq(width, _ => 0)
  {
    if width > 0 { ZeroBytes(width - 1); }
  }

  /** The walk accepts exactly the valid chains, and otherwise names the first unsound record. */
  lemma {:induction false} WalkExactly(h: Hasher, records: seq<Record>, i: nat)
    requires i <= |records| && forall k :: 0 <= k < i ==> Sound(h, records, k)
    ensures Walk(h, records, i).Ok? <==> Valid(h, records)
    ensures Walk(h, records, i).Err? ==>
              exists k :: i <= k < |records| && Fault(h, records, k) == Walk(h, records, i)
                          && !Sound(h, records, k) && forall m :: 0 <= m < k ==> Sound(h, records, m)
    decreases |records| - i
  {
    if i < |records| {
      assert Fault(h, records, i).Ok? <==> Sound(h, records, i);
      if Sound(h, records, i) { WalkExactly(h, records, i + 1); }
    }
  }

  class AuditChain {
    var records: seq<Record>
    const hasher: Hasher

    constructor (h: Hasher, genesis: nat)
      ensures hasher == h && records == Started(h, genesis)
      ensures Valid(h, records)
    {
      hasher := h;
      records := [Seal(h, Link(0, genesis, ZERO, Genesis))];
      new;
      StartedIsValid(h, genesis);
    }

    /** A chain over records read back from disk; `from_records` refuses an unsound one. */
    constructor Adopt(h: Hasher, stored: seq<Record>)
      ensures hasher == h && records == stored
    {
      hasher := h;
      records := stored;
    }

    static method FromRecords(h: Hasher, stored: seq<Record>) returns (r: Result<AuditChain, AuditError>)
      ensures stored == [] ==> r == Err(Empty)
      ensures stored != [] ==> (r.Ok? <==> Walk(h, stored, 0).Ok?) && (r.Err? ==> Walk(h, stored, 0) == Err(r.error))
      ensures r.Ok? ==> Valid(h, stored)
      ensures r.Ok? ==> fresh(r.value) && r.value.hasher == h && r.value.records == stored
    {
      if stored == [] {
        return Err(Empty);
      }
      var chain := new AuditChain.Adopt(h, stored);
      var verdict := chain.VerifyIntegrity();
      match verdict {
        case Ok(_) => r := Ok(chain);
        case Err(e) => r := Err(e);
      }
    }

    method Append(event: Event, timestamp: nat) returns (r: Result<Record, AuditError>)
      modifies this
      ensures old(records) == [] ==> r == Err(Empty) && records == []
      ensures old(records) != [] ==>
                && records == Appended(hasher, old(records), event, timestamp)
                && r == Ok(records[|records| - 1])
      ensures Valid(hasher, old(records)) ==> Valid(hasher, records)
    {
      if records == [] {
        return Err(Empty);
      }
      if Valid(hasher, records) { AppendKeepsValid(hasher, records, event, timestamp); }
      var head := records[|records| - 1];
      var link := Link(head.sequence + 1, timestamp, head.hash, event);
      records := records + [Record(link.sequence, link.timestamp, link.previous, link.event, hasher(link))];
      r := Ok(records[|records| - 1]);
    }

    method VerifyIntegrity() returns (r: Result<(), AuditError>)
      ensures r == Walk(hasher, records, 0)
      ensures r.Ok? <==> Valid(hasher, records)
    {
      WalkExactly(hasher, records, 0);
      var prev := ZERO;
      for i := 0 to |records|
        invariant prev == Head(records[..i])
        invariant Walk(hasher, records, 0) == Walk(hasher, records, i)
      {
        var rec := records[i];
        if rec.sequence != i {
          return Err(SequenceBreak(i, i, rec.sequence));
        }
        if i == 0 && rec.previous != ZERO {
          return Err(GenesisNotZero);
        }
        if rec.previous != prev {
          return Err(PrevHashMismatch(i));
        }
        if hasher(Link(rec.sequence, rec.timestamp, rec.previous, rec.event)) != rec.hash {
          return Err(RecordHashMismatch(i));
        }
        prev := rec.hash;
      }
      r := Ok(());
    }
  }
}
