/** Exact delivery: what a wallet fetches, with what still waits for it, is the log addressed to it. */
module RelayDelivery {
  import opened Proto
  import opened RelayState
  import opened RelaySteps
  import opened RelayEffects

  /** The envelopes of one group, in order. */
  function Project(envelopes: seq<Envelope>, gid: GroupId): seq<Envelope>
  {
    if envelopes == [] then []
    else
      var rest, e := Project(envelopes[..|envelopes| - 1], gid), envelopes[|envelopes| - 1];
      if e.groupId == gid then rest + [e] else rest
  }

  function Copies(e: Envelope, n: nat): seq<Envelope>
  {
    if n == 0 then [] else Copies(e, n - 1) + [e]
  }

  /** A stretch of a log as `w` must see it: each envelope as often as its recipients name `w`. */
  function Addressed(log: seq<Envelope>, w: Wallet): seq<Envelope>
  {
    if log == [] then []
    else
      var e := log[|log| - 1];
      Addressed(log[..|log| - 1], w) + Copies(e, multiset(e.recipients)[w])
  }

  /** What one operation hands to `w`. */
  function FetchedBy(c: Crypto, s: Relay, op: Op, w: Wallet): seq<Envelope>
  {
    if op == OpFetch(w) && Step(c, s, op).reply.Delivered? then Step(c, s, op).reply.envelopes else []
  }

  /** Everything a run hands to `w`. */
  function Fetched(c: Crypto, s: Relay, ops: seq<Op>, w: Wallet): seq<Envelope>
  {
    if ops == [] then []
    else
      var before := ops[..|ops| - 1];
      Fetched(c, s, before, w) + FetchedBy(c, Exec(c, s, before), ops[|ops| - 1], w)
  }

  // Sequence facts

  lemma {:induction false} ProjectConcat(a: seq<Envelope>, b: seq<Envelope>, gid: GroupId)
    ensures Project(a + b, gid) == Project(a, gid) + Project(b, gid)
    decreases |b|
  {
    if b == [] {
      assert a + b == a;
    } else {
      var b', e := b[..|b| - 1], b[|b| - 1];
      ProjectConcat(a, b', gid);
      assert (a + b)[..|a + b| - 1] == a + b' && (a + b)[|a + b| - 1] == e;
    }
  }

  lemma {:induction false} AddressedConcat(a: seq<Envelope>, b: seq<Envelope>, w: Wallet)
    ensures Addressed(a + b, w) == Addressed(a, w) + Addressed(b, w)
    decreases |b|
  {
    if b == [] {
      assert a + b == a;
    } else {
      var b', e := b[..|b| - 1], b[|b| - 1];
      AddressedConcat(a, b', w);
      assert (a + b)[..|a + b| - 1] == a + b' && (a + b)[|a + b| - 1] == e;
    }
  }

  lemma {:induction false} ProjectCopies(e: Envelope, n: nat, gid: GroupId)
    ensures Project(Copies(e, n), gid) == if e.groupId == gid then Copies(e, n) else []
  {
    if n > 0 {
      ProjectCopies(e, n - 1, gid);
      assert Copies(e, n)[..|Copies(e, n)| - 1] == Copies(e, n - 1);
    }
  }

  lemma AddressedOne(e: Envelope, w: Wallet)
    ensures Addressed([e], w) == Copies(e, multiset(e.recipients)[w])
  {
    assert [e][..0] == [];
    assert [] + Copies(e, multiset(e.recipients)[w]) == Copies(e, multiset(e.recipients)[w]);
  }

  /** A fan-out adds one entry per mention, and only to the wallets named. */
  lemma {:induction false} FanOutCounts(mailboxes: map<Wallet, seq<Envelope>>, recipients: seq<Wallet>, e: Envelope,
                                        w: Wallet)
    ensures Mailbox(FanOut(mailboxes, recipients, e), w) == Mailbox(mailboxes, w) + Copies(e, multiset(recipients)[w])
  {
    if recipients != [] {
      var rest, r := recipients[..|recipients| - 1], recipients[|recipients| - 1];
      FanOutCounts(mailboxes, rest, e, w);
      assert recipients == rest + [r];
      assert multiset(recipients) == multiset(rest) + multiset{r};
      if w == r {
        assert Copies(e, multiset(recipients)[w]) == Copies(e, multiset(rest)[w]) + [e];
      }
    }
  }

  // One step

  /** The new part of a group's log. */
  function Growth(s: Relay, s': Relay, gid: GroupId): seq<Envelope>
    requires LogOf(s, gid) <= LogOf(s', gid)
  {
    LogOf(s', gid)[|LogOf(s, gid)|..]
  }

  ghost predicate DeliversExactly(s: Relay, s': Relay, handed: seq<Envelope>, w: Wallet, gid: GroupId)
  {
    && LogOf(s, gid) <= LogOf(s', gid)
    && Project(handed + Mailbox(s'.mailboxes, w), gid)
       == Project(Mailbox(s.mailboxes, w), gid) + Addressed(Growth(s, s', gid), w)
  }

  /** Accepting an envelope into its group's log and fanning it out delivers it exactly. */
  lemma AcceptanceDelivers(s: Relay, s': Relay, target: GroupId, e: Envelope, w: Wallet, gid: GroupId)
    requires e.groupId == target
    requires LogOf(s', target) == LogOf(s, target) + [e]
    requires gid != target ==> LogOf(s', gid) == LogOf(s, gid)
    requires s'.mailboxes == FanOut(s.mailboxes, e.recipients, e)
    ensures DeliversExactly(s, s', [], w, gid)
  {
    hide Project, Addressed, FanOut, Copies;
    var box, copies := Mailbox(s.mailboxes, w), Copies(e, multiset(e.recipients)[w]);
    FanOutCounts(s.mailboxes, e.recipients, e, w);
    ProjectConcat(box, copies, gid);
    ProjectCopies(e, multiset(e.recipients)[w], gid);
    assert [] + Mailbox(s'.mailboxes, w) == box + copies;
    if gid == target {
      assert Growth(s, s', gid) == [e];
      AddressedOne(e, w);
    } else {
      assert Growth(s, s', gid) == [];
      NoneAddressed(w);
    }
  }

  lemma NoneAddressed(w: Wallet)
    ensures Addressed([], w) == []
  {
  }

  lemma NothingDelivered(s: Relay, s': Relay, w: Wallet, gid: GroupId)
    requires LogOf(s', gid) == LogOf(s, gid) && Mailbox(s'.mailboxes, w) == Mailbox(s.mailboxes, w)
    ensures DeliversExactly(s, s', [], w, gid)
  {
    assert [] + Mailbox(s'.mailboxes, w) == Mailbox(s.mailboxes, w);
    assert Growth(s, s', gid) == [];
  }

  lemma SubmitDelivers(c: Crypto, s: Relay, op: Op, w: Wallet, gid: GroupId)
    requires op.OpSubmit?
    ensures DeliversExactly(s, Step(c, s, op).state, [], w, gid)
  {
    hide RegisterGroup, PublishKeyPackage, RedeemInvite, Onboard, Offboard, DeliversExactly, FanOut, Deliver;
    var s', e := Step(c, s, op).state, op.envelope;
    if s' != s {
      assert Admit(c, s, e) == Accept;
      DeliverEffect(c, s, e, op.now);
      AcceptanceDelivers(s, s', e.groupId, Stamped(s.groups[e.groupId], e), w, gid);
    } else {
      NothingDelivered(s, s', w, gid);
    }
  }

  lemma OnboardDelivers(c: Crypto, s: Relay, op: Op, w: Wallet, gid: GroupId)
    requires op.OpOnboard?
    ensures DeliversExactly(s, Step(c, s, op).state, [], w, gid)
  {
    hide Step, Admit, FanOut, DeliversExactly;
    var s', e := Step(c, s, op).state, op.envelope;
    if Step(c, s, op).reply.Refused? {
      OnboardRefused(c, s, op);
      NothingDelivered(s, s', w, gid);
    } else {
      OnboardEffect(c, s, op);
      AcceptanceDelivers(s, s', op.groupId, Stamped(s.groups[op.groupId], e), w, gid);
    }
  }

  lemma OffboardDelivers(c: Crypto, s: Relay, op: Op, w: Wallet, gid: GroupId)
    requires op.OpOffboard?
    ensures DeliversExactly(s, Step(c, s, op).state, [], w, gid)
  {
    hide Step, Admit, FanOut, DeliversExactly, Deliver;
    var s', e := Step(c, s, op).state, op.envelope;
    if Step(c, s, op).reply.Refused? {
      OffboardRefused(c, s, op);
      NothingDelivered(s, s', w, gid);
    } else {
      OffboardAccepted(c, s, op);
      OffboardEffect(c, s, op);
      if Admit(c, s, e) == Accept {
        DeliverEffect(c, s, e, op.now);
        AcceptanceDelivers(s, s', op.groupId, Stamped(s.groups[op.groupId], e), w, gid);
      } else {
        NothingDelivered(s, s', w, gid);
      }
    }
  }

  lemma FetchDelivers(c: Crypto, s: Relay, op: Op, w: Wallet, gid: GroupId)
    requires op.OpFetch?
    ensures DeliversExactly(s, Step(c, s, op).state, FetchedBy(c, s, op, w), w, gid)
  {
    hide Step, Project, Addressed;
    FetchIs(c, s, op);
    NoneAddressed(w);
    var s' := Step(c, s, op).state;
    var handed := FetchedBy(c, s, op, w);
    assert handed + Mailbox(s'.mailboxes, w) == Mailbox(s.mailboxes, w);
    assert Growth(s, s', gid) == [];
    assert Project(Mailbox(s.mailboxes, w), gid) + [] == Project(Mailbox(s.mailboxes, w), gid);
  }

  lemma FetchIs(c: Crypto, s: Relay, op: Op)
    requires op.OpFetch?
    ensures Step(c, s, op) == Fetch(s, op.wallet)
  {
  }

  lemma QuietDelivers(c: Crypto, s: Relay, op: Op, gid: GroupId)
    requires !op.OpSubmit? && !op.OpOnboard? && !op.OpOffboard? && !op.OpFetch? && !op.OpRestart?
    ensures LogOf(Step(c, s, op).state, gid) == LogOf(s, gid) && Step(c, s, op).state.mailboxes == s.mailboxes
  {
    hide Step, Queue;
    if op.OpPublishKeyPackage? {
      PublishEffect(c, s, op);
    } else if op.OpRegisterGroup? || op.OpRedeemInvite? {
      RosterStepDelivers(c, s, op, gid);
    } else {
      QuietStep(c, s, op);
      VolatileStepDelivers(c, s, op);
    }
  }

  lemma VolatileStepDelivers(c: Crypto, s: Relay, op: Op)
    requires !TouchesGroups(op) && !op.OpFetch? && !op.OpRestart?
    ensures Step(c, s, op).state.mailboxes == s.mailboxes
  {
    hide SubmitAs, Onboard, Offboard, PublishKeyPackage, RegisterGroup, RedeemInvite;
  }

  lemma RosterStepDelivers(c: Crypto, s: Relay, op: Op, gid: GroupId)
    requires op.OpRegisterGroup? || op.OpRedeemInvite?
    ensures LogOf(Step(c, s, op).state, gid) == LogOf(s, gid) && Step(c, s, op).state.mailboxes == s.mailboxes
  {
    hide SubmitAs, Onboard, Offboard, PublishKeyPackage;
  }

  lemma StepDelivers(c: Crypto, s: Relay, op: Op, w: Wallet, gid: GroupId)
    requires !op.OpRestart?
    ensures DeliversExactly(s, Step(c, s, op).state, FetchedBy(c, s, op, w), w, gid)
  {
    hide Step, DeliversExactly;
    match op {
      case OpSubmit(_, _, _) => SubmitDelivers(c, s, op, w, gid);
      case OpOnboard(_, _, _, _, _, _, _) => OnboardDelivers(c, s, op, w, gid);
      case OpOffboard(_, _, _, _, _, _, _) => OffboardDelivers(c, s, op, w, gid);
      case OpFetch(_) => FetchDelivers(c, s, op, w, gid);
      case _ =>
        QuietDelivers(c, s, op, gid);
        NothingDelivered(s, Step(c, s, op).state, w, gid);
    }
  }

  lemma DeliveryComposes(s: Relay, t: Relay, u: Relay, x: seq<Envelope>, y: seq<Envelope>, w: Wallet, gid: GroupId)
    requires DeliversExactly(s, t, x, w, gid) && DeliversExactly(t, u, y, w, gid)
    ensures DeliversExactly(s, u, x + y, w, gid)
  {
    hide Project, Addressed;
    var bs, bt, bu := Mailbox(s.mailboxes, w), Mailbox(t.mailboxes, w), Mailbox(u.mailboxes, w);
    var first, second := Growth(s, t, gid), Growth(t, u, gid);
    assert Growth(s, u, gid) == first + second;
    calc {
      Project((x + y) + bu, gid);
      { assert (x + y) + bu == x + (y + bu); ProjectConcat(x, y + bu, gid); }
      Project(x, gid) + Project(y + bu, gid);
      Project(x, gid) + (Project(bt, gid) + Addressed(second, w));
      (Project(x, gid) + Project(bt, gid)) + Addressed(second, w);
      { ProjectConcat(x, bt, gid); }
      Project(bs, gid) + Addressed(first, w) + Addressed(second, w);
      { AddressedConcat(first, second, w); }
      Project(bs, gid) + Addressed(first + second, w);
    }
  }

  /**
   * Exact delivery within one process lifetime: for every wallet and group, everything fetched so
   * far followed by the current mailbox, restricted to the group, is what waited at the start
   * followed by the log accepted since, each envelope as often as its recipients name the wallet.
   */
  lemma {:induction false} ExactDelivery(c: Crypto, s: Relay, ops: seq<Op>, w: Wallet, gid: GroupId)
    requires OneLifetime(ops)
    ensures DeliversExactly(s, Exec(c, s, ops), Fetched(c, s, ops, w), w, gid)
  {
    hide Step, DeliversExactly, FetchedBy;
    if ops == [] {
      NothingDelivered(s, s, w, gid);
    } else {
      var before, op := ops[..|ops| - 1], ops[|ops| - 1];
      var t := Exec(c, s, before);
      ExactDelivery(c, s, before, w, gid);
      StepDelivers(c, t, op, w, gid);
      DeliveryComposes(s, t, Exec(c, s, ops), Fetched(c, s, before, w), FetchedBy(c, t, op, w), w, gid);
    }
  }

  /** A process starts with empty mailboxes, so a whole lifetime delivers exactly the log accepted in it. */
  lemma LifetimeDelivery(c: Crypto, s: Relay, ops: seq<Op>, w: Wallet, gid: GroupId)
    requires OneLifetime(ops) && s.mailboxes == map[]
    ensures var s' := Exec(c, s, ops);
            && LogOf(s, gid) <= LogOf(s', gid)
            && Project(Fetched(c, s, ops, w) + Mailbox(s'.mailboxes, w), gid) == Addressed(Growth(s, s', gid), w)
  {
    hide Step, FetchedBy;
    ExactDelivery(c, s, ops, w, gid);
    var tail := Addressed(Growth(s, Exec(c, s, ops), gid), w);
    assert [] + tail == tail;
  }

  /** Whoever is named by a newly accepted envelope is on the roster when it is accepted. */
  lemma RecipientsOnRoster(c: Crypto, s: Relay, op: Op, gid: GroupId, i: nat)
    requires |LogOf(s, gid)| <= i < |LogOf(Step(c, s, op).state, gid)|
    ensures op.OpSubmit? || op.OpOnboard? || op.OpOffboard?
    ensures var e := LogOf(Step(c, s, op).state, gid)[i];
            && e == op.envelope.(groupSeq := e.groupSeq)
            && e.sender in s.sessions && e.sender in Roster(s, gid)
            && (forall r :: r in e.recipients ==> r in Roster(s, gid) || (op.OpOnboard? && r == op.subject))
  {
    hide Step, FanOut, Authorize;
    match op {
      case OpOnboard(_, _, _, _, _, _, _) => OnboardedRecipients(c, s, op, gid, i);
      case OpOffboard(_, _, _, _, _, _, _) => OffboardedRecipients(c, s, op, gid, i);
      case OpSubmit(_, _, _) => SubmittedRecipients(c, s, op, gid, i);
      case OpFetch(_) => QuietStep(c, s, op); assert false;
      case OpRestart(_) => QuietStep(c, s, op); assert false;
      case _ => QuietDelivers(c, s, op, gid); assert false;
    }
  }

  lemma OnboardedRecipients(c: Crypto, s: Relay, op: Op, gid: GroupId, i: nat)
    requires op.OpOnboard? && |LogOf(s, gid)| <= i < |LogOf(Step(c, s, op).state, gid)|
    ensures var e := LogOf(Step(c, s, op).state, gid)[i];
            && e == op.envelope.(groupSeq := e.groupSeq)
            && e.sender in s.sessions && e.sender in Roster(s, gid)
            && (forall r :: r in e.recipients ==> r in Roster(s, gid) || r == op.subject)
  {
    hide Step, FanOut, Authorize;
    if Step(c, s, op).reply.Refused? {
      OnboardRefused(c, s, op);
      assert false;
    }
    OnboardAccepted(c, s, op);
    OnboardEffect(c, s, op);
  }

  lemma OffboardedRecipients(c: Crypto, s: Relay, op: Op, gid: GroupId, i: nat)
    requires op.OpOffboard? && |LogOf(s, gid)| <= i < |LogOf(Step(c, s, op).state, gid)|
    ensures var e := LogOf(Step(c, s, op).state, gid)[i];
            && e == op.envelope.(groupSeq := e.groupSeq)
            && e.sender in s.sessions && e.sender in Roster(s, gid)
            && (forall r :: r in e.recipients ==> r in Roster(s, gid))
  {
    hide Step, FanOut, Authorize;
    if Step(c, s, op).reply.Refused? {
      OffboardRefused(c, s, op);
      assert false;
    }
    OffboardAccepted(c, s, op);
    OffboardEffect(c, s, op);
    if Admit(c, s, op.envelope) == Accept { DeliverEffect(c, s, op.envelope, op.now); }
  }

  lemma SubmittedRecipients(c: Crypto, s: Relay, op: Op, gid: GroupId, i: nat)
    requires op.OpSubmit? && |LogOf(s, gid)| <= i < |LogOf(Step(c, s, op).state, gid)|
    ensures var e := LogOf(Step(c, s, op).state, gid)[i];
            && e == op.envelope.(groupSeq := e.groupSeq)
            && e.sender in s.sessions && e.sender in Roster(s, gid)
            && (forall r :: r in e.recipients ==> r in Roster(s, gid))
  {
    hide RegisterGroup, PublishKeyPackage, RedeemInvite, Onboard, Offboard, FanOut;
    if Admit(c, s, op.envelope) == Accept { DeliverEffect(c, s, op.envelope, op.now); }
  }
}
