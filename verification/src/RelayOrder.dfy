/**
 * What every reachable state keeps: a total order per group, contiguous epochs with one Commit
 * each, and an audit chain that verifies and agrees with every log.
 */
module RelayOrder {
  import opened Common
  import opened Bytes
  import opened Proto
  import opened Audit
  import opened RelayState
  import opened RelaySteps
  import opened RelayEffects

  // Reference definitions, read off a log or a chain alone

  function UpTo(n: nat): seq<nat>
  {
    if n == 0 then [] else UpTo(n - 1) + [n]
  }

  /** The epochs of the Commits in a log, in log order. */
  function CommitEpochs(log: seq<Envelope>): seq<nat>
  {
    if log == [] then []
    else
      var rest, e := log[..|log| - 1], log[|log| - 1];
      if e.kind == Commit then CommitEpochs(rest) + [e.epoch] else CommitEpochs(rest)
  }

  /** Each committed epoch with the hash of its Commit. */
  function CommitTable(c: Crypto, log: seq<Envelope>): map<nat, Digest>
  {
    if log == [] then map[]
    else
      var rest, e := log[..|log| - 1], log[|log| - 1];
      if e.kind == Commit then CommitTable(c, rest)[e.epoch := c.blake3(e.ciphertext)] else CommitTable(c, rest)
  }

  /** The receipts of a group, in chain order. */
  function Receipts(records: seq<Record>, gid: GroupId): seq<Event>
  {
    if records == [] then []
    else
      var rest, event := records[..|records| - 1], records[|records| - 1].event;
      if event.EnvelopeReceipt? && event.groupId == gid then Receipts(rest, gid) + [event] else Receipts(rest, gid)
  }

  /** The receipts a log calls for: entry `i` with sequence number `i`. */
  function ReceiptsFor(c: Crypto, log: seq<Envelope>): seq<Event>
  {
    if log == [] then []
    else ReceiptsFor(c, log[..|log| - 1]) + [ReceiptOf(c, log[|log| - 1], |log| - 1)]
  }

  /** The creator named by the earliest creation record of a group. */
  function FirstCreator(records: seq<Record>, gid: GroupId): Option<Wallet>
  {
    if records == [] then None
    else
      var earlier, event := FirstCreator(records[..|records| - 1], gid), records[|records| - 1].event;
      if earlier.Some? then earlier
      else if event.GroupCreated? && event.groupId == gid then Some(event.creator)
      else None
  }

  // The invariant

  predicate Ordered(c: Crypto, gid: GroupId, g: Group)
  {
    && g.nextSeq == |g.log|
    && (forall i :: 0 <= i < |g.log| ==> g.log[i].groupSeq == Some(i) && g.log[i].groupId == gid)
    && CommitEpochs(g.log) == UpTo(g.epoch)
    && g.accepted == CommitTable(c, g.log)
  }

  ghost predicate Agrees(c: Crypto, records: seq<Record>, groups: map<GroupId, Group>, gid: GroupId)
  {
    && Receipts(records, gid) == ReceiptsFor(c, if gid in groups then groups[gid].log else [])
    && FirstCreator(records, gid) == (if gid in groups then groups[gid].creator else None)
    && (gid in groups ==> groups[gid].creator.Some?)
  }

  ghost predicate Consistent(c: Crypto, records: Chain, groups: map<GroupId, Group>)
  {
    && (forall gid :: gid in groups ==> Ordered(c, gid, groups[gid]))
    && Valid(c.link, records)
    && (forall gid: GroupId :: Agrees(c, records, groups, gid))
  }

  ghost predicate Inv(c: Crypto, s: Relay)
  {
    Consistent(c, s.audit, s.groups)
  }

  // Facts about the reference definitions

  lemma {:induction false} UpToContents(n: nat, k: nat)
    ensures |UpTo(n)| == n
    ensures k in UpTo(n) <==> 1 <= k <= n
  {
    if n > 0 { UpToContents(n - 1, k); }
  }

  lemma {:induction false} TableKeys(c: Crypto, log: seq<Envelope>, k: nat)
    ensures k in CommitTable(c, log) <==> k in CommitEpochs(log)
  {
    if log != [] { TableKeys(c, log[..|log| - 1], k); }
  }

  /** The epochs with an accepted Commit are exactly 1 to the current epoch. */
  lemma AcceptedEpochs(c: Crypto, gid: GroupId, g: Group, k: nat)
    requires Ordered(c, gid, g)
    ensures k in g.accepted <==> 1 <= k <= g.epoch
  {
    TableKeys(c, g.log, k);
    UpToContents(g.epoch, k);
  }

  /** Every stored Commit is the one its epoch accepted. */
  lemma {:induction false} StoredCommitIsAccepted(c: Crypto, log: seq<Envelope>, n: nat, i: nat)
    requires CommitEpochs(log) == UpTo(n)
    requires i < |log| && log[i].kind == Commit
    ensures 1 <= log[i].epoch <= n
    ensures log[i].epoch in CommitTable(c, log) && CommitTable(c, log)[log[i].epoch] == c.blake3(log[i].ciphertext)
    decreases |log|
  {
    var rest, e := log[..|log| - 1], log[|log| - 1];
    UpToContents(n, n);
    if e.kind == Commit {
      assert CommitEpochs(rest) == UpTo(n - 1) && e.epoch == n by {
        assert CommitEpochs(rest) + [e.epoch] == UpTo(n - 1) + [n];
        assert (CommitEpochs(rest) + [e.epoch])[..|CommitEpochs(rest)|] == CommitEpochs(rest);
        assert (UpTo(n - 1) + [n])[..|UpTo(n - 1)|] == UpTo(n - 1);
      }
    }
    if i < |log| - 1 {
      StoredCommitIsAccepted(c, rest, if e.kind == Commit then n - 1 else n, i);
    }
  }

  /** A committed epoch is found again at the position of its Commit. */
  lemma {:induction false} PriorSeqFinds(log: seq<Envelope>, k: nat) returns (i: nat)
    requires k in CommitEpochs(log)
    ensures i < |log| && log[i].kind == Commit && log[i].epoch == k
    ensures PriorSeq(log, k) == log[i].groupSeq
  {
    if log[0].kind == Commit && log[0].epoch == k {
      i := 0;
    } else {
      EpochsSplit(log);
      i := PriorSeqFinds(log[1..], k);
      i := i + 1;
    }
  }

  lemma {:induction false} EpochsSplit(log: seq<Envelope>)
    requires log != []
    ensures CommitEpochs(log) == (if log[0].kind == Commit then [log[0].epoch] else []) + CommitEpochs(log[1..])
  {
    if |log| > 1 {
      var rest := log[..|log| - 1];
      EpochsSplit(rest);
      assert rest[1..] == log[1..][..|log| - 2];
    } else {
      assert log[..0] == [] && log[1..] == [];
    }
  }

  // Preservation

  lemma AcceptingKeepsOrder(c: Crypto, gid: GroupId, g: Group, e: Envelope)
    requires Ordered(c, gid, g) && e.groupId == gid
    requires e.kind == Commit ==> e.epoch == g.epoch + 1
    ensures Ordered(c, gid, Accepting(c, g, e))
  {
    var g' := Accepting(c, g, e);
    assert g'.log[..|g'.log| - 1] == g.log;
  }

  lemma CommitAccepted(c: Crypto, s: Relay, e: Envelope)
    requires Admit(c, s, e) == Accept && e.kind == Commit
    ensures e.groupId in s.groups && e.epoch == s.groups[e.groupId].epoch + 1
  {
  }

  predicate Quiet(event: Event)
  {
    !event.EnvelopeReceipt? && !event.GroupCreated?
  }

  lemma QuietAppend(c: Crypto, records: Chain, groups: map<GroupId, Group>, event: Event, now: nat)
    requires Consistent(c, records, groups) && Quiet(event)
    ensures Consistent(c, Appended(c.link, records, event, now), groups)
  {
    var longer := Appended(c.link, records, event, now);
    AppendKeepsValid(c.link, records, event, now);
    assert longer[..|longer| - 1] == records;
    forall gid: GroupId ensures Agrees(c, longer, groups, gid) {
      assert Agrees(c, records, groups, gid);
    }
  }

  lemma AcceptedAppend(c: Crypto, records: Chain, groups: map<GroupId, Group>, e: Envelope, now: nat)
    requires Consistent(c, records, groups) && e.groupId in groups
    requires e.kind == Commit ==> e.epoch == groups[e.groupId].epoch + 1
    ensures var g := groups[e.groupId];
            Consistent(c, Appended(c.link, records, ReceiptOf(c, e, g.nextSeq), now),
                       groups[e.groupId := Accepting(c, g, e)])
  {
    var gid, g := e.groupId, groups[e.groupId];
    var longer := Appended(c.link, records, ReceiptOf(c, e, g.nextSeq), now);
    var groups' := groups[gid := Accepting(c, g, e)];
    AcceptingKeepsOrder(c, gid, g, e);
    AppendKeepsValid(c.link, records, ReceiptOf(c, e, g.nextSeq), now);
    assert longer[..|longer| - 1] == records;
    forall other: GroupId ensures Agrees(c, longer, groups', other) {
      assert Agrees(c, records, groups, other);
      if other == gid {
        ReceiptsForStamped(c, g, e);
      }
    }
  }

  lemma ReceiptsForStamped(c: Crypto, g: Group, e: Envelope)
    requires g.nextSeq == |g.log|
    ensures ReceiptsFor(c, Accepting(c, g, e).log) == ReceiptsFor(c, g.log) + [ReceiptOf(c, e, g.nextSeq)]
  {
    var log := Accepting(c, g, e).log;
    assert log[..|log| - 1] == g.log;
  }

  lemma CreatedAppend(c: Crypto, records: Chain, groups: map<GroupId, Group>, gid: GroupId, creator: Wallet, now: nat)
    requires Consistent(c, records, groups) && gid !in groups
    ensures Consistent(c, Appended(c.link, records, GroupCreated(gid, creator), now), groups[gid := NewGroup(creator)])
  {
    var longer, groups' := Appended(c.link, records, GroupCreated(gid, creator), now), groups[gid := NewGroup(creator)];
    AppendKeepsValid(c.link, records, GroupCreated(gid, creator), now);
    assert longer[..|longer| - 1] == records;
    assert Ordered(c, gid, NewGroup(creator));
    forall other: GroupId ensures Agrees(c, longer, groups', other) {
      assert Agrees(c, records, groups, other);
    }
  }

  /** Touching only a roster, a tree or generations keeps the invariant. */
  predicate SameHistory(g: Group, g': Group)
  {
    && g'.log == g.log && g'.nextSeq == g.nextSeq && g'.epoch == g.epoch
    && g'.accepted == g.accepted && g'.creator == g.creator
  }

  lemma Touched(c: Crypto, records: Chain, groups: map<GroupId, Group>, gid: GroupId, g': Group)
    requires Consistent(c, records, groups) && gid in groups && SameHistory(groups[gid], g')
    ensures Consistent(c, records, groups[gid := g'])
  {
    var groups' := groups[gid := g'];
    forall other: GroupId ensures Agrees(c, records, groups', other) {
      assert Agrees(c, records, groups, other);
    }
  }

  lemma SubmitKeepsInv(c: Crypto, s: Relay, authed: Wallet, e: Envelope, now: nat)
    requires Inv(c, s)
    ensures Inv(c, SubmitAs(c, s, authed, e, now).state)
  {
    hide Consistent;
    if e.sender == authed && Admit(c, s, e) == Accept {
      if e.kind == Commit { CommitAccepted(c, s, e); }
      AcceptedAppend(c, s.audit, s.groups, e, now);
      DeliverEffect(c, s, e, now);
    }
  }

  lemma SubmitStepKeepsInv(c: Crypto, s: Relay, op: Op)
    requires Inv(c, s) && op.OpSubmit?
    ensures Inv(c, Step(c, s, op).state)
  {
    hide SubmitAs, Consistent;
    SubmitKeepsInv(c, s, op.wallet, op.envelope, op.now);
  }

  lemma OnboardKeepsInv(c: Crypto, s: Relay, op: Op)
    requires Inv(c, s) && op.OpOnboard?
    ensures Inv(c, Step(c, s, op).state)
  {
    hide Step, Consistent, Admit, FanOut, Appended, ReceiptOf;
    if Step(c, s, op).reply.Refused? {
      OnboardRefused(c, s, op);
    } else {
      OnboardEffect(c, s, op);
      var gid, added := op.groupId, WithJoiner(s, op.groupId, op.subject);
      var g := added.groups[gid];
      Touched(c, s.audit, s.groups, gid, g);
      AcceptedAppend(c, s.audit, added.groups, op.envelope, op.now);
      var chain := Appended(c.link, s.audit, ReceiptOf(c, op.envelope, g.nextSeq), op.now);
      var g' := Accepting(c, g, op.envelope);
      var groups' := added.groups[gid := g'];
      Touched(c, chain, groups', gid, g'.(tree := op.tree));
      QuietAppend(c, chain, groups'[gid := g'.(tree := op.tree)], MemberAdded(gid, op.subject, g.epoch), op.now);
      assert Step(c, s, op).state.groups == groups'[gid := g'.(tree := op.tree)];
    }
  }

  lemma OffboardKeepsInv(c: Crypto, s: Relay, op: Op)
    requires Inv(c, s) && op.OpOffboard?
    ensures Inv(c, Step(c, s, op).state)
  {
    hide Step, Consistent, Admit, Appended, Deliver;
    if Step(c, s, op).reply.Refused? {
      OffboardRefused(c, s, op);
    } else {
      OffboardEffect(c, s, op);
      SubmitKeepsInv(c, s, op.admin, op.envelope, op.now);
      var gid, o := op.groupId, SubmitAs(c, s, op.admin, op.envelope, op.now).state;
      var g' := o.groups[gid];
      var g'' := EndMembership(g', op.subject).(tree := op.tree);
      Touched(c, o.audit, o.groups, gid, g'');
      QuietAppend(c, o.audit, o.groups[gid := g''], MemberRemoved(gid, op.subject, g'.epoch), op.now);
      var noted := Appended(c.link, o.audit, MemberRemoved(gid, op.subject, g'.epoch), op.now);
      QuietAppend(c, noted, o.groups[gid := g''], RoleRevoked(op.subject, Some(gid)), op.now);
    }
  }

  lemma RegisterKeepsInv(c: Crypto, s: Relay, op: Op)
    requires Inv(c, s) && op.OpRegisterGroup?
    ensures Inv(c, Step(c, s, op).state)
  {
    hide Consistent;
    if !Step(c, s, op).reply.Refused? {
      CreatedAppend(c, s.audit, s.groups, op.groupId, op.wallet, op.now);
    }
  }

  lemma PublishKeepsInv(c: Crypto, s: Relay, op: Op)
    requires Inv(c, s) && op.OpPublishKeyPackage?
    ensures Inv(c, Step(c, s, op).state)
  {
    hide Consistent, Step;
    PublishEffect(c, s, op);
    if !Step(c, s, op).reply.Refused? {
      var p := op.publication;
      QuietAppend(c, s.audit, s.groups, KeyPackagePublished(p.wallet, c.blake3(p.keyPackage)), op.now);
    }
  }

  lemma RedeemKeepsInv(c: Crypto, s: Relay, op: Op)
    requires Inv(c, s) && op.OpRedeemInvite?
    ensures Inv(c, Step(c, s, op).state)
  {
    hide Consistent;
    if !Step(c, s, op).reply.Refused? {
      var gid := op.groupId;
      Touched(c, s.audit, s.groups, gid, s.groups[gid].(members := s.groups[gid].members + {op.wallet}));
    }
  }

  lemma StepKeepsInv(c: Crypto, s: Relay, op: Op)
    requires Inv(c, s)
    ensures Inv(c, Step(c, s, op).state)
  {
    hide Consistent, Step;
    match op {
      case OpRegisterGroup(_, _, _) => RegisterKeepsInv(c, s, op);
      case OpOnboard(_, _, _, _, _, _, _) => OnboardKeepsInv(c, s, op);
      case OpOffboard(_, _, _, _, _, _, _) => OffboardKeepsInv(c, s, op);
      case OpSubmit(_, _, _) => SubmitStepKeepsInv(c, s, op);
      case OpPublishKeyPackage(_, _) => PublishKeepsInv(c, s, op);
      case OpRedeemInvite(_, _, _, _, _) => RedeemKeepsInv(c, s, op);
      case _ => QuietStep(c, s, op);
    }
  }

  lemma InitialInv(c: Crypto, domain: string, owner: Wallet, genesis: nat, durable: bool)
    ensures Inv(c, Initial(c, domain, owner, genesis, durable))
  {
    var s := Initial(c, domain, owner, genesis, durable);
    StartedIsValid(c.link, genesis);
    assert s.audit[..0] == [];
    forall gid: GroupId ensures Agrees(c, s.audit, s.groups, gid) {
      assert Receipts(s.audit[..0], gid) == [] && FirstCreator(s.audit[..0], gid) == None;
    }
  }

  lemma {:induction false} RunKeepsInv(c: Crypto, s: Relay, ops: seq<Op>)
    requires Inv(c, s)
    ensures Inv(c, Exec(c, s, ops))
  {
    hide Step;
    hide Inv;
    if ops != [] {
      RunKeepsInv(c, s, ops[..|ops| - 1]);
      StepKeepsInv(c, Exec(c, s, ops[..|ops| - 1]), ops[|ops| - 1]);
    }
  }

  /**
   * Total order, contiguous epochs and an agreeing audit chain, in every reachable state of
   * every run: entry `i` carries sequence `i`, the Commits carry epochs 1 to the current one in
   * that order, the acceptance table holds exactly those epochs with the hashes of those
   * Commits, and the receipts in the verifying chain match the log one for one.
   */
  lemma TotalOrder(c: Crypto, domain: string, owner: Wallet, genesis: nat, durable: bool, ops: seq<Op>, gid: GroupId)
    ensures var s := Exec(c, Initial(c, domain, owner, genesis, durable), ops);
            && Valid(c.link, s.audit)
            && |Receipts(s.audit, gid)| == |LogOf(s, gid)|
            && (forall i :: 0 <= i < |LogOf(s, gid)| ==>
                  IsReceipt(c, gid, Receipts(s.audit, gid)[i], LogOf(s, gid)[i], i))
            && FirstCreator(s.audit, gid) == (if gid in s.groups then s.groups[gid].creator else None)
            && (gid in s.groups ==> OrderedOutright(c, gid, s.groups[gid]))
  {
    hide Step, Initial;
    var s := Exec(c, Initial(c, domain, owner, genesis, durable), ops);
    InitialInv(c, domain, owner, genesis, durable);
    RunKeepsInv(c, Initial(c, domain, owner, genesis, durable), ops);
    assert Agrees(c, s.audit, s.groups, gid);
    ReceiptsSpelledOut(c, LogOf(s, gid));
    if gid in s.groups {
      assert Ordered(c, gid, s.groups[gid]);
      OrderSpelledOut(c, gid, s.groups[gid]);
    }
  }

  /** The event is the receipt of log entry `e` of a group at place `i`, field by field. */
  predicate IsReceipt(c: Crypto, gid: GroupId, event: Event, e: Envelope, i: nat)
  {
    && event.EnvelopeReceipt? && event.groupId == gid && event.groupSeq == i
    && event.epoch == e.epoch && event.sender == e.sender && event.kind == e.kind
    && event.ciphertextHash == c.blake3(e.ciphertext) && event.size == |e.ciphertext|
  }

  lemma {:induction false} ReceiptsSpelledOut(c: Crypto, log: seq<Envelope>)
    ensures |ReceiptsFor(c, log)| == |log|
    ensures forall i :: 0 <= i < |log| ==> IsReceipt(c, log[i].groupId, ReceiptsFor(c, log)[i], log[i], i)
  {
    if log != [] { ReceiptsSpelledOut(c, log[..|log| - 1]); }
  }

  /** The creator of a group is the one its earliest creation record names. */
  lemma FirstCreatorExactly(records: seq<Record>, gid: GroupId, w: Wallet)
    ensures FirstCreator(records, gid) == Some(w) <==> exists i :: 0 <= i < |records| && Creates(records, i, gid, w)
    ensures FirstCreator(records, gid) == None
       <==> forall i :: 0 <= i < |records| ==> !CreatesAny(records[i].event, gid)
  {
    hide Creates, CreatesAny;
    NoCreator(records, gid);
    if FirstCreator(records, gid) == Some(w) {
      var i := CreatorFound(records, gid);
    }
    if i :| 0 <= i < |records| && Creates(records, i, gid, w) {
      CreatorKept(records, gid, i, w);
    }
  }

  lemma {:induction false} NoCreator(records: seq<Record>, gid: GroupId)
    ensures FirstCreator(records, gid) == None
       <==> forall i :: 0 <= i < |records| ==> !CreatesAny(records[i].event, gid)
  {
    if records != [] {
      var before, last := records[..|records| - 1], records[|records| - 1];
      NoCreator(before, gid);
      assert records == before + [last];
    }
  }

  lemma {:induction false} CreatorFound(records: seq<Record>, gid: GroupId) returns (i: nat)
    requires FirstCreator(records, gid).Some?
    ensures i < |records| && Creates(records, i, gid, FirstCreator(records, gid).value)
  {
    var before := records[..|records| - 1];
    if FirstCreator(before, gid).Some? {
      i := CreatorFound(before, gid);
      assert forall j :: 0 <= j <= i ==> records[j] == before[j];
    } else {
      i := |records| - 1;
      NoCreator(before, gid);
      assert forall j :: 0 <= j < i ==> records[j] == before[j];
    }
  }

  lemma {:induction false} CreatorKept(records: seq<Record>, gid: GroupId, i: nat, w: Wallet)
    requires i < |records| && Creates(records, i, gid, w)
    ensures FirstCreator(records, gid) == Some(w)
  {
    var before := records[..|records| - 1];
    assert forall j :: 0 <= j < |before| ==> records[j] == before[j];
    if i < |before| {
      CreatorKept(before, gid, i, w);
    } else {
      NoCreator(before, gid);
    }
  }

  predicate CreatesAny(event: Event, gid: GroupId)
  {
    event.GroupCreated? && event.groupId == gid
  }

  /** Record `i` is the first to create the group, and names `w`. */
  predicate Creates(records: seq<Record>, i: nat, gid: GroupId, w: Wallet)
    requires i < |records|
  {
    records[i].event == GroupCreated(gid, w) && forall j :: 0 <= j < i ==> !CreatesAny(records[j].event, gid)
  }

  ghost predicate OrderedOutright(c: Crypto, gid: GroupId, g: Group)
  {
    && g.nextSeq == |g.log|
    && (forall i :: 0 <= i < |g.log| ==> g.log[i].groupSeq == Some(i) && g.log[i].groupId == gid)
    && CommitEpochs(g.log) == UpTo(g.epoch)
    && (forall k: nat :: k in g.accepted <==> 1 <= k <= g.epoch)
    && (forall i :: 0 <= i < |g.log| && g.log[i].kind == Commit ==>
          g.log[i].epoch in g.accepted && g.accepted[g.log[i].epoch] == c.blake3(g.log[i].ciphertext))
  }

  lemma OrderSpelledOut(c: Crypto, gid: GroupId, g: Group)
    requires Ordered(c, gid, g)
    ensures OrderedOutright(c, gid, g)
  {
    forall k: nat ensures k in g.accepted <==> 1 <= k <= g.epoch { AcceptedEpochs(c, gid, g, k); }
    forall i | 0 <= i < |g.log| && g.log[i].kind == Commit
      ensures g.log[i].epoch in g.accepted && g.accepted[g.log[i].epoch] == c.blake3(g.log[i].ciphertext)
    {
      StoredCommitIsAccepted(c, g.log, g.epoch, i);
    }
  }
}
