/** Where every roster change comes from, what an offboard does, and that it ends authority for good. */
module RelayAuthority {
  import opened Common
  import opened Bytes
  import opened Proto
  import opened Audit
  import opened Rbac
  import opened RelayState
  import opened RelaySteps
  import opened RelayEffects
  import opened RelayOrder
  import opened RelayHistory

  /** The three sources of authority over a group's membership. */
  predicate Authorized(c: Crypto, s: Relay, gid: GroupId, w: Wallet, assertion: Option<Assertion>, cap: Capability,
                       now: nat)
  {
    gid in s.groups &&
    var k := Generation(s.groups[gid], w);
    || w == s.owner
    || (s.groups[gid].creator == Some(w) && k == 0)
    || (assertion.Some? && OwnerGranted(c.grant, assertion.value, w, s.owner, gid, k, now)
        && Can(assertion.value.grant.role, cap))
  }

  lemma AuthorizeExactly(c: Crypto, s: Relay, gid: GroupId, w: Wallet, assertion: Option<Assertion>, cap: Capability,
                         now: nat)
    ensures Authorize(c, s, gid, w, assertion, cap, now).Ok? <==> Authorized(c, s, gid, w, assertion, cap, now)
  {
    if assertion.Some? && gid in s.groups {
      GrantAcceptedExactly(c.grant, assertion.value, w, s.owner, gid, Generation(s.groups[gid], w), now);
    }
  }

  /** A session-holding member of the group with authority for `cap` asked for it. */
  predicate Entitled(c: Crypto, s: Relay, op: Op, cap: Capability)
    requires op.OpOnboard? || op.OpOffboard?
  {
    && op.admin in s.sessions
    && op.admin in Roster(s, op.groupId)
    && Authorized(c, s, op.groupId, op.admin, op.assertion, cap, op.now)
  }

  /** Why `w` may appear on the roster of `gid`. */
  predicate MayAppear(c: Crypto, s: Relay, op: Op, gid: GroupId, w: Wallet)
  {
    match op
    case OpRegisterGroup(g, creator, _) => g == gid && w == creator && creator in s.sessions && gid !in s.groups
    case OpRedeemInvite(joiner, g, token, _, now) =>
      && g == gid && w == joiner && c.blake3(token) in s.invites
      && var i := s.invites[c.blake3(token)]; i.groupId == gid && !i.consumed && !i.revoked && now <= i.expiresAt
    case OpOnboard(g, _, _, subject, _, _, _) => g == gid && w == subject && Entitled(c, s, op, AddMember)
    case _ => false
  }

  /** Why `w` may leave the roster of `gid`. */
  predicate MayLeave(c: Crypto, s: Relay, op: Op, gid: GroupId, w: Wallet)
  {
    && op.OpOffboard? && op.groupId == gid && op.subject == w
    && Entitled(c, s, op, RemoveMember)
    && (w == s.owner ==> op.admin == s.owner)
  }

  lemma OnboardProvenance(c: Crypto, s: Relay, op: Op, gid: GroupId, w: Wallet)
    requires op.OpOnboard?
    ensures w in Roster(Step(c, s, op).state, gid) && w !in Roster(s, gid) ==> MayAppear(c, s, op, gid, w)
    ensures w in Roster(s, gid) ==> w in Roster(Step(c, s, op).state, gid)
  {
    hide Step, Admit, FanOut, Authorize, Authorized;
    if Step(c, s, op).reply.Refused? {
      OnboardRefused(c, s, op);
    } else {
      OnboardEffect(c, s, op);
      AuthorizeExactly(c, s, op.groupId, op.admin, op.assertion, AddMember, op.now);
    }
  }

  lemma SubmitKeepsRosters(c: Crypto, s: Relay, authed: Wallet, e: Envelope, now: nat, gid: GroupId)
    ensures Roster(SubmitAs(c, s, authed, e, now).state, gid) == Roster(s, gid)
  {
    if e.sender == authed && Admit(c, s, e) == Accept { DeliverEffect(c, s, e, now); }
  }

  lemma OffboardProvenance(c: Crypto, s: Relay, op: Op, gid: GroupId, w: Wallet)
    requires op.OpOffboard?
    ensures w in Roster(s, gid) && w !in Roster(Step(c, s, op).state, gid) ==> MayLeave(c, s, op, gid, w)
    ensures w in Roster(Step(c, s, op).state, gid) ==> w in Roster(s, gid)
  {
    hide Step, Admit, SubmitAs, Authorize, Authorized;
    if Step(c, s, op).reply.Refused? {
      OffboardRefused(c, s, op);
    } else {
      OffboardEffect(c, s, op);
      SubmitKeepsRosters(c, s, op.admin, op.envelope, op.now, gid);
      AuthorizeExactly(c, s, op.groupId, op.admin, op.assertion, RemoveMember, op.now);
    }
  }

  lemma OtherRosterSteps(c: Crypto, s: Relay, op: Op, gid: GroupId, w: Wallet)
    requires op.OpRegisterGroup? || op.OpRedeemInvite? || op.OpSubmit?
    ensures w in Roster(Step(c, s, op).state, gid) && w !in Roster(s, gid) ==> MayAppear(c, s, op, gid, w)
    ensures w in Roster(s, gid) ==> w in Roster(Step(c, s, op).state, gid)
  {
    hide Onboard, Offboard, SubmitAs, PublishKeyPackage;
    if op.OpSubmit? { SubmitKeepsRosters(c, s, op.wallet, op.envelope, op.now, gid); }
  }

  /** A wallet appears on or leaves a roster only for one of the reasons above, in any state. */
  lemma RosterProvenance(c: Crypto, s: Relay, op: Op, gid: GroupId, w: Wallet)
    ensures w in Roster(Step(c, s, op).state, gid) && w !in Roster(s, gid) ==> MayAppear(c, s, op, gid, w)
    ensures w in Roster(s, gid) && w !in Roster(Step(c, s, op).state, gid) ==> MayLeave(c, s, op, gid, w)
  {
    hide Step, MayAppear, MayLeave, Queue;
    match op {
      case OpOnboard(_, _, _, _, _, _, _) => OnboardProvenance(c, s, op, gid, w);
      case OpOffboard(_, _, _, _, _, _, _) => OffboardProvenance(c, s, op, gid, w);
      case OpRegisterGroup(_, _, _) => OtherRosterSteps(c, s, op, gid, w);
      case OpRedeemInvite(_, _, _, _, _) => OtherRosterSteps(c, s, op, gid, w);
      case OpSubmit(_, _, _) => OtherRosterSteps(c, s, op, gid, w);
      case OpPublishKeyPackage(_, _) => PublishEffect(c, s, op);
      case _ => QuietStep(c, s, op);
    }
  }

  // Generations count offboards

  function GenerationAt(s: Relay, gid: GroupId, w: Wallet): nat
  {
    if gid in s.groups then Generation(s.groups[gid], w) else 0
  }

  /** Operation `op` offboards `w` from `gid`. */
  predicate Offboards(c: Crypto, s: Relay, op: Op, gid: GroupId, w: Wallet)
  {
    op.OpOffboard? && op.groupId == gid && op.subject == w && !Step(c, s, op).reply.Refused?
  }

  function OffboardCount(c: Crypto, s: Relay, ops: seq<Op>, gid: GroupId, w: Wallet): nat
  {
    if ops == [] then 0
    else
      var before := ops[..|ops| - 1];
      OffboardCount(c, s, before, gid, w) + if Offboards(c, Exec(c, s, before), ops[|ops| - 1], gid, w) then 1 else 0
  }

  function Saturated(n: nat): nat
  {
    if n < U64_MAX then n else U64_MAX
  }

  lemma SubmitKeepsGenerations(c: Crypto, s: Relay, authed: Wallet, e: Envelope, now: nat, gid: GroupId, w: Wallet)
    ensures GenerationAt(SubmitAs(c, s, authed, e, now).state, gid, w) == GenerationAt(s, gid, w)
  {
    if e.sender == authed && Admit(c, s, e) == Accept { DeliverEffect(c, s, e, now); }
  }

  lemma OnboardKeepsGenerations(c: Crypto, s: Relay, op: Op, gid: GroupId, w: Wallet)
    requires op.OpOnboard?
    ensures GenerationAt(Step(c, s, op).state, gid, w) == GenerationAt(s, gid, w)
  {
    hide Step, Admit, FanOut, Authorize;
    if Step(c, s, op).reply.Refused? { OnboardRefused(c, s, op); } else { OnboardEffect(c, s, op); }
  }

  lemma OffboardBumps(c: Crypto, s: Relay, op: Op, gid: GroupId, w: Wallet)
    requires op.OpOffboard? && GenerationAt(s, gid, w) <= U64_MAX
    ensures GenerationAt(Step(c, s, op).state, gid, w)
         == Saturated(GenerationAt(s, gid, w) + if Offboards(c, s, op, gid, w) then 1 else 0)
  {
    hide Step, Admit, SubmitAs, Authorize;
    if Step(c, s, op).reply.Refused? {
      OffboardRefused(c, s, op);
    } else {
      OffboardEffect(c, s, op);
      SubmitKeepsGenerations(c, s, op.admin, op.envelope, op.now, gid, w);
    }
  }

  lemma OthersKeepGenerations(c: Crypto, s: Relay, op: Op, gid: GroupId, w: Wallet)
    requires op.OpRegisterGroup? || op.OpRedeemInvite? || op.OpSubmit?
    ensures GenerationAt(Step(c, s, op).state, gid, w) == GenerationAt(s, gid, w)
  {
    hide Onboard, Offboard, SubmitAs, PublishKeyPackage;
    if op.OpSubmit? { SubmitKeepsGenerations(c, s, op.wallet, op.envelope, op.now, gid, w); }
  }

  lemma GenerationStep(c: Crypto, s: Relay, op: Op, gid: GroupId, w: Wallet)
    requires GenerationAt(s, gid, w) <= U64_MAX
    ensures GenerationAt(Step(c, s, op).state, gid, w)
         == Saturated(GenerationAt(s, gid, w) + if Offboards(c, s, op, gid, w) then 1 else 0)
  {
    hide Step, Queue;
    match op {
      case OpOnboard(_, _, _, _, _, _, _) => OnboardKeepsGenerations(c, s, op, gid, w);
      case OpOffboard(_, _, _, _, _, _, _) => OffboardBumps(c, s, op, gid, w);
      case OpRegisterGroup(_, _, _) => OthersKeepGenerations(c, s, op, gid, w);
      case OpRedeemInvite(_, _, _, _, _) => OthersKeepGenerations(c, s, op, gid, w);
      case OpSubmit(_, _, _) => OthersKeepGenerations(c, s, op, gid, w);
      case OpPublishKeyPackage(_, _) => PublishEffect(c, s, op);
      case _ => QuietStep(c, s, op);
    }
  }

  /**
   * In every run from the start, a wallet's generation in a group is the number of times it was
   * offboarded from it, up to saturation.
   */
  lemma {:induction false} GenerationCounts(c: Crypto, domain: string, owner: Wallet, genesis: nat, durable: bool,
                                            ops: seq<Op>, gid: GroupId, w: Wallet)
    ensures var s0 := Initial(c, domain, owner, genesis, durable);
            GenerationAt(Exec(c, s0, ops), gid, w) == Saturated(OffboardCount(c, s0, ops, gid, w))
  {
    hide Step, GenerationAt, Offboards;
    var s0 := Initial(c, domain, owner, genesis, durable);
    if ops == [] {
      assert GenerationAt(s0, gid, w) == 0 by { FreshGenerations(c, domain, owner, genesis, durable, gid, w); }
    } else {
      GenerationCounts(c, domain, owner, genesis, durable, ops[..|ops| - 1], gid, w);
      GenerationStep(c, Exec(c, s0, ops[..|ops| - 1]), ops[|ops| - 1], gid, w);
    }
  }

  lemma FreshGenerations(c: Crypto, domain: string, owner: Wallet, genesis: nat, durable: bool, gid: GroupId, w: Wallet)
    ensures GenerationAt(Initial(c, domain, owner, genesis, durable), gid, w) == 0
  {
  }

  /** No operation of the run offboarded `w` from `gid`. */
  ghost predicate NeverOffboarded(c: Crypto, s: Relay, ops: seq<Op>, gid: GroupId, w: Wallet)
  {
    forall i :: 0 <= i < |ops| ==> !Offboards(c, Exec(c, s, ops[..i]), ops[i], gid, w)
  }

  lemma {:induction false} CountsNone(c: Crypto, s: Relay, ops: seq<Op>, gid: GroupId, w: Wallet)
    ensures OffboardCount(c, s, ops, gid, w) == 0 <==> NeverOffboarded(c, s, ops, gid, w)
  {
    hide Offboards, Exec, NeverOffboarded;
    if ops == [] {
      NeverSoFar(c, s, gid, w);
    } else {
      CountsNone(c, s, ops[..|ops| - 1], gid, w);
      NeverSplits(c, s, ops[..|ops| - 1], ops[|ops| - 1], gid, w);
      assert ops == ops[..|ops| - 1] + [ops[|ops| - 1]];
    }
  }

  lemma NeverSoFar(c: Crypto, s: Relay, gid: GroupId, w: Wallet)
    ensures NeverOffboarded(c, s, [], gid, w)
  {
  }

  lemma NeverSplits(c: Crypto, s: Relay, before: seq<Op>, last: Op, gid: GroupId, w: Wallet)
    ensures NeverOffboarded(c, s, before + [last], gid, w)
       <==> NeverOffboarded(c, s, before, gid, w) && !Offboards(c, Exec(c, s, before), last, gid, w)
  {
    hide Offboards, Exec;
    var ops := before + [last];
    forall i | 0 <= i < |before|
      ensures Offboards(c, Exec(c, s, ops[..i]), ops[i], gid, w)
              == Offboards(c, Exec(c, s, before[..i]), before[i], gid, w)
    {
      assert ops[..i] == before[..i];
    }
    assert ops[..|before|] == before && ops[|before|] == last;
  }

  /**
   * Authority read off the history of a run: the owner, the group's creator if it was never
   * offboarded from it, or the subject of a live owner-signed grant issued for exactly as many
   * offboards as the run has seen.
   */
  ghost predicate AuthorizedBy(c: Crypto, s0: Relay, ops: seq<Op>, gid: GroupId, w: Wallet,
                               assertion: Option<Assertion>, cap: Capability, now: nat)
  {
    var s := Exec(c, s0, ops);
    gid in s.groups &&
    ( || w == s0.owner
      || (FirstCreator(s.audit, gid) == Some(w) && NeverOffboarded(c, s0, ops, gid, w))
      || (&& assertion.Some? && Can(assertion.value.grant.role, cap)
          && OwnerGranted(c.grant, assertion.value, w, s0.owner, gid, Saturated(OffboardCount(c, s0, ops, gid, w)),
                          now)))
  }

  /** In every run, the relay authorizes exactly those whom the history of the run authorizes. */
  lemma AuthorityByHistory(c: Crypto, domain: string, owner: Wallet, genesis: nat, durable: bool, ops: seq<Op>,
                           gid: GroupId, w: Wallet, assertion: Option<Assertion>, cap: Capability, now: nat)
    ensures var s0 := Initial(c, domain, owner, genesis, durable);
            && (Authorize(c, Exec(c, s0, ops), gid, w, assertion, cap, now).Ok?
                <==> AuthorizedBy(c, s0, ops, gid, w, assertion, cap, now))
  {
    hide Step, Authorize, GroupExtends, Offboards, NeverOffboarded, OwnerGranted, FirstCreator, OrderedOutright;
    var s0 := Initial(c, domain, owner, genesis, durable);
    var s := Exec(c, s0, ops);
    AuthorizeExactly(c, s, gid, w, assertion, cap, now);
    RunExtends(c, s0, ops);
    TotalOrder(c, domain, owner, genesis, durable, ops, gid);
    GenerationCounts(c, domain, owner, genesis, durable, ops, gid, w);
    CountsNone(c, s0, ops, gid, w);
    assert s0.owner == owner;
  }

  // Sessions

  /** Operation `op` logged `w` in: its message names `w`, and `w` signed it. */
  predicate LogsIn(c: Crypto, s: Relay, op: Op, w: Wallet)
  {
    && op.OpAuthenticate?
    && op.message.nonce in s.nonces
    && op.message.address == w && c.login(op.message, op.signature) == Some(w)
    && op.message.domain == s.domain && op.message.chainId == CITRATE_CHAIN_ID && op.now < op.message.expiration
  }

  lemma SessionStep(c: Crypto, s: Relay, op: Op, w: Wallet)
    ensures w in Step(c, s, op).state.sessions && w !in s.sessions ==> LogsIn(c, s, op, w)
  {
    hide RegisterGroup, PublishKeyPackage, RedeemInvite, SubmitAs, Onboard, Offboard;
    match op {
      case OpOnboard(_, _, _, _, _, _, _) => OrderedFrame(c, s, op);
      case OpOffboard(_, _, _, _, _, _, _) => OrderedFrame(c, s, op);
      case OpSubmit(_, _, _) => OrderedFrame(c, s, op);
      case OpPublishKeyPackage(_, _) => PublishEffect(c, s, op);
      case OpRegisterGroup(_, _, _) => SessionRoster(c, s, op, w);
      case OpRedeemInvite(_, _, _, _, _) => SessionRoster(c, s, op, w);
      case _ =>
    }
  }

  lemma SessionRoster(c: Crypto, s: Relay, op: Op, w: Wallet)
    requires op.OpRegisterGroup? || op.OpRedeemInvite?
    ensures Step(c, s, op).state.sessions == s.sessions
  {
    hide PublishKeyPackage, SubmitAs, Onboard, Offboard;
  }

  /** A wallet with a session logged in with its own signature earlier in the run. */
  lemma {:induction false} SessionProvenance(c: Crypto, s: Relay, ops: seq<Op>, w: Wallet) returns (i: nat)
    requires w in Exec(c, s, ops).sessions && w !in s.sessions
    ensures i < |ops| && LogsIn(c, Exec(c, s, ops[..i]), ops[i], w)
  {
    hide Step, LogsIn;
    var before := ops[..|ops| - 1];
    if w in Exec(c, s, before).sessions {
      i := SessionProvenance(c, s, before, w);
      assert before[..i] == ops[..i];
    } else {
      i := |ops| - 1;
      SessionStep(c, Exec(c, s, before), ops[i], w);
    }
  }

  /**
   * Authority provenance over whole runs: each roster change made by an onboard or offboard was
   * asked for by a member whom the history of the run authorizes, and who logged in with its own
   * signature earlier in the run.
   */
  lemma AuthorityProvenance(c: Crypto, domain: string, owner: Wallet, genesis: nat, durable: bool, ops: seq<Op>, i: nat,
                            gid: GroupId, w: Wallet)
    returns (j: nat)
    requires i < |ops| && (ops[i].OpOnboard? || ops[i].OpOffboard?)
    requires var s := Exec(c, Initial(c, domain, owner, genesis, durable), ops[..i]);
             (w in Roster(s, gid)) != (w in Roster(Step(c, s, ops[i]).state, gid))
    ensures var s := Exec(c, Initial(c, domain, owner, genesis, durable), ops[..i]);
            && ops[i].groupId == gid && ops[i].subject == w
            && Entitled(c, s, ops[i], if ops[i].OpOnboard? then AddMember else RemoveMember)
            && (ops[i].OpOnboard? <==> w !in Roster(s, gid))
            && AuthorizedBy(c, Initial(c, domain, owner, genesis, durable), ops[..i], gid, ops[i].admin,
                            ops[i].assertion, if ops[i].OpOnboard? then AddMember else RemoveMember, ops[i].now)
            && (w == owner && ops[i].OpOffboard? ==> ops[i].admin == owner)
    ensures j < i && LogsIn(c, Exec(c, Initial(c, domain, owner, genesis, durable), ops[..j]), ops[j], ops[i].admin)
  {
    hide Step, LogsIn, Authorized, AuthorizedBy, Authorize, GroupExtends;
    var s0 := Initial(c, domain, owner, genesis, durable);
    var s := Exec(c, s0, ops[..i]);
    RosterProvenance(c, s, ops[i], gid, w);
    var cap := if ops[i].OpOnboard? then AddMember else RemoveMember;
    AuthorizeExactly(c, s, gid, ops[i].admin, ops[i].assertion, cap, ops[i].now);
    AuthorityByHistory(c, domain, owner, genesis, durable, ops[..i], gid, ops[i].admin, ops[i].assertion, cap,
                       ops[i].now);
    RunExtends(c, s0, ops[..i]);
    j := SessionProvenance(c, s0, ops[..i], ops[i].admin);
    assert ops[..i][..j] == ops[..j];
  }

  /** A new group has exactly its creator on the roster, who may onboard and offboard in it without a grant. */
  lemma CreatorGoverns(c: Crypto, s: Relay, op: Op, cap: Capability, now: nat)
    requires op.OpRegisterGroup? && !Step(c, s, op).reply.Refused?
    ensures var s' := Step(c, s, op).state;
            && op.groupId !in s.groups && Roster(s', op.groupId) == {op.wallet} && LogOf(s', op.groupId) == []
            && Authorize(c, s', op.groupId, op.wallet, None, cap, now).Ok?
            && (forall w :: w != op.wallet && w != s.owner ==> Authorize(c, s', op.groupId, w, None, cap, now).Err?)
            && s'.audit[|s'.audit| - 1].event == GroupCreated(op.groupId, op.wallet)
  {
    hide PublishKeyPackage, RedeemInvite, Onboard, Offboard, SubmitAs;
  }

  /**
   * Every successful onboard is one step: it seats exactly the named joiner, logs the Welcome next,
   * stores the tree, fans out, audits receipt and addition, and moves neither the epoch nor any other group.
   */
  lemma OnboardIsOneStep(c: Crypto, s: Relay, op: Op)
    requires Inv(c, s) && op.OpOnboard? && !Step(c, s, op).reply.Refused?
    ensures var s' := Step(c, s, op).state;
            && op.groupId in s.groups && s'.groups.Keys == s.groups.Keys
            && (forall other :: other in s.groups && other != op.groupId ==> s'.groups[other] == s.groups[other])
            && OnboardedGroup(s.groups[op.groupId], s'.groups[op.groupId], op)
            && s'.sessions == s.sessions
            && var g := s.groups[op.groupId];
            && var receipted := Appended(c.link, s.audit, ReceiptOf(c, op.envelope, g.nextSeq), op.now);
            && s'.audit == Appended(c.link, receipted, MemberAdded(op.groupId, op.subject, g.epoch), op.now)
            && s'.mailboxes == FanOut(s.mailboxes, op.envelope.recipients, Stamped(g, op.envelope))
  {
    hide Step, FanOut, Authorize, Admit, Consistent;
    OnboardAccepted(c, s, op);
    OnboardEffect(c, s, op);
  }

  predicate OnboardedGroup(g: Group, g': Group, op: Op)
    requires op.OpOnboard?
  {
    && g'.members == g.members + {op.subject} && g'.tree == op.tree
    && g'.log == g.log + [op.envelope.(groupSeq := Some(g.nextSeq))] && g'.nextSeq == g.nextSeq + 1
    && g'.epoch == g.epoch && g'.accepted == g.accepted && g'.creator == g.creator && g'.generations == g.generations
  }

  // Offboarding

  /**
   * Every successful offboard is one step: it drops exactly the named member, raises its
   * generation, ends its session, and returns the position of a Commit with the submitted hash.
   * When that epoch was new the Commit is logged, accepted, fanned out and receipted and the epoch
   * advances; otherwise none of this happens. Then the pair of records is audited; no other group
   * changes.
   */
  lemma OffboardIsOneStep(c: Crypto, s: Relay, op: Op) returns (i: nat)
    requires Inv(c, s) && op.OpOffboard? && !Step(c, s, op).reply.Refused?
    ensures Step(c, s, op).reply == Sequenced(i) && Offboarded(c, s, Step(c, s, op).state, op, i)
  {
    hide Step, FanOut, Authorize, Admit, SubmitAs, OffboardedGroup, CommittedMail, CommittedAudit, Committed,
         EndMembership, Appended, ReceiptOf, Ordered, Agrees;
    OffboardAccepted(c, s, op);
    OffboardEffect(c, s, op);
    assert Ordered(c, op.groupId, s.groups[op.groupId]);
    i := OffboardCommit(c, s, op);
  }

  /** What an offboard answered with `i` makes of the relay. */
  ghost predicate Offboarded(c: Crypto, s: Relay, s': Relay, op: Op, i: nat)
    requires op.OpOffboard?
  {
    && op.groupId in s.groups && op.envelope.groupId == op.groupId && s'.groups.Keys == s.groups.Keys
    && (forall other :: other in s.groups && other != op.groupId ==> s'.groups[other] == s.groups[other])
    && OffboardedGroup(c, s.groups[op.groupId], s'.groups[op.groupId], op, i)
    && s'.sessions == s.sessions - {op.subject}
    && s'.mailboxes == CommittedMail(s, op.envelope)
    && var removal := MemberRemoved(op.groupId, op.subject, s'.groups[op.groupId].epoch);
    && var noted := Appended(c.link, CommittedAudit(c, s, op.envelope, op.now), removal, op.now);
    && s'.audit == Appended(c.link, noted, RoleRevoked(op.subject, Some(op.groupId)), op.now)
  }

  ghost predicate OffboardedGroup(c: Crypto, g: Group, g': Group, op: Op, i: nat)
    requires op.OpOffboard?
  {
    && op.subject in g.members && g'.members == g.members - {op.subject}
    && Generation(g', op.subject) == (var k := Generation(g, op.subject); if k < U64_MAX then k + 1 else k)
    && (forall w :: w != op.subject ==> Generation(g', w) == Generation(g, w))
    && i < |g'.log| && g'.log[i].kind == Commit && g'.log[i].epoch == op.envelope.epoch
    && c.blake3(g'.log[i].ciphertext) == c.blake3(op.envelope.ciphertext)
    && g'.epoch == (if op.envelope.epoch in g.accepted then g.epoch else g.epoch + 1)
    && g'.log == (if op.envelope.epoch in g.accepted then g.log else g.log + [Stamped(g, op.envelope)])
    && g'.nextSeq == |g'.log|
    && g'.accepted == g.accepted[op.envelope.epoch := c.blake3(op.envelope.ciphertext)]
    && g'.tree == op.tree && g'.creator == g.creator
  }

  /** The group a Commit leaves behind: unchanged by a replay, extended by a new one. */
  function Committed(c: Crypto, g: Group, e: Envelope): Group
  {
    if e.epoch in g.accepted then g else Accepting(c, g, e)
  }

  /** The mailboxes a Commit leaves behind. */
  function CommittedMail(s: Relay, e: Envelope): map<Wallet, seq<Envelope>>
    requires e.groupId in s.groups
  {
    var g := s.groups[e.groupId];
    if e.epoch in g.accepted then s.mailboxes else FanOut(s.mailboxes, e.recipients, Stamped(g, e))
  }

  /** The chain a Commit leaves behind: one receipt more when its epoch was new. */
  function CommittedAudit(c: Crypto, s: Relay, e: Envelope, now: nat): Chain
    requires e.groupId in s.groups
  {
    var g := s.groups[e.groupId];
    if e.epoch in g.accepted then s.audit else Appended(c.link, s.audit, ReceiptOf(c, e, g.nextSeq), now)
  }

  lemma OffboardedGroupHolds(c: Crypto, g: Group, op: Op, i: nat)
    requires op.OpOffboard? && Ordered(c, op.groupId, g) && op.subject in g.members && op.envelope.kind == Commit
    requires op.envelope.epoch !in g.accepted ==> i == g.nextSeq && op.envelope.epoch == g.epoch + 1
    requires op.envelope.epoch in g.accepted ==>
               && i < |g.log| && g.log[i].kind == Commit && g.log[i].epoch == op.envelope.epoch
               && g.accepted[op.envelope.epoch] == c.blake3(op.envelope.ciphertext)
    ensures OffboardedGroup(c, g, EndMembership(Committed(c, g, op.envelope), op.subject).(tree := op.tree), op, i)
  {
    if op.envelope.epoch in g.accepted { StoredCommitIsAccepted(c, g.log, g.epoch, i); }
  }

  /** The Commit an offboard's submission stands for, new or already stored. */
  lemma OffboardCommit(c: Crypto, s: Relay, op: Op) returns (i: nat)
    requires op.OpOffboard? && op.groupId in s.groups && op.subject in s.groups[op.groupId].members
    requires Ordered(c, op.groupId, s.groups[op.groupId])
    requires op.envelope.sender == op.admin && op.envelope.kind == Commit && op.envelope.groupId == op.groupId
    requires !Admit(c, s, op.envelope).Reject?
    ensures var o := SubmitAs(c, s, op.admin, op.envelope, op.now);
            && o.reply == Sequenced(i)
            && o.state.groups == s.groups[op.groupId := Committed(c, s.groups[op.groupId], op.envelope)]
            && o.state.mailboxes == CommittedMail(s, op.envelope)
            && o.state.audit == CommittedAudit(c, s, op.envelope, op.now)
            && OffboardedGroup(c, s.groups[op.groupId],
                               EndMembership(o.state.groups[op.groupId], op.subject).(tree := op.tree), op, i)
  {
    hide Deliver, Accepting, OffboardedGroup, EndMembership, FanOut, ReceiptOf;
    var e, g := op.envelope, s.groups[op.groupId];
    if e.epoch in g.accepted {
      TableKeys(c, g.log, e.epoch);
      i := PriorSeqFinds(g.log, e.epoch);
    } else {
      i := g.nextSeq;
      DeliverEffect(c, s, e, op.now);
    }
    OffboardedGroupHolds(c, g, op, i);
  }

  // An offboard without a Commit of its own

  /**
   * An entitled admin who hands in a Commit its epoch already accepted removes the member all the
   * same: the roster drops it, and log, epoch, acceptance table and mailboxes stay as they were.
   */
  lemma ReplayedOffboard(c: Crypto, s: Relay, op: Op)
    requires Inv(c, s) && op.OpOffboard? && op.subject != s.owner && Entitled(c, s, op, RemoveMember)
    requires Admissible(s, op.admin, op.envelope) && op.envelope.groupId == op.groupId && op.envelope.kind == Commit
    requires var g := s.groups[op.groupId];
             && op.subject in g.members && op.envelope.epoch in g.accepted
             && g.accepted[op.envelope.epoch] == c.blake3(op.envelope.ciphertext)
    ensures var s' := Step(c, s, op).state;
            && Step(c, s, op).reply.Sequenced? && s'.mailboxes == s.mailboxes && op.groupId in s'.groups
            && Roster(s', op.groupId) == Roster(s, op.groupId) - {op.subject}
            && LogOf(s', op.groupId) == LogOf(s, op.groupId)
            && s'.groups[op.groupId].epoch == s.groups[op.groupId].epoch
            && s'.groups[op.groupId].accepted == s.groups[op.groupId].accepted
  {
    hide Inv, Authorize, Authorized, Admit, Ordered;
    AuthorizeExactly(c, s, op.groupId, op.admin, op.assertion, RemoveMember, op.now);
    var i := ReplayIsIdempotent(c, s, OpSubmit(op.admin, op.envelope, op.now));
    assert SubmitAs(c, s, op.admin, op.envelope, op.now) == Outcome(s, Sequenced(i));
    assert MembershipRefusal(c, s, op.groupId, op.admin, op.assertion, RemoveMember, {op.admin, op.subject},
                             op.envelope, Commit, op.now).None?;
    DismissEffect(c, s, op.groupId, op.subject, op.tree, op.now);
  }

  /**
   * A run in which it happens: the owner logs in, founds a group, onboards a member, commits, and
   * offboards with the same Commit.
   */
  function ReplayRun(m: SiweMessage, signature: Blob, gid: GroupId, member: Wallet): seq<Op>
  {
    var owner, now := m.address, 0;
    var welcome := Envelope(gid, 0, Welcome, owner, [member], [], None);
    var commit := Envelope(gid, 1, Commit, owner, [member], [], None);
    [OpChallenge(m.nonce, now), OpAuthenticate(m, signature, now), OpRegisterGroup(gid, owner, now),
     OpOnboard(gid, owner, None, member, welcome, [], now), OpSubmit(owner, commit, now),
     OpOffboard(gid, owner, None, member, commit, [], now)]
  }

  lemma LoginSteps(c: Crypto, s: Relay, m: SiweMessage, signature: Blob)
    requires c.login(m, signature) == Some(m.address)
    requires m.domain == s.domain && m.chainId == CITRATE_CHAIN_ID && m.expiration > 0
    ensures var s' := Step(c, Step(c, s, OpChallenge(m.nonce, 0)).state, OpAuthenticate(m, signature, 0)).state;
            s' == s.(nonces := s'.nonces, sessions := s.sessions + {m.address})
  {
    hide RegisterGroup, PublishKeyPackage, RedeemInvite, Onboard, Offboard, SubmitAs;
  }

  lemma RegisterStep(c: Crypto, s: Relay, gid: GroupId, creator: Wallet)
    requires creator in s.sessions && gid !in s.groups
    ensures var s' := Step(c, s, OpRegisterGroup(gid, creator, 0)).state;
            s' == s.(groups := s.groups[gid := NewGroup(creator)], audit := s'.audit, store := s'.store)
  {
    hide PublishKeyPackage, RedeemInvite, Onboard, Offboard, SubmitAs, NewGroup;
  }

  /** The owner, seated and logged in, onboards anyone with a Welcome to the joiner. */
  lemma OwnerOnboards(c: Crypto, s: Relay, gid: GroupId, joiner: Wallet, e: Envelope)
    requires gid in s.groups && s.owner in s.sessions && s.owner in s.groups[gid].members
    requires e == Envelope(gid, 0, Kind.Welcome, s.owner, [joiner], [], None)
    ensures !Step(c, s, OpOnboard(gid, s.owner, None, joiner, e, [], 0)).reply.Refused?
  {
    hide Deliver, Seat, RegisterGroup, PublishKeyPackage, RedeemInvite, Offboard;
    var added := WithJoiner(s, gid, joiner);
    assert joiner in added.groups[gid].members && s.owner in added.groups[gid].members;
    assert Admit(c, added, e) == Accept;
  }

  lemma CommitStep(c: Crypto, s: Relay, e: Envelope)
    requires Admissible(s, e.sender, e) && e.kind == Commit
    requires s.groups[e.groupId].epoch < U64_MAX && e.epoch == s.groups[e.groupId].epoch + 1
             && e.epoch !in s.groups[e.groupId].accepted
    ensures var s' := Step(c, s, OpSubmit(e.sender, e, 0)).state;
            && s'.groups == s.groups[e.groupId := Accepting(c, s.groups[e.groupId], e)]
            && s'.sessions == s.sessions && s'.owner == s.owner
  {
    hide Deliver, FanOut, RegisterGroup, PublishKeyPackage, RedeemInvite, Onboard, Offboard, Accepting;
    assert Admit(c, s, e) == Accept;
    DeliverEffect(c, s, e, 0);
  }

  /** The state of that run just before its offboard. */
  lemma ReplayRunUpTo(c: Crypto, domain: string, genesis: nat, durable: bool, m: SiweMessage, signature: Blob,
                      gid: GroupId, member: Wallet)
    requires c.login(m, signature) == Some(m.address) && member != m.address
    requires m.domain == domain && m.chainId == CITRATE_CHAIN_ID && m.expiration > 0
    ensures var s := Exec(c, Initial(c, domain, m.address, genesis, durable),
                          ReplayRun(m, signature, gid, member)[..5]);
            && s.owner == m.address && m.address in s.sessions && Roster(s, gid) == {m.address, member}
            && gid in s.groups && 1 in s.groups[gid].accepted && s.groups[gid].accepted[1] == c.blake3([])
  {
    hide Step, Consistent, Admit, Authorize, FanOut;
    var s0, ops, owner := Initial(c, domain, m.address, genesis, durable), ReplayRun(m, signature, gid, member),
        m.address;
    var s2 := Exec(c, s0, ops[..2]);
    var s3, s4, s5 := Exec(c, s0, ops[..3]), Exec(c, s0, ops[..4]), Exec(c, s0, ops[..5]);
    assert ops[..2][..1] == ops[..1] && ops[..1][..0] == [] && ops[..3][..2] == ops[..2] && ops[..4][..3] == ops[..3]
           && ops[..5][..4] == ops[..4];
    assert Exec(c, s0, ops[..1]) == Step(c, Exec(c, s0, []), ops[0]).state;
    LoginSteps(c, s0, m, signature);
    RegisterStep(c, s2, gid, owner);
    assert s3.groups[gid] == NewGroup(owner);
    OwnerOnboards(c, s3, gid, member, ops[3].envelope);
    InitialInv(c, domain, owner, genesis, durable);
    RunKeepsInv(c, s0, ops[..3]);
    OnboardIsOneStep(c, s3, ops[3]);
    OnboardEffect(c, s3, ops[3]);
    assert s4.groups[gid].members == {owner, member};
    CommitStep(c, s4, ops[4].envelope);
  }

  /**
   * A removal with no Commit of its own is reachable: the member is off the roster, and log, epoch and
   * mailboxes did not move.
   */
  lemma ReplayedOffboardIsReachable(c: Crypto, domain: string, genesis: nat, durable: bool, m: SiweMessage,
                                    signature: Blob, gid: GroupId, member: Wallet)
    requires c.login(m, signature) == Some(m.address) && member != m.address
    requires m.domain == domain && m.chainId == CITRATE_CHAIN_ID && m.expiration > 0
    ensures var s0, ops := Initial(c, domain, m.address, genesis, durable), ReplayRun(m, signature, gid, member);
            var s, s' := Exec(c, s0, ops[..5]), Exec(c, s0, ops);
            && member in Roster(s, gid) && member !in Roster(s', gid)
            && LogOf(s', gid) == LogOf(s, gid) && s'.mailboxes == s.mailboxes
            && gid in s.groups && gid in s'.groups && s'.groups[gid].epoch == s.groups[gid].epoch
  {
    hide Step, Consistent, Admit, Authorize;
    var s0, ops := Initial(c, domain, m.address, genesis, durable), ReplayRun(m, signature, gid, member);
    ReplayRunUpTo(c, domain, genesis, durable, m, signature, gid, member);
    InitialInv(c, domain, m.address, genesis, durable);
    RunKeepsInv(c, s0, ops[..5]);
    ReplayedOffboard(c, Exec(c, s0, ops[..5]), ops[5]);
    assert Exec(c, s0, ops) == Step(c, Exec(c, s0, ops[..5]), ops[5]).state;
  }

  /**
   * Offboarding ends authority for good: once a non-owner is offboarded at generation `k` below
   * saturation, then in every later state no grant for a generation up to `k`, and no creator
   * status, authorizes it in that group, whatever happens in between.
   */
  lemma OffboardEndsAuthority(c: Crypto, s: Relay, op: Op, later: seq<Op>, assertion: Option<Assertion>,
                              cap: Capability, now: nat)
    requires op.OpOffboard? && !Step(c, s, op).reply.Refused? && op.groupId in s.groups
    requires op.subject != s.owner
    requires Generation(s.groups[op.groupId], op.subject) < U64_MAX
    requires assertion.Some? ==> GenerationOf(assertion.value.grant) <= Generation(s.groups[op.groupId], op.subject)
    ensures Authorize(c, Exec(c, Step(c, s, op).state, later), op.groupId, op.subject, assertion, cap, now).Err?
  {
    hide Step, Authorize, FanOut, Admit;
    var gid, w, s' := op.groupId, op.subject, Step(c, s, op).state;
    OffboardRaisesGeneration(c, s, op);
    RunExtends(c, s', later);
    var u := Exec(c, s', later);
    assert GroupExtends(s'.groups[gid], u.groups[gid]);
    assert Generation(s'.groups[gid], w) <= Generation(u.groups[gid], w);
    AuthorizeExactly(c, u, gid, w, assertion, cap, now);
  }

  /**
   * A grant that authorized a member is worthless right after its offboard exactly when the
   * generation could still rise: at the top of `u64` the counter stays, and the grant with it.
   */
  lemma OffboardEndsGrantExactly(c: Crypto, s: Relay, op: Op, a: Assertion, cap: Capability, now: nat)
    requires op.OpOffboard? && !Step(c, s, op).reply.Refused? && op.groupId in s.groups
    requires op.subject != s.owner && Can(a.grant.role, cap) && Generation(s.groups[op.groupId], op.subject) <= U64_MAX
    requires OwnerGranted(c.grant, a, op.subject, s.owner, op.groupId, Generation(s.groups[op.groupId], op.subject),
                          now)
    ensures Authorize(c, Step(c, s, op).state, op.groupId, op.subject, Some(a), cap, now).Err?
       <==> Generation(s.groups[op.groupId], op.subject) < U64_MAX
  {
    hide Step, Authorize, FanOut;
    var s' := Step(c, s, op).state;
    if Generation(s.groups[op.groupId], op.subject) < U64_MAX {
      OffboardEndsAuthority(c, s, op, [], Some(a), cap, now);
      assert Exec(c, s', []) == s';
    } else {
      OffboardEffect(c, s, op);
      if Admit(c, s, op.envelope) == Accept { DeliverEffect(c, s, op.envelope, op.now); }
      AuthorizeExactly(c, s', op.groupId, op.subject, Some(a), cap, now);
    }
  }

  lemma OffboardRaisesGeneration(c: Crypto, s: Relay, op: Op)
    requires op.OpOffboard? && !Step(c, s, op).reply.Refused? && op.groupId in s.groups
    requires Generation(s.groups[op.groupId], op.subject) < U64_MAX
    ensures var s' := Step(c, s, op).state;
            && op.groupId in s'.groups && s'.owner == s.owner
            && Generation(s'.groups[op.groupId], op.subject) > Generation(s.groups[op.groupId], op.subject)
  {
    hide Step, Authorize, FanOut;
    OffboardEffect(c, s, op);
    if Admit(c, s, op.envelope) == Accept { DeliverEffect(c, s, op.envelope, op.now); }
  }
}
