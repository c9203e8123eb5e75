/** What each ordered-path operation leaves behind: nothing when refused, and its exact effect when not. */
module RelayEffects {
  import opened Common
  import opened Bytes
  import opened Proto
  import opened Audit
  import opened Rbac
  import opened RelayState
  import opened RelaySteps

  /** The ordered path changes groups, the audit chain, mailboxes, sessions and the store, and nothing else. */
  function Changed(s: Relay, groups: map<GroupId, Group>, audit: Chain, mailboxes: map<Wallet, seq<Envelope>>,
                   sessions: set<Wallet>, store: Option<Store>)
    : Relay
  {
    s.(groups := groups, audit := audit, mailboxes := mailboxes, sessions := sessions, store := store)
  }

  lemma DeliverEffect(c: Crypto, s: Relay, e: Envelope, now: nat)
    requires e.groupId in s.groups
    ensures var g, s' := s.groups[e.groupId], Deliver(c, s, e, now);
            s' == Changed(s, s.groups[e.groupId := Accepting(c, g, e)],
                          Appended(c.link, s.audit, ReceiptOf(c, e, g.nextSeq), now),
                          FanOut(s.mailboxes, e.recipients, Stamped(g, e)), s.sessions, s'.store)
  {
  }

  lemma SeatEffect(c: Crypto, s: Relay, gid: GroupId, joiner: Wallet, tree: Blob, now: nat)
    requires gid in s.groups
    ensures var g, s' := s.groups[gid], Seat(c, s, gid, joiner, tree, now);
            s' == Changed(s, s.groups[gid := g.(tree := tree)],
                          Appended(c.link, s.audit, MemberAdded(gid, joiner, g.epoch), now),
                          s.mailboxes, s.sessions, s'.store)
  {
  }

  lemma DismissEffect(c: Crypto, s: Relay, gid: GroupId, removed: Wallet, tree: Blob, now: nat)
    requires gid in s.groups
    ensures var g, s' := s.groups[gid], Dismiss(c, s, gid, removed, tree, now);
            s' == Changed(s, s.groups[gid := EndMembership(g, removed).(tree := tree)],
                          Appended(c.link, Appended(c.link, s.audit, MemberRemoved(gid, removed, g.epoch), now),
                                   RoleRevoked(removed, Some(gid)), now),
                          s.mailboxes, s.sessions - {removed}, s'.store)
  {
  }

  /** Operations that can change a group or the audit chain. */
  predicate TouchesGroups(op: Op)
  {
    || op.OpRegisterGroup? || op.OpOnboard? || op.OpOffboard? || op.OpSubmit?
    || op.OpPublishKeyPackage? || op.OpRedeemInvite?
  }

  /** Groups, audit chain, referrals, owner and domain are those of before. */
  predicate SameHistories(s: Relay, s': Relay)
  {
    s' == s.(nonces := s'.nonces, keyPackages := s'.keyPackages, claims := s'.claims, invites := s'.invites,
             mailboxes := s'.mailboxes, sessions := s'.sessions, store := s'.store)
  }

  lemma QuietStep(c: Crypto, s: Relay, op: Op)
    requires !TouchesGroups(op)
    ensures SameHistories(s, Step(c, s, op).state)
  {
    hide RegisterGroup, Onboard, Offboard, SubmitAs, PublishKeyPackage, RedeemInvite;
  }

  /** A publication appends one audit record and queues one package; other fields keep their value. */
  lemma PublishEffect(c: Crypto, s: Relay, op: Op)
    requires op.OpPublishKeyPackage?
    ensures var s', p := Step(c, s, op).state, op.publication;
            if Step(c, s, op).reply.Refused? then s' == s.(nonces := s'.nonces)
            else s' == s.(nonces := s.nonces - {p.nonce},
                          keyPackages := s.keyPackages[p.wallet := Queue(s, p.wallet) + [p]],
                          audit := Appended(c.link, s.audit, KeyPackagePublished(p.wallet, c.blake3(p.keyPackage)),
                                            op.now),
                          store := s'.store)
  {
    hide RegisterGroup, Onboard, Offboard, SubmitAs, RedeemInvite;
  }

  predicate MayOnboard(c: Crypto, s: Relay, op: Op)
    requires op.OpOnboard?
  {
    && op.admin in s.sessions
    && MembershipRefusal(c, s, op.groupId, op.admin, op.assertion, AddMember, {op.admin}, op.envelope, Kind.Welcome,
                         op.now).None?
  }

  /** A refused onboard is rolled back completely. */
  lemma OnboardRefused(c: Crypto, s: Relay, op: Op)
    requires op.OpOnboard? && Step(c, s, op).reply.Refused?
    ensures Step(c, s, op).state == s
  {
    if MayOnboard(c, s, op) {
      var gid, g, added := op.groupId, s.groups[op.groupId], WithJoiner(s, op.groupId, op.subject);
      assert SubmitAs(c, added, op.admin, op.envelope, op.now).state == added;
      if op.subject in g.members {
        assert g.members + {op.subject} == g.members;
        assert s.groups[gid := g] == s.groups;
      } else {
        assert g.members + {op.subject} - {op.subject} == g.members;
        assert added.groups[gid := g] == s.groups;
      }
    }
  }

  lemma OnboardAccepted(c: Crypto, s: Relay, op: Op)
    requires op.OpOnboard? && !Step(c, s, op).reply.Refused?
    ensures MayOnboard(c, s, op)
    ensures var added := WithJoiner(s, op.groupId, op.subject);
            && op.envelope.sender == op.admin && op.envelope.groupId == op.groupId && op.envelope.kind == Kind.Welcome
            && Admit(c, added, op.envelope) == Accept
            && var delivered := Deliver(c, added, op.envelope, op.now);
            && Step(c, s, op) == Outcome(Seat(c, delivered, op.groupId, op.subject, op.tree, op.now), Done)
  {
  }

  lemma OnboardEffect(c: Crypto, s: Relay, op: Op)
    requires op.OpOnboard? && !Step(c, s, op).reply.Refused?
    ensures MayOnboard(c, s, op)
    ensures var added := WithJoiner(s, op.groupId, op.subject);
            var g, s' := added.groups[op.groupId], Step(c, s, op).state;
            && Admit(c, added, op.envelope) == Accept
            && s' == Changed(s, s.groups[op.groupId := Accepting(c, g, op.envelope).(tree := op.tree)],
                             Appended(c.link, Appended(c.link, s.audit, ReceiptOf(c, op.envelope, g.nextSeq), op.now),
                                      MemberAdded(op.groupId, op.subject, g.epoch), op.now),
                             FanOut(s.mailboxes, op.envelope.recipients, Stamped(g, op.envelope)), s.sessions, s'.store)
  {
    OnboardAccepted(c, s, op);
    var added := WithJoiner(s, op.groupId, op.subject);
    DeliverEffect(c, added, op.envelope, op.now);
    SeatEffect(c, Deliver(c, added, op.envelope, op.now), op.groupId, op.subject, op.tree, op.now);
  }

  predicate MayOffboard(c: Crypto, s: Relay, op: Op)
    requires op.OpOffboard?
  {
    && op.admin in s.sessions
    && (op.subject == s.owner ==> op.admin == s.owner)
    && MembershipRefusal(c, s, op.groupId, op.admin, op.assertion, RemoveMember, {op.admin, op.subject}, op.envelope,
                         Commit, op.now).None?
  }

  lemma OffboardRefused(c: Crypto, s: Relay, op: Op)
    requires op.OpOffboard? && Step(c, s, op).reply.Refused?
    ensures Step(c, s, op).state == s
  {
  }

  lemma OffboardAccepted(c: Crypto, s: Relay, op: Op)
    requires op.OpOffboard? && !Step(c, s, op).reply.Refused?
    ensures MayOffboard(c, s, op)
    ensures var o := SubmitAs(c, s, op.admin, op.envelope, op.now);
            && op.envelope.sender == op.admin && op.envelope.groupId == op.groupId && op.envelope.kind == Commit
            && !Admit(c, s, op.envelope).Reject? && o.reply.Sequenced?
            && Step(c, s, op) == Outcome(Dismiss(c, o.state, op.groupId, op.subject, op.tree, op.now), o.reply)
  {
  }

  lemma OffboardEffect(c: Crypto, s: Relay, op: Op)
    requires op.OpOffboard? && !Step(c, s, op).reply.Refused?
    ensures MayOffboard(c, s, op)
    ensures var o, s' := SubmitAs(c, s, op.admin, op.envelope, op.now).state, Step(c, s, op).state;
            && !Admit(c, s, op.envelope).Reject?
            && var g := o.groups[op.groupId];
            && var noted := Appended(c.link, o.audit, MemberRemoved(op.groupId, op.subject, g.epoch), op.now);
            && s' == Changed(s, o.groups[op.groupId := EndMembership(g, op.subject).(tree := op.tree)],
                             Appended(c.link, noted, RoleRevoked(op.subject, Some(op.groupId)), op.now),
                             o.mailboxes, s.sessions - {op.subject}, s'.store)
  {
    OffboardAccepted(c, s, op);
    if Admit(c, s, op.envelope) == Accept { DeliverEffect(c, s, op.envelope, op.now); }
    DismissEffect(c, SubmitAs(c, s, op.admin, op.envelope, op.now).state, op.groupId, op.subject, op.tree, op.now);
  }

  /** The ordered path leaves nonces, directory, claims, invites and referrals alone, and opens no session. */
  lemma OrderedFrame(c: Crypto, s: Relay, op: Op)
    requires op.OpOnboard? || op.OpOffboard? || op.OpSubmit?
    ensures var s' := Step(c, s, op).state;
            s' == Changed(s, s'.groups, s'.audit, s'.mailboxes, s'.sessions, s'.store) && s'.sessions <= s.sessions
  {
    hide Onboard, Offboard, RegisterGroup, PublishKeyPackage, RedeemInvite, Admit, FanOut;
    if op.OpSubmit? {
      if op.envelope.sender == op.wallet && Admit(c, s, op.envelope) == Accept {
        DeliverEffect(c, s, op.envelope, op.now);
      }
    } else if Step(c, s, op).reply.Refused? {
      if op.OpOnboard? { OnboardRefused(c, s, op); } else { OffboardRefused(c, s, op); }
    } else {
      if op.OpOnboard? { OnboardEffect(c, s, op); } else { OffboardEffect(c, s, op); }
    }
  }

  /**
   * Refusal changes nothing, in memory or on disk; a refused login or publication can only have
   * spent the nonce it named.
   */
  lemma RefusalChangesNothing(c: Crypto, s: Relay, op: Op)
    requires Step(c, s, op).reply.Refused?
    ensures var s' := Step(c, s, op).state;
            match op
            case OpAuthenticate(m, _, _) => s' == s.(nonces := s.nonces - {m.nonce})
            case OpPublishKeyPackage(p, _) => s' == s || s' == s.(nonces := s.nonces - {p.nonce})
            case _ => s' == s
  {
    match op {
      case OpOnboard(_, _, _, _, _, _, _) => OnboardRefused(c, s, op);
      case OpOffboard(_, _, _, _, _, _, _) => OffboardRefused(c, s, op);
      case _ =>
    }
  }
}
