/**
 * When each operation is accepted, to what effect, and why it is refused: stated on the request and the
 * state alone, limits written out.
 */
module RelayAcceptance {
  import opened Common
  import opened Proto
  import opened Audit
  import opened Rbac
  import opened RelayState
  import opened RelaySteps
  import opened RelayEffects
  import opened RelayOrder
  import opened RelayAuthority

  /** The chain grew by one record of this event at this time. */
  predicate Noted(before: Chain, after: Chain, event: Event, now: nat)
  {
    && |after| == |before| + 1 && before <= after
    && after[|before|].event == event && after[|before|].timestamp == now
  }

  // Handshake

  /** A challenge adds its nonce and drops exactly those issued ten minutes ago or earlier. */
  lemma ChallengeExactly(c: Crypto, s: Relay, op: Op)
    requires op.OpChallenge?
    ensures var s' := Step(c, s, op).state;
            && Step(c, s, op).reply == Done && s' == s.(nonces := s'.nonces)
            && op.nonce in s'.nonces && s'.nonces[op.nonce] == op.now
            && forall n :: n != op.nonce ==>
                 && (n in s'.nonces <==> n in s.nonces && op.now < s.nonces[n] + 600_000)
                 && (n in s'.nonces ==> s'.nonces[n] == s.nonces[n])
  {
    hide RegisterGroup, PublishKeyPackage, RedeemInvite, Onboard, Offboard, SubmitAs;
  }

  /** A login succeeds exactly with a live nonce, on this chain and domain, in time, signed by the address it names. */
  lemma LoginExactly(c: Crypto, s: Relay, op: Op)
    requires op.OpAuthenticate?
    ensures var m, o := op.message, Step(c, s, op);
            && (o.reply.LoggedIn?
                <==> && m.nonce in s.nonces && m.chainId == 40204 && m.domain == s.domain && op.now < m.expiration
                     && c.login(m, op.signature) == Some(m.address))
            && (o.reply.LoggedIn? ==>
                  && o.reply.wallet == m.address
                  && o.state == s.(nonces := s.nonces - {m.nonce}, sessions := s.sessions + {m.address}))
  {
    hide RegisterGroup, PublishKeyPackage, RedeemInvite, Onboard, Offboard, SubmitAs;
  }

  lemma EndSessionExactly(c: Crypto, s: Relay, op: Op)
    requires op.OpEndSession?
    ensures Step(c, s, op) == Outcome(s.(sessions := s.sessions - {op.wallet}), Done)
  {
    hide RegisterGroup, PublishKeyPackage, RedeemInvite, Onboard, Offboard, SubmitAs;
  }

  // KeyPackage directory

  /** The wallet itself signed the binding of its MLS key to this domain and nonce. */
  predicate BoundByOwner(c: Crypto, p: Publication)
  {
    && |p.attestation| == 65
    && c.binding(p.wallet, p.mlsKey, p.relayDomain, p.nonce, p.attestation) == Some(p.wallet)
  }

  /**
   * A package is accepted exactly from a session holder, for this relay, with a live nonce, bound by the
   * wallet itself, while fewer than 64 wait; it is then queued last and audited.
   */
  lemma PublishPackageExactly(c: Crypto, s: Relay, op: Op)
    requires op.OpPublishKeyPackage?
    ensures var p, o := op.publication, Step(c, s, op);
            && (o.reply.Referenced?
                <==> && p.wallet in s.sessions && p.relayDomain == s.domain && p.nonce in s.nonces
                     && BoundByOwner(c, p) && |Queue(s, p.wallet)| < 64)
            && (o.reply.Referenced? ==>
                  && o.reply.reference == c.blake3(p.keyPackage)
                  && o.state == s.(nonces := s.nonces - {p.nonce},
                                   keyPackages := s.keyPackages[p.wallet := Queue(s, p.wallet) + [p]],
                                   audit := o.state.audit, store := o.state.store)
                  && Noted(s.audit, o.state.audit, KeyPackagePublished(p.wallet, c.blake3(p.keyPackage)), op.now))
  {
    hide RegisterGroup, RedeemInvite, Onboard, Offboard, SubmitAs;
  }

  /** A take answers the oldest package whenever one is queued, and nothing otherwise. */
  lemma TakePackageExactly(c: Crypto, s: Relay, op: Op)
    requires op.OpTakeKeyPackage?
    ensures var q, o := Queue(s, op.wallet), Step(c, s, op);
            if q == [] then o == Outcome(s, Taken(None))
            else
              && o.reply == Taken(Some(q[0]))
              && o.state == s.(keyPackages := s.keyPackages[op.wallet := q[1..]], store := o.state.store)
  {
    hide RegisterGroup, PublishKeyPackage, RedeemInvite, Onboard, Offboard, SubmitAs;
  }

  // Claims

  /**
   * Any session holder's claim is acknowledged, and stored exactly when it is new to its token and
   * fewer than 16 wait.
   */
  lemma ClaimExactly(c: Crypto, s: Relay, op: Op)
    requires op.OpSubmitClaim?
    ensures var th, o := op.claim.tokenHash, Step(c, s, op);
            var q := if th in s.claims then s.claims[th] else [];
            && (o.reply == Done <==> op.wallet in s.sessions)
            && (o.reply == Done ==>
                  && o.state == s.(claims := o.state.claims)
                  && th in o.state.claims
                  && o.state.claims[th] == q + (if |q| < 16 && (forall i :: 0 <= i < |q| ==>
                       q[i].ciphertext != op.claim.ciphertext) then [op.claim] else [])
                  && forall other :: other != th ==>
                       && (other in o.state.claims <==> other in s.claims)
                       && (other in s.claims ==> o.state.claims[other] == s.claims[other]))
  {
    hide RegisterGroup, PublishKeyPackage, RedeemInvite, Onboard, Offboard, SubmitAs;
    var th := op.claim.tokenHash;
    var q := if th in s.claims then s.claims[th] else [];
    assert q + [] == q;
    assert (exists x :: x in q && x.ciphertext == op.claim.ciphertext)
      <==> exists i :: 0 <= i < |q| && q[i].ciphertext == op.claim.ciphertext;
  }

  lemma ClearClaimsExactly(c: Crypto, s: Relay, op: Op)
    requires op.OpClearClaims?
    ensures Step(c, s, op) == Outcome(s.(claims := s.claims - {op.tokenHash}), Done)
  {
    hide RegisterGroup, PublishKeyPackage, RedeemInvite, Onboard, Offboard, SubmitAs;
  }

  // Invites

  /**
   * An invite is minted exactly by a session holder with a seat in an existing group, with a non-empty
   * group state of at most 4 MiB, while its hash is known or fewer than 4096 are kept.
   */
  lemma PublishInviteExactly(c: Crypto, s: Relay, op: Op)
    requires op.OpPublishInvite?
    ensures var o := Step(c, s, op);
            && (o.reply == Done
                <==> && op.wallet in s.sessions && op.groupId in s.groups
                     && op.wallet in s.groups[op.groupId].members
                     && 0 < |op.groupInfo| <= 4_194_304
                     && (op.tokenHash in s.invites || |s.invites| < 4096))
            && (o.reply == Done ==>
                  var minted := Invite(op.groupId, op.groupInfo, op.wallet, op.expiresAt, false, false);
                  o.state == s.(invites := s.invites[op.tokenHash := minted], store := o.state.store))
  {
    hide RegisterGroup, PublishKeyPackage, RedeemInvite, Onboard, Offboard, SubmitAs;
  }

  /** An invite is revoked exactly by its minter, unless it asks to be told and the invite is used. */
  lemma RevokeInviteExactly(c: Crypto, s: Relay, op: Op)
    requires op.OpRevokeInvite?
    ensures var th, o := op.tokenHash, Step(c, s, op);
            && (o.reply == Done
                <==> && op.wallet in s.sessions && th in s.invites && s.invites[th].inviter == op.wallet
                     && !(op.reportUsed && s.invites[th].consumed))
            && (o.reply == Done ==>
                  o.state == s.(invites := s.invites[th := s.invites[th].(revoked := true)], store := o.state.store))
  {
    hide RegisterGroup, PublishKeyPackage, RedeemInvite, Onboard, Offboard, SubmitAs;
  }

  /**
   * A token is redeemed exactly with a sane package, into its own group, while it is neither revoked,
   * used nor expired.
   */
  lemma RedeemExactly(c: Crypto, s: Relay, op: Op)
    requires op.OpRedeemInvite?
    ensures var th, gid, o := c.blake3(op.token), op.groupId, Step(c, s, op);
            && (o.reply.Admitted?
                <==> && 0 < |op.keyPackage| <= 4_194_304 && gid in s.groups
                     && th in s.invites && s.invites[th].groupId == gid && op.now <= s.invites[th].expiresAt
                     && !s.invites[th].revoked && !s.invites[th].consumed)
            && (o.reply.Admitted? ==>
                  var invite, g := s.invites[th], s.groups[gid];
                  && o.reply == Admitted(invite.groupInfo, g.epoch)
                  && o.state == s.(invites := s.invites[th := invite.(consumed := true)],
                                   groups := s.groups[gid := g.(members := g.members + {op.wallet})],
                                   referrals := s.referrals + [Referral(invite.inviter, op.wallet, gid, th, op.now)],
                                   store := o.state.store))
  {
    hide RegisterGroup, PublishKeyPackage, Onboard, Offboard, SubmitAs;
  }

  // Groups

  /**
   * A group is registered exactly by a session holder under a new id; it starts empty, at epoch 0,
   * with its creator alone.
   */
  lemma RegisterExactly(c: Crypto, s: Relay, op: Op)
    requires op.OpRegisterGroup?
    ensures var gid, o := op.groupId, Step(c, s, op);
            && (o.reply == Done <==> op.wallet in s.sessions && gid !in s.groups)
            && (o.reply == Done ==>
                  var founded := Group({op.wallet}, 0, 0, map[], [], [], Some(op.wallet), map[]);
                  && o.state == s.(groups := s.groups[gid := founded],
                                   audit := o.state.audit, store := o.state.store)
                  && Noted(s.audit, o.state.audit, GroupCreated(gid, op.wallet), op.now))
  {
    hide PublishKeyPackage, RedeemInvite, Onboard, Offboard, SubmitAs;
  }

  /** A fetch hands out the whole mailbox, leaves it empty, and leaves every other alone. */
  lemma FetchExactly(c: Crypto, s: Relay, op: Op)
    requires op.OpFetch?
    ensures var o := Step(c, s, op);
            && o.reply == Delivered(Mailbox(s.mailboxes, op.wallet)) && Mailbox(o.state.mailboxes, op.wallet) == []
            && o.state == s.(mailboxes := o.state.mailboxes)
            && forall w :: w != op.wallet ==> Mailbox(o.state.mailboxes, w) == Mailbox(s.mailboxes, w)
  {
    hide RegisterGroup, PublishKeyPackage, RedeemInvite, Onboard, Offboard, SubmitAs;
  }

  /** A restart needs a store, and resets nonces, claims, mailboxes and sessions only. */
  lemma RestartExactly(c: Crypto, s: Relay, op: Op)
    requires op.OpRestart?
    ensures s.store.None? ==> Step(c, s, op) == Outcome(s, Refused(NoStore))
    ensures s.store.Some? ==>
              Step(c, s, op) == Outcome(s.(nonces := map[], claims := map[], mailboxes := map[], sessions := {}), Done)
  {
    hide RegisterGroup, PublishKeyPackage, RedeemInvite, Onboard, Offboard, SubmitAs;
  }

  // The ordered path

  /** A submission its sender may make, whatever its epoch. */
  predicate WellFormed(e: Envelope, members: set<Wallet>)
  {
    && e.sender in members && |e.ciphertext| <= 4_194_304 && |e.recipients| <= 4096
    && forall i :: 0 <= i < |e.recipients| ==> e.recipients[i] in members
  }

  /** The Commit repeats the one its epoch accepted. */
  predicate Repeats(c: Crypto, g: Group, e: Envelope)
  {
    e.kind == Commit && e.epoch in g.accepted && g.accepted[e.epoch] == c.blake3(e.ciphertext)
  }

  /** Anything but a Commit, or a Commit for the next epoch. */
  predicate Advances(g: Group, e: Envelope)
  {
    e.kind == Commit ==> e.epoch == g.epoch + 1 && e.epoch <= 0xFFFF_FFFF_FFFF_FFFF
  }

  /** What the ordered path makes of a group that accepts a new envelope. */
  predicate Logged(c: Crypto, g: Group, g': Group, e: Envelope)
  {
    && g'.log == g.log + [e.(groupSeq := Some(|g.log|))] && g'.nextSeq == |g.log| + 1
    && g'.epoch == (if e.kind == Commit then e.epoch else g.epoch)
    && g'.accepted == (if e.kind == Commit then g.accepted[e.epoch := c.blake3(e.ciphertext)] else g.accepted)
    && g'.members == g.members && g'.tree == g.tree && g'.creator == g.creator && g'.generations == g.generations
  }

  lemma CommitExactly(c: Crypto, gid: GroupId, g: Group, e: Envelope)
    requires Ordered(c, gid, g) && e.kind == Commit
    ensures CommitVerdict(c, g, e).Replay? <==> Repeats(c, g, e)
    ensures CommitVerdict(c, g, e) == Accept <==> !Repeats(c, g, e) && Advances(g, e)
  {
    hide PriorSeq;
    AcceptedEpochs(c, gid, g, e.epoch);
    if e.epoch in g.accepted {
      TableKeys(c, g.log, e.epoch);
      var i := PriorSeqFinds(g.log, e.epoch);
    }
  }

  lemma AdmitExactly(c: Crypto, s: Relay, e: Envelope)
    requires Inv(c, s)
    ensures var sane := e.sender in s.sessions && e.groupId in s.groups && WellFormed(e, s.groups[e.groupId].members);
            && (Admit(c, s, e).Replay? <==> sane && Repeats(c, s.groups[e.groupId], e))
            && (Admit(c, s, e) == Accept <==>
                  sane && !Repeats(c, s.groups[e.groupId], e) && Advances(s.groups[e.groupId], e))
  {
    hide Inv, Ordered, CommitVerdict, Repeats, Advances;
    if e.groupId in s.groups {
      var g := s.groups[e.groupId];
      InvOrdered(c, s, e.groupId);
      if e.kind == Commit { CommitExactly(c, e.groupId, g, e); } else { NoCommit(c, g, e); }
      assert (forall r :: r in e.recipients ==> r in g.members)
        <==> forall i :: 0 <= i < |e.recipients| ==> e.recipients[i] in g.members;
    }
  }

  /**
   * In every reachable state a submission is answered with a sequence number exactly when its sender is
   * the session's wallet and holds a session and a seat, it is within the limits and names seated
   * recipients only, and, for a Commit, it repeats the one its epoch accepted or is for the next epoch.
   */
  lemma SubmitExactly(c: Crypto, s: Relay, op: Op)
    requires Inv(c, s) && op.OpSubmit?
    ensures var e, o := op.envelope, Step(c, s, op);
            o.reply.Sequenced?
            <==> && e.sender == op.wallet && op.wallet in s.sessions
                 && e.groupId in s.groups && WellFormed(e, s.groups[e.groupId].members)
                 && (Repeats(c, s.groups[e.groupId], e) || Advances(s.groups[e.groupId], e))
  {
    hide Admit, Inv, WellFormed, Repeats, Advances, RegisterGroup, PublishKeyPackage, RedeemInvite, Onboard, Offboard;
    AdmitExactly(c, s, op.envelope);
  }

  /**
   * A submission that is accepted and no repeat takes the next place in its group's log, is fanned out
   * and receipted.
   */
  lemma SubmitEffect(c: Crypto, s: Relay, op: Op)
    requires Inv(c, s) && op.OpSubmit? && Step(c, s, op).reply.Sequenced?
    requires !Repeats(c, s.groups[op.envelope.groupId], op.envelope)
    ensures var e, o := op.envelope, Step(c, s, op);
            var gid, g := e.groupId, s.groups[e.groupId];
            && gid in o.state.groups && o.reply == Sequenced(|g.log|)
            && Logged(c, g, o.state.groups[gid], e)
            && o.state == s.(groups := s.groups[gid := o.state.groups[gid]], audit := o.state.audit,
                             mailboxes := o.state.mailboxes, store := o.state.store)
            && o.state.mailboxes == FanOut(s.mailboxes, e.recipients, e.(groupSeq := Some(|g.log|)))
            && |o.state.audit| == |s.audit| + 1 && s.audit <= o.state.audit
            && IsReceipt(c, gid, o.state.audit[|s.audit|].event, e, |g.log|)
            && o.state.audit[|s.audit|].timestamp == op.now
  {
    hide FanOut, RegisterGroup, PublishKeyPackage, RedeemInvite, Onboard, Offboard, Admit, Deliver, Inv;
    var e := op.envelope;
    AdmitExactly(c, s, e);
    assert s.groups[e.groupId].nextSeq == |s.groups[e.groupId].log| by { InvOrdered(c, s, e.groupId); }
    DeliverEffect(c, s, e, op.now);
  }

  lemma InvOrdered(c: Crypto, s: Relay, gid: GroupId)
    requires Inv(c, s) && gid in s.groups
    ensures Ordered(c, gid, s.groups[gid])
  {
  }

  // Membership

  /**
   * An onboard succeeds exactly when a seated session holder with the authority to add sends a Welcome of
   * its own for this group, within the limits and naming seated recipients or the joiner only.
   */
  lemma OnboardExactly(c: Crypto, s: Relay, op: Op)
    requires Inv(c, s) && op.OpOnboard?
    ensures var gid, e, o := op.groupId, op.envelope, Step(c, s, op);
            o.reply == Done
            <==> && op.admin in s.sessions && Authorized(c, s, gid, op.admin, op.assertion, AddMember, op.now)
                 && op.admin in s.groups[gid].members
                 && e.groupId == gid && e.kind == Kind.Welcome && e.sender == op.admin
                 && WellFormed(e, s.groups[gid].members + {op.subject})
  {
    hide Authorize, Authorized, Admit, Deliver, Seat, Inv, Repeats, Advances, WellFormed;
    hide RegisterGroup, PublishKeyPackage, RedeemInvite, Offboard;
    AuthorizeExactly(c, s, op.groupId, op.admin, op.assertion, AddMember, op.now);
    if op.groupId in s.groups {
      var added := WithJoiner(s, op.groupId, op.subject);
      JoinerKeepsInv(c, s, op.groupId, op.subject);
      AdmitExactly(c, added, op.envelope);
      NoCommit(c, added.groups[op.groupId], op.envelope);
    }
    AuthorizedInGroup(c, s, op.groupId, op.admin, op.assertion, AddMember, op.now);
  }

  lemma JoinerKeepsInv(c: Crypto, s: Relay, gid: GroupId, w: Wallet)
    requires Inv(c, s) && gid in s.groups
    ensures Inv(c, WithJoiner(s, gid, w))
  {
    hide Consistent;
    Touched(c, s.audit, s.groups, gid, s.groups[gid].(members := s.groups[gid].members + {w}));
  }

  lemma NoCommit(c: Crypto, g: Group, e: Envelope)
    ensures e.kind != Commit ==> !Repeats(c, g, e) && Advances(g, e)
  {
  }

  lemma AuthorizedInGroup(c: Crypto, s: Relay, gid: GroupId, w: Wallet, a: Option<Assertion>, cap: Capability, now: nat)
    ensures Authorized(c, s, gid, w, a, cap, now) ==> gid in s.groups
  {
  }

  /**
   * An offboard succeeds exactly when a seated session holder with the authority to remove, and no one
   * but the owner for the owner, names a seated member and sends a Commit of its own for this group that
   * the ordered path takes: a repeat of an accepted one, or one for the next epoch.
   */
  lemma OffboardExactly(c: Crypto, s: Relay, op: Op)
    requires Inv(c, s) && op.OpOffboard?
    ensures var gid, e, o := op.groupId, op.envelope, Step(c, s, op);
            o.reply.Sequenced?
            <==> && op.admin in s.sessions && (op.subject == s.owner ==> op.admin == s.owner)
                 && Authorized(c, s, gid, op.admin, op.assertion, RemoveMember, op.now)
                 && op.admin in s.groups[gid].members && op.subject in s.groups[gid].members
                 && e.groupId == gid && e.kind == Commit && e.sender == op.admin
                 && WellFormed(e, s.groups[gid].members)
                 && (Repeats(c, s.groups[gid], e) || Advances(s.groups[gid], e))
  {
    hide Authorize, Authorized, Admit, Deliver, Dismiss, Inv, Repeats, Advances, WellFormed;
    hide RegisterGroup, PublishKeyPackage, RedeemInvite, Onboard;
    AuthorizeExactly(c, s, op.groupId, op.admin, op.assertion, RemoveMember, op.now);
    AuthorizedInGroup(c, s, op.groupId, op.admin, op.assertion, RemoveMember, op.now);
    AdmitExactly(c, s, op.envelope);
  }
}
