/** Invite accounting: single use per publication, and one referral row per redeem. */
module RelayInvites {
  import opened Bytes
  import opened Proto
  import opened RelayState
  import opened RelaySteps
  import opened RelayEffects

  predicate Redeemable(s: Relay, th: Digest)
  {
    th in s.invites && !s.invites[th].consumed && !s.invites[th].revoked
  }

  /** How many redeems a token hash can still give without being published again. */
  function Remaining(s: Relay, th: Digest): nat
  {
    if Redeemable(s, th) then 1 else 0
  }

  predicate Redeems(c: Crypto, s: Relay, op: Op, th: Digest)
  {
    op.OpRedeemInvite? && c.blake3(op.token) == th && Step(c, s, op).reply.Admitted?
  }

  predicate Publishes(c: Crypto, s: Relay, op: Op, th: Digest)
  {
    op.OpPublishInvite? && op.tokenHash == th && Step(c, s, op).reply == Done
  }

  function RedeemCount(c: Crypto, s: Relay, ops: seq<Op>, th: Digest): nat
  {
    if ops == [] then 0
    else
      var before := ops[..|ops| - 1];
      RedeemCount(c, s, before, th) + if Redeems(c, Exec(c, s, before), ops[|ops| - 1], th) then 1 else 0
  }

  function PublishCount(c: Crypto, s: Relay, ops: seq<Op>, th: Digest): nat
  {
    if ops == [] then 0
    else
      var before := ops[..|ops| - 1];
      PublishCount(c, s, before, th) + if Publishes(c, Exec(c, s, before), ops[|ops| - 1], th) then 1 else 0
  }

  /** The referral row an operation earns: the minter of the token admitted the joiner. */
  function RowsOf(c: Crypto, s: Relay, op: Op): seq<Referral>
  {
    if op.OpRedeemInvite? && Step(c, s, op).reply.Admitted? && c.blake3(op.token) in s.invites then
      [Referral(s.invites[c.blake3(op.token)].inviter, op.wallet, op.groupId, c.blake3(op.token), op.now)]
    else []
  }

  function Rows(c: Crypto, s: Relay, ops: seq<Op>): seq<Referral>
  {
    if ops == [] then []
    else
      var before := ops[..|ops| - 1];
      Rows(c, s, before) + RowsOf(c, Exec(c, s, before), ops[|ops| - 1])
  }

  lemma InviteOps(c: Crypto, s: Relay, op: Op, th: Digest)
    requires op.OpPublishInvite? || op.OpRevokeInvite? || op.OpRedeemInvite?
    ensures Remaining(Step(c, s, op).state, th) + (if Redeems(c, s, op, th) then 1 else 0)
         <= Remaining(s, th) + (if Publishes(c, s, op, th) then 1 else 0)
  {
    hide RegisterGroup, PublishKeyPackage, Onboard, Offboard, SubmitAs;
  }

  lemma RedeemRow(c: Crypto, s: Relay, op: Op)
    requires op.OpRedeemInvite?
    ensures Step(c, s, op).state.referrals == s.referrals + RowsOf(c, s, op)
  {
    hide RegisterGroup, PublishKeyPackage, Onboard, Offboard, SubmitAs;
    assert s.referrals + [] == s.referrals;
  }

  predicate SameInvites(s: Relay, s': Relay)
  {
    s'.invites == s.invites && s'.referrals == s.referrals
  }

  lemma OthersKeepInvites(c: Crypto, s: Relay, op: Op)
    requires !op.OpPublishInvite? && !op.OpRevokeInvite? && !op.OpRedeemInvite?
    ensures SameInvites(s, Step(c, s, op).state)
  {
    hide Onboard, Offboard, SubmitAs, RedeemInvite, PublishKeyPackage;
    if op.OpOnboard? || op.OpOffboard? || op.OpSubmit? {
      OrderedFrame(c, s, op);
    } else if op.OpPublishKeyPackage? {
      PublishEffect(c, s, op);
    }
  }

  lemma InviteStep(c: Crypto, s: Relay, op: Op, th: Digest)
    ensures Remaining(Step(c, s, op).state, th) + (if Redeems(c, s, op, th) then 1 else 0)
         <= Remaining(s, th) + (if Publishes(c, s, op, th) then 1 else 0)
    ensures Step(c, s, op).state.referrals == s.referrals + RowsOf(c, s, op)
  {
    hide Step;
    if op.OpPublishInvite? || op.OpRevokeInvite? || op.OpRedeemInvite? {
      InviteOps(c, s, op, th);
      if op.OpRedeemInvite? { RedeemRow(c, s, op); } else { QuietStep(c, s, op); }
    } else {
      OthersKeepInvites(c, s, op);
    }
    assert s.referrals + [] == s.referrals;
  }

  /**
   * Over any run, successful redeems of a token hash never exceed what it could give at the start
   * plus its successful publishes, and the ledger grows by exactly one correct row per redeem.
   */
  lemma {:induction false} InviteAccounting(c: Crypto, s: Relay, ops: seq<Op>, th: Digest)
    ensures RedeemCount(c, s, ops, th) + Remaining(Exec(c, s, ops), th)
         <= Remaining(s, th) + PublishCount(c, s, ops, th)
    ensures Exec(c, s, ops).referrals == s.referrals + Rows(c, s, ops)
  {
    hide Step, Redeems, Publishes, RowsOf, Remaining;
    if ops == [] {
      assert s.referrals + [] == s.referrals;
    } else {
      var before := ops[..|ops| - 1];
      InviteAccounting(c, s, before, th);
      InviteStep(c, Exec(c, s, before), ops[|ops| - 1], th);
    }
  }

  /** A redeem or a revoke spends the token: whatever follows, nothing redeems it until it is published again. */
  lemma SpentUntilRepublished(c: Crypto, s: Relay, op: Op, th: Digest, later: seq<Op>)
    requires Redeems(c, s, op, th) || (op.OpRevokeInvite? && op.tokenHash == th && Step(c, s, op).reply == Done)
    requires PublishCount(c, Step(c, s, op).state, later, th) == 0
    ensures RedeemCount(c, Step(c, s, op).state, later, th) == 0
  {
    hide RegisterGroup, PublishKeyPackage, Onboard, Offboard, SubmitAs, Exec;
    assert Remaining(Step(c, s, op).state, th) == 0;
    InviteAccounting(c, Step(c, s, op).state, later, th);
  }

  /** A token that gives nothing becomes redeemable in exactly one way: a successful publish of its hash. */
  lemma RevivedExactly(c: Crypto, s: Relay, op: Op, th: Digest)
    requires !Redeemable(s, th)
    ensures Redeemable(Step(c, s, op).state, th) <==> Publishes(c, s, op, th)
  {
    hide RegisterGroup, PublishKeyPackage, Onboard, Offboard, SubmitAs, RedeemInvite;
    InviteStep(c, s, op, th);
  }

  /**
   * A revoke does not last: any seated member with a session, minter or not, may publish the revoked
   * hash again, after which the token is redeemed and the referral goes to that member.
   */
  lemma RevokedTokenReturns(c: Crypto, s: Relay, gid: GroupId, minter: Wallet, member: Wallet, joiner: Wallet,
                            token: Blob, groupInfo: Blob, keyPackage: Blob, expiresAt: nat, now: nat)
    requires var th := c.blake3(token); th in s.invites && s.invites[th].inviter == minter && minter in s.sessions
    requires member in s.sessions && gid in s.groups && member in s.groups[gid].members && now <= expiresAt
    requires 0 < |groupInfo| <= MAX_CIPHERTEXT_BYTES && 0 < |keyPackage| <= MAX_CIPHERTEXT_BYTES
    ensures var th := c.blake3(token);
            var revoke := OpRevokeInvite(minter, th, false);
            var publish := OpPublishInvite(member, gid, th, groupInfo, expiresAt);
            var redeem := OpRedeemInvite(joiner, gid, token, keyPackage, now);
            var s1 := Step(c, s, revoke).state;
            var s2 := Step(c, s1, publish).state;
            && Step(c, s, revoke).reply == Done && !Redeemable(s1, th)
            && Publishes(c, s1, publish, th) && Redeems(c, s2, redeem, th)
            && Step(c, s2, redeem).state.referrals == s.referrals + [Referral(member, joiner, gid, th, now)]
            && joiner in Roster(Step(c, s2, redeem).state, gid)
  {
    hide RegisterGroup, PublishKeyPackage, Onboard, Offboard, SubmitAs;
  }

  /** A successful redeem seats the joiner, spends the token and answers with the minter's group state. */
  lemma RedeemAdmits(c: Crypto, s: Relay, op: Op)
    requires op.OpRedeemInvite? && Step(c, s, op).reply.Admitted?
    ensures var th, s' := c.blake3(op.token), Step(c, s, op).state;
            && Redeemable(s, th) && s.invites[th].groupId == op.groupId && op.now <= s.invites[th].expiresAt
            && Step(c, s, op).reply.groupInfo == s.invites[th].groupInfo
            && op.groupId in s.groups && Step(c, s, op).reply.epoch == s.groups[op.groupId].epoch
            && Roster(s', op.groupId) == Roster(s, op.groupId) + {op.wallet}
            && LogOf(s', op.groupId) == LogOf(s, op.groupId)
            && th in s'.invites && s'.invites[th].consumed && !Redeemable(s', th)
            && (forall other :: other != th && other in s.invites ==>
                  other in s'.invites && s'.invites[other] == s.invites[other])
  {
    hide RegisterGroup, PublishKeyPackage, Onboard, Offboard, SubmitAs;
  }

  // Attribution

  /** The distinct joiners an inviter admitted. */
  function Joiners(rows: seq<Referral>, inviter: Wallet): set<Wallet>
  {
    set r | r in rows && r.inviter == inviter :: r.joiner
  }

  function Inviters(rows: seq<Referral>): set<Wallet>
  {
    set r | r in rows :: r.inviter
  }
}
