/** Where queued packages, invites and seats come from, over whole runs. */
module RelayProvenance {
  import opened Bytes
  import opened Proto
  import opened RelayState
  import opened RelaySteps
  import opened RelayHistory
  import opened RelayAuthority
  import opened RelayInvites
  import opened RelayOneTime
  import opened RelayAcceptance

  // Packages

  /** Operation `i` of the run published `p`: its wallet held a session and had bound its MLS key to this relay. */
  ghost predicate BoundAt(c: Crypto, s: Relay, ops: seq<Op>, i: nat, p: Publication)
  {
    && i < |ops| && ops[i].OpPublishKeyPackage? && ops[i].publication == p
    && Step(c, Exec(c, s, ops[..i]), ops[i]).reply.Referenced?
    && p.wallet in Exec(c, s, ops[..i]).sessions && p.relayDomain == s.domain && BoundByOwner(c, p)
  }

  lemma {:induction false} PublishedWereBound(c: Crypto, s: Relay, ops: seq<Op>, w: Wallet, p: Publication)
    returns (i: nat)
    requires p in Published(c, s, ops, w)
    ensures BoundAt(c, s, ops, i, p) && p.wallet == w
  {
    hide Step, Queue, BoundByOwner;
    var before, op := ops[..|ops| - 1], ops[|ops| - 1];
    var t := Exec(c, s, before);
    if p in Published(c, s, before, w) {
      i := PublishedWereBound(c, s, before, w, p);
      assert before[..i] == ops[..i];
    } else {
      i := |ops| - 1;
      assert p in PublishedBy(c, t, op, w);
      PublishPackageExactly(c, t, op);
      RunExtends(c, s, before);
    }
  }

  /**
   * In every run from the start, each package ever handed out or still queued was bound by its own
   * wallet when it was published.
   */
  lemma PackagesAreBound(c: Crypto, domain: string, owner: Wallet, genesis: nat, durable: bool, ops: seq<Op>,
                         w: Wallet, p: Publication) returns (i: nat)
    requires var s0 := Initial(c, domain, owner, genesis, durable);
             p in AllTaken(c, s0, ops, w) || p in Queue(Exec(c, s0, ops), w)
    ensures BoundAt(c, Initial(c, domain, owner, genesis, durable), ops, i, p) && p.wallet == w
  {
    hide Step, BoundAt;
    var s0 := Initial(c, domain, owner, genesis, durable);
    KeyPackagesAreOneTime(c, s0, ops, w);
    assert Queue(s0, w) == [] && [] + Published(c, s0, ops, w) == Published(c, s0, ops, w);
    i := PublishedWereBound(c, s0, ops, w, p);
  }

  // Invites

  /** Operation `j` of the run minted `th` for `gid`: its wallet held a session and a seat in the group. */
  ghost predicate MintedAt(c: Crypto, s: Relay, ops: seq<Op>, j: nat, th: Digest, invite: Invite)
  {
    && j < |ops|
    && ops[j] == OpPublishInvite(invite.inviter, invite.groupId, th, invite.groupInfo, invite.expiresAt)
    && var t := Exec(c, s, ops[..j]);
    && Step(c, t, ops[j]).reply == Done && invite.inviter in t.sessions && invite.inviter in Roster(t, invite.groupId)
  }

  lemma InviteStays(c: Crypto, s: Relay, op: Op, th: Digest)
    requires th in Step(c, s, op).state.invites && !Publishes(c, s, op, th)
    ensures th in s.invites
    ensures var before, after := s.invites[th], Step(c, s, op).state.invites[th];
            && after.inviter == before.inviter && after.groupId == before.groupId
            && after.groupInfo == before.groupInfo && after.expiresAt == before.expiresAt
  {
    hide Step;
    match op {
      case OpPublishInvite(_, _, _, _, _) =>
        PublishInviteExactly(c, s, op);
        PublishRefused(c, s, op);
      case OpRevokeInvite(_, _, _) =>
        RevokeInviteExactly(c, s, op);
        RevokeRefused(c, s, op);
      case OpRedeemInvite(_, _, _, _, _) =>
        RedeemExactly(c, s, op);
        RedeemRefused(c, s, op);
      case _ => OthersKeepInvites(c, s, op);
    }
  }

  lemma PublishRefused(c: Crypto, s: Relay, op: Op)
    requires op.OpPublishInvite?
    ensures Step(c, s, op).reply == Done || Step(c, s, op).state == s
  {
    hide RegisterGroup, PublishKeyPackage, RedeemInvite, Onboard, Offboard, SubmitAs;
  }

  lemma RevokeRefused(c: Crypto, s: Relay, op: Op)
    requires op.OpRevokeInvite?
    ensures Step(c, s, op).reply == Done || Step(c, s, op).state == s
  {
    hide RegisterGroup, PublishKeyPackage, RedeemInvite, Onboard, Offboard, SubmitAs;
  }

  lemma RedeemRefused(c: Crypto, s: Relay, op: Op)
    requires op.OpRedeemInvite?
    ensures Step(c, s, op).reply.Admitted? || Step(c, s, op).state == s
  {
    hide RegisterGroup, PublishKeyPackage, Onboard, Offboard, SubmitAs;
  }

  /**
   * Every invite in a reachable state was minted earlier in the run by its inviter, who then held a
   * session and a seat in its group.
   */
  lemma {:induction false} InvitesWereMinted(c: Crypto, s: Relay, ops: seq<Op>, th: Digest) returns (j: nat)
    requires th in Exec(c, s, ops).invites && th !in s.invites
    ensures MintedAt(c, s, ops, j, th, Exec(c, s, ops).invites[th])
  {
    hide Step, Roster, Redeemable;
    var before, op := ops[..|ops| - 1], ops[|ops| - 1];
    var t := Exec(c, s, before);
    if Publishes(c, t, op, th) {
      j := |ops| - 1;
      PublishInviteExactly(c, t, op);
      assert op.wallet in Roster(t, op.groupId) by { RosterIs(t, op.groupId, op.wallet); }
    } else {
      InviteStays(c, t, op, th);
      j := InvitesWereMinted(c, s, before, th);
      assert before[..j] == ops[..j];
    }
  }

  lemma RosterIs(s: Relay, gid: GroupId, w: Wallet)
    ensures w in Roster(s, gid) <==> gid in s.groups && w in s.groups[gid].members
  {
  }

  // Seats

  /**
   * In every run from the start, whoever has a seat got it at some operation of the run: by registering
   * the group, by the onboard of an entitled member, or by redeeming a token that a seated session
   * holder of that very group had minted before.
   */
  lemma {:induction false} SeatProvenance(c: Crypto, domain: string, owner: Wallet, genesis: nat, durable: bool,
                                          ops: seq<Op>, gid: GroupId, w: Wallet)
    returns (i: nat, j: nat)
    requires w in Roster(Exec(c, Initial(c, domain, owner, genesis, durable), ops), gid)
    ensures i < |ops|
    ensures var s0 := Initial(c, domain, owner, genesis, durable);
            var s := Exec(c, s0, ops[..i]);
            && w !in Roster(s, gid) && MayAppear(c, s, ops[i], gid, w)
            && (ops[i].OpRedeemInvite? ==>
                  var th := c.blake3(ops[i].token);
                  && j < i && th in s.invites && s.invites[th].groupId == gid
                  && MintedAt(c, s0, ops[..i], j, th, s.invites[th]))
  {
    hide Step, Roster, MayAppear, MintedAt, Initial;
    var s0 := Initial(c, domain, owner, genesis, durable);
    FreshRelay(c, domain, owner, genesis, durable, gid, w);
    var before, op := ops[..|ops| - 1], ops[|ops| - 1];
    var s := Exec(c, s0, before);
    if w in Roster(s, gid) {
      i, j := SeatProvenance(c, domain, owner, genesis, durable, before, gid, w);
      assert before[..i] == ops[..i];
    } else {
      i, j := |ops| - 1, 0;
      RosterProvenance(c, s, op, gid, w);
      if op.OpRedeemInvite? {
        RedeemNamesInvite(c, s, op, gid, w);
        j := InvitesWereMinted(c, s0, before, c.blake3(op.token));
        MintedBefore(c, s0, before, j, c.blake3(op.token), s.invites[c.blake3(op.token)]);
      }
    }
  }

  lemma FreshRelay(c: Crypto, domain: string, owner: Wallet, genesis: nat, durable: bool, gid: GroupId, w: Wallet)
    ensures var s0 := Initial(c, domain, owner, genesis, durable); w !in Roster(s0, gid) && s0.invites == map[]
  {
  }

  lemma RedeemNamesInvite(c: Crypto, s: Relay, op: Op, gid: GroupId, w: Wallet)
    requires op.OpRedeemInvite? && MayAppear(c, s, op, gid, w)
    ensures c.blake3(op.token) in s.invites && s.invites[c.blake3(op.token)].groupId == gid
  {
  }

  lemma MintedBefore(c: Crypto, s: Relay, ops: seq<Op>, j: nat, th: Digest, invite: Invite)
    requires MintedAt(c, s, ops, j, th, invite)
    ensures j < |ops|
  {
  }
}
