/** One function per relay operation: its checks in order, its reply and its next state. */
module RelaySteps {
  import opened Common
  import opened Bytes
  import opened Proto
  import opened Audit
  import opened Nonces
  import opened Rbac
  import opened RelayState

  datatype RedeemError = InvalidKeyPackage | UnknownToken | Revoked | Consumed | InviteExpired

  datatype RelayError =
    | NotAuthenticated
    | Forbidden
    | Siwe(identity: IdentityError)
    | Binding(identity: IdentityError)
    | NonceRejected
    | WrongDomain
    | GroupUnknown
    | GroupExists
    | NotAMember
    | SenderMismatch
    | EnvelopeGroupMismatch
    | UnexpectedEnvelopeKind
    | EpochAlreadyCommitted(epoch: nat)
    | NonContiguousEpoch(expected: nat, got: nat)
    | RecipientNotAMember
    | TooManyRecipients(count: nat)
    | CiphertextTooLarge(size: nat)
    | KeyPackageQuotaExceeded
    | InviteUnknown
    | InviteAlreadyUsed
    | InviteQuotaExceeded
    | InviteRedeem(reason: RedeemError)
    | RbacRefused(rbac: RbacError)
    | AuditBroken(audit: AuditError)
    | CorruptKey
    | NoStore

  datatype Reply =
    | Done
    | Refused(error: RelayError)
    | LoggedIn(wallet: Wallet)
    | Referenced(reference: Digest)
    | Taken(package: Option<Publication>)
    | Sequenced(seqno: nat)
    | Delivered(envelopes: seq<Envelope>)
    | Admitted(groupInfo: Blob, epoch: nat)

  datatype Outcome = Outcome(state: Relay, reply: Reply)

  // Handshake

  /** The fresh nonce is the random source's choice, so it is an argument. */
  function Challenge(s: Relay, nonce: string, now: nat): Outcome
  {
    Outcome(s.(nonces := Issued(s.nonces, nonce, now)), Done)
  }

  function Authenticate(c: Crypto, s: Relay, m: SiweMessage, signature: Blob, now: nat): Outcome
  {
    var spent := s.(nonces := s.nonces - {m.nonce});
    if m.nonce !in s.nonces then Outcome(spent, Refused(Siwe(NonceUnknownOrUsed)))
    else
      match LoginVerdict(c.login, m, signature, s.domain, now)
      case Err(e) => Outcome(spent, Refused(Siwe(e)))
      case Ok(w) => Outcome(spent.(sessions := s.sessions + {w}), LoggedIn(w))
  }

  function EndSession(s: Relay, w: Wallet): Outcome
  {
    Outcome(s.(sessions := s.sessions - {w}), Done)
  }

  // KeyPackage directory

  function PublishKeyPackage(c: Crypto, s: Relay, p: Publication, now: nat): Outcome
  {
    if p.wallet !in s.sessions then Outcome(s, Refused(NotAuthenticated))
    else if p.relayDomain != s.domain then Outcome(s, Refused(WrongDomain))
    else if p.nonce !in s.nonces then Outcome(s, Refused(NonceRejected))
    else
      var spent := s.(nonces := s.nonces - {p.nonce});
      match VerifyBinding(c.binding, p)
      case Err(e) => Outcome(spent, Refused(Binding(e)))
      case Ok(_) =>
        if |Queue(s, p.wallet)| >= MAX_KEYPACKAGES_PER_WALLET then Outcome(spent, Refused(KeyPackageQuotaExceeded))
        else
          var queue, reference := Queue(s, p.wallet) + [p], c.blake3(p.keyPackage);
          var queued := spent.(keyPackages := s.keyPackages[p.wallet := queue],
                               store := PutKeyPackages(s.store, p.wallet, queue));
          Outcome(AuditAppend(c, queued, KeyPackagePublished(p.wallet, reference), now), Referenced(reference))
  }

  function TakeKeyPackage(s: Relay, w: Wallet): Outcome
  {
    var q := Queue(s, w);
    if q == [] then Outcome(s, Taken(None))
    else Outcome(s.(keyPackages := s.keyPackages[w := q[1..]], store := PutKeyPackages(s.store, w, q[1..])),
                 Taken(Some(q[0])))
  }

  // Claims inbox

  function SubmitClaim(s: Relay, submitter: Wallet, claim: Claim): Outcome
  {
    if submitter !in s.sessions then Outcome(s, Refused(NotAuthenticated))
    else
      var q := if claim.tokenHash in s.claims then s.claims[claim.tokenHash] else [];
      var known := exists x :: x in q && x.ciphertext == claim.ciphertext;
      var q' := if known || |q| >= MAX_CLAIMS_PER_TOKEN then q else q + [claim];
      Outcome(s.(claims := s.claims[claim.tokenHash := q']), Done)
  }

  function ClearClaims(s: Relay, th: Digest): Outcome
  {
    Outcome(s.(claims := s.claims - {th}), Done)
  }

  // Invites

  function PublishInvite(s: Relay, inviter: Wallet, gid: GroupId, th: Digest, groupInfo: Blob, expiresAt: nat): Outcome
  {
    if inviter !in s.sessions then Outcome(s, Refused(NotAuthenticated))
    else if gid !in s.groups then Outcome(s, Refused(GroupUnknown))
    else if inviter !in s.groups[gid].members then Outcome(s, Refused(NotAMember))
    else if groupInfo == [] || |groupInfo| > MAX_CIPHERTEXT_BYTES then
      Outcome(s, Refused(CiphertextTooLarge(|groupInfo|)))
    else if th !in s.invites && |s.invites| >= MAX_INVITES then Outcome(s, Refused(InviteQuotaExceeded))
    else
      var invite := Invite(gid, groupInfo, inviter, expiresAt, false, false);
      Outcome(s.(invites := s.invites[th := invite], store := PutInvite(s.store, th, invite)), Done)
  }

  function RevokeInvite(s: Relay, caller: Wallet, th: Digest, reportUsed: bool): Outcome
  {
    if caller !in s.sessions then Outcome(s, Refused(NotAuthenticated))
    else if th !in s.invites then Outcome(s, Refused(InviteUnknown))
    else if s.invites[th].inviter != caller then Outcome(s, Refused(Forbidden))
    else if reportUsed && s.invites[th].consumed then Outcome(s, Refused(InviteAlreadyUsed))
    else
      var invite := s.invites[th].(revoked := true);
      Outcome(s.(invites := s.invites[th := invite], store := PutInvite(s.store, th, invite)), Done)
  }

  /** Why a redeem of `th` into `gid` is refused, if it is. */
  function RedeemRefusal(s: Relay, gid: GroupId, th: Digest, keyPackage: Blob, now: nat): Option<RedeemError>
  {
    if keyPackage == [] || |keyPackage| > MAX_CIPHERTEXT_BYTES then Some(InvalidKeyPackage)
    else if th !in s.invites || s.invites[th].groupId != gid then Some(UnknownToken)
    else if s.invites[th].revoked then Some(Revoked)
    else if s.invites[th].consumed then Some(Consumed)
    else if now > s.invites[th].expiresAt then Some(InviteExpired)
    else if gid !in s.groups then Some(UnknownToken)
    else None
  }

  function RedeemInvite(c: Crypto, s: Relay, joiner: Wallet, gid: GroupId, token: Blob, keyPackage: Blob, now: nat)
    : Outcome
  {
    var th := c.blake3(token);
    match RedeemRefusal(s, gid, th, keyPackage, now)
    case Some(reason) => Outcome(s, Refused(InviteRedeem(reason)))
    case None =>
      var invite := s.invites[th].(consumed := true);
      var g := s.groups[gid].(members := s.groups[gid].members + {joiner});
      var row := Referral(invite.inviter, joiner, gid, th, now);
      Outcome(s.(groups := s.groups[gid := g], invites := s.invites[th := invite], referrals := s.referrals + [row],
                 store := PutReferral(PutGroup(PutInvite(s.store, th, invite), gid, g), |s.referrals|, row)),
              Admitted(invite.groupInfo, g.epoch))
  }

  // Groups

  function RegisterGroup(c: Crypto, s: Relay, gid: GroupId, creator: Wallet, now: nat): Outcome
  {
    if creator !in s.sessions then Outcome(s, Refused(NotAuthenticated))
    else if gid in s.groups then Outcome(s, Refused(GroupExists))
    else
      var g := NewGroup(creator);
      Outcome(AuditAppend(c, s.(groups := s.groups[gid := g], store := PutGroup(s.store, gid, g)),
                          GroupCreated(gid, creator), now), Done)
  }

  function Authorize(c: Crypto, s: Relay, gid: GroupId, admin: Wallet, assertion: Option<Assertion>, cap: Capability,
                     now: nat)
    : (r: Result<(), RelayError>)
    ensures r.Ok? ==> gid in s.groups
  {
    if gid !in s.groups then Err(GroupUnknown)
    else
      var k := Generation(s.groups[gid], admin);
      if admin == s.owner || (s.groups[gid].creator == Some(admin) && k == 0) then Ok(())
      else if assertion.None? then Err(Forbidden)
      else
        match VerifyGrantForGroup(c.grant, assertion.value, admin, s.owner, gid, k, now)
        case Err(e) => Err(RbacRefused(e))
        case Ok(_) => if Can(assertion.value.grant.role, cap) then Ok(()) else Err(Forbidden)
  }

  function RequireOpEnvelope(e: Envelope, gid: GroupId, kind: Kind): Result<(), RelayError>
  {
    if e.groupId != gid then Err(EnvelopeGroupMismatch)
    else if e.kind != kind then Err(UnexpectedEnvelopeKind)
    else Ok(())
  }

  // The ordered path

  datatype Verdict = Reject(error: RelayError) | Replay(seqno: nat) | Accept

  /** The sequence number of the first stored Commit for `epoch`. */
  function PriorSeq(log: seq<Envelope>, epoch: nat): Option<nat>
  {
    if log == [] then None
    else if log[0].kind == Commit && log[0].epoch == epoch then log[0].groupSeq
    else PriorSeq(log[1..], epoch)
  }

  /** First writer wins per epoch, and a new Commit advances the epoch by one. */
  function CommitVerdict(c: Crypto, g: Group, e: Envelope): Verdict
  {
    if e.epoch in g.accepted then
      if g.accepted[e.epoch] != c.blake3(e.ciphertext) then Reject(EpochAlreadyCommitted(e.epoch))
      else
        match PriorSeq(g.log, e.epoch)
        case Some(n) => Replay(n)
        case None => Reject(EpochAlreadyCommitted(e.epoch))
    else if g.epoch >= U64_MAX then Reject(NonContiguousEpoch(U64_MAX, e.epoch))
    else if e.epoch != g.epoch + 1 then Reject(NonContiguousEpoch(g.epoch + 1, e.epoch))
    else Accept
  }

  function Admit(c: Crypto, s: Relay, e: Envelope): (v: Verdict)
    ensures v == Accept ==> e.groupId in s.groups
  {
    if e.sender !in s.sessions then Reject(NotAuthenticated)
    else if e.groupId !in s.groups then Reject(GroupUnknown)
    else
      var g := s.groups[e.groupId];
      if e.sender !in g.members then Reject(NotAMember)
      else if |e.ciphertext| > MAX_CIPHERTEXT_BYTES then Reject(CiphertextTooLarge(|e.ciphertext|))
      else if |e.recipients| > MAX_RECIPIENTS then Reject(TooManyRecipients(|e.recipients|))
      else if exists r :: r in e.recipients && r !in g.members then Reject(RecipientNotAMember)
      else if e.kind == Commit then CommitVerdict(c, g, e)
      else Accept
  }

  /** Store the accepted envelope, fan it out and audit the receipt. */
  function Deliver(c: Crypto, s: Relay, e: Envelope, now: nat): Relay
    requires e.groupId in s.groups
  {
    var gid, g := e.groupId, s.groups[e.groupId];
    var g', stamped := Accepting(c, g, e), Stamped(g, e);
    var stored := s.(groups := s.groups[gid := g'], mailboxes := FanOut(s.mailboxes, e.recipients, stamped),
                     store := PutGroup(PutEnvelope(s.store, gid, g.nextSeq, stamped), gid, g'));
    AuditAppend(c, stored, ReceiptOf(c, e, g.nextSeq), now)
  }

  function Submit(c: Crypto, s: Relay, e: Envelope, now: nat): (o: Outcome)
    ensures o.state.groups.Keys == s.groups.Keys
    ensures o.reply.Refused? || o.reply.Sequenced?
    ensures o.reply.Sequenced? ==> e.groupId in s.groups
  {
    match Admit(c, s, e)
    case Reject(error) => Outcome(s, Refused(error))
    case Replay(n) => Outcome(s, Sequenced(n))
    case Accept => Outcome(Deliver(c, s, e, now), Sequenced(s.groups[e.groupId].nextSeq))
  }

  function SubmitAs(c: Crypto, s: Relay, authed: Wallet, e: Envelope, now: nat): (o: Outcome)
    ensures o.state.groups.Keys == s.groups.Keys
    ensures o.reply.Refused? || o.reply.Sequenced?
    ensures o.reply.Sequenced? ==> e.groupId in s.groups
  {
    if e.sender != authed then Outcome(s, Refused(SenderMismatch)) else Submit(c, s, e, now)
  }

  function Fetch(s: Relay, w: Wallet): Outcome
  {
    Outcome(if w in s.mailboxes then s.(mailboxes := s.mailboxes[w := []]) else s, Delivered(Mailbox(s.mailboxes, w)))
  }

  // Membership operations

  /** The checks onboard and offboard share, after the session check: authority, roster, envelope. */
  function MembershipRefusal(c: Crypto, s: Relay, gid: GroupId, admin: Wallet, assertion: Option<Assertion>,
                             cap: Capability, needed: set<Wallet>, e: Envelope, kind: Kind, now: nat)
    : (r: Option<RelayError>)
    ensures r.None? ==> gid in s.groups && e.groupId == gid && e.kind == kind && needed <= s.groups[gid].members
  {
    match Authorize(c, s, gid, admin, assertion, cap, now)
    case Err(error) => Some(error)
    case Ok(_) =>
      if !(needed <= s.groups[gid].members) then Some(NotAMember)
      else
        match RequireOpEnvelope(e, gid, kind)
        case Err(error) => Some(error)
        case Ok(_) => None
  }

  /** After the Welcome: stash the tree, persist and audit the new member. */
  function Seat(c: Crypto, s: Relay, gid: GroupId, joiner: Wallet, tree: Blob, now: nat): Relay
    requires gid in s.groups
  {
    var g := s.groups[gid].(tree := tree);
    AuditAppend(c, s.(groups := s.groups[gid := g], store := PutGroup(s.store, gid, g)),
                MemberAdded(gid, joiner, g.epoch), now)
  }

  /** After the Remove: drop the member, end its grants and session, persist and audit. */
  function Dismiss(c: Crypto, s: Relay, gid: GroupId, removed: Wallet, tree: Blob, now: nat): Relay
    requires gid in s.groups
  {
    var g := EndMembership(s.groups[gid], removed).(tree := tree);
    var ended := s.(groups := s.groups[gid := g], sessions := s.sessions - {removed},
                    store := PutGroup(s.store, gid, g));
    var noted := AuditAppend(c, ended, MemberRemoved(gid, removed, g.epoch), now);
    AuditAppend(c, noted, RoleRevoked(removed, Some(gid)), now)
  }

  /** The state a Welcome is submitted in: the joiner already on the roster. */
  function WithJoiner(s: Relay, gid: GroupId, w: Wallet): Relay
    requires gid in s.groups
  {
    s.(groups := s.groups[gid := s.groups[gid].(members := s.groups[gid].members + {w})])
  }

  /** The rollback of a refused Welcome: a joiner who was not on the roster leaves it again. */
  function WithoutJoiner(s: Relay, gid: GroupId, w: Wallet): Relay
    requires gid in s.groups
  {
    s.(groups := s.groups[gid := s.groups[gid].(members := s.groups[gid].members - {w})])
  }

  function Onboard(c: Crypto, s: Relay, gid: GroupId, admin: Wallet, assertion: Option<Assertion>, joiner: Wallet,
                   welcome: Envelope, tree: Blob, now: nat)
    : Outcome
  {
    if admin !in s.sessions then Outcome(s, Refused(NotAuthenticated))
    else
      match MembershipRefusal(c, s, gid, admin, assertion, AddMember, {admin}, welcome, Kind.Welcome, now)
      case Some(error) => Outcome(s, Refused(error))
      case None =>
        var o := SubmitAs(c, WithJoiner(s, gid, joiner), admin, welcome, now);
        if o.reply.Sequenced? then Outcome(Seat(c, o.state, gid, joiner, tree, now), Done)
        else if joiner in s.groups[gid].members then o
        else Outcome(WithoutJoiner(o.state, gid, joiner), o.reply)
  }

  function Offboard(c: Crypto, s: Relay, gid: GroupId, admin: Wallet, assertion: Option<Assertion>, removed: Wallet,
                    commit: Envelope, tree: Blob, now: nat)
    : Outcome
  {
    if admin !in s.sessions then Outcome(s, Refused(NotAuthenticated))
    else if removed == s.owner && admin != s.owner then Outcome(s, Refused(Forbidden))
    else
      match MembershipRefusal(c, s, gid, admin, assertion, RemoveMember, {admin, removed}, commit, Commit, now)
      case Some(error) => Outcome(s, Refused(error))
      case None =>
        var o := SubmitAs(c, s, admin, commit, now);
        if o.reply.Sequenced? then Outcome(Dismiss(c, o.state, gid, removed, tree, now), o.reply) else o
  }

  // Restart

  /** What a restart keeps: everything but nonces, claims, mailboxes and sessions. */
  function Restarted(s: Relay): Relay
  {
    s.(nonces := map[], claims := map[], mailboxes := map[], sessions := {})
  }

  // The machine

  datatype Op =
    | OpChallenge(nonce: string, now: nat)
    | OpAuthenticate(message: SiweMessage, signature: Blob, now: nat)
    | OpEndSession(wallet: Wallet)
    | OpPublishKeyPackage(publication: Publication, now: nat)
    | OpTakeKeyPackage(wallet: Wallet)
    | OpSubmitClaim(wallet: Wallet, claim: Claim)
    | OpClearClaims(tokenHash: Digest)
    | OpPublishInvite(wallet: Wallet, groupId: GroupId, tokenHash: Digest, groupInfo: Blob, expiresAt: nat)
    | OpRevokeInvite(wallet: Wallet, tokenHash: Digest, reportUsed: bool)
    | OpRedeemInvite(wallet: Wallet, groupId: GroupId, token: Blob, keyPackage: Blob, now: nat)
    | OpRegisterGroup(groupId: GroupId, wallet: Wallet, now: nat)
    | OpOnboard(groupId: GroupId, admin: Wallet, assertion: Option<Assertion>, subject: Wallet, envelope: Envelope,
                tree: Blob, now: nat)
    | OpOffboard(groupId: GroupId, admin: Wallet, assertion: Option<Assertion>, subject: Wallet, envelope: Envelope,
                 tree: Blob, now: nat)
    | OpSubmit(wallet: Wallet, envelope: Envelope, now: nat)
    | OpFetch(wallet: Wallet)
    | OpRestart(genesis: nat)

  function Step(c: Crypto, s: Relay, op: Op): Outcome
  {
    match op
    case OpChallenge(nonce, now) => Challenge(s, nonce, now)
    case OpAuthenticate(m, sig, now) => Authenticate(c, s, m, sig, now)
    case OpEndSession(w) => EndSession(s, w)
    case OpPublishKeyPackage(p, now) => PublishKeyPackage(c, s, p, now)
    case OpTakeKeyPackage(w) => TakeKeyPackage(s, w)
    case OpSubmitClaim(w, claim) => SubmitClaim(s, w, claim)
    case OpClearClaims(th) => ClearClaims(s, th)
    case OpPublishInvite(w, gid, th, info, expires) => PublishInvite(s, w, gid, th, info, expires)
    case OpRevokeInvite(w, th, report) => RevokeInvite(s, w, th, report)
    case OpRedeemInvite(w, gid, token, kp, now) => RedeemInvite(c, s, w, gid, token, kp, now)
    case OpRegisterGroup(gid, w, now) => RegisterGroup(c, s, gid, w, now)
    case OpOnboard(gid, admin, a, w, e, tree, now) => Onboard(c, s, gid, admin, a, w, e, tree, now)
    case OpOffboard(gid, admin, a, w, e, tree, now) => Offboard(c, s, gid, admin, a, w, e, tree, now)
    case OpSubmit(w, e, now) => SubmitAs(c, s, w, e, now)
    case OpFetch(w) => Fetch(s, w)
    case OpRestart(_) => if s.store.None? then Outcome(s, Refused(NoStore)) else Outcome(Restarted(s), Done)
  }

  /** The operations of one process: none of them is a restart. */
  predicate OneLifetime(ops: seq<Op>)
  {
    forall op :: op in ops ==> !op.OpRestart?
  }

  /** The state after a run of operations. */
  function Exec(c: Crypto, s: Relay, ops: seq<Op>): Relay
  {
    if ops == [] then s else Step(c, Exec(c, s, ops[..|ops| - 1]), ops[|ops| - 1]).state
  }

  /** A relay at the start of its life: in memory, or over a fresh store holding the genesis record. */
  function Initial(c: Crypto, domain: string, owner: Wallet, genesis: nat, durable: bool): Relay
  {
    var chain := Started(c.link, genesis);
    Relay(domain, owner, map[], map[], map[], map[], [], map[], map[], {}, chain,
          if durable then Some(EMPTY_STORE.(audit := map[BigEndian(0, 8) := chain[0]])) else None)
  }
}
