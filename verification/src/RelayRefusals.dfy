/** Every refusal names a reason that is true of the request and the state. */
module RelayRefusals {
  import opened Common
  import opened Bytes
  import opened Proto
  import opened Nonces
  import opened Rbac
  import opened RelayState
  import opened RelaySteps
  import opened RelayOrder
  import opened RelayAuthority
  import opened RelayAcceptance

  // Reasons, by what they blame

  /** What is wrong with a login that names a live nonce. */
  predicate LoginFault(c: Crypto, s: Relay, m: SiweMessage, signature: Blob, now: nat, fault: IdentityError)
  {
    match fault
    case NonceUnknownOrUsed => m.nonce !in s.nonces
    case WrongChain(expected, found) => expected == 40204 && found == m.chainId && found != expected
    case DomainMismatch => m.domain != s.domain
    case Expired => m.expiration <= now
    case Unrecoverable => c.login(m, signature) == None
    case AddressMismatch => c.login(m, signature).Some? && c.login(m, signature) != Some(m.address)
    case BadSignatureLength => false
  }

  predicate BindingFault(c: Crypto, p: Publication, fault: IdentityError)
  {
    var signer := c.binding(p.wallet, p.mlsKey, p.relayDomain, p.nonce, p.attestation);
    match fault
    case BadSignatureLength => |p.attestation| != 65
    case Unrecoverable => signer == None
    case AddressMismatch => signer.Some? && signer != Some(p.wallet)
    case _ => false
  }

  predicate RedeemFault(s: Relay, gid: GroupId, th: Digest, keyPackage: Blob, now: nat, fault: RedeemError)
  {
    match fault
    case InvalidKeyPackage => keyPackage == [] || |keyPackage| > 4_194_304
    case UnknownToken => th !in s.invites || s.invites[th].groupId != gid || gid !in s.groups
    case Revoked => th in s.invites && s.invites[th].revoked
    case Consumed => th in s.invites && s.invites[th].consumed
    case InviteExpired => th in s.invites && s.invites[th].expiresAt < now
  }

  /** What is wrong with a grant presented by `w` for its membership of generation `k`. */
  predicate GrantFault(c: Crypto, a: Assertion, w: Wallet, owner: Wallet, gid: GroupId, k: nat, now: nat,
                       fault: RbacError)
  {
    var g, signer := a.grant, c.grant(a.grant, a.signature);
    match fault
    case Expired => g.notAfter.Some? && g.notAfter.value <= now
    case BadSignatureLength => |a.signature| != 65
    case Unrecoverable => signer == None
    case SignerMismatch => signer.Some? && signer != Some(g.issuer)
    case SubjectMismatch => g.subject != w
    case UntrustedIssuer => signer == Some(g.issuer) && g.issuer != owner
    case MissingScope => g.scope == None
    case ScopeMismatch => g.scope.Some? && g.scope != Some(gid)
    case StaleGeneration => (if g.generation.Some? then g.generation.value else 0) != k
    case _ => false
  }

  /** What is wrong with an envelope on the ordered path, for a group with these members. */
  predicate EnvelopeFault(c: Crypto, s: Relay, e: Envelope, members: set<Wallet>, error: RelayError)
  {
    match error
    case NotAuthenticated => e.sender !in s.sessions
    case GroupUnknown => e.groupId !in s.groups
    case NotAMember => e.sender !in members
    case CiphertextTooLarge(size) => size == |e.ciphertext| && size > 4_194_304
    case TooManyRecipients(count) => count == |e.recipients| && count > 4096
    case RecipientNotAMember => exists r :: r in e.recipients && r !in members
    case EpochAlreadyCommitted(k) =>
      && e.kind == Commit && k == e.epoch && e.groupId in s.groups
      && k in s.groups[e.groupId].accepted && s.groups[e.groupId].accepted[k] != c.blake3(e.ciphertext)
    case NonContiguousEpoch(expected, got) =>
      && e.kind == Commit && got == e.epoch && e.groupId in s.groups && e.epoch !in s.groups[e.groupId].accepted
      && var epoch := s.groups[e.groupId].epoch;
      && expected == (if epoch < 0xFFFF_FFFF_FFFF_FFFF then epoch + 1 else 0xFFFF_FFFF_FFFF_FFFF)
      && (got != expected || epoch >= 0xFFFF_FFFF_FFFF_FFFF)
    case _ => false
  }

  predicate AuthorityFault(c: Crypto, s: Relay, gid: GroupId, w: Wallet, a: Option<Assertion>, cap: Capability,
                           now: nat, error: RelayError)
  {
    match error
    case GroupUnknown => gid !in s.groups
    case Forbidden =>
      && gid in s.groups && !Authorized(c, s, gid, w, a, cap, now)
      && (a.Some? ==> OwnerGranted(c.grant, a.value, w, s.owner, gid, Generation(s.groups[gid], w), now))
    case RbacRefused(fault) =>
      && gid in s.groups && !Authorized(c, s, gid, w, a, cap, now)
      && a.Some? && GrantFault(c, a.value, w, s.owner, gid, Generation(s.groups[gid], w), now, fault)
    case _ => false
  }

  /** The reason `error` is true of the request in this state. */
  predicate True(c: Crypto, s: Relay, op: Op, error: RelayError)
  {
    match op
    case OpAuthenticate(m, signature, now) => error.Siwe? && LoginFault(c, s, m, signature, now, error.identity)
    case OpPublishKeyPackage(p, _) =>
      (match error
       case NotAuthenticated => p.wallet !in s.sessions
       case WrongDomain => p.relayDomain != s.domain
       case NonceRejected => p.nonce !in s.nonces
       case Binding(fault) => BindingFault(c, p, fault)
       case KeyPackageQuotaExceeded => |Queue(s, p.wallet)| >= 64
       case _ => false)
    case OpSubmitClaim(w, _) => error == NotAuthenticated && w !in s.sessions
    case OpPublishInvite(w, gid, th, info, _) =>
      (match error
       case NotAuthenticated => w !in s.sessions
       case GroupUnknown => gid !in s.groups
       case NotAMember => w !in Roster(s, gid)
       case CiphertextTooLarge(size) => size == |info| && (size == 0 || size > 4_194_304)
       case InviteQuotaExceeded => th !in s.invites && |s.invites| >= 4096
       case _ => false)
    case OpRevokeInvite(w, th, report) =>
      (match error
       case NotAuthenticated => w !in s.sessions
       case InviteUnknown => th !in s.invites
       case Forbidden => th in s.invites && s.invites[th].inviter != w
       case InviteAlreadyUsed => report && th in s.invites && s.invites[th].consumed
       case _ => false)
    case OpRedeemInvite(_, gid, token, kp, now) =>
      error.InviteRedeem? && RedeemFault(s, gid, c.blake3(token), kp, now, error.reason)
    case OpRegisterGroup(gid, w, _) =>
      (error == NotAuthenticated && w !in s.sessions) || (error == GroupExists && gid in s.groups)
    case OpSubmit(w, e, _) =>
      if error == SenderMismatch then e.sender != w else EnvelopeFault(c, s, e, Roster(s, e.groupId), error)
    case OpOnboard(gid, admin, a, w, e, _, now) =>
      || (error == NotAuthenticated && admin !in s.sessions)
      || (error == NotAMember && admin !in Roster(s, gid))
      || (error == EnvelopeGroupMismatch && e.groupId != gid)
      || (error == UnexpectedEnvelopeKind && e.kind != Kind.Welcome)
      || (error == SenderMismatch && e.sender != admin)
      || AuthorityFault(c, s, gid, admin, a, AddMember, now, error)
      || (e.sender == admin && e.groupId == gid && EnvelopeFault(c, s, e, Roster(s, gid) + {w}, error))
    case OpOffboard(gid, admin, a, w, e, _, now) =>
      || (error == NotAuthenticated && admin !in s.sessions)
      || (error == Forbidden && w == s.owner && admin != s.owner)
      || (error == NotAMember && (admin !in Roster(s, gid) || w !in Roster(s, gid)))
      || (error == EnvelopeGroupMismatch && e.groupId != gid)
      || (error == UnexpectedEnvelopeKind && e.kind != Commit)
      || (error == SenderMismatch && e.sender != admin)
      || AuthorityFault(c, s, gid, admin, a, RemoveMember, now, error)
      || (e.sender == admin && e.groupId == gid && EnvelopeFault(c, s, e, Roster(s, gid), error))
    case OpRestart(_) => error == NoStore && s.store == None
    case _ => false
  }

  // The lemmas

  lemma GrantFaultIsTrue(c: Crypto, a: Assertion, w: Wallet, owner: Wallet, gid: GroupId, k: nat, now: nat)
    ensures var v := VerifyGrantForGroup(c.grant, a, w, owner, gid, k, now);
            v.Err? ==> GrantFault(c, a, w, owner, gid, k, now, v.error)
  {
  }

  lemma AuthorityFaultIsTrue(c: Crypto, s: Relay, gid: GroupId, w: Wallet, a: Option<Assertion>, cap: Capability,
                             now: nat)
    ensures var v := Authorize(c, s, gid, w, a, cap, now);
            v.Err? ==> AuthorityFault(c, s, gid, w, a, cap, now, v.error)
  {
    hide GrantFault, Authorized, VerifyGrantForGroup, OwnerGranted;
    AuthorizeExactly(c, s, gid, w, a, cap, now);
    if gid in s.groups && a.Some? {
      GrantFaultIsTrue(c, a.value, w, s.owner, gid, Generation(s.groups[gid], w), now);
      GrantAcceptedExactly(c.grant, a.value, w, s.owner, gid, Generation(s.groups[gid], w), now);
    }
  }

  lemma EnvelopeFaultIsTrue(c: Crypto, s: Relay, e: Envelope)
    requires Inv(c, s)
    ensures Admit(c, s, e).Reject? ==> EnvelopeFault(c, s, e, Roster(s, e.groupId), Admit(c, s, e).error)
  {
    hide Inv, Ordered, CommitVerdict;
    if e.groupId in s.groups && e.kind == Commit {
      InvOrdered(c, s, e.groupId);
      CommitFaultIsTrue(c, s, e);
    }
  }

  lemma CommitFaultIsTrue(c: Crypto, s: Relay, e: Envelope)
    requires e.groupId in s.groups && e.kind == Commit && Ordered(c, e.groupId, s.groups[e.groupId])
    ensures var g := s.groups[e.groupId];
            CommitVerdict(c, g, e).Reject? ==>
              EnvelopeFault(c, s, e, Roster(s, e.groupId), CommitVerdict(c, g, e).error)
  {
    hide PriorSeq;
    var g := s.groups[e.groupId];
    if e.epoch in g.accepted {
      TableKeys(c, g.log, e.epoch);
      var i := PriorSeqFinds(g.log, e.epoch);
    }
  }

  lemma InviteRefusalIsTrue(c: Crypto, s: Relay, op: Op)
    requires op.OpPublishInvite? || op.OpRevokeInvite? || op.OpRedeemInvite?
    requires Step(c, s, op).reply.Refused?
    ensures True(c, s, op, Step(c, s, op).reply.error)
  {
    hide Onboard, Offboard, SubmitAs, AuthorityFault, EnvelopeFault, RegisterGroup, PublishKeyPackage, LoginFault,
         BindingFault, Authenticate;
  }

  lemma HandshakeRefusalIsTrue(c: Crypto, s: Relay, op: Op)
    requires op.OpAuthenticate? || op.OpPublishKeyPackage?
    requires Step(c, s, op).reply.Refused?
    ensures True(c, s, op, Step(c, s, op).reply.error)
  {
    hide Onboard, Offboard, SubmitAs, AuthorityFault, EnvelopeFault, RegisterGroup, PublishInvite, RevokeInvite,
         RedeemInvite, RedeemFault, AuditAppend;
  }

  lemma OtherRefusalIsTrue(c: Crypto, s: Relay, op: Op)
    requires !op.OpSubmit? && !op.OpOnboard? && !op.OpOffboard? && !op.OpAuthenticate? && !op.OpPublishKeyPackage?
    requires !op.OpPublishInvite? && !op.OpRevokeInvite? && !op.OpRedeemInvite?
    requires Step(c, s, op).reply.Refused?
    ensures True(c, s, op, Step(c, s, op).reply.error)
  {
    hide Onboard, Offboard, SubmitAs, AuthorityFault, EnvelopeFault, PublishInvite, RevokeInvite, RedeemInvite,
         PublishKeyPackage, Authenticate, LoginFault, BindingFault, RedeemFault, AuditAppend;
  }

  lemma OnboardRefusalIsTrue(c: Crypto, s: Relay, op: Op)
    requires Inv(c, s) && op.OpOnboard? && Step(c, s, op).reply.Refused?
    ensures True(c, s, op, Step(c, s, op).reply.error)
  {
    hide AuthorityFault, Authorize, Admit, Deliver, Seat, Inv, EnvelopeFault;
    hide RegisterGroup, PublishKeyPackage, RedeemInvite, Offboard;
    AuthorityFaultIsTrue(c, s, op.groupId, op.admin, op.assertion, AddMember, op.now);
    if op.groupId in s.groups && op.envelope.groupId == op.groupId {
      var added := WithJoiner(s, op.groupId, op.subject);
      JoinerKeepsInv(c, s, op.groupId, op.subject);
      EnvelopeFaultIsTrue(c, added, op.envelope);
      WelcomeFault(c, s, op, Admit(c, added, op.envelope));
    }
  }

  /** The fault of a Welcome does not depend on the provisional seat but for the roster. */
  lemma WelcomeFault(c: Crypto, s: Relay, op: Op, v: Verdict)
    requires op.OpOnboard? && op.groupId in s.groups && op.envelope.groupId == op.groupId
    ensures var added := WithJoiner(s, op.groupId, op.subject);
            v.Reject? && EnvelopeFault(c, added, op.envelope, Roster(added, op.envelope.groupId), v.error) ==>
              EnvelopeFault(c, s, op.envelope, Roster(s, op.groupId) + {op.subject}, v.error)
  {
  }

  lemma OffboardRefusalIsTrue(c: Crypto, s: Relay, op: Op)
    requires Inv(c, s) && op.OpOffboard? && Step(c, s, op).reply.Refused?
    ensures True(c, s, op, Step(c, s, op).reply.error)
  {
    hide AuthorityFault, Authorize, Admit, Deliver, Dismiss, Inv, EnvelopeFault;
    hide RegisterGroup, PublishKeyPackage, RedeemInvite, Onboard;
    AuthorityFaultIsTrue(c, s, op.groupId, op.admin, op.assertion, RemoveMember, op.now);
    EnvelopeFaultIsTrue(c, s, op.envelope);
  }

  lemma SubmitRefusalIsTrue(c: Crypto, s: Relay, op: Op)
    requires Inv(c, s) && op.OpSubmit? && Step(c, s, op).reply.Refused?
    ensures True(c, s, op, Step(c, s, op).reply.error)
  {
    hide Admit, Deliver, Inv, EnvelopeFault, RegisterGroup, PublishKeyPackage, RedeemInvite, Onboard, Offboard;
    EnvelopeFaultIsTrue(c, s, op.envelope);
    assert Admit(c, s, op.envelope).Reject? ==> Admit(c, s, op.envelope).error != SenderMismatch by {
      EnvelopeNeverMismatches(c, s, op.envelope);
    }
  }

  lemma EnvelopeNeverMismatches(c: Crypto, s: Relay, e: Envelope)
    ensures !EnvelopeFault(c, s, e, Roster(s, e.groupId), SenderMismatch)
  {
  }

  /** In every reachable state, a refused operation is refused for a reason that holds. */
  lemma RefusalsAreTrue(c: Crypto, s: Relay, op: Op)
    requires Inv(c, s) && Step(c, s, op).reply.Refused?
    ensures True(c, s, op, Step(c, s, op).reply.error)
  {
    hide Step, True, Inv;
    match op {
      case OpSubmit(_, _, _) => SubmitRefusalIsTrue(c, s, op);
      case OpOnboard(_, _, _, _, _, _, _) => OnboardRefusalIsTrue(c, s, op);
      case OpOffboard(_, _, _, _, _, _, _) => OffboardRefusalIsTrue(c, s, op);
      case OpPublishInvite(_, _, _, _, _) => InviteRefusalIsTrue(c, s, op);
      case OpRevokeInvite(_, _, _) => InviteRefusalIsTrue(c, s, op);
      case OpRedeemInvite(_, _, _, _, _) => InviteRefusalIsTrue(c, s, op);
      case OpAuthenticate(_, _, _) => HandshakeRefusalIsTrue(c, s, op);
      case OpPublishKeyPackage(_, _) => HandshakeRefusalIsTrue(c, s, op);
      case _ => OtherRefusalIsTrue(c, s, op);
    }
  }

  // The order of the checks

  function LoginPlace(fault: IdentityError): nat
  {
    match fault
    case NonceUnknownOrUsed => 0
    case WrongChain(_, _) => 1
    case DomainMismatch => 2
    case Expired => 3
    case BadSignatureLength => 4
    case Unrecoverable => 5
    case AddressMismatch => 6
  }

  function GrantPlace(fault: RbacError): nat
  {
    match fault
    case Expired => 0
    case BadSignatureLength => 1
    case Unrecoverable => 2
    case SignerMismatch => 3
    case SubjectMismatch => 4
    case UntrustedIssuer => 5
    case MissingScope => 6
    case ScopeMismatch => 7
    case _ => 8
  }

  /** Places of the ordered path's checks. */
  function EnvelopePlace(error: RelayError): nat
  {
    match error
    case NotAuthenticated => 101
    case GroupUnknown => 102
    case NotAMember => 103
    case CiphertextTooLarge(_) => 104
    case TooManyRecipients(_) => 105
    case RecipientNotAMember => 106
    case _ => 107
  }

  /** Places of the checks onboard and offboard make before the ordered path's. */
  function MembershipPlace(s: Relay, op: Op, error: RelayError): nat
    requires op.OpOnboard? || op.OpOffboard?
  {
    match error
    case NotAuthenticated => 0
    case Forbidden => if op.OpOffboard? && op.subject == s.owner && op.admin != s.owner then 1 else 20
    case GroupUnknown => 2
    case RbacRefused(fault) => 10 + GrantPlace(fault)
    case NotAMember => 30
    case EnvelopeGroupMismatch => 31
    case UnexpectedEnvelopeKind => 32
    case SenderMismatch => 33
    case _ => EnvelopePlace(error)
  }

  /** Where the reason stands in the order in which the operation is checked. */
  function Place(c: Crypto, s: Relay, op: Op, error: RelayError): nat
  {
    match op
    case OpAuthenticate(_, _, _) => if error.Siwe? then LoginPlace(error.identity) else 0
    case OpPublishKeyPackage(_, _) =>
      (match error
       case NotAuthenticated => 0
       case WrongDomain => 1
       case NonceRejected => 2
       case Binding(fault) => 10 + LoginPlace(fault)
       case _ => 20)
    case OpPublishInvite(_, _, _, _, _) =>
      (match error
       case NotAuthenticated => 0
       case GroupUnknown => 1
       case NotAMember => 2
       case CiphertextTooLarge(_) => 3
       case _ => 4)
    case OpRevokeInvite(_, _, _) =>
      (match error
       case NotAuthenticated => 0
       case InviteUnknown => 1
       case Forbidden => 2
       case _ => 3)
    case OpRedeemInvite(_, gid, token, _, _) =>
      if !error.InviteRedeem? then 0
      else
        (match error.reason
         case InvalidKeyPackage => 0
         case UnknownToken =>
           var th := c.blake3(token);
           if th in s.invites && s.invites[th].groupId == gid then 5 else 1
         case Revoked => 2
         case Consumed => 3
         case InviteExpired => 4)
    case OpRegisterGroup(_, _, _) => if error == NotAuthenticated then 0 else 1
    case OpSubmit(_, _, _) => if error == SenderMismatch then 0 else EnvelopePlace(error)
    case OpOnboard(_, _, _, _, _, _, _) => MembershipPlace(s, op, error)
    case OpOffboard(_, _, _, _, _, _, _) => MembershipPlace(s, op, error)
    case _ => 0
  }

  lemma GrantFaultsInOrder(c: Crypto, a: Assertion, w: Wallet, owner: Wallet, gid: GroupId, k: nat, now: nat,
                           other: RbacError)
    requires GrantFault(c, a, w, owner, gid, k, now, other)
    ensures var v := VerifyGrantForGroup(c.grant, a, w, owner, gid, k, now);
            v.Err? && GrantPlace(v.error) <= GrantPlace(other)
  {
  }

  lemma EnvelopeFaultsInOrder(c: Crypto, s: Relay, e: Envelope, other: RelayError)
    requires Inv(c, s) && EnvelopeFault(c, s, e, Roster(s, e.groupId), other)
    ensures Admit(c, s, e).Reject? && EnvelopePlace(Admit(c, s, e).error) <= EnvelopePlace(other)
  {
    hide Inv, Ordered, CommitVerdict;
    if e.groupId in s.groups && e.kind == Commit {
      InvOrdered(c, s, e.groupId);
      CommitFaultsInOrder(c, s, e, other);
    }
  }

  lemma CommitFaultsInOrder(c: Crypto, s: Relay, e: Envelope, other: RelayError)
    requires e.groupId in s.groups && e.kind == Commit && Ordered(c, e.groupId, s.groups[e.groupId])
    requires EnvelopeFault(c, s, e, Roster(s, e.groupId), other)
    ensures var v := CommitVerdict(c, s.groups[e.groupId], e);
            && (v.Reject? ==> v.error.EpochAlreadyCommitted? || v.error.NonContiguousEpoch?)
            && (other.EpochAlreadyCommitted? || other.NonContiguousEpoch? ==> v.Reject?)
  {
    hide PriorSeq;
    var g := s.groups[e.groupId];
    AcceptedEpochs(c, e.groupId, g, e.epoch);
  }

  lemma SubmitRefusedInOrder(c: Crypto, s: Relay, op: Op, other: RelayError)
    requires Inv(c, s) && op.OpSubmit? && True(c, s, op, other)
    ensures Step(c, s, op).reply.Refused? && Place(c, s, op, Step(c, s, op).reply.error) <= Place(c, s, op, other)
  {
    hide Admit, Deliver, Inv, EnvelopeFault, RegisterGroup, PublishKeyPackage, RedeemInvite, Onboard, Offboard;
    if other != SenderMismatch { EnvelopeFaultsInOrder(c, s, op.envelope, other); }
  }

  lemma AuthorityFaultsInOrder(c: Crypto, s: Relay, gid: GroupId, w: Wallet, a: Option<Assertion>, cap: Capability,
                               now: nat, other: RelayError)
    requires AuthorityFault(c, s, gid, w, a, cap, now, other)
    ensures var v := Authorize(c, s, gid, w, a, cap, now);
            && (other == GroupUnknown || other == Forbidden || other.RbacRefused?)
            && v.Err? && (other == GroupUnknown <==> v.error == GroupUnknown)
            && (other == Forbidden ==> v.error == Forbidden)
            && (other.RbacRefused? ==> v.error.RbacRefused? && GrantPlace(v.error.rbac) <= GrantPlace(other.rbac))
  {
    hide GrantFault, Authorized, VerifyGrantForGroup, OwnerGranted;
    AuthorizeExactly(c, s, gid, w, a, cap, now);
    if gid in s.groups && a.Some? {
      var k := Generation(s.groups[gid], w);
      GrantAcceptedExactly(c.grant, a.value, w, s.owner, gid, k, now);
      if other.RbacRefused? { GrantFaultsInOrder(c, a.value, w, s.owner, gid, k, now, other.rbac); }
    }
  }

  /** The checks of an onboard or offboard one after the other, the ordered path's as one. */
  function MembershipError(c: Crypto, s: Relay, op: Op): Option<RelayError>
    requires op.OpOnboard? || op.OpOffboard?
  {
    var gid, e, cap := op.groupId, op.envelope, if op.OpOnboard? then AddMember else RemoveMember;
    if op.admin !in s.sessions then Some(NotAuthenticated)
    else if op.OpOffboard? && op.subject == s.owner && op.admin != s.owner then Some(Forbidden)
    else if Authorize(c, s, gid, op.admin, op.assertion, cap, op.now).Err? then
      Some(Authorize(c, s, gid, op.admin, op.assertion, cap, op.now).error)
    else if op.admin !in Roster(s, gid) || (op.OpOffboard? && op.subject !in Roster(s, gid)) then Some(NotAMember)
    else if e.groupId != gid then Some(EnvelopeGroupMismatch)
    else if e.kind != (if op.OpOnboard? then Kind.Welcome else Commit) then Some(UnexpectedEnvelopeKind)
    else if e.sender != op.admin then Some(SenderMismatch)
    else
      var v := Admit(c, if op.OpOnboard? && gid in s.groups then WithJoiner(s, gid, op.subject) else s, e);
      if v.Reject? then Some(v.error) else None
  }

  lemma MembershipReply(c: Crypto, s: Relay, op: Op)
    requires op.OpOnboard? || op.OpOffboard?
    ensures var error, reply := MembershipError(c, s, op), Step(c, s, op).reply;
            if error.Some? then reply == Refused(error.value) else !reply.Refused?
  {
    hide Authorize, Admit, Deliver, Seat, Dismiss, RegisterGroup, PublishKeyPackage, RedeemInvite;
  }

  lemma MembershipRefusedInOrder(c: Crypto, s: Relay, op: Op, other: RelayError)
    requires Inv(c, s) && (op.OpOnboard? || op.OpOffboard?) && True(c, s, op, other)
    ensures Step(c, s, op).reply.Refused? && Place(c, s, op, Step(c, s, op).reply.error) <= Place(c, s, op, other)
  {
    hide Step, True, Inv, MembershipError, MembershipPlace;
    MembershipReply(c, s, op);
    MembershipErrorFirst(c, s, op, other);
  }

  ghost predicate First(c: Crypto, s: Relay, op: Op, other: RelayError)
    requires op.OpOnboard? || op.OpOffboard?
  {
    && MembershipError(c, s, op).Some?
    && MembershipPlace(s, op, MembershipError(c, s, op).value) <= MembershipPlace(s, op, other)
  }

  lemma MembershipErrorFirst(c: Crypto, s: Relay, op: Op, other: RelayError)
    requires Inv(c, s) && (op.OpOnboard? || op.OpOffboard?) && True(c, s, op, other)
    ensures First(c, s, op, other)
  {
    hide AuthorityFault, EnvelopeFault, Inv, First;
    var cap := if op.OpOnboard? then AddMember else RemoveMember;
    var members := if op.OpOnboard? then Roster(s, op.groupId) + {op.subject} else Roster(s, op.groupId);
    if AuthorityFault(c, s, op.groupId, op.admin, op.assertion, cap, op.now, other) {
      AuthorityErrorFirst(c, s, op, other);
    } else if op.envelope.sender == op.admin && op.envelope.groupId == op.groupId
              && EnvelopeFault(c, s, op.envelope, members, other) {
      EnvelopeErrorFirst(c, s, op, other);
    } else {
      OwnErrorFirst(c, s, op, other);
    }
  }

  lemma AuthorityErrorFirst(c: Crypto, s: Relay, op: Op, other: RelayError)
    requires op.OpOnboard? || op.OpOffboard?
    requires var cap := if op.OpOnboard? then AddMember else RemoveMember;
             AuthorityFault(c, s, op.groupId, op.admin, op.assertion, cap, op.now, other)
    ensures First(c, s, op, other)
  {
    hide AuthorityFault, Authorize, Admit, GrantPlace, EnvelopePlace;
    var cap := if op.OpOnboard? then AddMember else RemoveMember;
    AuthorityFaultsInOrder(c, s, op.groupId, op.admin, op.assertion, cap, op.now, other);
    AuthorityErrors(c, s, op.groupId, op.admin, op.assertion, cap, op.now);
  }

  lemma EnvelopeErrorFirst(c: Crypto, s: Relay, op: Op, other: RelayError)
    requires Inv(c, s) && (op.OpOnboard? || op.OpOffboard?)
    requires op.envelope.sender == op.admin && op.envelope.groupId == op.groupId
    requires var members := if op.OpOnboard? then Roster(s, op.groupId) + {op.subject} else Roster(s, op.groupId);
             EnvelopeFault(c, s, op.envelope, members, other)
    ensures First(c, s, op, other)
  {
    hide EnvelopeFault, Inv, First, EnvelopePlace, MembershipPlace;
    EnvelopeFaultPlace(c, s, op, other);
    if op.groupId in s.groups {
      var t := if op.OpOnboard? then WithJoiner(s, op.groupId, op.subject) else s;
      if op.OpOnboard? {
        JoinerKeepsInv(c, s, op.groupId, op.subject);
        FaultWithJoiner(c, s, op, other);
      }
      EnvelopeFaultsInOrder(c, t, op.envelope, other);
    }
    if other == NotAuthenticated || other == GroupUnknown || other == NotAMember {
      OwnOrUnknown(c, s, op, other);
    } else {
      BehindFirst(c, s, op, other);
    }
  }

  lemma OwnOrUnknown(c: Crypto, s: Relay, op: Op, other: RelayError)
    requires op.OpOnboard? || op.OpOffboard?
    requires || (other == NotAuthenticated && op.admin !in s.sessions)
             || (other == GroupUnknown && op.groupId !in s.groups)
             || (other == NotAMember && op.admin !in Roster(s, op.groupId))
    ensures First(c, s, op, other)
  {
    hide First;
    if other == GroupUnknown { UnknownFirst(c, s, op); } else { OwnErrorFirst(c, s, op, other); }
  }

  lemma UnknownFirst(c: Crypto, s: Relay, op: Op)
    requires (op.OpOnboard? || op.OpOffboard?) && op.groupId !in s.groups
    ensures First(c, s, op, GroupUnknown)
  {
    hide Admit, EnvelopePlace, GrantPlace;
  }

  /** A reason of the ordered path's own stands behind all the others. */
  lemma BehindFirst(c: Crypto, s: Relay, op: Op, other: RelayError)
    requires op.OpOnboard? || op.OpOffboard?
    requires MembershipPlace(s, op, other) == EnvelopePlace(other) >= 104
    requires op.groupId in s.groups ==>
               var t := if op.OpOnboard? then WithJoiner(s, op.groupId, op.subject) else s;
               Admit(c, t, op.envelope).Reject? && EnvelopePlace(Admit(c, t, op.envelope).error) <= EnvelopePlace(other)
    ensures First(c, s, op, other)
  {
    hide Authorize, Admit, EnvelopePlace, WithJoiner, GrantPlace;
    var cap := if op.OpOnboard? then AddMember else RemoveMember;
    AuthorityErrors(c, s, op.groupId, op.admin, op.assertion, cap, op.now);
    if op.groupId in s.groups {
      EnvelopeErrors(c, if op.OpOnboard? then WithJoiner(s, op.groupId, op.subject) else s, op.envelope);
    }
  }

  /** The reasons that are neither the authority check's nor the ordered path's. */
  lemma OwnErrorFirst(c: Crypto, s: Relay, op: Op, other: RelayError)
    requires op.OpOnboard? || op.OpOffboard?
    requires || (other == NotAuthenticated && op.admin !in s.sessions)
             || (other == Forbidden && op.OpOffboard? && op.subject == s.owner && op.admin != s.owner)
             || (other == NotAMember && (op.admin !in Roster(s, op.groupId)
                                         || (op.OpOffboard? && op.subject !in Roster(s, op.groupId))))
             || (other == EnvelopeGroupMismatch && op.envelope.groupId != op.groupId)
             || (other == UnexpectedEnvelopeKind
                 && op.envelope.kind != (if op.OpOnboard? then Kind.Welcome else Commit))
             || (other == SenderMismatch && op.envelope.sender != op.admin)
    ensures First(c, s, op, other)
  {
    hide Authorize, Admit, GrantPlace, EnvelopePlace;
    var cap := if op.OpOnboard? then AddMember else RemoveMember;
    AuthorityErrors(c, s, op.groupId, op.admin, op.assertion, cap, op.now);
  }

  lemma PlacesApart(error: RelayError)
    ensures 101 <= EnvelopePlace(error) <= 107
    ensures error.RbacRefused? ==> GrantPlace(error.rbac) <= 8
  {
  }

  lemma AuthorityErrors(c: Crypto, s: Relay, gid: GroupId, w: Wallet, a: Option<Assertion>, cap: Capability, now: nat)
    ensures var v := Authorize(c, s, gid, w, a, cap, now);
            && (v.Err? ==> v.error == GroupUnknown || v.error == Forbidden || v.error.RbacRefused?)
            && (gid !in s.groups ==> v == Err(GroupUnknown)) && (v == Err(GroupUnknown) ==> gid !in s.groups)
            && (v.Err? && v.error.RbacRefused? ==> GrantPlace(v.error.rbac) <= 8)
  {
    hide VerifyGrantForGroup;
  }

  lemma EnvelopeErrors(c: Crypto, s: Relay, e: Envelope)
    ensures Admit(c, s, e).Reject? ==>
              var error := Admit(c, s, e).error;
              101 <= EnvelopePlace(error) && !error.Forbidden? && !error.RbacRefused? && error != EnvelopeGroupMismatch
              && error != UnexpectedEnvelopeKind && error != SenderMismatch
              && (error == NotAuthenticated ==> e.sender !in s.sessions)
              && (error == GroupUnknown ==> e.groupId !in s.groups)
              && (error == NotAMember ==> e.sender !in Roster(s, e.groupId))
  {
  }

  lemma FaultWithJoiner(c: Crypto, s: Relay, op: Op, other: RelayError)
    requires op.OpOnboard? && op.groupId in s.groups && op.envelope.groupId == op.groupId
    ensures var added := WithJoiner(s, op.groupId, op.subject);
            EnvelopeFault(c, s, op.envelope, Roster(s, op.groupId) + {op.subject}, other) ==>
              EnvelopeFault(c, added, op.envelope, Roster(added, op.envelope.groupId), other)
  {
  }

  /** An envelope's fault stands behind every membership check, unless an earlier one shares its name and its truth. */
  lemma EnvelopeFaultPlace(c: Crypto, s: Relay, op: Op, other: RelayError)
    requires op.OpOnboard? || op.OpOffboard?
    ensures var members := if op.OpOnboard? then Roster(s, op.groupId) + {op.subject} else Roster(s, op.groupId);
            op.envelope.sender == op.admin && op.envelope.groupId == op.groupId
            && EnvelopeFault(c, s, op.envelope, members, other) ==>
              || (other == NotAuthenticated && op.admin !in s.sessions)
              || (other == GroupUnknown && op.groupId !in s.groups)
              || (other == NotAMember && op.admin !in Roster(s, op.groupId))
              || (&& MembershipPlace(s, op, other) == EnvelopePlace(other) && EnvelopePlace(other) >= 104
                  && other != NotAuthenticated && other != GroupUnknown && other != NotAMember)
  {
  }

  ghost predicate InOrder(c: Crypto, s: Relay, op: Op, other: RelayError)
  {
    var reply := Step(c, s, op).reply;
    reply.Refused? && Place(c, s, op, reply.error) <= Place(c, s, op, other)
  }

  lemma InvitesRefusedInOrder(c: Crypto, s: Relay, op: Op, other: RelayError)
    requires (op.OpPublishInvite? || op.OpRevokeInvite? || op.OpRedeemInvite?) && True(c, s, op, other)
    ensures InOrder(c, s, op, other)
  {
    hide Onboard, Offboard, SubmitAs, AuthorityFault, EnvelopeFault, RegisterGroup, PublishKeyPackage, LoginFault,
         BindingFault, Authenticate, PutInvite, PutGroup, PutReferral, MembershipPlace, EnvelopePlace, LoginPlace;
  }

  lemma HandshakeRefusedInOrder(c: Crypto, s: Relay, op: Op, other: RelayError)
    requires (op.OpAuthenticate? || op.OpPublishKeyPackage?) && True(c, s, op, other)
    ensures InOrder(c, s, op, other)
  {
    hide Onboard, Offboard, SubmitAs, AuthorityFault, EnvelopeFault, RegisterGroup, PublishInvite, RevokeInvite,
         RedeemInvite, RedeemFault, AuditAppend, PutKeyPackages, MembershipPlace, EnvelopePlace;
  }

  lemma OthersRefusedInOrder(c: Crypto, s: Relay, op: Op, other: RelayError)
    requires !op.OpSubmit? && !op.OpOnboard? && !op.OpOffboard? && !op.OpAuthenticate? && !op.OpPublishKeyPackage?
    requires !op.OpPublishInvite? && !op.OpRevokeInvite? && !op.OpRedeemInvite? && True(c, s, op, other)
    ensures InOrder(c, s, op, other)
  {
    hide Onboard, Offboard, SubmitAs, AuthorityFault, EnvelopeFault, PublishInvite, RevokeInvite, RedeemInvite,
         PublishKeyPackage, Authenticate, LoginFault, BindingFault, RedeemFault, AuditAppend, MembershipPlace,
         EnvelopePlace, LoginPlace;
  }

  /**
   * In every reachable state an operation is refused exactly when some reason is true of it, and then for
   * the first true one in the order in which the relay makes its checks.
   */
  lemma RefusalsInOrder(c: Crypto, s: Relay, op: Op, other: RelayError)
    requires Inv(c, s) && True(c, s, op, other)
    ensures Step(c, s, op).reply.Refused? && True(c, s, op, Step(c, s, op).reply.error)
    ensures Place(c, s, op, Step(c, s, op).reply.error) <= Place(c, s, op, other)
  {
    hide Step, True, Inv, Place;
    if op.OpSubmit? {
      SubmitRefusedInOrder(c, s, op, other);
    } else if op.OpOnboard? || op.OpOffboard? {
      MembershipRefusedInOrder(c, s, op, other);
    } else if op.OpPublishInvite? || op.OpRevokeInvite? || op.OpRedeemInvite? {
      InvitesRefusedInOrder(c, s, op, other);
    } else if op.OpAuthenticate? || op.OpPublishKeyPackage? {
      HandshakeRefusedInOrder(c, s, op, other);
    } else {
      OthersRefusedInOrder(c, s, op, other);
    }
    RefusalsAreTrue(c, s, op);
  }
}
