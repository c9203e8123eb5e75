/** Roles, capabilities and signed grants (`comms-core/src/rbac.rs`). */
module Rbac {
  import opened Common
  import opened Bytes
  import opened Proto

  datatype Capability =
    | ReadChannel | PostMessage | CreateThread | CreateChannel | AddMember | RemoveMember
    | AddAgent | RemoveAgent | AssignRole | ManageWorkspace | CreateRecord

  datatype RbacError =
    | NotAuthorized
    | CannotGrant(issuer: Role, target: Role)
    | Expired
    | SignerMismatch
    | SubjectMismatch
    | UntrustedIssuer
    | MissingScope
    | ScopeMismatch
    | StaleGeneration
    | BadSignatureLength
    | Unrecoverable

  /** Public-key recovery over a grant's bytes: the wallet that signed, if any. */
  type Recovery = (Grant, Blob) -> Option<Wallet>

  const SIGNATURE_LENGTH: nat := 65

  predicate Can(role: Role, cap: Capability)
  {
    match role
    case Owner => true
    case Admin => cap != ManageWorkspace
    case Member => cap in {ReadChannel, PostMessage, CreateThread, CreateRecord}
    case Partner => cap in {ReadChannel, PostMessage}
    case Guest => cap == ReadChannel
    case Agent => cap in {ReadChannel, PostMessage}
  }

  predicate CanGrant(issuer: Role, target: Role)
  {
    match issuer
    case Owner => true
    case Admin => target in {Member, Partner, Guest, Agent}
    case _ => false
  }

  predicate Live(g: Grant, now: nat)
  {
    g.notAfter.Some? ==> now < g.notAfter.value
  }

  function GenerationOf(g: Grant): nat
  {
    if g.generation.Some? then g.generation.value else 0
  }

  /** `sign_assertion`: the grant an issuer may sign; the signature is the wallet's, over it. */
  function SignAssertion(issuer: Wallet, issuerRole: Role, subject: Wallet, role: Role, scope: Option<GroupId>,
                         notAfter: Option<nat>, generation: Option<nat>, sign: Grant -> Blob)
    : Result<Assertion, RbacError>
  {
    if !Can(issuerRole, AssignRole) then Err(NotAuthorized)
    else if !CanGrant(issuerRole, role) then Err(CannotGrant(issuerRole, role))
    else
      var g := Grant(subject, role, scope, notAfter, generation, issuer);
      Ok(Assertion(g, sign(g)))
  }

  /** `sign_group_grant`: generation 0 is encoded as absent. */
  function SignGroupGrant(issuer: Wallet, issuerRole: Role, subject: Wallet, role: Role, groupId: GroupId,
                          generation: nat, notAfter: Option<nat>, sign: Grant -> Blob)
    : Result<Assertion, RbacError>
  {
    SignAssertion(issuer, issuerRole, subject, role, Some(groupId), notAfter,
                  if generation != 0 then Some(generation) else None, sign)
  }

  function VerifyRoleAssertion(recover: Recovery, a: Assertion, now: nat): Result<Wallet, RbacError>
  {
    if !Live(a.grant, now) then Err(Expired)
    else if |a.signature| != SIGNATURE_LENGTH then Err(BadSignatureLength)
    else
      match recover(a.grant, a.signature)
      case None => Err(Unrecoverable)
      case Some(signer) => if signer != a.grant.issuer then Err(SignerMismatch) else Ok(signer)
  }

  function VerifyGrantChain(recover: Recovery, a: Assertion, subject: Wallet, owner: Wallet, now: nat)
    : Result<(), RbacError>
  {
    match VerifyRoleAssertion(recover, a, now)
    case Err(e) => Err(e)
    case Ok(signer) =>
      if a.grant.subject != subject then Err(SubjectMismatch)
      else if signer != owner then Err(UntrustedIssuer)
      else if !CanGrant(Owner, a.grant.role) then Err(CannotGrant(Owner, a.grant.role))
      else Ok(())
  }

  function VerifyGrantForGroup(recover: Recovery, a: Assertion, subject: Wallet, owner: Wallet, groupId: GroupId,
                               generation: nat, now: nat)
    : Result<(), RbacError>
  {
    match VerifyGrantChain(recover, a, subject, owner, now)
    case Err(e) => Err(e)
    case Ok(_) =>
      if a.grant.scope.None? then Err(MissingScope)
      else if a.grant.scope.value != groupId then Err(ScopeMismatch)
      else if GenerationOf(a.grant) != generation then Err(StaleGeneration)
      else Ok(())
  }

  /** The owner signed exactly this grant, for this subject, group and membership, and it is live. */
  predicate OwnerGranted(recover: Recovery, a: Assertion, subject: Wallet, owner: Wallet, groupId: GroupId,
                         generation: nat, now: nat)
  {
    && |a.signature| == SIGNATURE_LENGTH
    && recover(a.grant, a.signature) == Some(owner)
    && a.grant.issuer == owner
    && a.grant.subject == subject
    && a.grant.scope == Some(groupId)
    && GenerationOf(a.grant) == generation
    && Live(a.grant, now)
  }

  lemma GrantAcceptedExactly(recover: Recovery, a: Assertion, subject: Wallet, owner: Wallet, groupId: GroupId,
                             generation: nat, now: nat)
    ensures VerifyGrantForGroup(recover, a, subject, owner, groupId, generation, now).Ok?
       <==> OwnerGranted(recover, a, subject, owner, groupId, generation, now)
  {
  }

  /**
   * A grant the owner signs through the library is accepted for its own membership until it expires,
   * and for no other.
   */
  lemma SignedGrantVerifies(recover: Recovery, sign: Grant -> Blob, owner: Wallet, subject: Wallet, role: Role,
                            groupId: GroupId, generation: nat, notAfter: Option<nat>,
                            group': GroupId, generation': nat, now: nat)
    requires forall g :: |sign(g)| == SIGNATURE_LENGTH && recover(g, sign(g)) == Some(owner)
    ensures var r := SignGroupGrant(owner, Owner, subject, role, groupId, generation, notAfter, sign);
            && r.Ok? && r.value.grant.role == role && r.value.grant.subject == subject
            && (VerifyGrantForGroup(recover, r.value, subject, owner, group', generation', now).Ok?
                <==> group' == groupId && generation' == generation && (notAfter.Some? ==> now < notAfter.value))
  {
  }

  /** Who holds what: the capabilities by the roles that hold them. */
  lemma CapabilityMatrix(role: Role)
    ensures Can(role, ReadChannel)
    ensures Can(role, PostMessage) <==> role != Guest
    ensures forall cap :: cap in {CreateThread, CreateRecord} ==> (Can(role, cap) <==> role in {Owner, Admin, Member})
    ensures forall cap :: cap in {CreateChannel, AddMember, RemoveMember, AddAgent, RemoveAgent, AssignRole} ==>
              (Can(role, cap) <==> role in {Owner, Admin})
    ensures Can(role, ManageWorkspace) <==> role == Owner
    ensures forall target :: CanGrant(role, target) <==>
              role == Owner || (role == Admin && target in {Member, Partner, Guest, Agent})
  {
  }

  /** A grant is signed exactly for a role the issuer's own may grant, and says what it was asked to say. */
  lemma SignsExactly(issuer: Wallet, issuerRole: Role, subject: Wallet, role: Role, scope: Option<GroupId>,
                     notAfter: Option<nat>, generation: Option<nat>, sign: Grant -> Blob)
    ensures var r := SignAssertion(issuer, issuerRole, subject, role, scope, notAfter, generation, sign);
            && (r.Ok? <==> issuerRole == Owner || (issuerRole == Admin && role in {Member, Partner, Guest, Agent}))
            && (r.Ok? ==>
                  && r.value.signature == sign(r.value.grant)
                  && r.value.grant.subject == subject && r.value.grant.role == role && r.value.grant.scope == scope
                  && r.value.grant.notAfter == notAfter && r.value.grant.generation == generation
                  && r.value.grant.issuer == issuer)
            && (r.Err? ==>
                  r.error == if issuerRole in {Owner, Admin} then CannotGrant(issuerRole, role) else NotAuthorized)
  {
  }

  /** Anti-escalation: an admin signs no owner or admin grant, and other roles sign none. */
  lemma NoEscalation(issuer: Wallet, issuerRole: Role, subject: Wallet, role: Role, scope: Option<GroupId>,
                     notAfter: Option<nat>, generation: Option<nat>, sign: Grant -> Blob)
    requires SignAssertion(issuer, issuerRole, subject, role, scope, notAfter, generation, sign).Ok?
    ensures issuerRole == Owner || (issuerRole == Admin && !Can(role, AddMember) && !Can(role, RemoveMember)
                                    && !Can(role, AssignRole))
  {
  }
}
