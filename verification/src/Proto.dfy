/** The wire vocabulary: wallets, groups, envelopes, publications, grants and audit records. */
module Proto {
  import opened Common
  import opened Bytes

  datatype Wallet = Wallet(bytes: Bytes20)
  datatype GroupId = GroupId(bytes: Bytes32)

  const CITRATE_CHAIN_ID: nat := 40204

  datatype Kind = Welcome | Commit | Proposal | Application

  datatype Envelope = Envelope(
    groupId: GroupId,
    epoch: nat,
    kind: Kind,
    sender: Wallet,
    recipients: seq<Wallet>,
    ciphertext: Blob,
    groupSeq: Option<nat>)

  datatype Publication = Publication(
    wallet: Wallet,
    keyPackage: Blob,
    mlsKey: Blob,
    attestation: Blob,
    nonce: string,
    relayDomain: string)

  datatype Claim = Claim(tokenHash: Digest, ciphertext: Blob)

  datatype Role = Owner | Admin | Member | Partner | Guest | Agent

  /** The fields a role assertion's signature covers. */
  datatype Grant = Grant(
    subject: Wallet,
    role: Role,
    scope: Option<GroupId>,
    notAfter: Option<nat>,
    generation: Option<nat>,
    issuer: Wallet)

  datatype Assertion = Assertion(grant: Grant, signature: Blob)

  datatype Event =
    | Genesis
    | GroupCreated(groupId: GroupId, creator: Wallet)
    | MemberAdded(groupId: GroupId, member: Wallet, epoch: nat)
    | MemberRemoved(groupId: GroupId, member: Wallet, epoch: nat)
    | KeyPackagePublished(wallet: Wallet, reference: Digest)
    | EnvelopeReceipt(groupId: GroupId, groupSeq: nat, epoch: nat, sender: Wallet, kind: Kind,
                      ciphertextHash: Digest, size: nat)
    | RoleRevoked(subject: Wallet, scope: Option<GroupId>)

  datatype Record = Record(
    sequence: nat,
    timestamp: nat,
    previous: Digest,
    event: Event,
    hash: Digest)

  datatype SiweMessage = SiweMessage(
    domain: string,
    address: Wallet,
    statement: string,
    uri: string,
    version: string,
    chainId: nat,
    nonce: string,
    issuedAt: nat,
    expiration: nat)
}
