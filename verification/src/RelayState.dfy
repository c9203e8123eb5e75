/** The relay's state as a value, and the small updates its operations are made of. */
module RelayState {
  import opened Common
  import opened Bytes
  import opened Proto
  import opened Audit
  import opened Nonces
  import opened Rbac

  const MAX_CLAIMS_PER_TOKEN: nat := 16
  const MAX_KEYPACKAGES_PER_WALLET: nat := 64
  const MAX_RECIPIENTS: nat := 4096
  const MAX_CIPHERTEXT_BYTES: nat := 4 * 1024 * 1024
  const MAX_INVITES: nat := 4096

  /** Hashing and signature recovery: functions of their inputs, with nothing assumed of them. */
  datatype Crypto = Crypto(
    link: Hasher,
    blake3: Blob -> Digest,
    login: LoginRecovery,
    binding: BindingRecovery,
    grant: Recovery)

  datatype Group = Group(
    members: set<Wallet>,
    epoch: nat,
    nextSeq: nat,
    accepted: map<nat, Digest>,
    tree: Blob,
    log: seq<Envelope>,
    creator: Option<Wallet>,
    generations: map<Wallet, nat>)

  /** The stored projection of a group: everything but its log. */
  datatype GroupSnapshot = GroupSnapshot(
    members: set<Wallet>,
    epoch: nat,
    nextSeq: nat,
    accepted: map<nat, Digest>,
    tree: Blob,
    creator: Option<Wallet>,
    generations: map<Wallet, nat>)

  datatype Invite = Invite(
    groupId: GroupId,
    groupInfo: Blob,
    inviter: Wallet,
    expiresAt: nat,
    consumed: bool,
    revoked: bool)

  datatype Referral = Referral(inviter: Wallet, joiner: Wallet, groupId: GroupId, tokenHash: Digest, ts: nat)

  /** The database: one table per column family. */
  datatype Store = Store(
    envelopes: map<Blob, Envelope>,
    keyPackages: map<Blob, seq<Publication>>,
    audit: map<Blob, Record>,
    membership: map<Blob, GroupSnapshot>,
    invites: map<Blob, Invite>,
    referrals: map<Blob, Referral>)

  const EMPTY_STORE: Store := Store(map[], map[], map[], map[], map[], map[])

  datatype Relay = Relay(
    domain: string,
    owner: Wallet,
    nonces: map<string, nat>,
    keyPackages: map<Wallet, seq<Publication>>,
    claims: map<Digest, seq<Claim>>,
    invites: map<Digest, Invite>,
    referrals: seq<Referral>,
    groups: map<GroupId, Group>,
    mailboxes: map<Wallet, seq<Envelope>>,
    sessions: set<Wallet>,
    audit: Chain,
    store: Option<Store>)

  // Lookups

  function Roster(s: Relay, g: GroupId): set<Wallet>
  {
    if g in s.groups then s.groups[g].members else {}
  }

  function LogOf(s: Relay, g: GroupId): seq<Envelope>
  {
    if g in s.groups then s.groups[g].log else []
  }

  function Generation(g: Group, w: Wallet): nat
  {
    if w in g.generations then g.generations[w] else 0
  }

  function Mailbox(mailboxes: map<Wallet, seq<Envelope>>, w: Wallet): seq<Envelope>
  {
    if w in mailboxes then mailboxes[w] else []
  }

  function Queue(s: Relay, w: Wallet): seq<Publication>
  {
    if w in s.keyPackages then s.keyPackages[w] else []
  }

  // Groups

  function NewGroup(creator: Wallet): Group
  {
    Group({creator}, 0, 0, map[], [], [], Some(creator), map[])
  }

  function Snapshot(g: Group): GroupSnapshot
  {
    GroupSnapshot(g.members, g.epoch, g.nextSeq, g.accepted, g.tree, g.creator, g.generations)
  }

  function FromSnapshot(p: GroupSnapshot): Group
  {
    Group(p.members, p.epoch, p.nextSeq, p.accepted, p.tree, [], p.creator, p.generations)
  }

  function EndMembership(g: Group, w: Wallet): Group
  {
    var k := Generation(g, w);
    g.(members := g.members - {w}, generations := g.generations[w := if k < U64_MAX then k + 1 else k])
  }

  /** The envelope as the relay stores and forwards it. */
  function Stamped(g: Group, e: Envelope): Envelope
  {
    e.(groupSeq := Some(g.nextSeq))
  }

  /** The group after the ordered path accepts `e`. */
  function Accepting(c: Crypto, g: Group, e: Envelope): Group
  {
    var committed :=
      if e.kind == Commit then g.(accepted := g.accepted[e.epoch := c.blake3(e.ciphertext)], epoch := e.epoch) else g;
    committed.(nextSeq := g.nextSeq + 1, log := g.log + [Stamped(g, e)])
  }

  function FanOut(mailboxes: map<Wallet, seq<Envelope>>, recipients: seq<Wallet>, e: Envelope)
    : map<Wallet, seq<Envelope>>
  {
    if recipients == [] then mailboxes
    else
      var r := recipients[|recipients| - 1];
      var before := FanOut(mailboxes, recipients[..|recipients| - 1], e);
      before[r := Mailbox(before, r) + [e]]
  }

  function ReceiptOf(c: Crypto, e: Envelope, seqno: nat): Event
  {
    EnvelopeReceipt(e.groupId, seqno, e.epoch, e.sender, e.kind, c.blake3(e.ciphertext), |e.ciphertext|)
  }

  // Writes: each puts one row in its column family, when there is a database

  function PutEnvelope(store: Option<Store>, gid: GroupId, seqno: nat, e: Envelope): Option<Store>
  {
    if store.None? then None
    else Some(store.value.(envelopes := store.value.envelopes[SeqKey(gid.bytes, seqno) := e]))
  }

  function PutGroup(store: Option<Store>, gid: GroupId, g: Group): Option<Store>
  {
    if store.None? then None
    else Some(store.value.(membership := store.value.membership[gid.bytes := Snapshot(g)]))
  }

  function PutKeyPackages(store: Option<Store>, w: Wallet, queue: seq<Publication>): Option<Store>
  {
    if store.None? then None
    else Some(store.value.(keyPackages := store.value.keyPackages[w.bytes := queue]))
  }

  function PutInvite(store: Option<Store>, th: Digest, invite: Invite): Option<Store>
  {
    if store.None? then None
    else Some(store.value.(invites := store.value.invites[th.bytes := invite]))
  }

  function PutReferral(store: Option<Store>, seqno: nat, row: Referral): Option<Store>
  {
    if store.None? then None
    else Some(store.value.(referrals := store.value.referrals[BigEndian(seqno, 8) := row]))
  }

  function PutAudit(store: Option<Store>, r: Record): Option<Store>
  {
    if store.None? then None
    else Some(store.value.(audit := store.value.audit[BigEndian(r.sequence, 8) := r]))
  }

  function AuditAppend(c: Crypto, s: Relay, event: Event, now: nat): Relay
  {
    var chain := Appended(c.link, s.audit, event, now);
    s.(audit := chain, store := PutAudit(s.store, chain[|chain| - 1]))
  }
}
