/** The relay as it runs: fields updated in place, each method proved against its operation. */
module DeliveryService {
  import opened Common
  import opened Bytes
  import opened Table
  import opened Proto
  import opened Audit
  import opened Nonces
  import opened Rbac
  import opened RelayState
  import opened RelayInvites
  import opened RelayOrder
  import opened StoreLayout
  import opened Durability
  import opened DurableRuns
  import S = RelaySteps

  class Service {
    const crypto: Crypto
    const domain: string
    const owner: Wallet
    const nonces: NonceStore
    const audit: AuditChain
    var keyPackages: map<Wallet, seq<Publication>>
    var claims: map<Digest, seq<Claim>>
    var invites: map<Digest, Invite>
    var referrals: seq<Referral>
    var groups: map<GroupId, Group>
    var mailboxes: map<Wallet, seq<Envelope>>
    var sessions: set<Wallet>
    var store: Option<Store>

    ghost predicate Valid()
      reads this, audit
    {
      audit.hasher == crypto.link && audit.records != []
    }

    ghost function View(): Relay
      requires Valid()
      reads this, nonces, audit
    {
      Relay(domain, owner, nonces.nonces, keyPackages, claims, invites, referrals, groups, mailboxes, sessions,
            audit.records, store)
    }

    /** An in-memory relay. */
    constructor (c: Crypto, relayDomain: string, relayOwner: Wallet, genesis: nat)
      ensures Valid() && fresh(nonces) && fresh(audit)
      ensures crypto == c && View() == S.Initial(c, relayDomain, relayOwner, genesis, false)
    {
      crypto, domain, owner := c, relayDomain, relayOwner;
      nonces := new NonceStore();
      audit := new AuditChain(c.link, genesis);
      keyPackages, claims, invites, referrals := map[], map[], map[], [];
      groups, mailboxes, sessions, store := map[], map[], {}, None;
    }

    /** A relay over parts replayed from its store. */
    constructor Replayed(c: Crypto, relayDomain: string, relayOwner: Wallet, chain: AuditChain,
                         directory: map<Wallet, seq<Publication>>, tokens: map<Digest, Invite>, ledger: seq<Referral>,
                         rebuilt: map<GroupId, Group>, database: Store)
      requires chain.hasher == c.link && chain.records != []
      ensures Valid() && fresh(nonces) && audit == chain && crypto == c
      ensures View() == Relay(relayDomain, relayOwner, map[], directory, map[], tokens, ledger, rebuilt, map[], {},
                              chain.records, Some(database))
    {
      crypto, domain, owner := c, relayDomain, relayOwner;
      nonces := new NonceStore();
      audit := chain;
      keyPackages, claims, invites, referrals := directory, map[], tokens, ledger;
      groups, mailboxes, sessions, store := rebuilt, map[], {}, Some(database);
    }

    // Persistence helpers

    method AuditAppend(event: Event, now: nat)
      requires Valid()
      modifies this`store, audit
      ensures Valid()
      ensures audit.records == Appended(crypto.link, old(audit.records), event, now)
      ensures store == PutAudit(old(store), audit.records[|audit.records| - 1])
    {
      var appended := audit.Append(event, now);
      var rec := appended.value;
      if store.Some? {
        store := Some(store.value.(audit := store.value.audit[BigEndian(rec.sequence, 8) := rec]));
      }
    }

    method PersistGroup(gid: GroupId)
      requires gid in groups
      modifies this`store
      ensures store == PutGroup(old(store), gid, groups[gid])
    {
      if store.Some? {
        store := Some(store.value.(membership := store.value.membership[gid.bytes := Snapshot(groups[gid])]));
      }
    }

    method PersistEnvelope(gid: GroupId, seqno: nat, e: Envelope)
      modifies this`store
      ensures store == PutEnvelope(old(store), gid, seqno, e)
    {
      if store.Some? {
        store := Some(store.value.(envelopes := store.value.envelopes[SeqKey(gid.bytes, seqno) := e]));
      }
    }

    method PersistKeyPackages(w: Wallet)
      modifies this`store
      ensures store == PutKeyPackages(old(store), w, if w in keyPackages then keyPackages[w] else [])
    {
      if store.Some? {
        var queue := if w in keyPackages then keyPackages[w] else [];
        store := Some(store.value.(keyPackages := store.value.keyPackages[w.bytes := queue]));
      }
    }

    method PersistInvite(th: Digest)
      requires th in invites
      modifies this`store
      ensures store == PutInvite(old(store), th, invites[th])
    {
      if store.Some? {
        store := Some(store.value.(invites := store.value.invites[th.bytes := invites[th]]));
      }
    }

    method PersistReferral(seqno: nat)
      requires seqno < |referrals|
      modifies this`store
      ensures store == PutReferral(old(store), seqno, referrals[seqno])
    {
      if store.Some? {
        store := Some(store.value.(referrals := store.value.referrals[BigEndian(seqno, 8) := referrals[seqno]]));
      }
    }

    // Handshake

    method IssueChallenge(nonce: string, now: nat) returns (r: S.Reply)
      requires Valid()
      modifies nonces
      ensures Valid() && S.Outcome(View(), r) == S.Challenge(old(View()), nonce, now)
    {
      nonces.Issue(nonce, now);
      r := S.Done;
    }

    method Authenticate(m: SiweMessage, signature: Blob, now: nat) returns (r: S.Reply)
      requires Valid()
      modifies this`sessions, nonces
      ensures Valid() && S.Outcome(View(), r) == S.Authenticate(crypto, old(View()), m, signature, now)
    {
      var verified := nonces.VerifyLogin(crypto.login, m, signature, domain, now);
      match verified {
        case Err(e) => r := S.Refused(S.Siwe(e));
        case Ok(w) =>
          sessions := sessions + {w};
          r := S.LoggedIn(w);
      }
    }

    method EndSession(w: Wallet) returns (r: S.Reply)
      requires Valid()
      modifies this`sessions
      ensures Valid() && S.Outcome(View(), r) == S.EndSession(old(View()), w)
    {
      sessions := sessions - {w};
      r := S.Done;
    }

    // KeyPackage directory

    method PublishKeyPackage(p: Publication, now: nat) returns (r: S.Reply)
      requires Valid()
      modifies this`keyPackages, this`store, nonces, audit
      ensures Valid() && S.Outcome(View(), r) == S.PublishKeyPackage(crypto, old(View()), p, now)
    {
      if p.wallet !in sessions {
        return S.Refused(S.NotAuthenticated);
      }
      if p.relayDomain != domain {
        return S.Refused(S.WrongDomain);
      }
      var present := nonces.Consume(p.nonce);
      if !present {
        return S.Refused(S.NonceRejected);
      }
      var binding := VerifyBinding(crypto.binding, p);
      if binding.Err? {
        return S.Refused(S.Binding(binding.error));
      }
      var queue := if p.wallet in keyPackages then keyPackages[p.wallet] else [];
      if |queue| >= MAX_KEYPACKAGES_PER_WALLET {
        return S.Refused(S.KeyPackageQuotaExceeded);
      }
      var reference := crypto.blake3(p.keyPackage);
      keyPackages := keyPackages[p.wallet := queue + [p]];
      PersistKeyPackages(p.wallet);
      AuditAppend(KeyPackagePublished(p.wallet, reference), now);
      r := S.Referenced(reference);
    }

    method TakeKeyPackage(w: Wallet) returns (r: S.Reply)
      requires Valid()
      modifies this`keyPackages, this`store
      ensures Valid() && S.Outcome(View(), r) == S.TakeKeyPackage(old(View()), w)
    {
      if w !in keyPackages || keyPackages[w] == [] {
        return S.Taken(None);
      }
      var popped := keyPackages[w][0];
      keyPackages := keyPackages[w := keyPackages[w][1..]];
      PersistKeyPackages(w);
      r := S.Taken(Some(popped));
    }

    // Claims inbox

    method SubmitClaim(submitter: Wallet, claim: Claim) returns (r: S.Reply)
      requires Valid()
      modifies this`claims
      ensures Valid() && S.Outcome(View(), r) == S.SubmitClaim(old(View()), submitter, claim)
    {
      if submitter !in sessions {
        return S.Refused(S.NotAuthenticated);
      }
      var q := if claim.tokenHash in claims then claims[claim.tokenHash] else [];
      var known := false;
      for i := 0 to |q|
        invariant known <==> exists x :: x in q[..i] && x.ciphertext == claim.ciphertext
      {
        if q[i].ciphertext == claim.ciphertext {
          known := true;
        }
        assert q[..i + 1] == q[..i] + [q[i]];
      }
      assert q[..|q|] == q;
      if !known && |q| < MAX_CLAIMS_PER_TOKEN {
        q := q + [claim];
      }
      claims := claims[claim.tokenHash := q];
      r := S.Done;
    }

    method ClearClaims(th: Digest) returns (r: S.Reply)
      requires Valid()
      modifies this`claims
      ensures Valid() && S.Outcome(View(), r) == S.ClearClaims(old(View()), th)
    {
      claims := claims - {th};
      r := S.Done;
    }

    // Invites

    method PublishInvite(inviter: Wallet, gid: GroupId, th: Digest, groupInfo: Blob, expiresAt: nat)
      returns (r: S.Reply)
      requires Valid()
      modifies this`invites, this`store
      ensures Valid() && S.Outcome(View(), r) == S.PublishInvite(old(View()), inviter, gid, th, groupInfo, expiresAt)
    {
      if inviter !in sessions {
        return S.Refused(S.NotAuthenticated);
      }
      if gid !in groups {
        return S.Refused(S.GroupUnknown);
      }
      if inviter !in groups[gid].members {
        return S.Refused(S.NotAMember);
      }
      if groupInfo == [] || |groupInfo| > MAX_CIPHERTEXT_BYTES {
        return S.Refused(S.CiphertextTooLarge(|groupInfo|));
      }
      if th !in invites && |invites| >= MAX_INVITES {
        return S.Refused(S.InviteQuotaExceeded);
      }
      invites := invites[th := Invite(gid, groupInfo, inviter, expiresAt, false, false)];
      PersistInvite(th);
      r := S.Done;
    }

    method RevokeInvite(caller: Wallet, th: Digest, reportUsed: bool) returns (r: S.Reply)
      requires Valid()
      modifies this`invites, this`store
      ensures Valid() && S.Outcome(View(), r) == S.RevokeInvite(old(View()), caller, th, reportUsed)
    {
      if caller !in sessions {
        return S.Refused(S.NotAuthenticated);
      }
      if th !in invites {
        return S.Refused(S.InviteUnknown);
      }
      if invites[th].inviter != caller {
        return S.Refused(S.Forbidden);
      }
      if reportUsed && invites[th].consumed {
        return S.Refused(S.InviteAlreadyUsed);
      }
      invites := invites[th := invites[th].(revoked := true)];
      PersistInvite(th);
      r := S.Done;
    }

    method RedeemInvite(joiner: Wallet, gid: GroupId, token: Blob, keyPackage: Blob, now: nat) returns (r: S.Reply)
      requires Valid()
      modifies this`invites, this`groups, this`referrals, this`store
      ensures Valid()
      ensures S.Outcome(View(), r) == S.RedeemInvite(crypto, old(View()), joiner, gid, token, keyPackage, now)
    {
      hide BigEndian, Snapshot;
      if keyPackage == [] || |keyPackage| > MAX_CIPHERTEXT_BYTES {
        return S.Refused(S.InviteRedeem(S.InvalidKeyPackage));
      }
      var th := crypto.blake3(token);
      if th !in invites || invites[th].groupId != gid {
        return S.Refused(S.InviteRedeem(S.UnknownToken));
      }
      var record := invites[th];
      if record.revoked {
        return S.Refused(S.InviteRedeem(S.Revoked));
      }
      if record.consumed {
        return S.Refused(S.InviteRedeem(S.Consumed));
      }
      if now > record.expiresAt {
        return S.Refused(S.InviteRedeem(S.InviteExpired));
      }
      if gid !in groups {
        return S.Refused(S.InviteRedeem(S.UnknownToken));
      }
      groups := groups[gid := groups[gid].(members := groups[gid].members + {joiner})];
      var epoch := groups[gid].epoch;
      invites := invites[th := record.(consumed := true)];
      var seqno := |referrals|;
      referrals := referrals + [Referral(record.inviter, joiner, gid, th, now)];
      PersistInvite(th);
      PersistGroup(gid);
      PersistReferral(seqno);
      r := S.Admitted(record.groupInfo, epoch);
    }

    /** Per inviter, in address order, the number of distinct joiners it admitted. */
    method ReferralTally() returns (tally: seq<(Wallet, nat)>)
      ensures forall i, j :: 0 <= i < j < |tally| ==> Less(tally[i].0.bytes, tally[j].0.bytes)
      ensures forall row :: row in referrals ==> exists i :: 0 <= i < |tally| && tally[i].0 == row.inviter
      ensures forall i :: 0 <= i < |tally| ==> Invited(referrals, tally[i].0)
      ensures forall i :: 0 <= i < |tally| ==>
                tally[i].1 == |set r | r in referrals && r.inviter == tally[i].0 :: r.joiner|
    {
      var perInviter: map<Wallet, set<Wallet>> := map[];
      for i := 0 to |referrals|
        invariant perInviter.Keys == Inviters(referrals[..i])
        invariant forall w :: w in perInviter ==> perInviter[w] == Joiners(referrals[..i], w)
      {
        var row := referrals[i];
        var before := if row.inviter in perInviter then perInviter[row.inviter] else {};
        JoinersSnoc(referrals, i);
        perInviter := perInviter[row.inviter := before + {row.joiner}];
      }
      assert referrals[..|referrals|] == referrals;
      tally := Counts(perInviter);
      TallySpelledOut(referrals, tally);
    }

    // Groups

    method RegisterGroup(gid: GroupId, creator: Wallet, now: nat) returns (r: S.Reply)
      requires Valid()
      modifies this`groups, this`store, audit
      ensures Valid() && S.Outcome(View(), r) == S.RegisterGroup(crypto, old(View()), gid, creator, now)
    {
      if creator !in sessions {
        return S.Refused(S.NotAuthenticated);
      }
      if gid in groups {
        return S.Refused(S.GroupExists);
      }
      groups := groups[gid := NewGroup(creator)];
      PersistGroup(gid);
      AuditAppend(GroupCreated(gid, creator), now);
      r := S.Done;
    }

    // The ordered path

    /** The sequence number already given to the Commit of `epoch`. */
    method FindPrior(log: seq<Envelope>, epoch: nat) returns (prior: Option<nat>)
      ensures prior == S.PriorSeq(log, epoch)
    {
      for i := 0 to |log|
        invariant S.PriorSeq(log, epoch) == S.PriorSeq(log[i..], epoch)
      {
        assert log[i..][1..] == log[i + 1..];
        if log[i].kind == Commit && log[i].epoch == epoch {
          return log[i].groupSeq;
        }
      }
      prior := None;
    }

    method Distribute(e: Envelope)
      modifies this`mailboxes
      ensures mailboxes == FanOut(old(mailboxes), e.recipients, e)
    {
      for i := 0 to |e.recipients|
        invariant mailboxes == FanOut(old(mailboxes), e.recipients[..i], e)
      {
        var r := e.recipients[i];
        assert e.recipients[..i + 1][..i] == e.recipients[..i];
        mailboxes := mailboxes[r := (if r in mailboxes then mailboxes[r] else []) + [e]];
      }
      assert e.recipients[..|e.recipients|] == e.recipients;
    }

    method Submit(e: Envelope, now: nat) returns (r: S.Reply)
      requires Valid()
      modifies this`groups, this`mailboxes, this`store, audit
      ensures Valid() && S.Outcome(View(), r) == S.Submit(crypto, old(View()), e, now)
    {
      if e.sender !in sessions {
        return S.Refused(S.NotAuthenticated);
      }
      var hash := crypto.blake3(e.ciphertext);
      if e.groupId !in groups {
        return S.Refused(S.GroupUnknown);
      }
      var state := groups[e.groupId];
      if e.sender !in state.members {
        return S.Refused(S.NotAMember);
      }
      if |e.ciphertext| > MAX_CIPHERTEXT_BYTES {
        return S.Refused(S.CiphertextTooLarge(|e.ciphertext|));
      }
      if |e.recipients| > MAX_RECIPIENTS {
        return S.Refused(S.TooManyRecipients(|e.recipients|));
      }
      for i := 0 to |e.recipients|
        invariant forall k :: 0 <= k < i ==> e.recipients[k] in state.members
      {
        if e.recipients[i] !in state.members {
          return S.Refused(S.RecipientNotAMember);
        }
      }
      if e.kind == Commit {
        if e.epoch in state.accepted {
          if state.accepted[e.epoch] != hash {
            return S.Refused(S.EpochAlreadyCommitted(e.epoch));
          }
          var prior := FindPrior(state.log, e.epoch);
          if prior.None? {
            return S.Refused(S.EpochAlreadyCommitted(e.epoch));
          }
          return S.Sequenced(prior.value);
        }
        if state.epoch >= U64_MAX {
          return S.Refused(S.NonContiguousEpoch(U64_MAX, e.epoch));
        }
        if e.epoch != state.epoch + 1 {
          return S.Refused(S.NonContiguousEpoch(state.epoch + 1, e.epoch));
        }
      }
      assert S.Admit(crypto, old(View()), e) == S.Accept;
      var seqno := Store(e, hash, now);
      r := S.Sequenced(seqno);
    }

    /** The accepting half of `submit`: order, log, persist, fan out and audit. */
    method Store(e: Envelope, hash: Digest, now: nat) returns (seqno: nat)
      requires Valid() && e.groupId in groups && hash == crypto.blake3(e.ciphertext)
      modifies this`groups, this`mailboxes, this`store, audit
      ensures Valid() && View() == S.Deliver(crypto, old(View()), e, now) && seqno == old(groups[e.groupId].nextSeq)
    {
      hide BigEndian, SeqKey, Snapshot, Appended, FanOut;
      var gid := e.groupId;
      var state := groups[gid];
      if e.kind == Commit {
        state := state.(accepted := state.accepted[e.epoch := hash], epoch := e.epoch);
      }
      seqno := state.nextSeq;
      var stamped := e.(groupSeq := Some(seqno));
      state := state.(nextSeq := state.nextSeq + 1, log := state.log + [stamped]);
      groups := groups[gid := state];
      PersistEnvelope(gid, seqno, stamped);
      PersistGroup(gid);
      Distribute(stamped);
      AuditAppend(EnvelopeReceipt(gid, seqno, e.epoch, e.sender, e.kind, hash, |e.ciphertext|), now);
    }

    method SubmitAs(authed: Wallet, e: Envelope, now: nat) returns (r: S.Reply)
      requires Valid()
      modifies this`groups, this`mailboxes, this`store, audit
      ensures Valid() && S.Outcome(View(), r) == S.SubmitAs(crypto, old(View()), authed, e, now)
    {
      if e.sender != authed {
        return S.Refused(S.SenderMismatch);
      }
      r := Submit(e, now);
    }

    method Fetch(w: Wallet) returns (r: S.Reply)
      requires Valid()
      modifies this`mailboxes
      ensures Valid() && S.Outcome(View(), r) == S.Fetch(old(View()), w)
    {
      if w in mailboxes {
        r := S.Delivered(mailboxes[w]);
        mailboxes := mailboxes[w := []];
      } else {
        r := S.Delivered([]);
      }
    }

    // Membership operations

    method AuthorizeMembershipOp(gid: GroupId, admin: Wallet, assertion: Option<Assertion>, cap: Capability, now: nat)
      returns (r: Result<(), S.RelayError>)
      requires Valid()
      ensures r == S.Authorize(crypto, View(), gid, admin, assertion, cap, now)
    {
      hide VerifyGrantForGroup, Can;
      if gid !in groups {
        return Err(S.GroupUnknown);
      }
      var state := groups[gid];
      var generation := if admin in state.generations then state.generations[admin] else 0;
      if admin == owner || (state.creator == Some(admin) && generation == 0) {
        return Ok(());
      }
      if assertion.None? {
        return Err(S.Forbidden);
      }
      var verdict := VerifyGrantForGroup(crypto.grant, assertion.value, admin, owner, gid, generation, now);
      if verdict.Err? {
        return Err(S.RbacRefused(verdict.error));
      }
      if !Can(assertion.value.grant.role, cap) {
        return Err(S.Forbidden);
      }
      r := Ok(());
    }

    /** Authority, roster and envelope checks of onboard and offboard, in that order. */
    method CheckMembershipOp(gid: GroupId, admin: Wallet, assertion: Option<Assertion>, cap: Capability,
                             needed: set<Wallet>, e: Envelope, kind: Kind, now: nat)
      returns (refusal: Option<S.RelayError>)
      requires Valid()
      ensures refusal == S.MembershipRefusal(crypto, View(), gid, admin, assertion, cap, needed, e, kind, now)
    {
      hide S.Authorize;
      var authorized := AuthorizeMembershipOp(gid, admin, assertion, cap, now);
      if authorized.Err? {
        return Some(authorized.error);
      }
      if !(needed <= groups[gid].members) {
        return Some(S.NotAMember);
      }
      var fitting := S.RequireOpEnvelope(e, gid, kind);
      if fitting.Err? {
        return Some(fitting.error);
      }
      refusal := None;
    }

    method Onboard(gid: GroupId, admin: Wallet, assertion: Option<Assertion>, joiner: Wallet, welcome: Envelope,
                   tree: Blob, now: nat)
      returns (r: S.Reply)
      requires Valid()
      modifies this`groups, this`mailboxes, this`store, audit
      ensures Valid()
      ensures S.Outcome(View(), r) == S.Onboard(crypto, old(View()), gid, admin, assertion, joiner, welcome, tree, now)
    {
      if admin !in sessions {
        return S.Refused(S.NotAuthenticated);
      }
      var refusal := CheckMembershipOp(gid, admin, assertion, AddMember, {admin}, welcome, Kind.Welcome, now);
      if refusal.Some? {
        return S.Refused(refusal.value);
      }
      var newlyAdded := joiner !in groups[gid].members;
      groups := groups[gid := groups[gid].(members := groups[gid].members + {joiner})];
      assert View() == S.WithJoiner(old(View()), gid, joiner);
      var submitted := SubmitAs(admin, welcome, now);
      if submitted.Refused? {
        if newlyAdded {
          groups := groups[gid := groups[gid].(members := groups[gid].members - {joiner})];
        }
        return submitted;
      }
      Seat(gid, joiner, tree, now);
      r := S.Done;
    }

    method Seat(gid: GroupId, joiner: Wallet, tree: Blob, now: nat)
      requires Valid() && gid in groups
      modifies this`groups, this`store, audit
      ensures Valid() && View() == S.Seat(crypto, old(View()), gid, joiner, tree, now)
    {
      groups := groups[gid := groups[gid].(tree := tree)];
      PersistGroup(gid);
      AuditAppend(MemberAdded(gid, joiner, groups[gid].epoch), now);
    }

    method Offboard(gid: GroupId, admin: Wallet, assertion: Option<Assertion>, removed: Wallet, commit: Envelope,
                    tree: Blob, now: nat)
      returns (r: S.Reply)
      requires Valid()
      modifies this`groups, this`mailboxes, this`sessions, this`store, audit
      ensures Valid()
      ensures S.Outcome(View(), r) == S.Offboard(crypto, old(View()), gid, admin, assertion, removed, commit, tree, now)
    {
      if admin !in sessions {
        return S.Refused(S.NotAuthenticated);
      }
      if removed == owner && admin != owner {
        return S.Refused(S.Forbidden);
      }
      var refusal := CheckMembershipOp(gid, admin, assertion, RemoveMember, {admin, removed}, commit, Commit, now);
      if refusal.Some? {
        return S.Refused(refusal.value);
      }
      r := SubmitAs(admin, commit, now);
      if r.Refused? {
        return;
      }
      Dismiss(gid, removed, tree, now);
    }

    method Dismiss(gid: GroupId, removed: Wallet, tree: Blob, now: nat)
      requires Valid() && gid in groups
      modifies this`groups, this`sessions, this`store, audit
      ensures Valid() && View() == S.Dismiss(crypto, old(View()), gid, removed, tree, now)
    {
      hide BigEndian, Snapshot, Appended, PutAudit, PutGroup;
      var state := groups[gid];
      var k := if removed in state.generations then state.generations[removed] else 0;
      state := state.(members := state.members - {removed},
                      generations := state.generations[removed := if k < U64_MAX then k + 1 else k]);
      groups := groups[gid := state.(tree := tree)];
      sessions := sessions - {removed};
      PersistGroup(gid);
      AuditAppend(MemberRemoved(gid, removed, state.epoch), now);
      AuditAppend(RoleRevoked(removed, Some(gid)), now);
    }

    // Serving requests

    /** Requests on groups, invites and the ordered path. */
    method PerformOnGroups(op: S.Op) returns (r: S.Reply)
      requires Valid()
      requires OnGroups(op)
      modifies this, audit
      ensures Valid() && S.Outcome(View(), r) == S.Step(crypto, old(View()), op)
    {
      hide S.Challenge, S.Authenticate, S.EndSession, S.PublishKeyPackage, S.TakeKeyPackage, S.SubmitClaim,
           S.ClearClaims, S.PublishInvite, S.RevokeInvite, S.RedeemInvite, S.RegisterGroup, S.Onboard,
           S.Offboard, S.SubmitAs, S.Fetch;
      match op {
        case OpPublishInvite(w, gid, th, info, expires) => r := PublishInvite(w, gid, th, info, expires);
        case OpRevokeInvite(w, th, report) => r := RevokeInvite(w, th, report);
        case OpRedeemInvite(w, gid, token, keyPackage, now) => r := RedeemInvite(w, gid, token, keyPackage, now);
        case OpRegisterGroup(gid, w, now) => r := RegisterGroup(gid, w, now);
        case OpOnboard(gid, admin, a, w, e, tree, now) => r := Onboard(gid, admin, a, w, e, tree, now);
        case OpOffboard(gid, admin, a, w, e, tree, now) => r := Offboard(gid, admin, a, w, e, tree, now);
        case OpSubmit(w, e, now) => r := SubmitAs(w, e, now);
        case OpFetch(w) => r := Fetch(w);
      }
    }

    /** One request: the object moves exactly as the machine does. */
    method Perform(op: S.Op) returns (r: S.Reply)
      requires Valid() && !op.OpRestart?
      modifies this, nonces, audit
      ensures Valid() && S.Outcome(View(), r) == S.Step(crypto, old(View()), op)
    {
      hide S.Challenge, S.Authenticate, S.EndSession, S.PublishKeyPackage, S.TakeKeyPackage, S.SubmitClaim,
           S.ClearClaims, S.PublishInvite, S.RevokeInvite, S.RedeemInvite, S.RegisterGroup, S.Onboard,
           S.Offboard, S.SubmitAs, S.Fetch;
      if OnGroups(op) {
        r := PerformOnGroups(op);
        return;
      }
      match op {
        case OpChallenge(nonce, now) => r := IssueChallenge(nonce, now);
        case OpAuthenticate(m, signature, now) => r := Authenticate(m, signature, now);
        case OpEndSession(w) => r := EndSession(w);
        case OpPublishKeyPackage(p, now) => r := PublishKeyPackage(p, now);
        case OpTakeKeyPackage(w) => r := TakeKeyPackage(w);
        case OpSubmitClaim(w, claim) => r := SubmitClaim(w, claim);
        case OpClearClaims(th) => r := ClearClaims(th);
      }
    }

    /** A process lifetime: serving any sequence of requests is a run of the machine. */
    method Serve(ops: seq<S.Op>)
      requires Valid() && S.OneLifetime(ops)
      modifies this, nonces, audit
      ensures Valid() && View() == S.Exec(crypto, old(View()), ops)
    {
      hide S.Step;
      for i := 0 to |ops|
        invariant Valid() && View() == S.Exec(crypto, old(View()), ops[..i])
      {
        var r := Perform(ops[i]);
        assert ops[..i + 1][..i] == ops[..i];
      }
      assert ops[..|ops|] == ops;
    }
  }

  predicate OnGroups(op: S.Op)
  {
    || op.OpPublishInvite? || op.OpRevokeInvite? || op.OpRedeemInvite? || op.OpRegisterGroup?
    || op.OpOnboard? || op.OpOffboard? || op.OpSubmit? || op.OpFetch?
  }

  predicate Invited(rows: seq<Referral>, w: Wallet)
  {
    exists row :: row in rows && row.inviter == w
  }

  /** Who stands in a tally and with how many, in terms of the ledger's rows. */
  lemma TallySpelledOut(rows: seq<Referral>, tally: seq<(Wallet, nat)>)
    requires forall w :: w in Inviters(rows) <==> exists i :: 0 <= i < |tally| && tally[i].0 == w
    requires forall i :: 0 <= i < |tally| ==> tally[i].1 == |Joiners(rows, tally[i].0)|
    ensures forall row :: row in rows ==> exists i :: 0 <= i < |tally| && tally[i].0 == row.inviter
    ensures forall i :: 0 <= i < |tally| ==> Invited(rows, tally[i].0)
    ensures forall i :: 0 <= i < |tally| ==> tally[i].1 == |set r | r in rows && r.inviter == tally[i].0 :: r.joiner|
  {
    forall row | row in rows ensures exists i :: 0 <= i < |tally| && tally[i].0 == row.inviter {
      assert row.inviter in Inviters(rows);
    }
    forall i | 0 <= i < |tally| ensures Invited(rows, tally[i].0) {
      assert tally[i].0 in Inviters(rows);
    }
  }

  /** The sizes of the sets of an ordered map, in key order. */
  method Counts(sets: map<Wallet, set<Wallet>>) returns (tally: seq<(Wallet, nat)>)
    ensures forall i, j :: 0 <= i < j < |tally| ==> Less(tally[i].0.bytes, tally[j].0.bytes)
    ensures forall w :: w in sets <==> exists i :: 0 <= i < |tally| && tally[i].0 == w
    ensures forall i :: 0 <= i < |tally| ==> tally[i].0 in sets && tally[i].1 == |sets[tally[i].0]|
  {
    hide Scan, Less, Sizes, Lists;
    var rows := ScanTable(Sizes(sets));
    ScanLists(Sizes(sets));
    CountRows(sets, rows);
    tally := [];
    for i := 0 to |rows|
      invariant |tally| == i
      invariant forall k :: 0 <= k < i ==> tally[k] == (Wallet(rows[k].0), rows[k].1)
    {
      tally := tally + [(Wallet(rows[i].0), rows[i].1)];
    }
    forall w | w in sets ensures exists i :: 0 <= i < |tally| && tally[i].0 == w {
      var i := RowFor(sets, rows, w);
      assert tally[i].0 == w;
    }
  }

  function Sizes(sets: map<Wallet, set<Wallet>>): map<Blob, nat>
  {
    map w | w in sets :: w.bytes := |sets[w]|
  }

  lemma CountRows(sets: map<Wallet, set<Wallet>>, rows: seq<(Blob, nat)>)
    requires Lists(rows, Sizes(sets))
    ensures forall i :: 0 <= i < |rows| ==>
              |rows[i].0| == 20 && Wallet(rows[i].0) in sets && rows[i].1 == |sets[Wallet(rows[i].0)]|
  {
    forall i | 0 <= i < |rows|
      ensures |rows[i].0| == 20 && Wallet(rows[i].0) in sets && rows[i].1 == |sets[Wallet(rows[i].0)]|
    {
      assert rows[i].0 in Sizes(sets);
      var w :| w in sets && w.bytes == rows[i].0;
      assert w == Wallet(rows[i].0);
    }
  }

  lemma RowFor(sets: map<Wallet, set<Wallet>>, rows: seq<(Blob, nat)>, w: Wallet) returns (i: nat)
    requires Lists(rows, Sizes(sets)) && w in sets
    ensures i < |rows| && rows[i].0 == w.bytes
  {
    assert w.bytes in Sizes(sets);
    i :| 0 <= i < |rows| && rows[i].0 == w.bytes;
  }

  lemma JoinersSnoc(rows: seq<Referral>, i: nat)
    requires i < |rows|
    ensures Inviters(rows[..i + 1]) == Inviters(rows[..i]) + {rows[i].inviter}
    ensures forall w :: Joiners(rows[..i + 1], w) ==
              if w == rows[i].inviter then Joiners(rows[..i], w) + {rows[i].joiner} else Joiners(rows[..i], w)
    ensures rows[i].inviter !in Inviters(rows[..i]) ==> Joiners(rows[..i], rows[i].inviter) == {}
  {
    assert rows[..i + 1] == rows[..i] + [rows[i]];
  }

  // Replaying a store

  /** Each group's creator by its earliest creation record. */
  method ReplayCreators(records: seq<Record>) returns (creators: map<GroupId, Wallet>)
    ensures forall gid: GroupId :: FirstCreator(records, gid) == if gid in creators then Some(creators[gid]) else None
  {
    creators := map[];
    for i := 0 to |records|
      invariant forall gid: GroupId ::
                  FirstCreator(records[..i], gid) == if gid in creators then Some(creators[gid]) else None
    {
      var event := records[i].event;
      assert records[..i + 1][..i] == records[..i];
      if event.GroupCreated? && event.groupId !in creators {
        creators := creators[event.groupId := event.creator];
      }
    }
    assert records[..|records|] == records;
  }

  /** Give a group stored without a creator the one its audit trail names. */
  method Backfill(groups: map<GroupId, Group>, records: seq<Record>) returns (filled: map<GroupId, Group>)
    ensures filled == Backfilled(groups, records)
  {
    hide FirstCreator;
    var creators := ReplayCreators(records);
    filled := map gid | gid in groups ::
      if groups[gid].creator.None? then
        groups[gid].(creator := if gid in creators then Some(creators[gid]) else None)
      else groups[gid];
  }

  /** Rebuild and verify the audit chain, or start and store a genesis record. */
  method ReplayChain(c: Crypto, d: Store, records: seq<Record>, genesis: nat)
    returns (r: Result<AuditChain, S.RelayError>, database: Store)
    ensures r.Err? <==> records != [] && Walk(c.link, records, 0).Err?
    ensures r.Err? ==> r.error == S.AuditBroken(Walk(c.link, records, 0).error)
    ensures r.Ok? ==>
              && fresh(r.value) && r.value.hasher == c.link
              && r.value.records == (if records == [] then Started(c.link, genesis) else records)
              && Some(database) == (if records == [] then PutAudit(Some(d), Started(c.link, genesis)[0]) else Some(d))
  {
    hide Walk, BigEndian;
    database := d;
    if records == [] {
      var chain := new AuditChain(c.link, genesis);
      database := d.(audit := d.audit[BigEndian(chain.records[0].sequence, 8) := chain.records[0]]);
      return Ok(chain), database;
    }
    var adopted := AuditChain.FromRecords(c.link, records);
    match adopted {
      case Err(e) => r := Err(S.AuditBroken(e));
      case Ok(chain) => r := Ok(chain);
    }
  }

  /** `open`: replay every column family, or report what is corrupt. */
  method OpenStore(c: Crypto, d: Store, domain: string, owner: Wallet, genesis: nat)
    returns (r: Result<Service, S.RelayError>)
    ensures r.Err? ==> Open(c, d, domain, owner, genesis) == Err(r.error)
    ensures r.Ok? ==>
              && fresh(r.value) && fresh(r.value.nonces) && fresh(r.value.audit)
              && r.value.Valid() && r.value.crypto == c
              && Open(c, d, domain, owner, genesis) == Ok(r.value.View())
  {
    hide Scan, SortRows, AsGroups, AsDirectory, AsInvites, Walk, FirstCreator, WithLogs, BigEndian, RowsToMap, WideRows,
         Prefixed;
    var auditRows := ScanTable(d.audit);
    var records := Values(auditRows);
    var replayed, database := ReplayChain(c, d, records, genesis);
    if replayed.Err? {
      return Err(replayed.error);
    }
    var chain := replayed.value;
    var rows1 := ScanTable(d.membership);
    var bare := ReplayGroups(rows1);
    if bare.None? {
      return Err(S.CorruptKey);
    }
    var filled := Backfill(bare.value, records);
    var rows2 := ScanTable(d.envelopes);
    var groups := ReplayLogs(filled, rows2);
    if groups.None? {
      return Err(S.CorruptKey);
    }
    var rows3 := ScanTable(d.keyPackages);
    var directory := ReplayDirectory(rows3);
    if directory.None? {
      return Err(S.CorruptKey);
    }
    var rows4 := ScanTable(d.invites);
    var invites := ReplayInvites(rows4);
    if invites.None? {
      return Err(S.CorruptKey);
    }
    var rows5 := ScanTable(d.referrals);
    var ledger := ReplayReferrals(rows5);
    if ledger.None? {
      return Err(S.CorruptKey);
    }
    ScanReadsBack(d.membership);
    ScanReadsBack(d.keyPackages);
    ScanReadsBack(d.invites);
    var service := new Service.Replayed(c, domain, owner, chain, directory.value, invites.value, ledger.value,
                                        groups.value, database);
    r := Ok(service);
  }

  // The process over all its lifetimes

  /**
   * Start over an empty store, serve each request on the object, and at every restart drop the object
   * and reopen its store: the object is at each point exactly where the machine is, and answers as it does.
   */
  method Operate(c: Crypto, domain: string, owner: Wallet, genesis: nat, ops: seq<S.Op>)
    returns (service: Service, replies: seq<S.Reply>)
    requires Fits(S.Exec(c, S.Initial(c, domain, owner, genesis, true), ops))
    ensures fresh(service) && service.Valid()
            && service.View() == S.Exec(c, S.Initial(c, domain, owner, genesis, true), ops)
    ensures |replies| == |ops|
    ensures forall i :: 0 <= i < |ops| ==>
              replies[i] == S.Step(c, S.Exec(c, S.Initial(c, domain, owner, genesis, true), ops[..i]), ops[i]).reply
  {
    hide S.Step, Open, Fits, S.Initial;
    ghost var s0 := S.Initial(c, domain, owner, genesis, true);
    FreshStart(c, domain, owner, genesis);
    var started := OpenStore(c, EMPTY_STORE, domain, owner, genesis);
    service, replies := started.value, [];
    for i := 0 to |ops|
      invariant fresh(service) && fresh(service.nonces) && fresh(service.audit)
      invariant service.Valid() && service.crypto == c && service.View() == S.Exec(c, s0, ops[..i])
      invariant |replies| == i
      invariant forall k :: 0 <= k < i ==> replies[k] == S.Step(c, S.Exec(c, s0, ops[..k]), ops[k]).reply
    {
      assert ops[..i + 1][..i] == ops[..i];
      var reply: S.Reply;
      if ops[i].OpRestart? {
        FitsAlong(c, s0, ops, i);
        ReopensAlong(c, domain, owner, genesis, ops[..i], ops[i].genesis);
        RestartStep(c, service.View(), ops[i]);
        var reopened := OpenStore(c, service.store.value, domain, owner, ops[i].genesis);
        service, reply := reopened.value, S.Done;
      } else {
        reply := service.Perform(ops[i]);
      }
      replies := replies + [reply];
    }
    assert ops[..|ops|] == ops;
  }

  lemma RestartStep(c: Crypto, s: Relay, op: S.Op)
    requires op.OpRestart? && s.store.Some?
    ensures S.Step(c, s, op) == S.Outcome(S.Restarted(s), S.Done)
  {
  }
}
