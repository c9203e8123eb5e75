/** Histories only grow: no epoch forks, replays are idempotent, and revoked authority stays revoked. */
module RelayHistory {
  import opened Common
  import opened Proto
  import opened RelayState
  import opened RelaySteps
  import opened RelayEffects
  import opened RelayOrder

  /** What a group's later states keep of an earlier one. */
  ghost predicate GroupExtends(g: Group, g': Group)
  {
    && g.log <= g'.log
    && g.epoch <= g'.epoch
    && (forall k :: k in g.accepted ==> k in g'.accepted && g'.accepted[k] == g.accepted[k])
    && g'.creator == g.creator
    && (forall w: Wallet :: Generation(g, w) <= Generation(g', w))
  }

  ghost predicate Extends(s: Relay, s': Relay)
  {
    && s'.owner == s.owner && s'.domain == s.domain
    && s.audit <= s'.audit
    && forall gid :: gid in s.groups ==> gid in s'.groups && GroupExtends(s.groups[gid], s'.groups[gid])
  }

  lemma ExtendsTransitive(s: Relay, t: Relay, u: Relay)
    requires Extends(s, t) && Extends(t, u)
    ensures Extends(s, u)
  {
    forall gid | gid in s.groups ensures GroupExtends(s.groups[gid], u.groups[gid]) {
      var a, b, d := s.groups[gid], t.groups[gid], u.groups[gid];
      assert GroupExtends(a, b) && GroupExtends(b, d);
      forall w: Wallet ensures Generation(a, w) <= Generation(d, w) {
        assert Generation(a, w) <= Generation(b, w);
      }
    }
  }

  lemma AcceptingExtends(c: Crypto, g: Group, e: Envelope)
    requires e.kind == Commit ==> e.epoch !in g.accepted && e.epoch == g.epoch + 1
    ensures GroupExtends(g, Accepting(c, g, e))
  {
  }

  lemma NewCommit(c: Crypto, s: Relay, e: Envelope)
    requires Admit(c, s, e) == Accept && e.kind == Commit
    ensures e.groupId in s.groups && e.epoch !in s.groups[e.groupId].accepted
            && e.epoch == s.groups[e.groupId].epoch + 1
  {
  }

  lemma SubmitExtends(c: Crypto, s: Relay, authed: Wallet, e: Envelope, now: nat)
    ensures Extends(s, SubmitAs(c, s, authed, e, now).state)
  {
    hide Accepting, FanOut, GroupExtends;
    forall gid | gid in s.groups { SelfExtends(s.groups[gid]); }
    if e.sender == authed && Admit(c, s, e) == Accept {
      if e.kind == Commit { NewCommit(c, s, e); }
      AcceptingExtends(c, s.groups[e.groupId], e);
      DeliverEffect(c, s, e, now);
    }
  }

  lemma SelfExtends(g: Group)
    ensures GroupExtends(g, g)
  {
  }

  /** A change of one group, or none, extends the relay when it extends that group. */
  lemma UpdateExtends(s: Relay, s': Relay, gid: GroupId)
    requires s'.owner == s.owner && s'.domain == s.domain && s.audit <= s'.audit
    requires gid in s'.groups && s'.groups == s.groups[gid := s'.groups[gid]]
    requires gid in s.groups ==> GroupExtends(s.groups[gid], s'.groups[gid])
    ensures Extends(s, s')
  {
    hide GroupExtends;
    forall other | other in s.groups { SelfExtends(s.groups[other]); }
  }

  lemma OnboardExtends(c: Crypto, s: Relay, op: Op)
    requires op.OpOnboard?
    ensures Extends(s, Step(c, s, op).state)
  {
    hide Step, Admit, FanOut;
    if Step(c, s, op).reply.Refused? {
      OnboardRefused(c, s, op);
    } else {
      OnboardEffect(c, s, op);
      var g := WithJoiner(s, op.groupId, op.subject).groups[op.groupId];
      AcceptingExtends(c, g, op.envelope);
      UpdateExtends(s, Step(c, s, op).state, op.groupId);
    }
  }

  lemma OffboardExtends(c: Crypto, s: Relay, op: Op)
    requires op.OpOffboard?
    ensures Extends(s, Step(c, s, op).state)
  {
    hide Step, Admit, Deliver;
    if Step(c, s, op).reply.Refused? {
      OffboardRefused(c, s, op);
    } else {
      OffboardEffect(c, s, op);
      var o := SubmitAs(c, s, op.admin, op.envelope, op.now).state;
      SubmitExtends(c, s, op.admin, op.envelope, op.now);
      var g := o.groups[op.groupId];
      assert GroupExtends(g, EndMembership(g, op.subject).(tree := op.tree));
      UpdateExtends(o, Step(c, s, op).state, op.groupId);
      ExtendsTransitive(s, o, Step(c, s, op).state);
    }
  }

  lemma RosterStepExtends(c: Crypto, s: Relay, op: Op)
    requires op.OpRegisterGroup? || op.OpRedeemInvite?
    ensures Extends(s, Step(c, s, op).state)
  {
    hide Onboard, Offboard, SubmitAs, PublishKeyPackage;
    if !Step(c, s, op).reply.Refused? {
      UpdateExtends(s, Step(c, s, op).state, op.groupId);
    }
  }

  lemma SubmitStepExtends(c: Crypto, s: Relay, op: Op)
    requires op.OpSubmit?
    ensures Extends(s, Step(c, s, op).state)
  {
    hide SubmitAs, Extends;
    SubmitExtends(c, s, op.wallet, op.envelope, op.now);
  }

  lemma StepExtends(c: Crypto, s: Relay, op: Op)
    ensures Extends(s, Step(c, s, op).state)
  {
    hide Step, GroupExtends, Queue;
    forall gid | gid in s.groups { SelfExtends(s.groups[gid]); }
    match op {
      case OpRegisterGroup(_, _, _) => RosterStepExtends(c, s, op);
      case OpRedeemInvite(_, _, _, _, _) => RosterStepExtends(c, s, op);
      case OpOnboard(_, _, _, _, _, _, _) => OnboardExtends(c, s, op);
      case OpOffboard(_, _, _, _, _, _, _) => OffboardExtends(c, s, op);
      case OpSubmit(_, _, _) => SubmitStepExtends(c, s, op);
      case OpPublishKeyPackage(_, _) => PublishEffect(c, s, op);
      case _ => QuietStep(c, s, op);
    }
  }

  lemma {:induction false} RunExtends(c: Crypto, s: Relay, ops: seq<Op>)
    ensures Extends(s, Exec(c, s, ops))
  {
    hide Step, GroupExtends;
    if ops == [] {
      forall gid | gid in s.groups { SelfExtends(s.groups[gid]); }
    } else {
      var before := Exec(c, s, ops[..|ops| - 1]);
      RunExtends(c, s, ops[..|ops| - 1]);
      StepExtends(c, before, ops[|ops| - 1]);
      ExtendsTransitive(s, before, Exec(c, s, ops));
    }
  }

  lemma {:induction false} ExecSplit(c: Crypto, s: Relay, ops: seq<Op>, i: nat)
    requires i <= |ops|
    ensures Exec(c, s, ops) == Exec(c, Exec(c, s, ops[..i]), ops[i..])
    decreases |ops|
  {
    hide Step;
    if i == |ops| {
      assert ops[..i] == ops && ops[i..] == [];
    } else {
      var before := ops[..|ops| - 1];
      ExecSplit(c, s, before, i);
      assert before[..i] == ops[..i] && before[i..] == ops[i..][..|ops| - i - 1];
    }
  }

  /** No epoch fork: what an epoch accepted at some point of a run, it has at every later point. */
  lemma NoEpochFork(c: Crypto, s: Relay, ops: seq<Op>, i: nat, gid: GroupId, k: nat)
    requires i <= |ops|
    requires var t := Exec(c, s, ops[..i]); gid in t.groups && k in t.groups[gid].accepted
    ensures var t, u := Exec(c, s, ops[..i]), Exec(c, s, ops);
            && gid in u.groups && k in u.groups[gid].accepted && u.groups[gid].accepted[k] == t.groups[gid].accepted[k]
            && t.groups[gid].log <= u.groups[gid].log && t.groups[gid].epoch <= u.groups[gid].epoch
  {
    hide Step;
    ExecSplit(c, s, ops, i);
    RunExtends(c, Exec(c, s, ops[..i]), ops[i..]);
    assert GroupExtends(Exec(c, s, ops[..i]).groups[gid], Exec(c, s, ops).groups[gid]);
  }

  /** A Commit with another hash for a committed epoch is refused, alone or inside an offboard. */
  lemma ConflictingCommitRefused(c: Crypto, s: Relay, op: Op)
    requires op.OpSubmit? || op.OpOffboard?
    requires op.envelope.kind == Commit && op.envelope.groupId in s.groups
    requires var g := s.groups[op.envelope.groupId];
             op.envelope.epoch in g.accepted && g.accepted[op.envelope.epoch] != c.blake3(op.envelope.ciphertext)
    ensures Step(c, s, op).reply.Refused? && Step(c, s, op).state == s
  {
    hide Onboard, RegisterGroup, RedeemInvite, PublishKeyPackage;
    assert Admit(c, s, op.envelope).Reject?;
  }

  /** Over a run: once an epoch has its Commit, every later Commit for it with another hash is refused. */
  lemma ForkRefusedEverAfter(c: Crypto, s: Relay, ops: seq<Op>, i: nat, op: Op, gid: GroupId)
    requires i <= |ops| && (op.OpSubmit? || op.OpOffboard?)
    requires op.envelope.kind == Commit && op.envelope.groupId == gid
    requires var t := Exec(c, s, ops[..i]);
             && gid in t.groups && op.envelope.epoch in t.groups[gid].accepted
             && t.groups[gid].accepted[op.envelope.epoch] != c.blake3(op.envelope.ciphertext)
    ensures var u := Exec(c, s, ops); Step(c, u, op).reply.Refused? && Step(c, u, op).state == u
  {
    hide Step, Exec;
    NoEpochFork(c, s, ops, i, gid, op.envelope.epoch);
    ConflictingCommitRefused(c, Exec(c, s, ops), op);
  }

  /** Everything a submission must satisfy before its epoch is looked at. */
  predicate Admissible(s: Relay, authed: Wallet, e: Envelope)
  {
    && e.sender == authed && authed in s.sessions
    && e.groupId in s.groups && authed in s.groups[e.groupId].members
    && |e.ciphertext| <= MAX_CIPHERTEXT_BYTES && |e.recipients| <= MAX_RECIPIENTS
    && (forall r :: r in e.recipients ==> r in s.groups[e.groupId].members)
  }

  /** An admissible resubmission of an accepted Commit returns the original sequence number and changes nothing. */
  lemma ReplayIsIdempotent(c: Crypto, s: Relay, op: Op) returns (i: nat)
    requires Inv(c, s) && op.OpSubmit? && Admissible(s, op.wallet, op.envelope) && op.envelope.kind == Commit
    requires var g := s.groups[op.envelope.groupId];
             op.envelope.epoch in g.accepted && g.accepted[op.envelope.epoch] == c.blake3(op.envelope.ciphertext)
    ensures Step(c, s, op) == Outcome(s, Sequenced(i))
    ensures var log := s.groups[op.envelope.groupId].log;
            && i < |log| && log[i].kind == Commit && log[i].epoch == op.envelope.epoch && log[i].groupSeq == Some(i)
            && c.blake3(log[i].ciphertext) == c.blake3(op.envelope.ciphertext)
  {
    hide Onboard, Offboard, RegisterGroup, RedeemInvite, PublishKeyPackage, Deliver;
    var e, g := op.envelope, s.groups[op.envelope.groupId];
    TableKeys(c, g.log, e.epoch);
    i := PriorSeqFinds(g.log, e.epoch);
    StoredCommitIsAccepted(c, g.log, g.epoch, i);
    assert Admit(c, s, e) == Replay(i);
  }
}
