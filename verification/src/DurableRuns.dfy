/** Every step keeps the store a mirror of memory, so runs with real restarts are runs of the machine. */
module DurableRuns {
  import opened Common
  import opened Bytes
  import opened Table
  import opened Proto
  import opened Audit
  import opened RelayState
  import opened RelaySteps
  import opened RelayEffects
  import opened RelayOrder
  import opened RelayHistory
  import opened RelayInvites
  import opened StoreLayout
  import opened Durability

  // One row at a time

  lemma IndexedAppend<V>(table: map<Blob, V>, list: seq<V>, v: V)
    requires Indexed(table, list) && |list| <= VEC_MAX
    ensures Indexed(table[BigEndian(|list|, 8) := v], list + [v])
  {
    hide BigEndian, Value;
    var n := |list|;
    var table' := table[BigEndian(n, 8) := v];
    U64Value(n);
    forall i | 0 <= i < n + 1 ensures BigEndian(i, 8) in table' && table'[BigEndian(i, 8)] == (list + [v])[i] {
      U64Value(i);
    }
    forall k | k in table' ensures Value(k) < n + 1 && k == BigEndian(Value(k), 8) {
      if k != BigEndian(n, 8) { assert k in table; }
    }
  }

  lemma RostersPut(table: map<Blob, GroupSnapshot>, groups: map<GroupId, Group>, gid: GroupId, g: Group)
    requires HoldsRosters(table, groups)
    ensures HoldsRosters(table[gid.bytes := Snapshot(g)], groups[gid := g])
  {
    hide AsGroups, Bare;
    GroupsPut(table, gid, Snapshot(g));
    BarePut(groups, gid, g);
  }

  lemma BarePut(groups: map<GroupId, Group>, gid: GroupId, g: Group)
    ensures Bare(groups[gid := g]) == Bare(groups)[gid := g.(log := [])]
  {
  }

  lemma LogsSame(table: map<Blob, Envelope>, groups: map<GroupId, Group>, gid: GroupId, g: Group)
    requires HoldsLogs(table, groups)
    requires g.log == if gid in groups then groups[gid].log else []
    ensures HoldsLogs(table, groups[gid := g])
  {
    hide SeqKey, Value;
    forall k | k in table ensures HasPlace(k, groups[gid := g]) { assert HasPlace(k, groups); }
  }

  lemma LogsPut(table: map<Blob, Envelope>, groups: map<GroupId, Group>, gid: GroupId, g: Group, e: Envelope)
    requires HoldsLogs(table, groups) && gid in groups && g.log == groups[gid].log + [e]
    requires forall x :: x in groups ==> |groups[x].log| <= VEC_MAX
    ensures HoldsLogs(table[SeqKey(gid.bytes, |groups[gid].log|) := e], groups[gid := g])
  {
    hide SeqKey, Value;
    var n, groups' := |groups[gid].log|, groups[gid := g];
    var key := SeqKey(gid.bytes, n);
    SeqKeyParts(gid.bytes, n);
    forall x, i | x in groups' && 0 <= i < |groups'[x].log|
      ensures SeqKey(x.bytes, i) in table[key := e] && table[key := e][SeqKey(x.bytes, i)] == groups'[x].log[i]
    {
      SeqKeyParts(x.bytes, i);
      assert SeqKey(x.bytes, i) == key ==> x.bytes == gid.bytes && i == n;
    }
    forall k | k in table[key := e] ensures HasPlace(k, groups') {
      if k != key { assert HasPlace(k, groups); }
    }
  }

  // One operation at a time

  lemma AuditMirrored(c: Crypto, s: Relay, event: Event, now: nat)
    requires Mirrored(s) && Valid(c.link, s.audit) && |s.audit| <= VEC_MAX
    ensures Mirrored(AuditAppend(c, s, event, now))
  {
    hide Indexed, HoldsRosters, HoldsLogs, AsDirectory, AsInvites, BigEndian;
    assert Sound(c.link, s.audit, |s.audit| - 1);
    if s.store.Some? {
      var chain := Appended(c.link, s.audit, event, now);
      IndexedAppend(s.store.value.audit, s.audit, chain[|chain| - 1]);
      assert s.audit + [chain[|chain| - 1]] == chain;
    }
  }

  /** The group as it now stands in memory and in the store. */
  function GroupPut(s: Relay, gid: GroupId, g: Group): Relay
  {
    s.(groups := s.groups[gid := g], store := PutGroup(s.store, gid, g))
  }

  lemma GroupPutMirrored(s: Relay, gid: GroupId, g: Group)
    requires Mirrored(s) && g.log == LogOf(s, gid)
    ensures Mirrored(GroupPut(s, gid, g))
  {
    hide Indexed, HoldsRosters, HoldsLogs, AsDirectory, AsInvites, Snapshot;
    if s.store.Some? {
      RostersPut(s.store.value.membership, s.groups, gid, g);
      LogsSame(s.store.value.envelopes, s.groups, gid, g);
    }
  }

  /** Storing an accepted envelope and its group, whatever roster change is still unwritten. */
  lemma AcceptedMirrored(s: Relay, gid: GroupId, g: Group, e: Envelope)
    requires Mirrored(s) && gid in s.groups && Fits(s)
    requires g.log == s.groups[gid].log + [e]
    ensures Mirrored(s.(groups := s.groups[gid := g],
                        store := PutGroup(PutEnvelope(s.store, gid, |s.groups[gid].log|, e), gid, g)))
  {
    hide Indexed, HoldsRosters, HoldsLogs, AsDirectory, AsInvites, Snapshot, SeqKey;
    if s.store.Some? {
      RostersPut(s.store.value.membership, s.groups, gid, g);
      LogsPut(s.store.value.envelopes, s.groups, gid, g, e);
    }
  }

  /** Mirroring looks at the durable fields only. */
  lemma SameDurable(s: Relay, s': Relay)
    requires Mirrored(s)
    requires s' == s.(nonces := s'.nonces, claims := s'.claims, mailboxes := s'.mailboxes, sessions := s'.sessions)
    ensures Mirrored(s')
  {
  }

  lemma DeliverMirrored(c: Crypto, s: Relay, joiners: set<Wallet>, e: Envelope, now: nat)
    requires Inv(c, s) && Mirrored(s) && Fits(s) && e.groupId in s.groups
    ensures var g := s.groups[e.groupId];
            Mirrored(Deliver(c, s.(groups := s.groups[e.groupId := g.(members := g.members + joiners)]), e, now))
  {
    hide Mirrors, FanOut, Appended, Snapshot;
    var gid, g := e.groupId, s.groups[e.groupId];
    var wider := g.(members := g.members + joiners);
    var g', stamped := Accepting(c, wider, e), Stamped(wider, e);
    assert Ordered(c, gid, g);
    var stored := s.(groups := s.groups[gid := g'],
                     store := PutGroup(PutEnvelope(s.store, gid, g.nextSeq, stamped), gid, g'));
    AcceptedMirrored(s, gid, g', stamped);
    var fanned := stored.(mailboxes := FanOut(s.mailboxes, e.recipients, stamped));
    SameDurable(stored, fanned);
    AuditMirrored(c, fanned, ReceiptOf(c, e, g.nextSeq), now);
    assert s.groups[gid := wider][gid := g'] == s.groups[gid := g'];
  }

  lemma SubmitMirrored(c: Crypto, s: Relay, authed: Wallet, e: Envelope, now: nat)
    requires Inv(c, s) && Mirrored(s) && Fits(s)
    ensures Mirrored(SubmitAs(c, s, authed, e, now).state)
  {
    hide Mirrors, Deliver;
    if e.sender == authed && Admit(c, s, e) == Accept {
      var g := s.groups[e.groupId];
      DeliverMirrored(c, s, {}, e, now);
      assert g.members + {} == g.members;
      assert s.groups[e.groupId := g] == s.groups;
    }
  }

  lemma OnboardMirrored(c: Crypto, s: Relay, op: Op)
    requires op.OpOnboard? && Inv(c, s) && Mirrored(s) && Fits(s)
    requires Fits(Step(c, s, op).state)
    ensures Mirrored(Step(c, s, op).state)
  {
    hide Step, Admit, Mirrors, Deliver, Consistent, FanOut;
    if Step(c, s, op).reply.Refused? {
      OnboardRefused(c, s, op);
    } else {
      OnboardAccepted(c, s, op);
      OnboardEffect(c, s, op);
      var gid, added := op.groupId, WithJoiner(s, op.groupId, op.subject);
      DeliverMirrored(c, s, {op.subject}, op.envelope, op.now);
      var o := Deliver(c, added, op.envelope, op.now);
      DeliveredChain(c, s, added, op.envelope, op.now);
      SeatMirrored(c, o, gid, op.subject, op.tree, op.now);
    }
  }

  lemma DeliveredChain(c: Crypto, s: Relay, added: Relay, e: Envelope, now: nat)
    requires Inv(c, s) && added.audit == s.audit && e.groupId in added.groups
    ensures var o := Deliver(c, added, e, now);
            Valid(c.link, o.audit) && |o.audit| == |s.audit| + 1 && e.groupId in o.groups
  {
    AppendKeepsValid(c.link, s.audit, ReceiptOf(c, e, added.groups[e.groupId].nextSeq), now);
    DeliverEffect(c, added, e, now);
  }

  lemma SeatMirrored(c: Crypto, s: Relay, gid: GroupId, joiner: Wallet, tree: Blob, now: nat)
    requires Mirrored(s) && gid in s.groups && Valid(c.link, s.audit) && |s.audit| <= VEC_MAX
    ensures Mirrored(Seat(c, s, gid, joiner, tree, now))
  {
    hide Mirrors, Appended;
    var g := s.groups[gid].(tree := tree);
    GroupPutMirrored(s, gid, g);
    AuditMirrored(c, GroupPut(s, gid, g), MemberAdded(gid, joiner, g.epoch), now);
  }

  lemma DismissMirrored(c: Crypto, s: Relay, gid: GroupId, removed: Wallet, tree: Blob, now: nat)
    requires Mirrored(s) && gid in s.groups && Valid(c.link, s.audit) && |s.audit| + 1 <= VEC_MAX
    ensures Mirrored(Dismiss(c, s, gid, removed, tree, now))
  {
    hide Mirrors;
    var g := EndMembership(s.groups[gid], removed).(tree := tree);
    GroupPutMirrored(s, gid, g);
    var put := GroupPut(s, gid, g);
    var ended := put.(sessions := s.sessions - {removed});
    SameDurable(put, ended);
    AuditMirrored(c, ended, MemberRemoved(gid, removed, g.epoch), now);
    AppendKeepsValid(c.link, s.audit, MemberRemoved(gid, removed, g.epoch), now);
    AuditMirrored(c, AuditAppend(c, ended, MemberRemoved(gid, removed, g.epoch), now), RoleRevoked(removed, Some(gid)),
                  now);
  }

  lemma OffboardMirrored(c: Crypto, s: Relay, op: Op)
    requires op.OpOffboard? && Inv(c, s) && Mirrored(s) && Fits(s)
    requires Fits(Step(c, s, op).state)
    ensures Mirrored(Step(c, s, op).state)
  {
    hide Step, Admit, Mirrors, Deliver, Ordered, Agrees;
    if Step(c, s, op).reply.Refused? {
      OffboardRefused(c, s, op);
    } else {
      OffboardAccepted(c, s, op);
      OffboardEffect(c, s, op);
      SubmitMirrored(c, s, op.admin, op.envelope, op.now);
      SubmitKeepsInv(c, s, op.admin, op.envelope, op.now);
      DismissMirrored(c, SubmitAs(c, s, op.admin, op.envelope, op.now).state, op.groupId, op.subject, op.tree, op.now);
    }
  }

  lemma RegisterMirrored(c: Crypto, s: Relay, op: Op)
    requires op.OpRegisterGroup? && Inv(c, s) && Mirrored(s) && Fits(s)
    ensures Mirrored(Step(c, s, op).state)
  {
    hide PublishKeyPackage, RedeemInvite, Onboard, Offboard, SubmitAs, Mirrors, Appended;
    if !Step(c, s, op).reply.Refused? {
      var g := NewGroup(op.wallet);
      GroupPutMirrored(s, op.groupId, g);
      AuditMirrored(c, GroupPut(s, op.groupId, g), GroupCreated(op.groupId, op.wallet), op.now);
    }
  }

  lemma RedeemMirrored(c: Crypto, s: Relay, op: Op)
    requires op.OpRedeemInvite? && Mirrored(s) && Fits(s)
    ensures Mirrored(Step(c, s, op).state)
  {
    hide RegisterGroup, PublishKeyPackage, Onboard, Offboard, SubmitAs, Indexed, HoldsRosters, HoldsLogs, AsDirectory,
         AsInvites, Snapshot, BigEndian;
    if !Step(c, s, op).reply.Refused? && s.store.Some? {
      var th, gid := c.blake3(op.token), op.groupId;
      var g := s.groups[gid].(members := s.groups[gid].members + {op.wallet});
      var d, invite := s.store.value, s.invites[th].(consumed := true);
      RostersPut(d.membership, s.groups, gid, g);
      LogsSame(d.envelopes, s.groups, gid, g);
      InvitesPut(d.invites, th, invite);
      IndexedAppend(d.referrals, s.referrals, Referral(invite.inviter, op.wallet, gid, th, op.now));
    }
  }

  lemma PublishMirrored(c: Crypto, s: Relay, op: Op)
    requires op.OpPublishKeyPackage? && Inv(c, s) && Mirrored(s) && Fits(s)
    ensures Mirrored(Step(c, s, op).state)
  {
    hide RegisterGroup, RedeemInvite, Onboard, Offboard, SubmitAs, Indexed, HoldsRosters, HoldsLogs, AsDirectory,
         AsInvites, Appended;
    var p, queue := op.publication, Queue(s, op.publication.wallet) + [op.publication];
    if !Step(c, s, op).reply.Refused? {
      var queued := s.(nonces := s.nonces - {p.nonce}, keyPackages := s.keyPackages[p.wallet := queue],
                       store := PutKeyPackages(s.store, p.wallet, queue));
      if s.store.Some? { DirectoryPut(s.store.value.keyPackages, p.wallet, queue); }
      assert Mirrored(queued);
      AuditMirrored(c, queued, KeyPackagePublished(p.wallet, c.blake3(p.keyPackage)), op.now);
    }
  }

  lemma RowMirrored(c: Crypto, s: Relay, op: Op)
    requires op.OpTakeKeyPackage? || op.OpPublishInvite? || op.OpRevokeInvite?
    requires Mirrored(s)
    ensures Mirrored(Step(c, s, op).state)
  {
    hide RegisterGroup, PublishKeyPackage, RedeemInvite, Onboard, Offboard, SubmitAs, Indexed, HoldsRosters, HoldsLogs,
         AsDirectory, AsInvites;
    if s.store.Some? {
      var d := s.store.value;
      match op {
        case OpTakeKeyPackage(w) =>
          if Queue(s, w) != [] { DirectoryPut(d.keyPackages, w, Queue(s, w)[1..]); }
        case OpPublishInvite(w, gid, th, info, expires) =>
          InvitesPut(d.invites, th, Invite(gid, info, w, expires, false, false));
        case OpRevokeInvite(w, th, _) =>
          if th in s.invites { InvitesPut(d.invites, th, s.invites[th].(revoked := true)); }
      }
    }
  }

  lemma VolatileMirrored(c: Crypto, s: Relay, op: Op)
    requires !TouchesGroups(op) && !op.OpTakeKeyPackage? && !op.OpPublishInvite? && !op.OpRevokeInvite?
    requires Mirrored(s)
    ensures Mirrored(Step(c, s, op).state)
  {
    hide RegisterGroup, PublishKeyPackage, RedeemInvite, Onboard, Offboard, SubmitAs, Mirrored;
    SameDurable(s, Step(c, s, op).state);
  }

  lemma SubmitStepMirrored(c: Crypto, s: Relay, op: Op)
    requires op.OpSubmit? && Inv(c, s) && Mirrored(s) && Fits(s)
    ensures Mirrored(Step(c, s, op).state)
  {
    hide SubmitAs, Mirrored;
    SubmitMirrored(c, s, op.wallet, op.envelope, op.now);
  }

  lemma StepMirrored(c: Crypto, s: Relay, op: Op)
    requires Inv(c, s) && Mirrored(s) && Fits(s) && Fits(Step(c, s, op).state)
    ensures Mirrored(Step(c, s, op).state)
  {
    hide Step, Mirrored, Consistent, Fits;
    match op {
      case OpOnboard(_, _, _, _, _, _, _) => OnboardMirrored(c, s, op);
      case OpOffboard(_, _, _, _, _, _, _) => OffboardMirrored(c, s, op);
      case OpRegisterGroup(_, _, _) => RegisterMirrored(c, s, op);
      case OpRedeemInvite(_, _, _, _, _) => RedeemMirrored(c, s, op);
      case OpPublishKeyPackage(_, _) => PublishMirrored(c, s, op);
      case OpSubmit(_, _, _) => SubmitStepMirrored(c, s, op);
      case OpTakeKeyPackage(_) => RowMirrored(c, s, op);
      case OpPublishInvite(_, _, _, _, _) => RowMirrored(c, s, op);
      case OpRevokeInvite(_, _, _) => RowMirrored(c, s, op);
      case _ => VolatileMirrored(c, s, op);
    }
  }

  /** Vectors only grow, so a state that fits was reached through states that fit. */
  lemma FitsBefore(c: Crypto, s: Relay, op: Op)
    requires Fits(Step(c, s, op).state)
    ensures Fits(s)
  {
    hide Step;
    var s' := Step(c, s, op).state;
    StepExtends(c, s, op);
    InviteStep(c, s, op, ZERO);
    forall gid | gid in s.groups ensures |s.groups[gid].log| <= VEC_MAX {
      assert GroupExtends(s.groups[gid], s'.groups[gid]);
    }
  }

  lemma {:induction false} FitsAlong(c: Crypto, s: Relay, ops: seq<Op>, i: nat)
    requires i <= |ops| && Fits(Exec(c, s, ops))
    ensures Fits(Exec(c, s, ops[..i]))
    decreases |ops|
  {
    hide Fits, Step;
    if i == |ops| {
      assert ops[..i] == ops;
    } else {
      FitsBefore(c, Exec(c, s, ops[..|ops| - 1]), ops[|ops| - 1]);
      FitsAlong(c, s, ops[..|ops| - 1], i);
      assert ops[..|ops| - 1][..i] == ops[..i];
    }
  }

  /** What a running relay's store is good for at any point of a run: it reopens to the machine's restart. */
  lemma ReopensAlong(c: Crypto, domain: string, owner: Wallet, genesis: nat, ops: seq<Op>, again: nat)
    requires Fits(Exec(c, Initial(c, domain, owner, genesis, true), ops))
    ensures var s := Exec(c, Initial(c, domain, owner, genesis, true), ops);
            && s.store.Some? && s.domain == domain && s.owner == owner
            && Open(c, s.store.value, domain, owner, again) == Ok(Restarted(s))
  {
    hide Mirrored, Consistent, Fits, Open, Step, GroupExtends;
    var s0 := Initial(c, domain, owner, genesis, true);
    InitialInv(c, domain, owner, genesis, true);
    InitialMirrored(c, domain, owner, genesis, true);
    RunKeepsInv(c, s0, ops);
    RunMirrored(c, s0, ops);
    RunExtends(c, s0, ops);
    StoreStays(c, s0, ops);
    ReopenRebuilds(c, Exec(c, s0, ops), again);
  }

  lemma {:induction false} StoreStays(c: Crypto, s: Relay, ops: seq<Op>)
    requires s.store.Some?
    ensures Exec(c, s, ops).store.Some?
  {
    hide Step;
    if ops != [] {
      StoreStays(c, s, ops[..|ops| - 1]);
      StepKeepsStore(c, Exec(c, s, ops[..|ops| - 1]), ops[|ops| - 1]);
    }
  }

  lemma SubmitKeepsStore(c: Crypto, s: Relay, authed: Wallet, e: Envelope, now: nat)
    requires s.store.Some?
    ensures SubmitAs(c, s, authed, e, now).state.store.Some?
  {
    hide FanOut, Accepting, Admit, BigEndian, SeqKey, Appended;
  }

  lemma MembershipKeepsStore(c: Crypto, s: Relay, op: Op)
    requires s.store.Some? && (op.OpOnboard? || op.OpOffboard?)
    ensures Step(c, s, op).state.store.Some?
  {
    hide Step, SubmitAs, Authorize, BigEndian, Appended;
    if Step(c, s, op).reply.Refused? {
      RefusalChangesNothing(c, s, op);
    } else if op.OpOnboard? {
      OnboardAccepted(c, s, op);
    } else {
      OffboardAccepted(c, s, op);
      SubmitKeepsStore(c, s, op.admin, op.envelope, op.now);
    }
  }

  lemma StepKeepsStore(c: Crypto, s: Relay, op: Op)
    requires s.store.Some?
    ensures Step(c, s, op).state.store.Some?
  {
    hide Onboard, Offboard, SubmitAs, BigEndian, Appended;
    if op.OpOnboard? || op.OpOffboard? { MembershipKeepsStore(c, s, op); }
    if op.OpSubmit? { SubmitKeepsStore(c, s, op.wallet, op.envelope, op.now); }
  }

  lemma {:induction false} RunMirrored(c: Crypto, s: Relay, ops: seq<Op>)
    requires Inv(c, s) && Mirrored(s) && Fits(Exec(c, s, ops))
    ensures Mirrored(Exec(c, s, ops))
  {
    hide Step, Mirrored, Consistent, Fits;
    if ops != [] {
      var before, op := ops[..|ops| - 1], ops[|ops| - 1];
      FitsBefore(c, Exec(c, s, before), op);
      RunMirrored(c, s, before);
      RunKeepsInv(c, s, before);
      StepMirrored(c, Exec(c, s, before), op);
    }
  }

  lemma InitialMirrored(c: Crypto, domain: string, owner: Wallet, genesis: nat, durable: bool)
    ensures Mirrored(Initial(c, domain, owner, genesis, durable))
  {
    hide BigEndian, Indexed, AsGroups, Bare, AsDirectory, AsInvites;
    EmptyTables();
    NothingStored();
    OneRow(Started(c.link, genesis)[0]);
  }

  lemma OneRow<V>(v: V)
    ensures Indexed(map[BigEndian(0, 8) := v], [v])
  {
    hide BigEndian, Value;
    U64Value(0);
  }

  lemma EmptyScan<V>()
    ensures Scan<V>(map[]) == []
  {
  }

  // Real restarts

  /** The machine as the process runs it: a restart reopens the store, at its own time. */
  ghost function RealStep(c: Crypto, s: Relay, op: Op): Result<Relay, RelayError>
  {
    if op.OpRestart? && s.store.Some? then Open(c, s.store.value, s.domain, s.owner, op.genesis)
    else Ok(Step(c, s, op).state)
  }

  ghost function RealExec(c: Crypto, s: Relay, ops: seq<Op>): Result<Relay, RelayError>
  {
    if ops == [] then Ok(s)
    else
      var before := RealExec(c, s, ops[..|ops| - 1]);
      if before.Err? then before else RealStep(c, before.value, ops[|ops| - 1])
  }

  /**
   * Durability refinement: for every run of a relay from its start, with any number of restarts in
   * it, the process that really closes and reopens its store reaches exactly the state of the
   * machine in which a restart only resets nonces, sessions, claims and mailboxes.
   */
  lemma {:induction false} RestartsAreFaithful(c: Crypto, domain: string, owner: Wallet, genesis: nat, durable: bool,
                                               ops: seq<Op>)
    requires Fits(Exec(c, Initial(c, domain, owner, genesis, durable), ops))
    ensures RealExec(c, Initial(c, domain, owner, genesis, durable), ops)
         == Ok(Exec(c, Initial(c, domain, owner, genesis, durable), ops))
  {
    hide Mirrored, Consistent, Fits, Open, Initial, RegisterGroup, PublishKeyPackage, RedeemInvite, Onboard, Offboard,
         SubmitAs, Fetch, Challenge, Authenticate;
    if ops != [] {
      var s0, before, op := Initial(c, domain, owner, genesis, durable), ops[..|ops| - 1], ops[|ops| - 1];
      var s := Exec(c, s0, before);
      FitsBefore(c, s, op);
      RestartsAreFaithful(c, domain, owner, genesis, durable, before);
      InitialInv(c, domain, owner, genesis, durable);
      InitialMirrored(c, domain, owner, genesis, durable);
      RunKeepsInv(c, s0, before);
      RunMirrored(c, s0, before);
      if op.OpRestart? && s.store.Some? { ReopenRebuilds(c, s, op.genesis); }
    }
  }

  /** A first start over an empty store is the initial durable relay. */
  lemma FreshStart(c: Crypto, domain: string, owner: Wallet, genesis: nat)
    ensures Open(c, EMPTY_STORE, domain, owner, genesis) == Ok(Initial(c, domain, owner, genesis, true))
  {
    hide BigEndian, Scan, AsGroups, AsDirectory, AsInvites, Walk;
    EmptyTables();
    EmptyScan<Record>();
    EmptyScan<GroupSnapshot>();
    EmptyScan<Envelope>();
    EmptyScan<seq<Publication>>();
    EmptyScan<Invite>();
    EmptyScan<Referral>();
  }
}
