/** A relay and the daemon of one of its members run together: the member reads its part of the group's log. */
module EndToEnd {
  import opened Bytes
  import opened Proto
  import opened RelayState
  import opened RelaySteps
  import opened RelayEffects
  import opened RelayDelivery
  import opened Inbox
  import opened InboxReads

  /** The relay, and the buffer and groups of the daemon of one wallet. */
  datatype World<H> = World(relay: Relay, inbox: seq<Envelope>, groups: seq<Joined<H>>)

  datatype Move<!H> = AtRelay(op: Op) | AtDaemon(act: Act<H>)

  /** The daemon with the mailbox the relay holds for it. */
  function View<H>(x: World<H>, w: Wallet): Daemon<H>
  {
    Daemon(x.inbox, Mailbox(x.relay.mailboxes, w), x.groups)
  }

  /** A poll or join that drains fetches its mailbox from the relay first. */
  function Moved<H>(c: Crypto, mls: Mls<H>, w: Wallet, x: World<H>, m: Move<H>): World<H>
  {
    match m
    case AtRelay(op) => x.(relay := Step(c, x.relay, op).state)
    case AtDaemon(a) =>
      if !Drains(View(x, w), a) then x
      else
        var handed := FetchedBy(c, x.relay, OpFetch(w), w);
        var d := Next(mls, Daemon(x.inbox, handed, x.groups), a);
        World(Step(c, x.relay, OpFetch(w)).state, d.inbox, d.groups)
  }

  /** Within one lifetime of the relay, and with no other client that fetches for the wallet. */
  predicate Proper<H>(w: Wallet, m: Move<H>)
  {
    match m
    case AtRelay(op) => !op.OpRestart? && op != OpFetch(w)
    case AtDaemon(a) => !a.Arrive?
  }

  predicate AllProper<H>(w: Wallet, moves: seq<Move<H>>)
  {
    forall i :: 0 <= i < |moves| ==> Proper(w, moves[i])
  }

  function Played<H>(c: Crypto, mls: Mls<H>, w: Wallet, x: World<H>, moves: seq<Move<H>>): World<H>
  {
    if moves == [] then x else Moved(c, mls, w, Played(c, mls, w, x, moves[..|moves| - 1]), moves[|moves| - 1])
  }

  // The two runs inside a joint run

  function OpsIn<H>(x: World<H>, w: Wallet, m: Move<H>): seq<Op>
  {
    match m
    case AtRelay(op) => [op]
    case AtDaemon(a) => if Drains(View(x, w), a) then [OpFetch(w)] else []
  }

  /** The relay's operations. */
  function Ops<H>(c: Crypto, mls: Mls<H>, w: Wallet, x: World<H>, moves: seq<Move<H>>): seq<Op>
  {
    if moves == [] then []
    else
      var before := moves[..|moves| - 1];
      Ops(c, mls, w, x, before) + OpsIn(Played(c, mls, w, x, before), w, moves[|moves| - 1])
  }

  function Arrivals<H>(envelopes: seq<Envelope>): (acts: seq<Act<H>>)
    ensures |acts| == |envelopes| && forall i :: 0 <= i < |acts| ==> acts[i] == Arrive(envelopes[i])
  {
    seq(|envelopes|, i requires 0 <= i < |envelopes| => Arrive(envelopes[i]))
  }

  function ActsIn<H>(c: Crypto, x: World<H>, w: Wallet, m: Move<H>): seq<Act<H>>
  {
    match m
    case AtRelay(op) =>
      var box, box' := Mailbox(x.relay.mailboxes, w), Mailbox(Step(c, x.relay, op).state.mailboxes, w);
      if |box| <= |box'| then Arrivals(box'[|box|..]) else []
    case AtDaemon(a) => [a]
  }

  /** What the daemon sees: arrivals, polls and joins. */
  function Acts<H>(c: Crypto, mls: Mls<H>, w: Wallet, x: World<H>, moves: seq<Move<H>>): seq<Act<H>>
  {
    if moves == [] then []
    else
      var before := moves[..|moves| - 1];
      Acts(c, mls, w, x, before) + ActsIn(c, Played(c, mls, w, x, before), w, moves[|moves| - 1])
  }

  // One move

  lemma {:induction false} RanConcat<H>(mls: Mls<H>, d: Daemon<H>, a: seq<Act<H>>, b: seq<Act<H>>)
    ensures Ran(mls, d, a + b) == Ran(mls, Ran(mls, d, a), b)
    decreases |b|
  {
    hide Next;
    if b == [] {
      assert a + b == a;
    } else {
      RanConcat(mls, d, a, b[..|b| - 1]);
      assert (a + b)[..|a + b| - 1] == a + b[..|b| - 1];
    }
  }

  lemma {:induction false} ArrivedConcat<H>(a: seq<Act<H>>, b: seq<Act<H>>)
    ensures AllArrived(a + b) == AllArrived(a) + AllArrived(b)
    decreases |b|
  {
    hide Arrived;
    if b == [] {
      assert a + b == a && AllArrived(a) + [] == AllArrived(a);
    } else {
      var rest, last := AllArrived(b[..|b| - 1]), Arrived(b[|b| - 1]);
      ArrivedConcat(a, b[..|b| - 1]);
      assert (a + b)[..|a + b| - 1] == a + b[..|b| - 1];
      assert (AllArrived(a) + rest) + last == AllArrived(a) + (rest + last);
    }
  }

  lemma RanOne<H>(mls: Mls<H>, d: Daemon<H>, a: Act<H>)
    ensures Ran(mls, d, [a]) == Next(mls, d, a) && AllArrived([a]) == Arrived(a)
  {
    hide Next, Arrived;
    assert [a][..0] == [] && Ran(mls, d, []) == d && AllArrived<H>([]) == [];
    assert [] + Arrived(a) == Arrived(a);
  }

  lemma {:induction false} RanArrivals<H>(mls: Mls<H>, d: Daemon<H>, envelopes: seq<Envelope>)
    ensures Ran(mls, d, Arrivals(envelopes)) == d.(mailbox := d.mailbox + envelopes)
    ensures AllArrived(Arrivals<H>(envelopes)) == envelopes
  {
    if envelopes == [] {
      assert d.mailbox + [] == d.mailbox;
    } else {
      var rest, e, acts := envelopes[..|envelopes| - 1], envelopes[|envelopes| - 1], Arrivals<H>(envelopes);
      RanArrivals(mls, d, rest);
      assert acts[..|acts| - 1] == Arrivals(rest);
      assert (d.mailbox + rest) + [e] == d.mailbox + envelopes && rest + [e] == envelopes;
    }
  }

  /** Only a fetch of its own takes anything out of a wallet's mailbox. */
  lemma MailboxGrows(c: Crypto, s: Relay, op: Op, w: Wallet)
    requires !op.OpRestart? && op != OpFetch(w)
    ensures Mailbox(s.mailboxes, w) <= Mailbox(Step(c, s, op).state.mailboxes, w)
    ensures FetchedBy(c, s, op, w) == []
  {
    hide Step, FanOut, Admit, Deliver;
    match op {
      case OpSubmit(_, _, _) => SubmitGrows(c, s, op.wallet, op.envelope, op.now, w); SubmitIs(c, s, op);
      case OpOnboard(_, _, _, _, _, _, _) =>
        if Step(c, s, op).reply.Refused? {
          OnboardRefused(c, s, op);
        } else {
          OnboardEffect(c, s, op);
          FanOutCounts(s.mailboxes, op.envelope.recipients, Stamped(s.groups[op.groupId], op.envelope), w);
        }
      case OpOffboard(_, _, _, _, _, _, _) =>
        if Step(c, s, op).reply.Refused? {
          OffboardRefused(c, s, op);
        } else {
          OffboardEffect(c, s, op);
          SubmitGrows(c, s, op.admin, op.envelope, op.now, w);
        }
      case OpFetch(other) => FetchIs(c, s, op);
      case OpRegisterGroup(gid, _, _) => QuietDelivers(c, s, op, gid);
      case OpRedeemInvite(_, gid, _, _, _) => QuietDelivers(c, s, op, gid);
      case _ => QuietDelivers(c, s, op, NOWHERE);
    }
  }

  const NOWHERE: GroupId := GroupId(BigEndian(0, 32))

  lemma SubmitGrows(c: Crypto, s: Relay, authed: Wallet, e: Envelope, now: nat, w: Wallet)
    ensures Mailbox(s.mailboxes, w) <= Mailbox(SubmitAs(c, s, authed, e, now).state.mailboxes, w)
  {
    hide FanOut, Deliver;
    if e.sender == authed && Admit(c, s, e) == Accept {
      DeliverEffect(c, s, e, now);
      FanOutCounts(s.mailboxes, e.recipients, Stamped(s.groups[e.groupId], e), w);
    }
  }

  lemma SubmitIs(c: Crypto, s: Relay, op: Op)
    requires op.OpSubmit?
    ensures Step(c, s, op) == SubmitAs(c, s, op.wallet, op.envelope, op.now)
  {
  }

  /** What one move is to the relay and to the daemon. */
  ghost predicate Splits<H>(c: Crypto, mls: Mls<H>, w: Wallet, x: World<H>, y: World<H>, ops: seq<Op>,
                            acts: seq<Act<H>>)
  {
    && OneLifetime(ops)
    && y.relay == Exec(c, x.relay, ops)
    && View(y, w) == Ran(mls, View(x, w), acts)
    && Fetched(c, x.relay, ops, w) + Mailbox(y.relay.mailboxes, w) == Mailbox(x.relay.mailboxes, w) + AllArrived(acts)
  }

  lemma ExecOne(c: Crypto, s: Relay, op: Op, w: Wallet)
    ensures Exec(c, s, [op]) == Step(c, s, op).state && Fetched(c, s, [op], w) == FetchedBy(c, s, op, w)
  {
    hide Step, FetchedBy;
    assert [op][..0] == [] && Exec(c, s, []) == s && Fetched(c, s, [], w) == [];
    assert [] + FetchedBy(c, s, op, w) == FetchedBy(c, s, op, w);
  }

  lemma RelayMoveSplits<H>(c: Crypto, mls: Mls<H>, w: Wallet, x: World<H>, m: Move<H>)
    requires Proper(w, m) && m.AtRelay?
    ensures Splits(c, mls, w, x, Moved(c, mls, w, x, m), OpsIn(x, w, m), ActsIn(c, x, w, m))
  {
    hide Step, FetchedBy, Ran, AllArrived, Exec, Fetched, Mailbox, Arrivals;
    var s' := Step(c, x.relay, m.op).state;
    var box := Mailbox(x.relay.mailboxes, w);
    MailboxGrows(c, x.relay, m.op, w);
    var more := Mailbox(s'.mailboxes, w)[|box|..];
    ExecOne(c, x.relay, m.op, w);
    RanArrivals(mls, View(x, w), more);
    assert box + more == Mailbox(s'.mailboxes, w) && [] + Mailbox(s'.mailboxes, w) == Mailbox(s'.mailboxes, w);
  }

  lemma DrainEmpties<H>(mls: Mls<H>, d: Daemon<H>, a: Act<H>)
    requires Drains(d, a)
    ensures Next(mls, d, a).mailbox == []
  {
    hide Sift, Kept, AdmitAll, WelcomeAt, Newest, InGroup;
  }

  lemma DaemonMoveSplits<H>(c: Crypto, mls: Mls<H>, w: Wallet, x: World<H>, m: Move<H>)
    requires Proper(w, m) && m.AtDaemon?
    ensures Splits(c, mls, w, x, Moved(c, mls, w, x, m), OpsIn(x, w, m), ActsIn(c, x, w, m))
  {
    hide Step, Ran, AllArrived, Exec, Fetched, Next;
    var d, box := View(x, w), Mailbox(x.relay.mailboxes, w);
    RanOne(mls, d, m.act);
    assert box + [] == box && [] + box == box;
    if Drains(d, m.act) {
      FetchIs(c, x.relay, OpFetch(w));
      ExecOne(c, x.relay, OpFetch(w), w);
      DrainEmpties(mls, d, m.act);
    } else {
      IdleStep(mls, d, m.act);
      NothingExecuted(c, x.relay, w);
    }
  }

  lemma IdleStep<H>(mls: Mls<H>, d: Daemon<H>, a: Act<H>)
    requires !Drains(d, a) && !a.Arrive?
    ensures Next(mls, d, a) == d
  {
  }

  lemma NothingExecuted(c: Crypto, s: Relay, w: Wallet)
    ensures Exec(c, s, []) == s && Fetched(c, s, [], w) == []
  {
  }

  // Runs

  lemma {:induction false} FetchedConcat(c: Crypto, s: Relay, a: seq<Op>, b: seq<Op>, w: Wallet)
    ensures Exec(c, s, a + b) == Exec(c, Exec(c, s, a), b)
    ensures Fetched(c, s, a + b, w) == Fetched(c, s, a, w) + Fetched(c, Exec(c, s, a), b, w)
    decreases |b|
  {
    hide Step, FetchedBy;
    if b == [] {
      assert a + b == a && Fetched(c, s, a, w) + [] == Fetched(c, s, a, w);
    } else {
      FetchedConcat(c, s, a, b[..|b| - 1], w);
      assert (a + b)[..|a + b| - 1] == a + b[..|b| - 1] && (a + b)[|a + b| - 1] == b[|b| - 1];
    }
  }

  lemma SplitsCompose<H>(c: Crypto, mls: Mls<H>, w: Wallet, x: World<H>, y: World<H>, z: World<H>,
                         ops: seq<Op>, acts: seq<Act<H>>, ops': seq<Op>, acts': seq<Act<H>>)
    requires Splits(c, mls, w, x, y, ops, acts) && Splits(c, mls, w, y, z, ops', acts')
    ensures Splits(c, mls, w, x, z, ops + ops', acts + acts')
  {
    hide Exec, Fetched, Ran, AllArrived, Mailbox;
    FetchedConcat(c, x.relay, ops, ops', w);
    RanConcat(mls, View(x, w), acts, acts');
    ArrivedConcat(acts, acts');
    var f, f' := Fetched(c, x.relay, ops, w), Fetched(c, y.relay, ops', w);
    var atX, atY, atZ := Mailbox(x.relay.mailboxes, w), Mailbox(y.relay.mailboxes, w), Mailbox(z.relay.mailboxes, w);
    var n, n' := AllArrived(acts), AllArrived(acts');
    calc {
      (f + f') + atZ;
      f + (f' + atZ);
      f + (atY + n');
      (f + atY) + n';
      (atX + n) + n';
      atX + (n + n');
    }
  }

  /** A joint run is a run of the relay and a run of the daemon, and what the relay handed out is what arrived. */
  lemma {:induction false} RunSplits<H>(c: Crypto, mls: Mls<H>, w: Wallet, x: World<H>, moves: seq<Move<H>>)
    requires AllProper(w, moves)
    ensures Splits(c, mls, w, x, Played(c, mls, w, x, moves), Ops(c, mls, w, x, moves), Acts(c, mls, w, x, moves))
  {
    hide Splits, Moved, OpsIn, ActsIn, Proper;
    if moves == [] {
      SplitsNothing(c, mls, w, x);
    } else {
      var before, m := moves[..|moves| - 1], moves[|moves| - 1];
      var y := Played(c, mls, w, x, before);
      RunSplits(c, mls, w, x, before);
      if m.AtRelay? { RelayMoveSplits(c, mls, w, y, m); } else { DaemonMoveSplits(c, mls, w, y, m); }
      SplitsCompose(c, mls, w, x, y, Moved(c, mls, w, y, m), Ops(c, mls, w, x, before), Acts(c, mls, w, x, before),
                    OpsIn(y, w, m), ActsIn(c, y, w, m));
    }
  }

  lemma SplitsNothing<H>(c: Crypto, mls: Mls<H>, w: Wallet, x: World<H>)
    ensures Splits(c, mls, w, x, x, [], [])
  {
    var box := Mailbox(x.relay.mailboxes, w);
    assert [] + box == box && box + [] == box;
  }

  // The traffic of a group, from log to poll

  lemma {:induction false} ProjectTraffic(envelopes: seq<Envelope>, gid: GroupId)
    ensures Traffic(Project(envelopes, gid), gid) == Traffic(envelopes, gid)
  {
    if envelopes != [] {
      var rest, e := envelopes[..|envelopes| - 1], envelopes[|envelopes| - 1];
      ProjectTraffic(rest, gid);
      if e.groupId == gid { assert (Project(rest, gid) + [e])[..|Project(rest, gid)|] == Project(rest, gid); }
    }
  }

  /** The Commits and Applications of the log accepted between two states, as the member must see them. */
  ghost function Due<H>(x: World<H>, y: World<H>, w: Wallet, gid: GroupId): seq<Envelope>
    requires LogOf(x.relay, gid) <= LogOf(y.relay, gid)
  {
    Traffic(Addressed(Growth(x.relay, y.relay, gid), w), gid)
  }

  /**
   * From the group's log to the member's polls: over any joint run in one relay lifetime, what waited
   * for the member followed by the Commits and Applications since accepted into the group's log, each
   * as often as it names the member, is what the daemon consumed and lost, step by step, followed by
   * what still waits in its buffer and at the relay.
   */
  lemma LogReachesMember<H>(c: Crypto, mls: Mls<H>, w: Wallet, x: World<H>, moves: seq<Move<H>>, gid: GroupId)
    requires AllProper(w, moves)
    ensures var y := Played(c, mls, w, x, moves);
            && LogOf(x.relay, gid) <= LogOf(y.relay, gid)
            && Traffic(Pending(View(x, w)), gid) + Due(x, y, w, gid)
               == AllGone(mls, View(x, w), Acts(c, mls, w, x, moves), gid) + Traffic(Pending(View(y, w)), gid)
  {
    hide Played, Ops, Acts, Exec, Fetched, Ran, AllArrived, AllGone, Traffic, Project, Addressed, Mailbox;
    var y, acts, ops := Played(c, mls, w, x, moves), Acts(c, mls, w, x, moves), Ops(c, mls, w, x, moves);
    RunSplits(c, mls, w, x, moves);
    ExactDelivery(c, x.relay, ops, w, gid);
    InboxConserves(mls, View(x, w), acts, gid);
    var atX, atY := Mailbox(x.relay.mailboxes, w), Mailbox(y.relay.mailboxes, w);
    var handed, more := Fetched(c, x.relay, ops, w), Addressed(Growth(x.relay, y.relay, gid), w);
    calc {
      Traffic(Pending(View(x, w)) + AllArrived(acts), gid);
      { assert (x.inbox + atX) + AllArrived(acts) == x.inbox + (handed + atY);
        TrafficConcat(x.inbox, handed + atY, gid); }
      Traffic(x.inbox, gid) + Traffic(handed + atY, gid);
      { ProjectTraffic(handed + atY, gid); }
      Traffic(x.inbox, gid) + Traffic(Project(atX, gid) + more, gid);
      { TrafficConcat(Project(atX, gid), more, gid); ProjectTraffic(atX, gid); }
      Traffic(x.inbox, gid) + (Traffic(atX, gid) + Traffic(more, gid));
      (Traffic(x.inbox, gid) + Traffic(atX, gid)) + Traffic(more, gid);
      { TrafficConcat(x.inbox, atX, gid); }
      Traffic(Pending(View(x, w)), gid) + Traffic(more, gid);
    }
  }

  /**
   * A member that has joined the group and keeps its put-backs under the cap reads its part of the
   * log: its polls consume it in log order with nothing missing before what still waits, the group's
   * handle is the one that all of it leads to, and the messages returned are exactly its decryptions
   * if and only if no poll of the group fails after decrypting one.
   */
  lemma MemberReadsLog<H>(c: Crypto, mls: Mls<H>, w: Wallet, x: World<H>, moves: seq<Move<H>>, gid: GroupId)
    requires AllProper(w, moves) && InGroup(x.groups, gid)
    requires Roomy(mls, View(x, w), Acts(c, mls, w, x, moves))
    ensures var y, d, acts := Played(c, mls, w, x, moves), View(x, w), Acts(c, mls, w, x, moves);
            var consumed := AllConsumed(mls, d, acts, gid);
            && LogOf(x.relay, gid) <= LogOf(y.relay, gid) && InGroup(y.groups, gid)
            && Traffic(Pending(d), gid) + Due(x, y, w, gid) == consumed + Traffic(Pending(View(y, w)), gid)
            && HandleOf(View(y, w), gid) == Read(mls, HandleOf(d, gid), gid, consumed).0
            && (AllAnswered(mls, d, acts, gid) == Read(mls, HandleOf(d, gid), gid, consumed).1
                <==> SwallowsNever(mls, d, acts, gid))
  {
    hide Played, Ops, Acts, Exec, Fetched, Ran, AllArrived, AllGone, AllConsumed, AllLost, Traffic, Roomy, Read,
         InGroup, SwallowsNever, AllAnswered, AllSwallowed;
    var d, acts := View(x, w), Acts(c, mls, w, x, moves);
    LogReachesMember(c, mls, w, x, moves, gid);
    RunSplits(c, mls, w, x, moves);
    RoomyLosesNothing(mls, d, acts, gid);
    GoneSplits(mls, d, acts, gid);
    RunReads(mls, d, acts, gid);
    AnsweredExactly(mls, d, acts, gid);
  }
}
