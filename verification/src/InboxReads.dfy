/** What polls return: the decryptions of what they consumed, but for what a failing poll read before its failure. */
module InboxReads {
  import opened Common
  import opened Proto
  import opened Inbox

  function HandleOf<H>(d: Daemon<H>, gid: GroupId): H
    requires InGroup(d.groups, gid)
  {
    d.groups[Find(d.groups, gid)].handle
  }

  /** The messages a step returns for a group. */
  function Answered<H>(mls: Mls<H>, d: Daemon<H>, a: Act<H>, gid: GroupId): seq<Message>
  {
    if a.PollGroup? && a.gid == gid && Poll(mls, d, gid).reply.Ok? then Poll(mls, d, gid).reply.value else []
  }

  /** The poll of a joined group will meet an envelope that does not decrypt. */
  predicate WillFail<H>(mls: Mls<H>, d: Daemon<H>, a: Act<H>, gid: GroupId)
  {
    && a.PollGroup? && a.gid == gid && InGroup(d.groups, gid)
    && Decrypted(mls, HandleOf(d, gid), gid, Traffic(Pending(d), gid)).None?
  }

  /** What a step decrypts and does not return: what a failing poll read before its failure. */
  function Swallowed<H>(mls: Mls<H>, d: Daemon<H>, a: Act<H>, gid: GroupId): seq<Message>
  {
    if WillFail(mls, d, a, gid) then Read(mls, HandleOf(d, gid), gid, Consumed(mls, d, a, gid)).1 else []
  }

  // A group keeps its place and, but for its own polls, its handle

  lemma {:induction false} FindSame<H>(groups: seq<Joined<H>>, others: seq<Joined<H>>, gid: GroupId)
    requires |groups| <= |others| && forall i :: 0 <= i < |groups| ==> others[i].id == groups[i].id
    requires InGroup(groups, gid)
    ensures InGroup(others, gid) && Find(others, gid) == Find(groups, gid)
  {
    var i :| 0 <= i < |groups| && groups[i].id == gid;
    assert others[i].id == gid;
    if groups[0].id != gid {
      assert groups[1..][i - 1].id == gid;
      FindSame(groups[1..], others[1..], gid);
    }
  }

  lemma {:induction false} AdmitAllExtends<H>(groups: seq<Joined<H>>, envelopes: seq<Envelope>,
                                              join: Envelope -> Option<H>)
    ensures groups <= AdmitAll(groups, envelopes, join).groups
    decreases |envelopes|
  {
    hide InGroup;
    if envelopes != [] {
      var e, tail := envelopes[0], envelopes[1..];
      AdmitAllExtends(groups, tail, join);
      if join(e).Some? { AdmitAllExtends(groups + [Joined(e.groupId, join(e).value)], tail, join); }
    }
  }

  lemma StepKeepsHandle<H>(mls: Mls<H>, d: Daemon<H>, a: Act<H>, gid: GroupId)
    requires InGroup(d.groups, gid) && !(a.PollGroup? && a.gid == gid)
    ensures InGroup(Next(mls, d, a).groups, gid) && HandleOf(Next(mls, d, a), gid) == HandleOf(d, gid)
  {
    hide Sift, Kept, AdmitAll, WelcomeAt, Newest, Traffic;
    match a {
      case Arrive(_) =>
      case PollGroup(target) => FindSame(d.groups, Poll(mls, d, target).daemon.groups, gid);
      case Join(target, join) => FindSame(d.groups, JoinGroup(d, target, join).groups, gid);
      case JoinAll(join) =>
        AdmitAllExtends(d.groups, Pending(d), join);
        FindSame(d.groups, JoinPending(d, join).groups, gid);
    }
  }

  /**
   * One step: a joined group's handle moves by what the step consumed, and what that decrypts to is
   * either returned or swallowed.
   */
  lemma StepReads<H>(mls: Mls<H>, d: Daemon<H>, a: Act<H>, gid: GroupId)
    requires InGroup(d.groups, gid)
    ensures InGroup(Next(mls, d, a).groups, gid)
    ensures Read(mls, HandleOf(d, gid), gid, Consumed(mls, d, a, gid))
         == (HandleOf(Next(mls, d, a), gid), Answered(mls, d, a, gid) + Swallowed(mls, d, a, gid))
  {
    hide Traffic, Decrypted, Eaten, Poll, PutBack;
    if a.PollGroup? && a.gid == gid {
      var i, all := Find(d.groups, gid), Traffic(Pending(d), gid);
      PollAnswersExactly(mls, d, gid);
      EatenExactly(mls, d.groups[i].handle, gid, all);
      PollKeepsPlace(mls, d, gid);
      var answered := Answered(mls, d, a, gid);
      assert answered + [] == answered;
      assert [] + Swallowed(mls, d, a, gid) == Swallowed(mls, d, a, gid);
    } else {
      StepKeepsHandle(mls, d, a, gid);
      var none: seq<Message> := [];
      assert Consumed(mls, d, a, gid) == [] && none + none == none;
      assert Answered(mls, d, a, gid) == none && Swallowed(mls, d, a, gid) == none;
    }
  }

  lemma PollKeepsPlace<H>(mls: Mls<H>, d: Daemon<H>, gid: GroupId)
    requires InGroup(d.groups, gid)
    ensures InGroup(Poll(mls, d, gid).daemon.groups, gid)
    ensures Find(Poll(mls, d, gid).daemon.groups, gid) == Find(d.groups, gid)
  {
    hide Sift, Kept, Newest;
    FindSame(d.groups, Poll(mls, d, gid).daemon.groups, gid);
  }

  // Runs

  function AllAnswered<H>(mls: Mls<H>, d: Daemon<H>, acts: seq<Act<H>>, gid: GroupId): seq<Message>
  {
    if acts == [] then []
    else
      var before := acts[..|acts| - 1];
      AllAnswered(mls, d, before, gid) + Answered(mls, Ran(mls, d, before), acts[|acts| - 1], gid)
  }

  function AllSwallowed<H>(mls: Mls<H>, d: Daemon<H>, acts: seq<Act<H>>, gid: GroupId): seq<Message>
  {
    if acts == [] then []
    else
      var before := acts[..|acts| - 1];
      AllSwallowed(mls, d, before, gid) + Swallowed(mls, Ran(mls, d, before), acts[|acts| - 1], gid)
  }

  /**
   * Over any run, a joined group's handle is the one that everything its polls consumed leads to, and
   * the messages decrypted on the way are those returned and those swallowed.
   */
  lemma {:induction false} RunReads<H>(mls: Mls<H>, d: Daemon<H>, acts: seq<Act<H>>, gid: GroupId)
    requires InGroup(d.groups, gid)
    ensures InGroup(Ran(mls, d, acts).groups, gid)
    ensures var (h, messages) := Read(mls, HandleOf(d, gid), gid, AllConsumed(mls, d, acts, gid));
            && h == HandleOf(Ran(mls, d, acts), gid)
            && |messages| == |AllAnswered(mls, d, acts, gid)| + |AllSwallowed(mls, d, acts, gid)|
            && (AllSwallowed(mls, d, acts, gid) == [] ==> messages == AllAnswered(mls, d, acts, gid))
  {
    hide Next, Consumed, Answered, Swallowed, InGroup;
    if acts == [] {
      assert Read(mls, HandleOf(d, gid), gid, []) == (HandleOf(d, gid), []);
    } else {
      var before, a := acts[..|acts| - 1], acts[|acts| - 1];
      var t := Ran(mls, d, before);
      RunReads(mls, d, before, gid);
      StepReads(mls, t, a, gid);
      ReadConcat(mls, HandleOf(d, gid), gid, AllConsumed(mls, d, before, gid), Consumed(mls, t, a, gid));
      var swallowed := Swallowed(mls, t, a, gid);
      if AllSwallowed(mls, d, acts, gid) == [] {
        assert AllSwallowed(mls, d, before, gid) == [] && swallowed == [];
        assert Answered(mls, t, a, gid) + [] == Answered(mls, t, a, gid);
      }
    }
  }

  /** A poll of the group fails after it has decrypted an application message. */
  predicate Swallows<H>(mls: Mls<H>, d: Daemon<H>, a: Act<H>, gid: GroupId)
  {
    && WillFail(mls, d, a, gid)
    && var h, all := HandleOf(d, gid), Traffic(Pending(d), gid);
       Read(mls, h, gid, Eaten(mls, h, gid, all)).1 != []
  }

  ghost predicate SwallowsNever<H>(mls: Mls<H>, d: Daemon<H>, acts: seq<Act<H>>, gid: GroupId)
  {
    forall i :: 0 <= i < |acts| ==> !Swallows(mls, Ran(mls, d, acts[..i]), acts[i], gid)
  }

  lemma {:induction false} SwallowedNone<H>(mls: Mls<H>, d: Daemon<H>, acts: seq<Act<H>>, gid: GroupId)
    ensures AllSwallowed(mls, d, acts, gid) == [] <==> SwallowsNever(mls, d, acts, gid)
  {
    hide Ran, Swallows, Swallowed, SwallowsNever;
    if acts == [] {
      SwallowsNothingYet(mls, d, gid);
    } else {
      var before, a := acts[..|acts| - 1], acts[|acts| - 1];
      SwallowedNone(mls, d, before, gid);
      NeverSplits(mls, d, before, a, gid);
      SwallowsExactly(mls, Ran(mls, d, before), a, gid);
      assert acts == before + [a];
    }
  }

  lemma SwallowsNothingYet<H>(mls: Mls<H>, d: Daemon<H>, gid: GroupId)
    ensures SwallowsNever(mls, d, [], gid)
  {
  }

  lemma SwallowsExactly<H>(mls: Mls<H>, d: Daemon<H>, a: Act<H>, gid: GroupId)
    ensures Swallowed(mls, d, a, gid) == [] <==> !Swallows(mls, d, a, gid)
  {
    hide Traffic, Eaten, Read, Decrypted, InGroup;
  }

  lemma NeverSplits<H>(mls: Mls<H>, d: Daemon<H>, before: seq<Act<H>>, last: Act<H>, gid: GroupId)
    ensures SwallowsNever(mls, d, before + [last], gid)
       <==> SwallowsNever(mls, d, before, gid) && !Swallows(mls, Ran(mls, d, before), last, gid)
  {
    hide Swallows, Ran;
    var acts := before + [last];
    forall i | 0 <= i < |before|
      ensures Swallows(mls, Ran(mls, d, acts[..i]), acts[i], gid)
           == Swallows(mls, Ran(mls, d, before[..i]), before[i], gid)
    {
      assert acts[..i] == before[..i];
    }
    assert acts[..|before|] == before && acts[|before|] == last;
  }

  /**
   * Over a run, the messages the polls of a joined group return are exactly the decryptions of what
   * they consumed if and only if none of them fails after decrypting an application message.
   */
  lemma AnsweredExactly<H>(mls: Mls<H>, d: Daemon<H>, acts: seq<Act<H>>, gid: GroupId)
    requires InGroup(d.groups, gid)
    ensures AllAnswered(mls, d, acts, gid) == Read(mls, HandleOf(d, gid), gid, AllConsumed(mls, d, acts, gid)).1
       <==> SwallowsNever(mls, d, acts, gid)
  {
    hide Ran, Read, AllConsumed, AllAnswered, AllSwallowed, SwallowsNever;
    RunReads(mls, d, acts, gid);
    SwallowedNone(mls, d, acts, gid);
  }

  /** The smallest loss: a good message and a bad one wait, the poll fails, and the good one is gone with it. */
  lemma FailingPollSwallows<H>(mls: Mls<H>, good: Envelope, bad: Envelope, h: H, gid: GroupId)
    requires good.kind == bad.kind == Application && good.groupId == bad.groupId == gid
    requires Try(mls, h, gid, good).failure.None? && Try(mls, Try(mls, h, gid, good).handle, gid, bad).failure.Some?
    ensures var d := Daemon([], [good, bad], [Joined(gid, h)]);
            var p := Poll(mls, d, gid);
            && p.reply.Err? && Pending(p.daemon) == []
            && Read(mls, h, gid, Consumed(mls, d, PollGroup(gid), gid)).1 == Try(mls, h, gid, good).messages
            && |Try(mls, h, gid, good).messages| == 1
  {
    hide Sift, Try, Traffic, Eaten, Read;
    var d: Daemon<H> := Daemon([], [good, bad], [Joined(gid, h)]);
    var all := [good, bad];
    assert Pending(d) == all && all[1..] == [bad] && [bad][1..] == [] && d.groups[0].id == gid;
    SiftHead(mls, h, gid, all);
    SiftHead(mls, Try(mls, h, gid, good).handle, gid, [bad]);
    assert Sift(mls, h, gid, all).keep == [] && Sift(mls, h, gid, all).failure.Some?;
    TrafficSplit(all, gid);
    TrafficOne(bad, gid);
    assert Traffic(all, gid) == all;
    BothTaken(mls, good, bad, h, gid);
  }

  lemma BothTaken<H>(mls: Mls<H>, good: Envelope, bad: Envelope, h: H, gid: GroupId)
    requires good.kind == bad.kind == Application
    requires Try(mls, h, gid, good).failure.None? && Try(mls, Try(mls, h, gid, good).handle, gid, bad).failure.Some?
    ensures Eaten(mls, h, gid, [good, bad]) == [good, bad]
    ensures Read(mls, h, gid, [good, bad]).1 == Try(mls, h, gid, good).messages
    ensures |Try(mls, h, gid, good).messages| == 1
  {
    var all, t := [good, bad], Try(mls, h, gid, good);
    assert all[1..] == [bad] && all[..1] == [good] && [bad][..1] == [bad];
    assert Eaten(mls, t.handle, gid, [bad]) == [bad];
    ReadOne(mls, t.handle, gid, bad);
    assert t.messages + [] == t.messages;
  }
}
