/** A Welcome waits for its join: only a join attempt on it, or the cap, takes it out of the inbox. */
module InboxWelcomes {
  import opened Common
  import opened Proto
  import opened Inbox

  function Welcomes(envelopes: seq<Envelope>, gid: GroupId): seq<Envelope>
  {
    if envelopes == [] then []
    else (if IsWelcome(envelopes[0], gid) then envelopes[..1] else []) + Welcomes(envelopes[1..], gid)
  }

  predicate IsWelcome(e: Envelope, gid: GroupId)
  {
    e.kind == Welcome && e.groupId == gid
  }

  lemma {:induction false} WelcomesConcat(a: seq<Envelope>, b: seq<Envelope>, gid: GroupId)
    ensures Welcomes(a + b, gid) == Welcomes(a, gid) + Welcomes(b, gid)
  {
    hide Welcomes;
    if a == [] {
      NoWelcomes(gid);
      assert [] + b == b && [] + Welcomes(b, gid) == Welcomes(b, gid);
    } else {
      WelcomesConcat(a[1..], b, gid);
      WelcomesSplit(a, gid);
      WelcomesSplit(a + b, gid);
      assert (a + b)[1..] == a[1..] + b && (a + b)[0] == a[0];
      var rest := Welcomes(a[1..], gid);
      assert ([a[0]] + rest) + Welcomes(b, gid) == [a[0]] + (rest + Welcomes(b, gid));
    }
  }

  lemma WelcomesOne(e: Envelope, gid: GroupId)
    ensures Welcomes([e], gid) == if IsWelcome(e, gid) then [e] else []
  {
    assert [e][1..] == [] && [e][..1] == [e];
  }

  /** Putting back keeps every Welcome, joined or not. */
  lemma {:induction false} KeptWelcomes<H>(groups: seq<Joined<H>>, envelopes: seq<Envelope>, gid: GroupId)
    ensures Welcomes(Kept(groups, envelopes), gid) == Welcomes(envelopes, gid)
  {
    hide InGroup, Welcomes;
    if envelopes != [] {
      var rest, e := envelopes[..|envelopes| - 1], envelopes[|envelopes| - 1];
      KeptWelcomes(groups, rest, gid);
      assert envelopes == rest + [e];
      WelcomesConcat(rest, [e], gid);
      WelcomesConcat(Kept(groups, rest), [e], gid);
      WelcomesOne(e, gid);
      assert Welcomes(rest, gid) + [] == Welcomes(rest, gid);
    }
  }

  lemma {:induction false} OthersWelcomes(envelopes: seq<Envelope>, target: GroupId, gid: GroupId)
    requires target != gid
    ensures Welcomes(Others(envelopes, target), gid) == Welcomes(envelopes, gid)
  {
    if envelopes != [] {
      var e, rest := envelopes[0], envelopes[1..];
      OthersWelcomes(rest, target, gid);
      if e.groupId != target {
        assert ([e] + Others(rest, target))[1..] == Others(rest, target);
      } else {
        assert [] + Others(rest, target) == Others(rest, target) && [] + Welcomes(rest, gid) == Welcomes(rest, gid);
      }
    }
  }

  /** A poll of another group keeps every Welcome, whether it fails or not. */
  lemma SiftWelcomes<H>(mls: Mls<H>, h: H, target: GroupId, envelopes: seq<Envelope>, gid: GroupId)
    requires target != gid
    ensures Welcomes(Sift(mls, h, target, envelopes).keep, gid) == Welcomes(envelopes, gid)
  {
    hide Sift, Welcomes, Others, Eaten, Read, Try, Traffic;
    var k := SiftStops(mls, h, target, envelopes);
    OthersWelcomes(envelopes[..k], target, gid);
    WelcomesConcat(Others(envelopes[..k], target), envelopes[k..], gid);
    WelcomesConcat(envelopes[..k], envelopes[k..], gid);
    assert envelopes == envelopes[..k] + envelopes[k..];
  }

  /** `join_group` picks the first Welcome of its group. */
  lemma {:induction false} FirstWelcome(envelopes: seq<Envelope>, gid: GroupId)
    ensures WelcomeAt(envelopes, gid).None? <==> Welcomes(envelopes, gid) == []
    ensures var at := WelcomeAt(envelopes, gid);
            at.Some? ==> Welcomes(envelopes, gid) == [envelopes[at.value]] + Welcomes(Without(envelopes, at.value), gid)
  {
    hide Welcomes;
    if envelopes == [] {
      assert Welcomes([], gid) == [] by { NoWelcomes(gid); }
    } else {
      var e, rest := envelopes[0], envelopes[1..];
      WelcomesSplit(envelopes, gid);
      FirstWelcome(rest, gid);
      var at := WelcomeAt(envelopes, gid);
      if at.Some? {
        if at.value == 0 {
          assert Without(envelopes, 0) == rest;
        } else {
          assert Without(envelopes, at.value) == [e] + Without(rest, at.value - 1);
          WelcomesSplit(Without(envelopes, at.value), gid);
          assert Without(envelopes, at.value)[1..] == Without(rest, at.value - 1);
        }
      }
    }
  }

  lemma NoWelcomes(gid: GroupId)
    ensures Welcomes([], gid) == []
  {
  }

  lemma WelcomesSplit(envelopes: seq<Envelope>, gid: GroupId)
    requires envelopes != []
    ensures Welcomes(envelopes, gid)
         == if IsWelcome(envelopes[0], gid) then [envelopes[0]] + Welcomes(envelopes[1..], gid)
            else Welcomes(envelopes[1..], gid)
  {
    assert envelopes[..1] == [envelopes[0]];
    assert [] + Welcomes(envelopes[1..], gid) == Welcomes(envelopes[1..], gid);
  }

  lemma OtherWelcomeRemoved(envelopes: seq<Envelope>, i: nat, gid: GroupId)
    requires i < |envelopes| && !IsWelcome(envelopes[i], gid)
    ensures Welcomes(Without(envelopes, i), gid) == Welcomes(envelopes, gid)
  {
    hide Welcomes;
    var a, b := envelopes[..i], envelopes[i + 1..];
    assert envelopes == a + ([envelopes[i]] + b);
    WelcomesConcat(a, [envelopes[i]] + b, gid);
    WelcomesSplit([envelopes[i]] + b, gid);
    assert ([envelopes[i]] + b)[1..] == b;
    WelcomesConcat(a, b, gid);
  }

  /** `join_pending` tries the Welcomes of a group in order until one is accepted; these are the ones it did not try. */
  function Untried<H>(welcomes: seq<Envelope>, join: Envelope -> Option<H>): seq<Envelope>
  {
    if welcomes == [] then []
    else if join(welcomes[0]).Some? then welcomes[1..]
    else Untried(welcomes[1..], join)
  }

  lemma {:induction false} AdmitAllWelcomes<H>(groups: seq<Joined<H>>, envelopes: seq<Envelope>,
                                               join: Envelope -> Option<H>, gid: GroupId)
    ensures Welcomes(AdmitAll(groups, envelopes, join).rest, gid)
         == if InGroup(groups, gid) then Welcomes(envelopes, gid) else Untried(Welcomes(envelopes, gid), join)
    decreases |envelopes|
  {
    hide Welcomes, InGroup;
    if envelopes == [] {
      NoWelcomes(gid);
    } else {
      var e, tail, all := envelopes[0], envelopes[1..], Welcomes(envelopes, gid);
      WelcomesSplit(envelopes, gid);
      if e.kind != Welcome || InGroup(groups, e.groupId) {
        var r := AdmitAll(groups, tail, join);
        AdmitAllWelcomes(groups, tail, join, gid);
        WelcomesSplit([e] + r.rest, gid);
        assert ([e] + r.rest)[1..] == r.rest;
      } else {
        var longer := if join(e).Some? then groups + [Joined(e.groupId, join(e).value)] else groups;
        AdmitAllWelcomes(longer, tail, join, gid);
        if join(e).Some? { OneMoreGroup(groups, Joined(e.groupId, join(e).value), gid); }
        if e.groupId == gid { assert all[0] == e && all[1..] == Welcomes(tail, gid); }
      }
    }
  }

  // Steps

  /** The Welcomes of a group not joined that a draining step puts back. */
  function Returned<H>(d: Daemon<H>, a: Act<H>, gid: GroupId): seq<Envelope>
  {
    var waiting := Welcomes(Pending(d), gid);
    match a
    case Join(target, join) =>
      if target != gid || waiting == [] then waiting
      else waiting[1..] + (if join(waiting[0].ciphertext).Some? then [] else [waiting[0]])
    case JoinAll(join) => Untried(waiting, join)
    case _ => waiting
  }

  lemma PutBackWelcomes<H>(mls: Mls<H>, d: Daemon<H>, a: Act<H>, gid: GroupId)
    requires !InGroup(d.groups, gid) && Drains(d, a)
    ensures Welcomes(PutBack(mls, d, a), gid) == Returned(d, a, gid)
  {
    hide Welcomes, Kept, Sift, AdmitAll, WelcomeAt;
    match a {
      case PollGroup(target) =>
        var r := Sift(mls, d.groups[Find(d.groups, target)].handle, target, Pending(d));
        SiftWelcomes(mls, d.groups[Find(d.groups, target)].handle, target, Pending(d), gid);
        KeptWelcomes(Known(mls, d, a), r.keep, gid);
      case Join(target, join) => JoinWelcomes(mls, d, a, gid);
      case JoinAll(join) =>
        var r := AdmitAll(d.groups, Pending(d), join);
        AdmitAllWelcomes(d.groups, Pending(d), join, gid);
        KeptWelcomes(r.groups, r.rest, gid);
    }
  }

  lemma JoinWelcomes<H>(mls: Mls<H>, d: Daemon<H>, a: Act<H>, gid: GroupId)
    requires a.Join?
    ensures Welcomes(PutBack(mls, d, a), gid) == Returned(d, a, gid)
  {
    hide Welcomes, Kept, WelcomeAt, InGroup;
    var all := Pending(d);
    FirstWelcome(all, a.gid);
    match WelcomeAt(all, a.gid) {
      case None => KeptWelcomes(d.groups, all, gid);
      case Some(i) =>
        var kept := Kept(d.groups, Without(all, i));
        var back := if a.welcome(all[i].ciphertext).None? then [all[i]] else [];
        KeptWelcomes(d.groups, Without(all, i), gid);
        WelcomesConcat(kept, back, gid);
        WelcomesOne(all[i], gid);
        NoWelcomes(gid);
        if a.gid != gid {
          OtherWelcomeRemoved(all, i, gid);
          assert Welcomes(all, gid) + [] == Welcomes(all, gid);
        }
    }
  }

  /**
   * In every step, the Welcomes that wait for a group not joined stay in order, with these exceptions:
   * `join_group` on that group uses up the first one or, if the engine refuses it, moves it to the end;
   * `join_pending` uses up those it tries; and the cap drops the oldest of what is put back.
   */
  lemma WelcomesAccounted<H>(mls: Mls<H>, d: Daemon<H>, a: Act<H>, gid: GroupId)
    requires !InGroup(d.groups, gid)
    ensures var after := Welcomes(Pending(Next(mls, d, a)), gid);
            if Drains(d, a) then Returned(d, a, gid) == Welcomes(Clipped(mls, d, a), gid) + after
            else after == Welcomes(Pending(d) + Arrived(a), gid)
  {
    hide Welcomes, Kept, Sift, AdmitAll, WelcomeAt, PutBack, Returned;
    if Drains(d, a) {
      var back := PutBack(mls, d, a);
      DrainLeavesNewest(mls, d, a);
      PutBackWelcomes(mls, d, a, gid);
      assert back == Oldest(back) + Newest(back);
      WelcomesConcat(Oldest(back), Newest(back), gid);
    } else {
      assert d.inbox + (d.mailbox + Arrived(a)) == Pending(d) + Arrived(a);
      assert Pending(d) + [] == Pending(d);
    }
  }

  lemma {:induction false} UntriedIsFewer<H>(welcomes: seq<Envelope>, join: Envelope -> Option<H>)
    requires welcomes != []
    ensures |Untried(welcomes, join)| < |welcomes|
  {
    if join(welcomes[0]).None? && |welcomes| > 1 { UntriedIsFewer(welcomes[1..], join); }
  }

  /**
   * No Welcome of a group not joined leaves in a step if and only if none waits, the step does not
   * drain, or it is neither a `join_pending` nor a `join_group` that the first of them lets in, and the
   * cap drops none of them.
   */
  lemma WelcomesStayExactly<H>(mls: Mls<H>, d: Daemon<H>, a: Act<H>, gid: GroupId)
    requires !InGroup(d.groups, gid)
    ensures multiset(Welcomes(Pending(Next(mls, d, a)), gid)) == multiset(Welcomes(Pending(d) + Arrived(a), gid))
       <==> || Welcomes(Pending(d), gid) == []
            || !Drains(d, a)
            || (&& Welcomes(Clipped(mls, d, a), gid) == []
                && !a.JoinAll?
                && !(a.Join? && a.gid == gid && a.welcome(Welcomes(Pending(d), gid)[0].ciphertext).Some?))
  {
    hide Welcomes, PutBack, Clipped, Next, Returned;
    WelcomesAccounted(mls, d, a, gid);
    if Drains(d, a) {
      var waiting, after := Welcomes(Pending(d), gid), Welcomes(Pending(Next(mls, d, a)), gid);
      assert Pending(d) + [] == Pending(d);
      ReturnedExactly(d, a, gid);
      ClippedFewer(waiting, Returned(d, a, gid), Welcomes(Clipped(mls, d, a), gid), after);
    }
  }

  lemma ReturnedExactly<H>(d: Daemon<H>, a: Act<H>, gid: GroupId)
    ensures |Returned(d, a, gid)| <= |Welcomes(Pending(d), gid)|
    ensures multiset(Returned(d, a, gid)) == multiset(Welcomes(Pending(d), gid))
       <==> || Welcomes(Pending(d), gid) == []
            || (&& !a.JoinAll?
                && !(a.Join? && a.gid == gid && a.welcome(Welcomes(Pending(d), gid)[0].ciphertext).Some?))
  {
    hide Welcomes;
    var waiting, back := Welcomes(Pending(d), gid), Returned(d, a, gid);
    if waiting != [] {
      assert waiting == [waiting[0]] + waiting[1..];
      if a.JoinAll? { UntriedIsFewer(waiting, a.welcomes); }
      if |back| != |waiting| { assert |multiset(back)| != |multiset(waiting)|; }
    }
  }

  lemma ClippedFewer(waiting: seq<Envelope>, back: seq<Envelope>, clipped: seq<Envelope>, after: seq<Envelope>)
    requires back == clipped + after && |back| <= |waiting|
    ensures multiset(after) == multiset(waiting) <==> clipped == [] && multiset(back) == multiset(waiting)
  {
    if clipped == [] { assert back == after; } else { assert |multiset(after)| < |multiset(waiting)|; }
  }
}
