/** The member daemon's inbox: a destructive mailbox, one group handled at a time, the rest put back under a cap. */
module Inbox {
  import opened Common
  import opened Bytes
  import opened Proto

  const INBOX_CAP: nat := 4096

  /**
   * What decrypting an application message yields: the advanced handle, its text and its authenticated
   * sender, when well formed.
   */
  datatype Opened<H> = Opened(handle: H, body: Option<string>, sender: Option<Wallet>)

  /** The MLS group engine as functions of an opaque handle; `None` is its error. */
  datatype Mls<!H> = Mls(commit: (H, Blob) -> Option<H>, receive: (H, Blob) -> Option<Opened<H>>)

  datatype Joined<H> = Joined(id: GroupId, handle: H)

  datatype Message = Message(group: GroupId, sender: Wallet, body: string)

  datatype DaemonError = NoGroup | NoWelcome | MlsFailure | BadUtf8 | BadIdentity | JoinFailure

  /** The daemon: envelopes fetched but not consumed, what the relay still holds for it, and its groups. */
  datatype Daemon<H> = Daemon(inbox: seq<Envelope>, mailbox: seq<Envelope>, groups: seq<Joined<H>>)

  predicate InGroup<H>(groups: seq<Joined<H>>, gid: GroupId)
  {
    exists i :: 0 <= i < |groups| && groups[i].id == gid
  }

  function Pending<H>(d: Daemon<H>): seq<Envelope>
  {
    d.inbox + d.mailbox
  }

  // Putting back

  predicate Usable<H>(groups: seq<Joined<H>>, e: Envelope)
  {
    InGroup(groups, e.groupId) || e.kind == Welcome
  }

  function Kept<H>(groups: seq<Joined<H>>, envelopes: seq<Envelope>): seq<Envelope>
  {
    if envelopes == [] then []
    else
      var rest, e := Kept(groups, envelopes[..|envelopes| - 1]), envelopes[|envelopes| - 1];
      if Usable(groups, e) then rest + [e] else rest
  }

  function Newest(envelopes: seq<Envelope>): seq<Envelope>
  {
    if |envelopes| > INBOX_CAP then envelopes[|envelopes| - INBOX_CAP..] else envelopes
  }

  /** What the cap drops. */
  function Oldest(envelopes: seq<Envelope>): seq<Envelope>
  {
    if |envelopes| > INBOX_CAP then envelopes[..|envelopes| - INBOX_CAP] else []
  }

  function Stashed<H>(d: Daemon<H>, envelopes: seq<Envelope>): Daemon<H>
  {
    d.(inbox := Newest(d.inbox + Kept(d.groups, envelopes)))
  }

  // Polling one group

  datatype Sifted<H> = Sifted(handle: H, out: seq<Message>, keep: seq<Envelope>, failure: Option<DaemonError>)

  function Sift<H>(mls: Mls<H>, h: H, gid: GroupId, envelopes: seq<Envelope>): Sifted<H>
  {
    if envelopes == [] then Sifted(h, [], [], None)
    else
      var e, rest := envelopes[0], envelopes[1..];
      if e.groupId != gid then
        var r := Sift(mls, h, gid, rest);
        r.(keep := [e] + r.keep)
      else
        match e.kind
        case Commit =>
          (match mls.commit(h, e.ciphertext)
           case None => Sifted(h, [], rest, Some(MlsFailure))
           case Some(h') => Sift(mls, h', gid, rest))
        case Application =>
          (match mls.receive(h, e.ciphertext)
           case None => Sifted(h, [], rest, Some(MlsFailure))
           case Some(o) =>
             if o.body.None? then Sifted(o.handle, [], rest, Some(BadUtf8))
             else if o.sender.None? then Sifted(o.handle, [], rest, Some(BadIdentity))
             else
               var r := Sift(mls, o.handle, gid, rest);
               r.(out := [Message(gid, o.sender.value, o.body.value)] + r.out))
        case _ => Sift(mls, h, gid, rest)
  }

  function Find<H>(groups: seq<Joined<H>>, gid: GroupId): (i: nat)
    requires InGroup(groups, gid)
    ensures i < |groups| && groups[i].id == gid
  {
    if groups[0].id == gid then 0 else
    assert InGroup(groups[1..], gid) by {
      var i :| 0 <= i < |groups| && groups[i].id == gid;
      assert groups[1..][i - 1].id == gid;
    }
    1 + Find(groups[1..], gid)
  }

  datatype Polled<H> = Polled(daemon: Daemon<H>, reply: Result<seq<Message>, DaemonError>)

  function Poll<H>(mls: Mls<H>, d: Daemon<H>, gid: GroupId): Polled<H>
  {
    if !InGroup(d.groups, gid) then Polled(d, Err(NoGroup))
    else
      var i := Find(d.groups, gid);
      var r := Sift(mls, d.groups[i].handle, gid, Pending(d));
      var drained := Daemon([], [], d.groups[i := Joined(gid, r.handle)]);
      Polled(Stashed(drained, r.keep), if r.failure.Some? then Err(r.failure.value) else Ok(r.out))
  }

  // Joining

  /** Position of the first Welcome for `gid`. */
  function WelcomeAt(envelopes: seq<Envelope>, gid: GroupId): (pos: Option<nat>)
    ensures pos.Some? ==> pos.value < |envelopes|
    ensures pos.Some? ==> envelopes[pos.value].kind == Welcome && envelopes[pos.value].groupId == gid
  {
    if envelopes == [] then None
    else if envelopes[0].kind == Welcome && envelopes[0].groupId == gid then Some(0)
    else
      match WelcomeAt(envelopes[1..], gid)
      case None => None
      case Some(i) => Some(i + 1)
  }

  function Without(envelopes: seq<Envelope>, i: nat): seq<Envelope>
    requires i < |envelopes|
  {
    envelopes[..i] + envelopes[i + 1..]
  }

  /** `join_group`: the rest is put back before the group is recorded; a failed join puts the Welcome back. */
  function JoinGroup<H>(d: Daemon<H>, gid: GroupId, join: Blob -> Option<H>): Daemon<H>
  {
    var all, drained := Pending(d), d.(inbox := [], mailbox := []);
    match WelcomeAt(all, gid)
    case None => Stashed(drained, all)
    case Some(i) =>
      var stashed := Stashed(drained, Without(all, i));
      match join(all[i].ciphertext)
      case Some(h) => stashed.(groups := d.groups + [Joined(gid, h)])
      case None => Stashed(stashed, [all[i]])
  }

  function JoinReply<H>(all: seq<Envelope>, gid: GroupId, join: Blob -> Option<H>): Result<(), DaemonError>
  {
    match WelcomeAt(all, gid)
    case None => Err(NoWelcome)
    case Some(i) => if join(all[i].ciphertext).Some? then Ok(()) else Err(JoinFailure)
  }

  datatype Admission<H> = Admission(groups: seq<Joined<H>>, rest: seq<Envelope>)

  /** Every Welcome for a group not yet joined is tried once, in order. */
  function AdmitAll<H>(groups: seq<Joined<H>>, envelopes: seq<Envelope>, join: Envelope -> Option<H>): Admission<H>
    decreases |envelopes|
  {
    if envelopes == [] then Admission(groups, [])
    else
      var e, tail := envelopes[0], envelopes[1..];
      if e.kind != Welcome || InGroup(groups, e.groupId) then
        var r := AdmitAll(groups, tail, join);
        r.(rest := [e] + r.rest)
      else
        match join(e)
        case Some(h) => AdmitAll(groups + [Joined(e.groupId, h)], tail, join)
        case None => AdmitAll(groups, tail, join)
  }

  function Ids<H>(groups: seq<Joined<H>>): (ids: seq<GroupId>)
    ensures |ids| == |groups| && forall i :: 0 <= i < |ids| ==> ids[i] == groups[i].id
  {
    seq(|groups|, i requires 0 <= i < |groups| => groups[i].id)
  }

  /** A Welcome for a group not yet joined that cannot be joined. */
  predicate Fails<H>(groups: seq<Joined<H>>, e: Envelope, join: Envelope -> Option<H>)
  {
    e.kind == Welcome && !InGroup(groups, e.groupId) && join(e).None?
  }

  predicate AnyFails<H>(groups: seq<Joined<H>>, envelopes: seq<Envelope>, join: Envelope -> Option<H>)
  {
    exists e :: e in envelopes && Fails(groups, e, join)
  }

  /** `join_pending`: the rest is put back after every join is recorded. */
  function JoinPending<H>(d: Daemon<H>, join: Envelope -> Option<H>): Daemon<H>
  {
    var r := AdmitAll(d.groups, Pending(d), join);
    Stashed(Daemon([], [], r.groups), r.rest)
  }

  // The traffic of one group

  predicate IsTraffic(e: Envelope, gid: GroupId)
  {
    e.groupId == gid && (e.kind == Commit || e.kind == Application)
  }

  function Traffic(envelopes: seq<Envelope>, gid: GroupId): seq<Envelope>
  {
    if envelopes == [] then []
    else
      var rest, e := Traffic(envelopes[..|envelopes| - 1], gid), envelopes[|envelopes| - 1];
      if IsTraffic(e, gid) then rest + [e] else rest
  }

  lemma {:induction false} TrafficConcat(a: seq<Envelope>, b: seq<Envelope>, gid: GroupId)
    ensures Traffic(a + b, gid) == Traffic(a, gid) + Traffic(b, gid)
    decreases |b|
  {
    if b == [] {
      assert a + b == a;
    } else {
      TrafficConcat(a, b[..|b| - 1], gid);
      assert (a + b)[..|a + b| - 1] == a + b[..|b| - 1];
    }
  }

  lemma TrafficOne(e: Envelope, gid: GroupId)
    ensures Traffic([e], gid) == if IsTraffic(e, gid) then [e] else []
  {
    assert [e][..0] == [];
  }

  lemma TrafficSplit(envelopes: seq<Envelope>, gid: GroupId)
    requires envelopes != []
    ensures Traffic(envelopes, gid) ==
              if IsTraffic(envelopes[0], gid) then [envelopes[0]] + Traffic(envelopes[1..], gid)
              else Traffic(envelopes[1..], gid)
  {
    assert envelopes == [envelopes[0]] + envelopes[1..];
    TrafficConcat([envelopes[0]], envelopes[1..], gid);
    TrafficOne(envelopes[0], gid);
    assert [] + Traffic(envelopes[1..], gid) == Traffic(envelopes[1..], gid);
  }

  /** Putting back keeps all traffic of a joined group, in order, and never lengthens the list. */
  lemma {:induction false} KeptTraffic<H>(groups: seq<Joined<H>>, envelopes: seq<Envelope>, gid: GroupId)
    requires InGroup(groups, gid)
    ensures Traffic(Kept(groups, envelopes), gid) == Traffic(envelopes, gid)
    ensures |Kept(groups, envelopes)| <= |envelopes|
  {
    hide InGroup;
    if envelopes != [] {
      var rest, e := envelopes[..|envelopes| - 1], envelopes[|envelopes| - 1];
      KeptTraffic(groups, rest, gid);
      if Usable(groups, e) {
        var kept := Kept(groups, rest);
        assert (kept + [e])[..|kept|] == kept;
      }
    }
  }

  /** Nothing of a group that is neither joined nor welcoming survives being put back. */
  lemma {:induction false} KeptStrangers<H>(groups: seq<Joined<H>>, envelopes: seq<Envelope>, gid: GroupId)
    requires !InGroup(groups, gid)
    ensures Traffic(Kept(groups, envelopes), gid) == []
    ensures |Kept(groups, envelopes)| <= |envelopes|
  {
    hide InGroup;
    if envelopes != [] {
      var rest, e := envelopes[..|envelopes| - 1], envelopes[|envelopes| - 1];
      KeptStrangers(groups, rest, gid);
      if Usable(groups, e) {
        var kept := Kept(groups, rest);
        assert (kept + [e])[..|kept|] == kept;
      }
    }
  }

  // Polling conserves

  lemma {:induction false} SiftOthers<H>(mls: Mls<H>, h: H, gid: GroupId, envelopes: seq<Envelope>, other: GroupId)
    requires other != gid
    ensures Traffic(Sift(mls, h, gid, envelopes).keep, other) == Traffic(envelopes, other)
    ensures |Sift(mls, h, gid, envelopes).keep| <= |envelopes|
    decreases |envelopes|
  {
    hide Traffic;
    if envelopes != [] {
      var e, rest := envelopes[0], envelopes[1..];
      TrafficSplit(envelopes, other);
      if e.groupId != gid {
        var r := Sift(mls, h, gid, rest);
        SiftOthers(mls, h, gid, rest, other);
        TrafficSplit([e] + r.keep, other);
        assert ([e] + r.keep)[1..] == r.keep;
      } else if e.kind == Commit {
        var c := mls.commit(h, e.ciphertext);
        if c.Some? { SiftOthers(mls, c.value, gid, rest, other); }
      } else if e.kind == Application {
        var o := mls.receive(h, e.ciphertext);
        if o.Some? { SiftOthers(mls, o.value.handle, gid, rest, other); }
      } else {
        SiftOthers(mls, h, gid, rest, other);
      }
    } else {
      assert Traffic([], other) == Traffic(envelopes, other);
    }
  }

  /** What handling one Commit or Application comes to. */
  datatype Tried<H> = Tried(handle: H, messages: seq<Message>, failure: Option<DaemonError>)

  function Try<H>(mls: Mls<H>, h: H, gid: GroupId, e: Envelope): Tried<H>
  {
    if e.kind == Commit then
      match mls.commit(h, e.ciphertext)
      case None => Tried(h, [], Some(MlsFailure))
      case Some(h') => Tried(h', [], None)
    else
      match mls.receive(h, e.ciphertext)
      case None => Tried(h, [], Some(MlsFailure))
      case Some(o) =>
        if o.body.None? then Tried(o.handle, [], Some(BadUtf8))
        else if o.sender.None? then Tried(o.handle, [], Some(BadIdentity))
        else Tried(o.handle, [Message(gid, o.sender.value, o.body.value)], None)
  }

  /** What handling one envelope does, outcome by outcome, in terms of the engine's answer. */
  lemma TryExactly<H>(mls: Mls<H>, h: H, gid: GroupId, e: Envelope)
    ensures var t := Try(mls, h, gid, e);
            if e.kind == Commit then
              && t.messages == [] && (t.failure == None <==> mls.commit(h, e.ciphertext).Some?)
              && (t.failure == None || t.failure == Some(MlsFailure))
              && mls.commit(h, e.ciphertext) == (if t.failure == None then Some(t.handle) else None)
              && (t.failure.Some? ==> t.handle == h)
            else
              var o := mls.receive(h, e.ciphertext);
              && (t.failure == Some(MlsFailure) <==> o == None) && (o == None ==> t.handle == h)
              && (o.Some? ==> t.handle == o.value.handle)
              && (t.failure == Some(BadUtf8) <==> o.Some? && o.value.body == None)
              && (t.failure == Some(BadIdentity) <==> o.Some? && o.value.body.Some? && o.value.sender == None)
              && (t.failure == None <==> o.Some? && o.value.body.Some? && o.value.sender.Some?)
              && (t.failure == None ==> t.messages == [Message(gid, o.value.sender.value, o.value.body.value)])
              && (t.failure.Some? ==> t.messages == [])
  {
  }

  /** The decryptions of a group's traffic, each at the handle its predecessors left; none if one of them fails. */
  function Decrypted<H>(mls: Mls<H>, h: H, gid: GroupId, traffic: seq<Envelope>): (r: Option<(H, seq<Message>)>)
  {
    if traffic == [] then Some((h, []))
    else
      var t := Try(mls, h, gid, traffic[0]);
      if t.failure.Some? then None
      else
        match Decrypted(mls, t.handle, gid, traffic[1..])
        case None => None
        case Some((h', ms)) => Some((h', t.messages + ms))
  }

  /** The handle and the messages that come of traffic whose failing envelopes are passed over. */
  function Read<H>(mls: Mls<H>, h: H, gid: GroupId, traffic: seq<Envelope>): (H, seq<Message>)
  {
    if traffic == [] then (h, [])
    else
      var t := Try(mls, h, gid, traffic[0]);
      var (h', ms) := Read(mls, t.handle, gid, traffic[1..]);
      (h', t.messages + ms)
  }

  /** What a poll may take of its group's traffic: everything up to and including the first failing envelope. */
  function Eaten<H>(mls: Mls<H>, h: H, gid: GroupId, traffic: seq<Envelope>): (eaten: seq<Envelope>)
    ensures eaten <= traffic
  {
    if traffic == [] then []
    else
      var t := Try(mls, h, gid, traffic[0]);
      if t.failure.Some? then traffic[..1] else traffic[..1] + Eaten(mls, t.handle, gid, traffic[1..])
  }

  /** That is all of it when it decrypts, and otherwise the shortest part that does not. */
  lemma {:induction false} EatenExactly<H>(mls: Mls<H>, h: H, gid: GroupId, traffic: seq<Envelope>)
    ensures var eaten := Eaten(mls, h, gid, traffic);
            if Decrypted(mls, h, gid, traffic).Some? then
              eaten == traffic && Decrypted(mls, h, gid, traffic) == Some(Read(mls, h, gid, traffic))
            else
              && eaten != [] && Decrypted(mls, h, gid, eaten).None?
              && Decrypted(mls, h, gid, eaten[..|eaten| - 1]).Some?
  {
    if traffic != [] {
      var t, rest, eaten := Try(mls, h, gid, traffic[0]), traffic[1..], Eaten(mls, h, gid, traffic);
      if t.failure.None? {
        EatenExactly(mls, t.handle, gid, rest);
        var more := Eaten(mls, t.handle, gid, rest);
        assert eaten[1..] == more;
        if more != [] { assert eaten[..|eaten| - 1][1..] == more[..|more| - 1]; }
      }
    }
  }

  /** The envelopes of other groups. */
  function Others(envelopes: seq<Envelope>, gid: GroupId): seq<Envelope>
  {
    if envelopes == [] then []
    else (if envelopes[0].groupId != gid then envelopes[..1] else []) + Others(envelopes[1..], gid)
  }

  lemma {:induction false} OthersTraffic(envelopes: seq<Envelope>, gid: GroupId)
    ensures Traffic(Others(envelopes, gid), gid) == []
  {
    hide Traffic;
    NoTraffic(gid);
    if envelopes != [] {
      var rest := Others(envelopes[1..], gid);
      OthersTraffic(envelopes[1..], gid);
      if envelopes[0].groupId != gid {
        TrafficSplit(Others(envelopes, gid), gid);
        assert Others(envelopes, gid)[1..] == rest;
      } else {
        assert [] + rest == rest;
      }
    }
  }

  /** One round of the loop. */
  lemma SiftHead<H>(mls: Mls<H>, h: H, gid: GroupId, envelopes: seq<Envelope>)
    requires envelopes != []
    ensures var e, rest, s := envelopes[0], envelopes[1..], Sift(mls, h, gid, envelopes);
            if IsTraffic(e, gid) then
              var t := Try(mls, h, gid, e);
              var r := Sift(mls, t.handle, gid, rest);
              s == if t.failure.Some? then Sifted(t.handle, [], rest, t.failure) else r.(out := t.messages + r.out)
            else
              var r := Sift(mls, h, gid, rest);
              s == if e.groupId == gid then r else r.(keep := [e] + r.keep)
  {
    var out := Sift(mls, Try(mls, h, gid, envelopes[0]).handle, gid, envelopes[1..]).out;
    assert [] + out == out;
  }

  /** The sift went through the first `k` envelopes and kept what follows them. */
  ghost predicate StopsAt<H>(mls: Mls<H>, h: H, gid: GroupId, envelopes: seq<Envelope>, k: nat)
  {
    var r := Sift(mls, h, gid, envelopes);
    && k <= |envelopes|
    && r.keep == Others(envelopes[..k], gid) + envelopes[k..]
    && Traffic(envelopes[..k], gid) == Eaten(mls, h, gid, Traffic(envelopes, gid))
    && r.handle == Read(mls, h, gid, Traffic(envelopes[..k], gid)).0
    && (r.failure.None? ==> k == |envelopes|)
    && (r.failure.Some? ==>
          && k > 0 && IsTraffic(envelopes[k - 1], gid)
          && var before := Read(mls, h, gid, Traffic(envelopes[..k - 1], gid)).0;
             r.failure == Try(mls, before, gid, envelopes[k - 1]).failure)
  }

  /**
   * Where a sift stops: it keeps the other groups' envelopes before that point and every envelope after
   * it, so of its group's traffic it takes exactly what a poll may take; it stops early exactly at a
   * failing envelope, whose error it reports, and its handle is the one all it took leads to.
   */
  lemma {:induction false} SiftStops<H>(mls: Mls<H>, h: H, gid: GroupId, envelopes: seq<Envelope>) returns (k: nat)
    ensures StopsAt(mls, h, gid, envelopes, k)
    decreases |envelopes|
  {
    hide Traffic, StopsAt, Try;
    if envelopes == [] {
      k := 0;
      StopsAtOnce(mls, h, gid);
    } else {
      var e, t := envelopes[0], Try(mls, h, gid, envelopes[0]);
      if IsTraffic(e, gid) && t.failure.Some? {
        k := 1;
        StopsFailing(mls, h, gid, envelopes);
      } else {
        var k' := SiftStops(mls, if IsTraffic(e, gid) then t.handle else h, gid, envelopes[1..]);
        k := k' + 1;
        StopsLater(mls, h, gid, envelopes, k');
      }
    }
  }

  lemma StopsAtOnce<H>(mls: Mls<H>, h: H, gid: GroupId)
    ensures StopsAt(mls, h, gid, [], 0)
  {
    var none: seq<Envelope> := [];
    assert none[..0] == [] && none[0..] == [];
  }

  lemma StopsFailing<H>(mls: Mls<H>, h: H, gid: GroupId, envelopes: seq<Envelope>)
    requires envelopes != [] && IsTraffic(envelopes[0], gid) && Try(mls, h, gid, envelopes[0]).failure.Some?
    ensures StopsAt(mls, h, gid, envelopes, 1)
  {
    hide Traffic, Sift, Try;
    var e, all := envelopes[0], Traffic(envelopes, gid);
    SiftHead(mls, h, gid, envelopes);
    TrafficSplit(envelopes, gid);
    TrafficOne(e, gid);
    NoTraffic(gid);
    ReadOne(mls, h, gid, e);
    assert envelopes[..1] == [e] && envelopes[..0] == [] && all[..1] == [e];
    assert [e][1..] == [] && Others([e], gid) == [] && [] + envelopes[1..] == envelopes[1..];
  }

  lemma StopsLater<H>(mls: Mls<H>, h: H, gid: GroupId, envelopes: seq<Envelope>, k: nat)
    requires envelopes != [] && (IsTraffic(envelopes[0], gid) ==> Try(mls, h, gid, envelopes[0]).failure.None?)
    requires var h' := if IsTraffic(envelopes[0], gid) then Try(mls, h, gid, envelopes[0]).handle else h;
             StopsAt(mls, h', gid, envelopes[1..], k)
    ensures StopsAt(mls, h, gid, envelopes, k + 1)
  {
    hide Traffic, Sift, Try, Read, Others;
    var e, rest, all := envelopes[0], envelopes[1..], Traffic(envelopes, gid);
    SiftHead(mls, h, gid, envelopes);
    TrafficSplit(envelopes, gid);
    PrefixSplits(mls, h, gid, envelopes, k + 1);
    if k > 0 { PrefixSplits(mls, h, gid, envelopes, k); }
    assert envelopes[k + 1..] == rest[k..];
    if IsTraffic(e, gid) { assert all[1..] == Traffic(rest, gid) && all[0] == e && all[..1] == [e]; }
  }

  lemma PrefixSplits<H>(mls: Mls<H>, h: H, gid: GroupId, envelopes: seq<Envelope>, n: nat)
    requires 0 < n <= |envelopes|
    ensures var e, rest := envelopes[0], envelopes[1..];
            var h' := if IsTraffic(e, gid) then Try(mls, h, gid, e).handle else h;
            && Others(envelopes[..n], gid) == (if e.groupId != gid then [e] else []) + Others(rest[..n - 1], gid)
            && Traffic(envelopes[..n], gid) == (if IsTraffic(e, gid) then [e] else []) + Traffic(rest[..n - 1], gid)
            && Read(mls, h, gid, Traffic(envelopes[..n], gid)).0 == Read(mls, h', gid, Traffic(rest[..n - 1], gid)).0
  {
    hide Traffic;
    var e, rest := envelopes[0], envelopes[1..];
    assert envelopes[..n][0] == e && envelopes[..n][1..] == rest[..n - 1] && envelopes[..n][..1] == [e];
    TrafficSplit(envelopes[..n], gid);
    var tail := Traffic(rest[..n - 1], gid);
    if IsTraffic(e, gid) { assert ([e] + tail)[1..] == tail; } else { assert [] + tail == tail; }
  }

  /** A sift leaves of its group's traffic exactly what follows what a poll may take. */
  lemma SiftLeavesRest<H>(mls: Mls<H>, h: H, gid: GroupId, envelopes: seq<Envelope>)
    ensures var r, all := Sift(mls, h, gid, envelopes), Traffic(envelopes, gid);
            && all == Eaten(mls, h, gid, all) + Traffic(r.keep, gid)
            && r.handle == Read(mls, h, gid, Eaten(mls, h, gid, all)).0
  {
    hide Traffic, Sift, Eaten, Others, Read, Try;
    var k := SiftStops(mls, h, gid, envelopes);
    assert envelopes == envelopes[..k] + envelopes[k..];
    TrafficConcat(envelopes[..k], envelopes[k..], gid);
    TrafficConcat(Others(envelopes[..k], gid), envelopes[k..], gid);
    OthersTraffic(envelopes[..k], gid);
    assert [] + Traffic(envelopes[k..], gid) == Traffic(envelopes[k..], gid);
  }

  /**
   * A failing sift consumes its group's traffic up to and including the first envelope that does not
   * decrypt and keeps everything after it; its handle is the one before that envelope, or the one the
   * engine had already moved to when the text or the sender turned out bad.
   */
  lemma FailingSiftExactly<H>(mls: Mls<H>, h: H, gid: GroupId, envelopes: seq<Envelope>)
    requires Sift(mls, h, gid, envelopes).failure.Some?
    ensures var r, all := Sift(mls, h, gid, envelopes), Traffic(envelopes, gid);
            var n := |all| - |Traffic(r.keep, gid)|;
            && 0 < n <= |all| && Traffic(r.keep, gid) == all[n..]
            && Decrypted(mls, h, gid, all[..n]).None?
            && var before := Decrypted(mls, h, gid, all[..n - 1]);
               && before.Some?
               && Try(mls, before.value.0, gid, all[n - 1]).failure == r.failure
               && Try(mls, before.value.0, gid, all[n - 1]).handle == r.handle
  {
    hide Traffic, Sift, Eaten, Decrypted, Read, Try;
    var r, all := Sift(mls, h, gid, envelopes), Traffic(envelopes, gid);
    SiftLeavesRest(mls, h, gid, envelopes);
    SiftDecrypts(mls, h, gid, envelopes);
    EatenExactly(mls, h, gid, all);
    var eaten := Eaten(mls, h, gid, all);
    var n := |eaten|;
    assert all[..n] == eaten && all[n..] == Traffic(r.keep, gid) && all[..n - 1] == eaten[..n - 1];
    EatenExactly(mls, h, gid, eaten[..n - 1]);
    assert eaten == eaten[..n - 1] + [eaten[n - 1]];
    ReadConcat(mls, h, gid, eaten[..n - 1], [eaten[n - 1]]);
    var k := SiftStops(mls, h, gid, envelopes);
    LastTaken(envelopes, k, gid);
    ReadOne(mls, Read(mls, h, gid, eaten[..n - 1]).0, gid, eaten[n - 1]);
  }

  lemma LastTaken(envelopes: seq<Envelope>, k: nat, gid: GroupId)
    requires 0 < k <= |envelopes| && IsTraffic(envelopes[k - 1], gid)
    ensures Traffic(envelopes[..k], gid) == Traffic(envelopes[..k - 1], gid) + [envelopes[k - 1]]
  {
    assert envelopes[..k][..k - 1] == envelopes[..k - 1];
  }

  lemma ReadOne<H>(mls: Mls<H>, h: H, gid: GroupId, e: Envelope)
    ensures Read(mls, h, gid, [e]) == (Try(mls, h, gid, e).handle, Try(mls, h, gid, e).messages)
  {
    var t := Try(mls, h, gid, e);
    assert [e][1..] == [] && t.messages + [] == t.messages;
  }

  lemma {:induction false} ReadConcat<H>(mls: Mls<H>, h: H, gid: GroupId, a: seq<Envelope>, b: seq<Envelope>)
    ensures var (h1, first) := Read(mls, h, gid, a);
            var (h2, second) := Read(mls, h1, gid, b);
            Read(mls, h, gid, a + b) == (h2, first + second)
  {
    hide Try;
    if a == [] {
      assert [] + b == b && [] + Read(mls, h, gid, b).1 == Read(mls, h, gid, b).1;
    } else {
      var t := Try(mls, h, gid, a[0]);
      ReadConcat(mls, t.handle, gid, a[1..], b);
      assert (a + b)[0] == a[0] && (a + b)[1..] == a[1..] + b;
      var (h1, first) := Read(mls, t.handle, gid, a[1..]);
      var (_, second) := Read(mls, h1, gid, b);
      assert t.messages + (first + second) == (t.messages + first) + second;
    }
  }

  /**
   * A sift that does not fail consumes all of its group's traffic, and its output is exactly the
   * decrypted application messages in order; it fails exactly when some decryption does.
   */
  lemma {:induction false} SiftDecrypts<H>(mls: Mls<H>, h: H, gid: GroupId, envelopes: seq<Envelope>)
    ensures var r := Sift(mls, h, gid, envelopes);
            if r.failure.None? then
              && Traffic(r.keep, gid) == []
              && Decrypted(mls, h, gid, Traffic(envelopes, gid)) == Some((r.handle, r.out))
            else Decrypted(mls, h, gid, Traffic(envelopes, gid)).None?
    decreases |envelopes|
  {
    hide Traffic, Try;
    if envelopes == [] {
      NoTraffic(gid);
    } else {
      var e, rest, all := envelopes[0], envelopes[1..], Traffic(envelopes, gid);
      SiftHead(mls, h, gid, envelopes);
      TrafficSplit(envelopes, gid);
      if IsTraffic(e, gid) {
        assert all[1..] == Traffic(rest, gid) && all[0] == e;
        SiftDecrypts(mls, Try(mls, h, gid, e).handle, gid, rest);
      } else {
        SiftDecrypts(mls, h, gid, rest);
        if e.groupId != gid {
          var r := Sift(mls, h, gid, rest);
          TrafficSplit([e] + r.keep, gid);
          assert ([e] + r.keep)[1..] == r.keep;
        }
      }
    }
  }

  lemma NoTraffic(gid: GroupId)
    ensures Traffic([], gid) == []
  {
  }

  // Steps

  datatype Act<!H> =
    | Arrive(e: Envelope)
    | PollGroup(gid: GroupId)
    | Join(gid: GroupId, welcome: Blob -> Option<H>)
    | JoinAll(welcomes: Envelope -> Option<H>)

  function Next<H>(mls: Mls<H>, d: Daemon<H>, a: Act<H>): Daemon<H>
  {
    match a
    case Arrive(e) => d.(mailbox := d.mailbox + [e])
    case PollGroup(gid) => Poll(mls, d, gid).daemon
    case Join(gid, join) => JoinGroup(d, gid, join)
    case JoinAll(join) => JoinPending(d, join)
  }

  function Arrived<H>(a: Act<H>): seq<Envelope>
  {
    if a.Arrive? then [a.e] else []
  }

  /** The step empties buffer and mailbox, and puts back what it does not consume. */
  predicate Drains<H>(d: Daemon<H>, a: Act<H>)
  {
    a.Join? || a.JoinAll? || (a.PollGroup? && InGroup(d.groups, a.gid))
  }

  /** The groups the daemon knows when it puts back: `join_group` has not recorded its own yet. */
  function Known<H>(mls: Mls<H>, d: Daemon<H>, a: Act<H>): seq<Joined<H>>
  {
    if a.Join? then d.groups else Next(mls, d, a).groups
  }

  /** What a draining step puts back, before the cap is applied. */
  function PutBack<H>(mls: Mls<H>, d: Daemon<H>, a: Act<H>): seq<Envelope>
  {
    match a
    case Arrive(_) => []
    case PollGroup(gid) =>
      if !InGroup(d.groups, gid) then []
      else Kept(Known(mls, d, a), Sift(mls, d.groups[Find(d.groups, gid)].handle, gid, Pending(d)).keep)
    case Join(gid, join) =>
      (match WelcomeAt(Pending(d), gid)
       case None => Kept(d.groups, Pending(d))
       case Some(i) =>
         var welcome := Pending(d)[i];
         Kept(d.groups, Without(Pending(d), i)) + if join(welcome.ciphertext).None? then [welcome] else [])
    case JoinAll(join) => Kept(Known(mls, d, a), AdmitAll(d.groups, Pending(d), join).rest)
  }

  /** What the cap drops of it: the oldest beyond 4096. */
  function Clipped<H>(mls: Mls<H>, d: Daemon<H>, a: Act<H>): seq<Envelope>
  {
    Oldest(PutBack(mls, d, a))
  }

  /** What a step consumes of a group's traffic: only a poll of that group takes any. */
  function Consumed<H>(mls: Mls<H>, d: Daemon<H>, a: Act<H>, gid: GroupId): seq<Envelope>
  {
    if a.PollGroup? && a.gid == gid && InGroup(d.groups, gid) then
      Eaten(mls, d.groups[Find(d.groups, gid)].handle, gid, Traffic(Pending(d), gid))
    else []
  }

  /** What a step loses of a group's traffic: all of it when the group is not known, else what the cap drops. */
  function Lost<H>(mls: Mls<H>, d: Daemon<H>, a: Act<H>, gid: GroupId): seq<Envelope>
  {
    if !Drains(d, a) then []
    else if InGroup(Known(mls, d, a), gid) then Traffic(Clipped(mls, d, a), gid)
    else Traffic(Pending(d), gid)
  }

  /** All the traffic of a group, before and arriving, is gone in this order or still waits. */
  ghost predicate Accounts(before: seq<Envelope>, arrived: seq<Envelope>, gone: seq<Envelope>, after: seq<Envelope>,
                           gid: GroupId)
  {
    Traffic(before + arrived, gid) == gone + Traffic(after, gid)
  }

  // What a draining step leaves

  /** Clipping twice is clipping once. */
  lemma NewestTwice(a: seq<Envelope>, b: seq<Envelope>)
    ensures Newest(Newest(a) + b) == Newest(a + b)
  {
  }

  lemma KeptOne<H>(groups: seq<Joined<H>>, e: Envelope)
    requires e.kind == Welcome
    ensures Kept(groups, [e]) == [e]
  {
    assert [e][..0] == [];
  }

  lemma NewestSize(all: seq<Envelope>)
    ensures |Newest(all)| == if |all| < 4096 then |all| else 4096
  {
  }

  lemma DrainLeavesNewest<H>(mls: Mls<H>, d: Daemon<H>, a: Act<H>)
    requires Drains(d, a)
    ensures Pending(Next(mls, d, a)) == Newest(PutBack(mls, d, a))
    ensures |Pending(Next(mls, d, a))| == if |PutBack(mls, d, a)| < 4096 then |PutBack(mls, d, a)| else 4096
  {
    hide Kept, Sift, AdmitAll, WelcomeAt, Newest, InGroup;
    NewestSize(PutBack(mls, d, a));
    var after := Next(mls, d, a);
    assert after.inbox + [] == after.inbox;
    match a {
      case PollGroup(gid) =>
        var r := Sift(mls, d.groups[Find(d.groups, gid)].handle, gid, Pending(d));
        assert [] + Kept(after.groups, r.keep) == Kept(after.groups, r.keep);
      case Join(gid, join) =>
        var all := Pending(d);
        match WelcomeAt(all, gid) {
          case None =>
            assert [] + Kept(d.groups, all) == Kept(d.groups, all);
          case Some(i) =>
            var rest := Kept(d.groups, Without(all, i));
            assert [] + rest == rest && rest + [] == rest;
            KeptOne(d.groups, all[i]);
            NewestTwice(rest, [all[i]]);
        }
      case JoinAll(join) =>
        var r := AdmitAll(d.groups, Pending(d), join);
        assert [] + Kept(r.groups, r.rest) == Kept(r.groups, r.rest);
    }
  }

  /**
   * A known group's traffic is put back whole, but for what a poll of it consumed; an unknown group's
   * is not put back.
   */
  lemma PutBackTraffic<H>(mls: Mls<H>, d: Daemon<H>, a: Act<H>, gid: GroupId)
    requires Drains(d, a)
    ensures if InGroup(Known(mls, d, a), gid) then
              Traffic(Pending(d), gid) == Consumed(mls, d, a, gid) + Traffic(PutBack(mls, d, a), gid)
            else Consumed(mls, d, a, gid) == [] && Traffic(PutBack(mls, d, a), gid) == []
  {
    hide Traffic, Kept, Sift, AdmitAll, WelcomeAt, Eaten;
    match a {
      case PollGroup(target) => PolledTraffic(mls, d, target, gid);
      case Join(target, join) => JoinedTraffic(mls, d, a, gid);
      case JoinAll(join) =>
        var r := AdmitAll(d.groups, Pending(d), join);
        AdmitAllTraffic(d.groups, Pending(d), join, gid);
        if InGroup(r.groups, gid) {
          KeptTraffic(r.groups, r.rest, gid);
          assert [] + Traffic(Pending(d), gid) == Traffic(Pending(d), gid);
        } else {
          KeptStrangers(r.groups, r.rest, gid);
        }
    }
  }

  lemma PolledTraffic<H>(mls: Mls<H>, d: Daemon<H>, target: GroupId, gid: GroupId)
    requires InGroup(d.groups, target)
    ensures var a := PollGroup(target);
            if InGroup(Known(mls, d, a), gid) then
              Traffic(Pending(d), gid) == Consumed(mls, d, a, gid) + Traffic(PutBack(mls, d, a), gid)
            else Consumed(mls, d, a, gid) == [] && Traffic(PutBack(mls, d, a), gid) == []
  {
    hide Traffic, Kept, Sift, Eaten;
    var i, all := Find(d.groups, target), Pending(d);
    var h := d.groups[i].handle;
    var r := Sift(mls, h, target, all);
    var groups' := d.groups[i := Joined(target, r.handle)];
    SameGroups(d.groups, i, r.handle, gid);
    if InGroup(d.groups, gid) {
      KeptTraffic(groups', r.keep, gid);
      if gid == target {
        SiftLeavesRest(mls, h, target, all);
      } else {
        SiftOthers(mls, h, target, all, gid);
        assert [] + Traffic(all, gid) == Traffic(all, gid);
      }
    } else {
      KeptStrangers(groups', r.keep, gid);
    }
  }

  lemma SameGroups<H>(groups: seq<Joined<H>>, i: nat, h: H, gid: GroupId)
    requires i < |groups|
    ensures InGroup(groups[i := Joined(groups[i].id, h)], gid) <==> InGroup(groups, gid)
  {
    var groups' := groups[i := Joined(groups[i].id, h)];
    if InGroup(groups, gid) {
      var j :| 0 <= j < |groups| && groups[j].id == gid;
      assert groups'[j].id == gid;
    }
    if InGroup(groups', gid) {
      var j :| 0 <= j < |groups'| && groups'[j].id == gid;
      assert groups[j].id == gid;
    }
  }

  lemma JoinedTraffic<H>(mls: Mls<H>, d: Daemon<H>, a: Act<H>, gid: GroupId)
    requires a.Join?
    ensures Traffic(PutBack(mls, d, a), gid) == if InGroup(d.groups, gid) then Traffic(Pending(d), gid) else []
    ensures [] + Traffic(Pending(d), gid) == Traffic(Pending(d), gid)
  {
    hide Traffic, Kept, WelcomeAt, InGroup;
    var all := Pending(d);
    match WelcomeAt(all, a.gid) {
      case None =>
        KeptGroup(d.groups, all, gid);
      case Some(i) =>
        var rest, back := Without(all, i), if a.welcome(all[i].ciphertext).None? then [all[i]] else [];
        KeptGroup(d.groups, rest, gid);
        WithoutWelcome(all, i, gid);
        TrafficConcat(Kept(d.groups, rest), back, gid);
        TrafficOne(all[i], gid);
        NoTraffic(gid);
    }
  }

  lemma KeptGroup<H>(groups: seq<Joined<H>>, envelopes: seq<Envelope>, gid: GroupId)
    ensures Traffic(Kept(groups, envelopes), gid) == if InGroup(groups, gid) then Traffic(envelopes, gid) else []
  {
    hide Traffic, Kept, InGroup;
    if InGroup(groups, gid) { KeptTraffic(groups, envelopes, gid); } else { KeptStrangers(groups, envelopes, gid); }
  }

  lemma WithoutWelcome(envelopes: seq<Envelope>, i: nat, gid: GroupId)
    requires i < |envelopes| && envelopes[i].kind == Welcome
    ensures Traffic(Without(envelopes, i), gid) == Traffic(envelopes, gid)
  {
    var a, b := envelopes[..i], envelopes[i + 1..];
    assert envelopes == a + ([envelopes[i]] + b);
    TrafficConcat(a, [envelopes[i]] + b, gid);
    TrafficSplit([envelopes[i]] + b, gid);
    assert ([envelopes[i]] + b)[1..] == b;
    TrafficConcat(a, b, gid);
  }

  lemma {:induction false} AdmitAllTraffic<H>(groups: seq<Joined<H>>, envelopes: seq<Envelope>,
                                              join: Envelope -> Option<H>, gid: GroupId)
    ensures var r := AdmitAll(groups, envelopes, join);
            && Traffic(r.rest, gid) == Traffic(envelopes, gid) && |r.rest| <= |envelopes|
            && (InGroup(groups, gid) ==> InGroup(r.groups, gid))
    decreases |envelopes|
  {
    hide Traffic;
    if envelopes != [] {
      var e, tail := envelopes[0], envelopes[1..];
      TrafficSplit(envelopes, gid);
      if e.kind != Welcome || InGroup(groups, e.groupId) {
        var r := AdmitAll(groups, tail, join);
        AdmitAllTraffic(groups, tail, join, gid);
        TrafficSplit([e] + r.rest, gid);
        assert ([e] + r.rest)[1..] == r.rest;
      } else {
        var longer := if join(e).Some? then groups + [Joined(e.groupId, join(e).value)] else groups;
        AdmitAllTraffic(longer, tail, join, gid);
        GroupsGrow(groups, longer, gid);
      }
    }
  }

  /** A Welcome for the group waits that the engine accepts. */
  predicate Welcomed<H>(envelopes: seq<Envelope>, gid: GroupId, join: Envelope -> Option<H>)
  {
    exists e :: e in envelopes && e.kind == Welcome && e.groupId == gid && join(e).Some?
  }

  /** `join_pending` ends up in exactly the groups it was in and those with an acceptable Welcome. */
  lemma {:induction false} AdmitsExactly<H>(groups: seq<Joined<H>>, envelopes: seq<Envelope>,
                                            join: Envelope -> Option<H>, gid: GroupId)
    ensures InGroup(AdmitAll(groups, envelopes, join).groups, gid)
       <==> InGroup(groups, gid) || Welcomed(envelopes, gid, join)
    decreases |envelopes|
  {
    if envelopes != [] {
      var e, tail := envelopes[0], envelopes[1..];
      assert Welcomed(envelopes, gid, join)
        <==> Welcomed(tail, gid, join) || (e.kind == Welcome && e.groupId == gid && join(e).Some?) by {
        assert envelopes == [e] + tail;
      }
      var tried := e.kind == Welcome && !InGroup(groups, e.groupId) && join(e).Some?;
      var longer := if tried then groups + [Joined(e.groupId, join(e).value)] else groups;
      AdmitsExactly(longer, tail, join, gid);
      if tried { OneMoreGroup(groups, Joined(e.groupId, join(e).value), gid); }
    }
  }

  lemma OneMoreGroup<H>(groups: seq<Joined<H>>, joined: Joined<H>, gid: GroupId)
    ensures InGroup(groups + [joined], gid) <==> InGroup(groups, gid) || joined.id == gid
  {
    GroupsGrow(groups, groups + [joined], gid);
    assert (groups + [joined])[|groups|] == joined;
  }

  lemma GroupsGrow<H>(groups: seq<Joined<H>>, longer: seq<Joined<H>>, gid: GroupId)
    requires groups <= longer
    ensures InGroup(groups, gid) ==> InGroup(longer, gid)
  {
    if InGroup(groups, gid) {
      var i :| 0 <= i < |groups| && groups[i].id == gid;
      assert longer[i].id == gid;
    }
  }

  lemma ClipSplits(all: seq<Envelope>, gid: GroupId)
    ensures Traffic(all, gid) == Traffic(Oldest(all), gid) + Traffic(Newest(all), gid)
  {
    hide Traffic;
    assert all == Oldest(all) + Newest(all);
    TrafficConcat(Oldest(all), Newest(all), gid);
  }

  /**
   * One step, any state, any group, joined or not, cap reached or not: its traffic is what the step
   * consumed, then what it lost, then what still waits, in order.
   */
  lemma StepConserves<H>(mls: Mls<H>, d: Daemon<H>, a: Act<H>, gid: GroupId)
    ensures Accounts(Pending(d), Arrived(a), Consumed(mls, d, a, gid) + Lost(mls, d, a, gid), Pending(Next(mls, d, a)),
                     gid)
  {
    hide Traffic, Sift, Kept, AdmitAll, WelcomeAt, Newest, Oldest, Eaten, PutBack;
    var after := Pending(Next(mls, d, a));
    if Drains(d, a) {
      assert Pending(d) + [] == Pending(d);
      DrainLeavesNewest(mls, d, a);
      PutBackTraffic(mls, d, a, gid);
      ClipSplits(PutBack(mls, d, a), gid);
      if InGroup(Known(mls, d, a), gid) {
        assert Consumed(mls, d, a, gid) + (Traffic(Clipped(mls, d, a), gid) + Traffic(after, gid))
            == (Consumed(mls, d, a, gid) + Lost(mls, d, a, gid)) + Traffic(after, gid);
      } else {
        assert Traffic(after, gid) == [];
        assert ([] + Traffic(Pending(d), gid)) + [] == Traffic(Pending(d), gid);
      }
    } else {
      assert after == Pending(d) + Arrived(a) by {
        assert d.inbox + (d.mailbox + Arrived(a)) == Pending(d) + Arrived(a);
        assert Pending(d) + [] == Pending(d);
      }
      assert ([] + []) + Traffic(after, gid) == Traffic(after, gid);
    }
  }

  lemma StaysJoined<H>(mls: Mls<H>, d: Daemon<H>, a: Act<H>, gid: GroupId)
    requires InGroup(d.groups, gid)
    ensures InGroup(Next(mls, d, a).groups, gid) && InGroup(Known(mls, d, a), gid)
  {
    hide Traffic, Sift, Kept, AdmitAll, WelcomeAt;
    match a {
      case Arrive(_) =>
      case PollGroup(target) =>
        if InGroup(d.groups, target) {
          var i := Find(d.groups, target);
          SameGroups(d.groups, i, Sift(mls, d.groups[i].handle, target, Pending(d)).handle, gid);
        }
      case Join(target, join) => GroupsGrow(d.groups, JoinGroup(d, target, join).groups, gid);
      case JoinAll(join) => AdmitAllTraffic(d.groups, Pending(d), join, gid);
    }
  }

  // Runs

  function Ran<H>(mls: Mls<H>, d: Daemon<H>, acts: seq<Act<H>>): Daemon<H>
  {
    if acts == [] then d else Next(mls, Ran(mls, d, acts[..|acts| - 1]), acts[|acts| - 1])
  }

  function AllArrived<H>(acts: seq<Act<H>>): seq<Envelope>
  {
    if acts == [] then [] else AllArrived(acts[..|acts| - 1]) + Arrived(acts[|acts| - 1])
  }

  function AllConsumed<H>(mls: Mls<H>, d: Daemon<H>, acts: seq<Act<H>>, gid: GroupId): seq<Envelope>
  {
    if acts == [] then []
    else
      var before := acts[..|acts| - 1];
      AllConsumed(mls, d, before, gid) + Consumed(mls, Ran(mls, d, before), acts[|acts| - 1], gid)
  }

  function AllLost<H>(mls: Mls<H>, d: Daemon<H>, acts: seq<Act<H>>, gid: GroupId): seq<Envelope>
  {
    if acts == [] then []
    else
      var before := acts[..|acts| - 1];
      AllLost(mls, d, before, gid) + Lost(mls, Ran(mls, d, before), acts[|acts| - 1], gid)
  }

  /** What left the daemon, step by step: consumed, then lost. */
  function AllGone<H>(mls: Mls<H>, d: Daemon<H>, acts: seq<Act<H>>, gid: GroupId): seq<Envelope>
  {
    if acts == [] then []
    else
      var before, t, a := acts[..|acts| - 1], Ran(mls, d, acts[..|acts| - 1]), acts[|acts| - 1];
      AllGone(mls, d, before, gid) + (Consumed(mls, t, a, gid) + Lost(mls, t, a, gid))
  }

  /**
   * Inbox conservation, with no condition: over any sequence of arrivals, polls and joins, the Commit
   * and Application traffic of any group is what its polls consumed and what was lost, step by step in
   * order, followed by what still waits in order; nothing is repeated or reordered.
   */
  lemma {:induction false} InboxConserves<H>(mls: Mls<H>, d: Daemon<H>, acts: seq<Act<H>>, gid: GroupId)
    ensures Accounts(Pending(d), AllArrived(acts), AllGone(mls, d, acts, gid), Pending(Ran(mls, d, acts)), gid)
  {
    hide Next, Traffic, Consumed, Lost, Arrived;
    if acts == [] {
      assert Pending(d) + [] == Pending(d);
      assert [] + Traffic(Pending(d), gid) == Traffic(Pending(d), gid);
    } else {
      var before, a := acts[..|acts| - 1], acts[|acts| - 1];
      var t, u := Ran(mls, d, before), Ran(mls, d, acts);
      InboxConserves(mls, d, before, gid);
      StepConserves(mls, t, a, gid);
      Chain(Pending(d), AllArrived(before), AllGone(mls, d, before, gid), Pending(t), Arrived(a),
            Consumed(mls, t, a, gid) + Lost(mls, t, a, gid), Pending(u), gid);
    }
  }

  lemma Chain(p: seq<Envelope>, x: seq<Envelope>, c: seq<Envelope>, q: seq<Envelope>, y: seq<Envelope>,
              e: seq<Envelope>, r: seq<Envelope>, gid: GroupId)
    requires Accounts(p, x, c, q, gid) && Accounts(q, y, e, r, gid)
    ensures Accounts(p, x + y, c + e, r, gid)
  {
    hide Traffic;
    calc {
      Traffic(p + (x + y), gid);
      { assert p + (x + y) == (p + x) + y; TrafficConcat(p + x, y, gid); }
      Traffic(p + x, gid) + Traffic(y, gid);
      (c + Traffic(q, gid)) + Traffic(y, gid);
      c + (Traffic(q, gid) + Traffic(y, gid));
      { TrafficConcat(q, y, gid); }
      c + (e + Traffic(r, gid));
      (c + e) + Traffic(r, gid);
    }
  }

  lemma {:induction false} GoneSplits<H>(mls: Mls<H>, d: Daemon<H>, acts: seq<Act<H>>, gid: GroupId)
    ensures |AllGone(mls, d, acts, gid)| == |AllConsumed(mls, d, acts, gid)| + |AllLost(mls, d, acts, gid)|
    ensures AllLost(mls, d, acts, gid) == [] ==> AllGone(mls, d, acts, gid) == AllConsumed(mls, d, acts, gid)
  {
    hide Ran, Consumed, Lost;
    if acts != [] {
      var before, a := acts[..|acts| - 1], acts[|acts| - 1];
      GoneSplits(mls, d, before, gid);
      if AllLost(mls, d, acts, gid) == [] {
        assert AllLost(mls, d, before, gid) == [] && Lost(mls, Ran(mls, d, before), a, gid) == [];
        var c := Consumed(mls, Ran(mls, d, before), a, gid);
        assert c + [] == c;
      }
    }
  }

  /**
   * Over a run, a group's traffic leaves only through polls of that group, in order, if and only if no
   * step loses any.
   */
  lemma ConservedExactly<H>(mls: Mls<H>, d: Daemon<H>, acts: seq<Act<H>>, gid: GroupId)
    ensures Accounts(Pending(d), AllArrived(acts), AllConsumed(mls, d, acts, gid), Pending(Ran(mls, d, acts)), gid)
       <==> AllLost(mls, d, acts, gid) == []
  {
    hide Traffic, AllGone, AllConsumed, AllLost, Ran;
    InboxConserves(mls, d, acts, gid);
    GoneSplits(mls, d, acts, gid);
  }

  /** The cap is not reached: whatever a step puts back fits it, however much waited. */
  ghost predicate Roomy<H>(mls: Mls<H>, d: Daemon<H>, acts: seq<Act<H>>)
  {
    forall i :: 0 <= i < |acts| ==> |PutBack(mls, Ran(mls, d, acts[..i]), acts[i])| <= 4096
  }

  /** A joined group loses nothing over a run whose put-backs fit the cap. */
  lemma {:induction false} RoomyLosesNothing<H>(mls: Mls<H>, d: Daemon<H>, acts: seq<Act<H>>, gid: GroupId)
    requires InGroup(d.groups, gid) && Roomy(mls, d, acts)
    ensures InGroup(Ran(mls, d, acts).groups, gid) && AllLost(mls, d, acts, gid) == []
    ensures Accounts(Pending(d), AllArrived(acts), AllConsumed(mls, d, acts, gid), Pending(Ran(mls, d, acts)), gid)
  {
    hide Next, Traffic, Consumed, Arrived, InGroup, PutBack, Known, Accounts;
    if acts != [] {
      var before, a := acts[..|acts| - 1], acts[|acts| - 1];
      var t := Ran(mls, d, before);
      assert Roomy(mls, d, before) by {
        forall i | 0 <= i < |before| ensures |PutBack(mls, Ran(mls, d, before[..i]), before[i])| <= INBOX_CAP {
          assert before[..i] == acts[..i];
        }
      }
      RoomyLosesNothing(mls, d, before, gid);
      StaysJoined(mls, t, a, gid);
      assert |PutBack(mls, t, a)| <= INBOX_CAP;
      assert Clipped(mls, t, a) == [];
      NoTraffic(gid);
    }
    ConservedExactly(mls, d, acts, gid);
  }

  // Polls answer exactly

  /** A failing poll reports the error of the first envelope that does not decrypt. */
  lemma PollErrorIsTrue<H>(mls: Mls<H>, d: Daemon<H>, gid: GroupId)
    requires InGroup(d.groups, gid) && Poll(mls, d, gid).reply.Err?
    ensures var h, all := d.groups[Find(d.groups, gid)].handle, Traffic(Pending(d), gid);
            var n := |Eaten(mls, h, gid, all)|;
            && 0 < n <= |all| && Decrypted(mls, h, gid, all[..n - 1]).Some?
            && Try(mls, Decrypted(mls, h, gid, all[..n - 1]).value.0, gid, all[n - 1]).failure
               == Some(Poll(mls, d, gid).reply.error)
  {
    hide Traffic, Decrypted, Eaten, Read, Try, Sift, Kept, InGroup;
    var h, all := d.groups[Find(d.groups, gid)].handle, Traffic(Pending(d), gid);
    FailingSiftExactly(mls, h, gid, Pending(d));
    SiftLeavesRest(mls, h, gid, Pending(d));
  }

  /**
   * At the state its predecessors lead to, the engine opened envelope `i` to this text and this
   * authenticated sender.
   */
  predicate OpenedAt<H>(mls: Mls<H>, h: H, gid: GroupId, traffic: seq<Envelope>, i: nat, m: Message)
    requires i < |traffic|
  {
    var o := mls.receive(Read(mls, h, gid, traffic[..i]).0, traffic[i].ciphertext);
    && traffic[i].kind != Commit && m.group == gid
    && o.Some? && o.value.body == Some(m.body) && o.value.sender == Some(m.sender)
  }

  lemma {:induction false} DecryptedAreOpened<H>(mls: Mls<H>, h: H, gid: GroupId, traffic: seq<Envelope>, m: Message)
    returns (i: nat)
    requires var r := Decrypted(mls, h, gid, traffic); r.Some? && m in r.value.1
    ensures i < |traffic| && OpenedAt(mls, h, gid, traffic, i, m)
  {
    var rest, t := traffic[1..], Try(mls, h, gid, traffic[0]);
    if m in t.messages {
      i := 0;
      assert traffic[..0] == [] && Read(mls, h, gid, []).0 == h;
    } else {
      var i' := DecryptedAreOpened(mls, t.handle, gid, rest, m);
      i := i' + 1;
      assert traffic[..i][0] == traffic[0] && traffic[..i][1..] == rest[..i'] && traffic[i] == rest[i'];
      assert Read(mls, h, gid, traffic[..i]).0 == Read(mls, t.handle, gid, rest[..i']).0;
    }
  }

  /**
   * Every message a poll returns is of the polled group, and its text and sender are what the engine
   * authenticated for an envelope that waited; the sender the relay put on the envelope plays no part.
   */
  lemma MessagesAreAuthentic<H>(mls: Mls<H>, d: Daemon<H>, gid: GroupId, m: Message) returns (i: nat)
    requires Poll(mls, d, gid).reply.Ok? && m in Poll(mls, d, gid).reply.value
    ensures InGroup(d.groups, gid)
    ensures var traffic := Traffic(Pending(d), gid);
            i < |traffic| && OpenedAt(mls, d.groups[Find(d.groups, gid)].handle, gid, traffic, i, m)
  {
    hide Traffic, Decrypted, Poll, Eaten, Read, PutBack, OpenedAt, InGroup;
    PollNeedsGroup(mls, d, gid);
    PollAnswersExactly(mls, d, gid);
    i := DecryptedAreOpened(mls, d.groups[Find(d.groups, gid)].handle, gid, Traffic(Pending(d), gid), m);
  }

  lemma PollNeedsGroup<H>(mls: Mls<H>, d: Daemon<H>, gid: GroupId)
    ensures !InGroup(d.groups, gid) <==> Poll(mls, d, gid).reply == Err(NoGroup)
  {
    hide Traffic, Kept, InGroup, Sift;
    if InGroup(d.groups, gid) {
      var h := d.groups[Find(d.groups, gid)].handle;
      NoGroupIsNoFault(mls, h, gid, Pending(d));
    }
  }

  lemma {:induction false} NoGroupIsNoFault<H>(mls: Mls<H>, h: H, gid: GroupId, envelopes: seq<Envelope>)
    ensures Sift(mls, h, gid, envelopes).failure != Some(NoGroup)
    decreases |envelopes|
  {
    if envelopes != [] {
      SiftHead(mls, h, gid, envelopes);
      var e := envelopes[0];
      NoGroupIsNoFault(mls, if IsTraffic(e, gid) then Try(mls, h, gid, e).handle else h, gid, envelopes[1..]);
    }
  }

  /**
   * `join_group` answers that nothing waits exactly when no Welcome of the group does, and otherwise by
   * the engine's answer to the first one; it joins at most that group, and exactly when it succeeds.
   */
  lemma JoinGroupExactly<H>(d: Daemon<H>, gid: GroupId, join: Blob -> Option<H>, other: GroupId)
    ensures var all, r := Pending(d), JoinReply(Pending(d), gid, join);
            && (r == Err(NoWelcome) <==> forall e :: e in all ==> !(e.kind == Welcome && e.groupId == gid))
            && (r == Ok(()) <==> exists i :: 0 <= i < |all| && FirstAt(all, gid, i) && join(all[i].ciphertext).Some?)
            && (r == Ok(()) || r == Err(NoWelcome) || r == Err(JoinFailure))
            && (InGroup(JoinGroup(d, gid, join).groups, other)
                <==> InGroup(d.groups, other) || (other == gid && r == Ok(())))
  {
    hide Kept, Newest, InGroup;
    var all := Pending(d);
    WelcomeAtExactly(all, gid);
    var at := WelcomeAt(all, gid);
    if at.Some? && join(all[at.value].ciphertext).Some? {
      OneMoreGroup(d.groups, Joined(gid, join(all[at.value].ciphertext).value), other);
    }
    if i :| 0 <= i < |all| && FirstAt(all, gid, i) && join(all[i].ciphertext).Some? {
      assert at == Some(i);
    }
  }

  /** Position `i` holds the first Welcome for the group. */
  predicate FirstAt(all: seq<Envelope>, gid: GroupId, i: nat)
    requires i < |all|
  {
    && all[i].kind == Welcome && all[i].groupId == gid
    && forall j :: 0 <= j < i ==> !(all[j].kind == Welcome && all[j].groupId == gid)
  }

  lemma {:induction false} WelcomeAtExactly(all: seq<Envelope>, gid: GroupId)
    ensures WelcomeAt(all, gid) == None <==> forall e :: e in all ==> !(e.kind == Welcome && e.groupId == gid)
    ensures forall i :: 0 <= i < |all| ==> (WelcomeAt(all, gid) == Some(i) <==> FirstAt(all, gid, i))
  {
    if all != [] {
      var rest := all[1..];
      WelcomeAtExactly(rest, gid);
      assert forall e :: e in all <==> e == all[0] || e in rest;
      forall i | 0 <= i < |all| ensures WelcomeAt(all, gid) == Some(i) <==> FirstAt(all, gid, i) {
        if i > 0 && !(all[0].kind == Welcome && all[0].groupId == gid) {
          assert WelcomeAt(rest, gid) == Some(i - 1) <==> FirstAt(rest, gid, i - 1);
          assert forall j :: 0 <= j < i - 1 ==> rest[j] == all[j + 1];
          assert FirstAt(rest, gid, i - 1) <==> FirstAt(all, gid, i) by {
            if FirstAt(rest, gid, i - 1) {
              forall j | 0 <= j < i ensures !(all[j].kind == Welcome && all[j].groupId == gid) {
                if j > 0 { assert all[j] == rest[j - 1]; }
              }
            }
          }
        }
      }
    }
  }

  /**
   * However much waits, a successful poll returns exactly the group's decrypted application messages
   * in order and leaves none of its traffic. A poll fails exactly when some decryption does, and then
   * puts back all traffic after the first envelope that does not decrypt. Either way the group's handle
   * is the one that what was taken leads to.
   */
  lemma PollAnswersExactly<H>(mls: Mls<H>, d: Daemon<H>, gid: GroupId)
    requires InGroup(d.groups, gid)
    ensures var i, p, all := Find(d.groups, gid), Poll(mls, d, gid), Traffic(Pending(d), gid);
            var h := d.groups[i].handle;
            var answer, eaten := Decrypted(mls, h, gid, all), Eaten(mls, h, gid, all);
            && p.daemon.groups[i] == Joined(gid, Read(mls, h, gid, eaten).0)
            && if p.reply.Ok? then
                 Traffic(Pending(p.daemon), gid) == [] && answer == Some((p.daemon.groups[i].handle, p.reply.value))
               else
                 answer.None? && Traffic(PutBack(mls, d, PollGroup(gid)), gid) == all[|eaten|..]
  {
    hide Traffic, Sift, Kept, InGroup, Decrypted, Newest, Oldest, Eaten, Read;
    var i, all := Find(d.groups, gid), Traffic(Pending(d), gid);
    var h := d.groups[i].handle;
    var r := Sift(mls, h, gid, Pending(d));
    SiftDecrypts(mls, h, gid, Pending(d));
    SiftLeavesRest(mls, h, gid, Pending(d));
    SameGroups(d.groups, i, r.handle, gid);
    var back := Kept(d.groups[i := Joined(gid, r.handle)], r.keep);
    KeptTraffic(d.groups[i := Joined(gid, r.handle)], r.keep, gid);
    ClipSplits(back, gid);
    assert ([] + back) == back && Newest(back) + [] == Newest(back);
  }

  // Traffic of a group that is not joined yet

  /**
   * What waits for a group that is not joined survives a step if and only if there is none, the step
   * does not drain, or it is a `join_pending` that clips none of it and finds a Welcome for the group
   * that the engine accepts.
   */
  lemma UnjoinedSurvivesExactly<H>(mls: Mls<H>, d: Daemon<H>, a: Act<H>, gid: GroupId)
    requires !InGroup(d.groups, gid)
    ensures Traffic(Pending(Next(mls, d, a)), gid) == Traffic(Pending(d) + Arrived(a), gid)
       <==> || Traffic(Pending(d) + Arrived(a), gid) == []
            || !Drains(d, a)
            || (a.JoinAll? && Welcomed(Pending(d), gid, a.welcomes) && Traffic(Clipped(mls, d, a), gid) == [])
  {
    hide Traffic, Sift, Kept, AdmitAll, WelcomeAt, PutBack, Clipped, Welcomed;
    StepConserves(mls, d, a, gid);
    if a.JoinAll? { AdmitsExactly(d.groups, Pending(d), a.welcomes, gid); }
    if Drains(d, a) {
      assert Pending(d) + [] == Pending(d);
      if a.PollGroup? {
        var i := Find(d.groups, a.gid);
        SameGroups(d.groups, i, Sift(mls, d.groups[i].handle, a.gid, Pending(d)).handle, gid);
      }
    }
  }

  /**
   * `join_group` keeps its group's waiting traffic exactly when there is none, or the group was joined
   * already and nothing of it is clipped.
   */
  lemma JoinGroupBatch<H>(mls: Mls<H>, d: Daemon<H>, gid: GroupId, join: Blob -> Option<H>)
    ensures Traffic(Pending(JoinGroup(d, gid, join)), gid) == Traffic(Pending(d), gid)
       <==> || Traffic(Pending(d), gid) == []
            || (InGroup(d.groups, gid) && Traffic(Clipped(mls, d, Join(gid, join)), gid) == [])
  {
    hide Traffic, PutBack, JoinGroup, Clipped;
    StepConserves(mls, d, Join(gid, join), gid);
    assert Pending(d) + [] == Pending(d);
  }

  /**
   * `join_pending` records its joins first, so it keeps the traffic of every group it ends up in, but
   * for what the cap drops.
   */
  lemma JoinPendingKeepsBatch<H>(mls: Mls<H>, d: Daemon<H>, join: Envelope -> Option<H>, gid: GroupId)
    requires InGroup(JoinPending(d, join).groups, gid)
    ensures Traffic(Pending(d), gid)
            == Traffic(Clipped(mls, d, JoinAll(join)), gid) + Traffic(Pending(JoinPending(d, join)), gid)
  {
    hide Traffic, PutBack, JoinPending, Clipped;
    StepConserves(mls, d, JoinAll(join), gid);
    assert Pending(d) + [] == Pending(d);
    var t := Traffic(Clipped(mls, d, JoinAll(join)), gid);
    assert [] + t == t;
  }

  /**
   * A message delivered in the same batch as its group's Welcome is lost by `join_group`, lost by a poll
   * of another group even though the Welcome stays, and kept by `join_pending`.
   */
  lemma BatchWithWelcome<H>(mls: Mls<H>, welcome: Envelope, message: Envelope, h: H, gid: GroupId, other: GroupId)
    requires welcome.kind == Welcome && message.kind == Application
             && welcome.groupId == message.groupId == gid != other
    ensures var d, join := Daemon([], [welcome, message], [Joined(other, h)]), _ => Some(h);
            && InGroup(JoinGroup(d, gid, join).groups, gid) && Pending(JoinGroup(d, gid, join)) == []
            && Poll(mls, d, other).reply == Ok([]) && Pending(Poll(mls, d, other).daemon) == [welcome]
            && InGroup(JoinPending(d, _ => Some(h)).groups, gid) && Pending(JoinPending(d, _ => Some(h))) == [message]
  {
    var d: Daemon<H> := Daemon([], [welcome, message], [Joined(other, h)]);
    assert Pending(d) == [welcome, message] && [welcome, message][1..] == [message] && [message][1..] == [];
    BatchJoined(welcome, message, h, gid, other);
    BatchPolled(mls, welcome, message, h, gid, other);
    BatchAdmitted(welcome, message, h, gid, other);
  }

  lemma BatchJoined<H>(welcome: Envelope, message: Envelope, h: H, gid: GroupId, other: GroupId)
    requires welcome.kind == Welcome && message.kind == Application
             && welcome.groupId == message.groupId == gid != other
    ensures var d, join := Daemon([], [welcome, message], [Joined(other, h)]), _ => Some(h);
            InGroup(JoinGroup(d, gid, join).groups, gid) && Pending(JoinGroup(d, gid, join)) == []
  {
    var d: Daemon<H> := Daemon([], [welcome, message], [Joined(other, h)]);
    assert Pending(d) == [welcome, message] && Without([welcome, message], 0) == [message] && [message][..0] == [];
    assert !Usable(d.groups, message) && Kept(d.groups, [message]) == Kept(d.groups, []);
    assert (d.groups + [Joined(gid, h)])[1].id == gid;
  }

  lemma BatchPolled<H>(mls: Mls<H>, welcome: Envelope, message: Envelope, h: H, gid: GroupId, other: GroupId)
    requires welcome.kind == Welcome && message.kind == Application
             && welcome.groupId == message.groupId == gid != other
    ensures var d := Daemon([], [welcome, message], [Joined(other, h)]);
            Poll(mls, d, other).reply == Ok([]) && Pending(Poll(mls, d, other).daemon) == [welcome]
  {
    var d: Daemon<H> := Daemon([], [welcome, message], [Joined(other, h)]);
    var all := [welcome, message];
    assert Pending(d) == all && all[1..] == [message] && [message][1..] == [] && d.groups[0].id == other;
    SiftHead(mls, h, other, [message]);
    SiftHead(mls, h, other, all);
    assert Sift(mls, h, other, []) == Sifted(h, [], [], None);
    assert [message] + [] == [message] && [welcome] + [message] == all;
    assert all[..1] == [welcome] && !Usable(d.groups, message);
    KeptOne(d.groups, welcome);
    assert Kept(d.groups, all) == [welcome] && [] + [welcome] + [] == [welcome];
    assert Find(d.groups, other) == 0 && d.groups[0 := Joined(other, h)] == d.groups;
  }

  lemma BatchAdmitted<H>(welcome: Envelope, message: Envelope, h: H, gid: GroupId, other: GroupId)
    requires welcome.kind == Welcome && message.kind == Application
             && welcome.groupId == message.groupId == gid != other
    ensures var d := Daemon([], [welcome, message], [Joined(other, h)]);
            InGroup(JoinPending(d, _ => Some(h)).groups, gid) && Pending(JoinPending(d, _ => Some(h))) == [message]
  {
    var d: Daemon<H> := Daemon([], [welcome, message], [Joined(other, h)]);
    var all, seated := [welcome, message], d.groups + [Joined(gid, h)];
    assert Pending(d) == all && all[1..] == [message] && [message][1..] == [] && [message][..0] == [];
    assert seated[1].id == gid;
    assert AdmitAll(seated, [message], _ => Some(h)) == Admission(seated, [message]);
    assert AdmitAll(d.groups, all, _ => Some(h)) == Admission(seated, [message]);
    assert Usable(seated, message) && Kept(seated, [message]) == Kept(seated, []) + [message];
    assert [] + [message] + [] == [message];
  }

  // The daemon as it runs

  class MemberDaemon<H> {
    const mls: Mls<H>
    var inbox: seq<Envelope>
    var mailbox: seq<Envelope>
    var groups: seq<Joined<H>>

    constructor (engine: Mls<H>)
      ensures mls == engine && View() == Daemon([], [], [])
    {
      mls, inbox, mailbox, groups := engine, [], [], [];
    }

    ghost function View(): Daemon<H>
      reads this
    {
      Daemon(inbox, mailbox, groups)
    }

    /** Drain everything waiting: the buffer, then what the relay has delivered since. */
    method TakeInbox() returns (all: seq<Envelope>)
      modifies this`inbox, this`mailbox
      ensures all == Pending(old(View())) && inbox == [] && mailbox == []
    {
      all := inbox;
      inbox := [];
      all := all + mailbox;
      mailbox := [];
    }

    method Stash(envelopes: seq<Envelope>)
      modifies this`inbox
      ensures View() == Stashed(old(View()), envelopes)
    {
      hide InGroup;
      ghost var before := inbox;
      var kept: seq<Envelope> := [];
      for i := 0 to |envelopes|
        invariant kept == Kept(groups, envelopes[..i])
      {
        assert envelopes[..i + 1][..i] == envelopes[..i];
        if Usable(groups, envelopes[i]) {
          kept := kept + [envelopes[i]];
        }
      }
      assert envelopes[..|envelopes|] == envelopes;
      inbox := inbox + kept;
      if |inbox| > INBOX_CAP {
        var excess := |inbox| - INBOX_CAP;
        inbox := inbox[excess..];
      }
    }

    /** One group's envelopes are consumed in order; the others, and what follows a failure, are put back. */
    method PollMessages(gid: GroupId) returns (r: Result<seq<Message>, DaemonError>)
      modifies this
      ensures Polled(View(), r) == Poll(mls, old(View()), gid)
    {
      hide Sift, Stashed;
      if !InGroup(groups, gid) {
        return Err(NoGroup);
      }
      var at := Find(groups, gid);
      var envelopes := TakeInbox();
      var sifted := SiftLoop(mls, groups[at].handle, gid, envelopes);
      groups := groups[at := Joined(gid, sifted.handle)];
      Stash(sifted.keep);
      r := if sifted.failure.Some? then Err(sifted.failure.value) else Ok(sifted.out);
    }

    method JoinNamed(gid: GroupId, join: Blob -> Option<H>) returns (r: Result<(), DaemonError>)
      modifies this
      ensures View() == JoinGroup(old(View()), gid, join)
      ensures r == JoinReply(Pending(old(View())), gid, join)
      ensures r.Ok? ==> InGroup(groups, gid)
    {
      hide Stashed;
      var all := TakeInbox();
      var pos := FindWelcome(all, gid);
      if pos.None? {
        Stash(all);
        return Err(NoWelcome);
      }
      var welcome := all[pos.value];
      all := all[..pos.value] + all[pos.value + 1..];
      Stash(all);
      var joined := join(welcome.ciphertext);
      if joined.Some? {
        groups := groups + [Joined(gid, joined.value)];
        assert groups[|groups| - 1].id == gid;
        r := Ok(());
      } else {
        Stash([welcome]);
        r := Err(JoinFailure);
      }
    }

    /** Every group with a pending Welcome; an error only when nothing could be joined. */
    method JoinEverything(join: Envelope -> Option<H>) returns (r: Result<seq<GroupId>, DaemonError>)
      modifies this
      ensures View() == JoinPending(old(View()), join)
      ensures r.Ok? ==> Ids(groups) == Ids(old(groups)) + r.value
      ensures r.Err? <==> groups == old(groups) && AnyFails(old(groups), Pending(old(View())), join)
    {
      hide Stashed;
      var all := TakeInbox();
      var joined: seq<GroupId>, failed := [], false;
      var rest: seq<Envelope> := [];
      ghost var start := groups;
      for i := 0 to |all|
        invariant inbox == [] && mailbox == [] && start <= groups
        invariant Ids(groups) == Ids(start) + joined
        invariant joined == [] ==> groups == start
        invariant joined == [] ==> failed == AnyFails(start, all[..i], join)
        invariant AdmitAll(start, all, join) == var t := AdmitAll(groups, all[i..], join); t.(rest := rest + t.rest)
      {
        var e := all[i];
        assert all[i..][0] == e && all[i..][1..] == all[i + 1..];
        assert all[..i + 1] == all[..i] + [e];
        assert AnyFails(start, all[..i + 1], join) == (AnyFails(start, all[..i], join) || Fails(start, e, join));
        if e.kind != Welcome || InGroup(groups, e.groupId) {
          ghost var t := AdmitAll(groups, all[i + 1..], join);
          assert rest + ([e] + t.rest) == (rest + [e]) + t.rest;
          rest := rest + [e];
        } else {
          var h := join(e);
          if h.Some? {
            var longer := groups + [Joined(e.groupId, h.value)];
            GroupsGrow(start, groups, e.groupId);
            forall gid ensures InGroup(groups, gid) ==> InGroup(longer, gid) { GroupsGrow(groups, longer, gid); }
            assert longer[|groups|].id == e.groupId;
            groups := longer;
            joined := joined + [e.groupId];
          } else {
            failed := true;
          }
        }
      }
      assert rest + [] == rest && all[..|all|] == all;
      Stash(rest);
      r := if joined == [] && failed then Err(JoinFailure) else Ok(joined);
    }
  }

  method FindWelcome(envelopes: seq<Envelope>, gid: GroupId) returns (pos: Option<nat>)
    ensures pos == WelcomeAt(envelopes, gid)
  {
    for i := 0 to |envelopes|
      invariant WelcomeAt(envelopes, gid) ==
                var t := WelcomeAt(envelopes[i..], gid); if t.None? then None else Some(i + t.value)
    {
      assert envelopes[i..][0] == envelopes[i] && envelopes[i..][1..] == envelopes[i + 1..];
      if envelopes[i].kind == Welcome && envelopes[i].groupId == gid {
        return Some(i);
      }
    }
    pos := None;
  }

  /** What a sift started with `keep` and `out` already gathered comes to. */
  function Gathered<H>(keep: seq<Envelope>, out: seq<Message>, s: Sifted<H>): Sifted<H>
  {
    s.(keep := keep + s.keep, out := if s.failure.None? then out + s.out else [])
  }

  method SiftLoop<H>(mls: Mls<H>, start: H, gid: GroupId, envelopes: seq<Envelope>) returns (r: Sifted<H>)
    ensures r.handle == Sift(mls, start, gid, envelopes).handle && r.keep == Sift(mls, start, gid, envelopes).keep
    ensures r.failure == Sift(mls, start, gid, envelopes).failure
    ensures r.failure.None? ==> r.out == Sift(mls, start, gid, envelopes).out
  {
    var h, out, keep := start, [], [];
    GatheredNothing(Sift(mls, start, gid, envelopes));
    for i := 0 to |envelopes|
      invariant Gathered([], [], Sift(mls, start, gid, envelopes))
                == Gathered(keep, out, Sift(mls, h, gid, envelopes[i..]))
    {
      var e, rest := envelopes[i], envelopes[i + 1..];
      assert envelopes[i..][0] == e && envelopes[i..][1..] == rest;
      if e.groupId != gid {
        ghost var t := Sift(mls, h, gid, rest);
        assert keep + ([e] + t.keep) == (keep + [e]) + t.keep;
        keep := keep + [e];
      } else if e.kind == Commit {
        var next := mls.commit(h, e.ciphertext);
        if next.None? {
          return Sifted(h, [], keep + rest, Some(MlsFailure));
        }
        h := next.value;
      } else if e.kind == Application {
        var next := mls.receive(h, e.ciphertext);
        if next.None? {
          return Sifted(h, [], keep + rest, Some(MlsFailure));
        }
        h := next.value.handle;
        if next.value.body.None? {
          return Sifted(h, [], keep + rest, Some(BadUtf8));
        }
        if next.value.sender.None? {
          return Sifted(h, [], keep + rest, Some(BadIdentity));
        }
        var m := Message(gid, next.value.sender.value, next.value.body.value);
        ghost var t := Sift(mls, h, gid, rest);
        assert out + ([m] + t.out) == (out + [m]) + t.out;
        out := out + [m];
      }
    }
    assert keep + [] == keep && out + [] == out;
    r := Sifted(h, out, keep, None);
  }

  lemma GatheredNothing<H>(s: Sifted<H>)
    ensures Gathered([], [], s).keep == s.keep && (s.failure.None? ==> Gathered([], [], s) == s)
  {
    assert [] + s.keep == s.keep && [] + s.out == s.out;
  }
}
