/** Durability: reopening the store rebuilds the relay, so restarts lose only the volatile parts. */
module Durability {
  import opened Common
  import opened Bytes
  import opened Table
  import opened Proto
  import opened Audit
  import opened RelayState
  import opened StoreLayout
  import opened RelaySteps
  import opened RelayOrder

  // Reading the store back

  function Backfilled(groups: map<GroupId, Group>, records: seq<Record>): map<GroupId, Group>
  {
    map gid | gid in groups ::
      if groups[gid].creator.None? then groups[gid].(creator := FirstCreator(records, gid)) else groups[gid]
  }

  /** `DeliveryService::open`: replay every column family of the store. */
  ghost function Open(c: Crypto, d: Store, domain: string, owner: Wallet, genesis: nat): Result<Relay, RelayError>
  {
    var records := Values(Scan(d.audit));
    if records != [] && Walk(c.link, records, 0).Err? then Err(AuditBroken(Walk(c.link, records, 0).error))
    else if !WideRows(Scan(d.membership), 32) then Err(CorruptKey)
    else if !Prefixed(Scan(d.envelopes)) then Err(CorruptKey)
    else if !WideRows(Scan(d.keyPackages), 20) then Err(CorruptKey)
    else if !WideRows(Scan(d.invites), 32) then Err(CorruptKey)
    else if !WideRows(Scan(d.referrals), 8) then Err(CorruptKey)
    else
      var chain := if records == [] then Started(c.link, genesis) else records;
      var store := if records == [] then PutAudit(Some(d), chain[0]) else Some(d);
      Ok(Relay(domain, owner, map[], AsDirectory(d.keyPackages), map[], AsInvites(d.invites),
               Ledger(SortRows(Numbered(Scan(d.referrals)))),
               WithLogs(Backfilled(AsGroups(d.membership), records), Scan(d.envelopes)),
               map[], {}, chain, store))
  }

  /** A store is refused exactly when its stored chain is broken, or a key has not the width of its column family. */
  lemma OpenRefusesExactly(c: Crypto, d: Store, domain: string, owner: Wallet, genesis: nat)
    ensures Open(c, d, domain, owner, genesis).Err?
       <==> || !Valid(c.link, Values(Scan(d.audit)))
            || (exists k :: k in d.membership && |k| != 32) || (exists k :: k in d.envelopes && |k| < 32)
            || (exists k :: k in d.keyPackages && |k| != 20) || (exists k :: k in d.invites && |k| != 32)
            || (exists k :: k in d.referrals && |k| != 8)
  {
    hide Scan, Walk, Valid, WithLogs, AsGroups, AsDirectory, AsInvites, Backfilled, SortRows, BigEndian, Values,
         WideRows, Prefixed;
    var records := Values(Scan(d.audit));
    WalkExactly(c.link, records, 0);
    if records == [] { EmptyIsValid(c); }
    WidthsExactly(d.membership, 32);
    WidthsExactly(d.keyPackages, 20);
    WidthsExactly(d.invites, 32);
    WidthsExactly(d.referrals, 8);
    PrefixesExactly(d.envelopes);
  }

  lemma EmptyIsValid(c: Crypto)
    ensures Valid(c.link, [])
  {
  }

  lemma WidthsExactly<V>(table: map<Blob, V>, width: nat)
    ensures WideRows(Scan(table), width) <==> forall k :: k in table ==> |k| == width
  {
    hide Scan;
    ScanLists(table);
    forall k | k in table ensures exists i :: 0 <= i < |Scan(table)| && Scan(table)[i].0 == k {}
  }

  lemma PrefixesExactly(table: map<Blob, Envelope>)
    ensures Prefixed(Scan(table)) <==> forall k :: k in table ==> |k| >= 32
  {
    hide Scan;
    ScanLists(table);
    forall k | k in table ensures exists i :: 0 <= i < |Scan(table)| && Scan(table)[i].0 == k {}
  }

  // What the store holds of a running relay

  /** A list kept under its indices. */
  ghost predicate Indexed<V>(table: map<Blob, V>, list: seq<V>)
  {
    && (forall i :: 0 <= i < |list| ==> BigEndian(i, 8) in table && table[BigEndian(i, 8)] == list[i])
    && (forall k :: k in table ==> Value(k) < |list| && k == BigEndian(Value(k), 8))
  }

  function Bare(groups: map<GroupId, Group>): map<GroupId, Group>
  {
    map gid | gid in groups :: groups[gid].(log := [])
  }

  ghost predicate HoldsRosters(table: map<Blob, GroupSnapshot>, groups: map<GroupId, Group>)
  {
    Wide(table, 32) && AsGroups(table) == Bare(groups)
  }

  /** Every log entry under its sequence key, and nothing else. */
  ghost predicate HoldsLogs(table: map<Blob, Envelope>, groups: map<GroupId, Group>)
  {
    && (forall gid, i :: gid in groups && 0 <= i < |groups[gid].log| ==>
          SeqKey(gid.bytes, i) in table && table[SeqKey(gid.bytes, i)] == groups[gid].log[i])
    && (forall k :: k in table ==> HasPlace(k, groups))
  }

  predicate HasPlace(k: Blob, groups: map<GroupId, Group>)
  {
    && |k| == 40 && GroupId(k[..32]) in groups
    && Value(k[32..]) < |groups[GroupId(k[..32])].log| && k == SeqKey(k[..32], Value(k[32..]))
  }

  ghost predicate Mirrors(d: Store, s: Relay)
  {
    && Indexed(d.audit, s.audit)
    && Indexed(d.referrals, s.referrals)
    && HoldsRosters(d.membership, s.groups)
    && HoldsLogs(d.envelopes, s.groups)
    && Wide(d.keyPackages, 20) && AsDirectory(d.keyPackages) == s.keyPackages
    && Wide(d.invites, 32) && AsInvites(d.invites) == s.invites
  }

  ghost predicate Mirrored(s: Relay)
  {
    s.store.Some? ==> Mirrors(s.store.value, s)
  }

  /** No vector is longer than a vector can be. */
  ghost predicate Fits(s: Relay)
  {
    && |s.audit| <= VEC_MAX && |s.referrals| <= VEC_MAX
    && forall gid :: gid in s.groups ==> |s.groups[gid].log| <= VEC_MAX
  }

  // Reopening

  lemma NothingStored()
    ensures AsGroups(map[]) == Bare(map[])
    ensures Indexed<Referral>(map[], [])
  {
    EmptyTables();
    assert Bare(map[]) == map[];
  }

  lemma IndexedScan<V>(table: map<Blob, V>, list: seq<V>)
    requires Indexed(table, list) && |list| <= VEC_MAX
    ensures Values(Scan(table)) == list
    ensures forall i :: 0 <= i < |list| ==> Scan(table)[i] == (BigEndian(i, 8), list[i])
  {
    hide BigEndian, Value, Less, Scan;
    var rows := seq(|list|, i requires 0 <= i < |list| => (BigEndian(i, 8), list[i]));
    forall i, j | 0 <= i < j < |rows| ensures Less(rows[i].0, rows[j].0) {
      SeqKeyOrder([], i, j);
      assert SeqKey([], i) == rows[i].0 && SeqKey([], j) == rows[j].0;
    }
    forall k | k in table ensures exists i :: 0 <= i < |rows| && rows[i].0 == k {
      assert rows[Value(k)].0 == k;
    }
    ScanIs(rows, table);
  }

  lemma {:induction false} RowsUnderExactly(rows: seq<(Blob, Envelope)>, gid: GroupId)
    requires Ascending(rows)
    ensures Ascending(RowsUnder(rows, gid))
    ensures forall x :: x in RowsUnder(rows, gid) <==> x in rows && Under(x.0, gid)
  {
    if rows != [] {
      var rest, row := rows[..|rows| - 1], rows[|rows| - 1];
      RowsUnderExactly(rest, gid);
      assert rows == rest + [row];
      var under := RowsUnder(rest, gid);
      forall i | 0 <= i < |under| ensures Less(under[i].0, row.0) {
        assert under[i] in rest;
      }
    }
  }

  /** The rows under a group are its log, in sequence order. */
  lemma LogIsRebuilt(table: map<Blob, Envelope>, groups: map<GroupId, Group>, gid: GroupId)
    requires HoldsLogs(table, groups) && gid in groups && |groups[gid].log| <= VEC_MAX
    ensures Values(RowsUnder(Scan(table), gid)) == groups[gid].log
  {
    hide BigEndian, Value, Less, Scan, SeqKey, RowsUnder, HoldsLogs;
    var log := groups[gid].log;
    var mine := map k | k in table && Under(k, gid) :: table[k];
    var rows := seq(|log|, i requires 0 <= i < |log| => (SeqKey(gid.bytes, i), log[i]));
    ScanLists(table);
    RowsUnderExactly(Scan(table), gid);
    UnderLists(table, mine, gid);
    LogRowsList(table, mine, groups, gid, rows);
    ScanIsUnique(RowsUnder(Scan(table), gid), rows, mine);
    assert Values(rows) == log;
  }

  lemma LogRowsList(table: map<Blob, Envelope>, mine: map<Blob, Envelope>, groups: map<GroupId, Group>, gid: GroupId,
                    rows: seq<(Blob, Envelope)>)
    requires HoldsLogs(table, groups) && gid in groups && |rows| == |groups[gid].log| <= VEC_MAX
    requires forall i :: 0 <= i < |rows| ==> rows[i] == (SeqKey(gid.bytes, i), groups[gid].log[i])
    requires mine == map k | k in table && Under(k, gid) :: table[k]
    ensures Ascending(rows) && Lists(rows, mine)
  {
    hide BigEndian, Value, Less, SeqKey;
    forall i, j | 0 <= i < j < |rows| ensures Less(rows[i].0, rows[j].0) {
      SeqKeyOrder(gid.bytes, i, j);
    }
    forall i | 0 <= i < |rows| ensures rows[i].0 in mine && mine[rows[i].0] == rows[i].1 {
      SeqKeyParts(gid.bytes, i);
    }
    forall k | k in mine ensures exists i :: 0 <= i < |rows| && rows[i].0 == k {
      assert HasPlace(k, groups);
      assert rows[Value(k[32..])].0 == k;
    }
  }

  lemma UnderLists(table: map<Blob, Envelope>, mine: map<Blob, Envelope>, gid: GroupId)
    requires mine == map k | k in table && Under(k, gid) :: table[k]
    requires Lists(Scan(table), table)
    requires forall x :: x in RowsUnder(Scan(table), gid) <==> x in Scan(table) && Under(x.0, gid)
    ensures Lists(RowsUnder(Scan(table), gid), mine)
  {
    var all, under := Scan(table), RowsUnder(Scan(table), gid);
    forall i | 0 <= i < |under| ensures under[i].0 in mine && mine[under[i].0] == under[i].1 {
      assert under[i] in all;
    }
    forall k | k in mine ensures exists i :: 0 <= i < |under| && under[i].0 == k {
      var j :| 0 <= j < |all| && all[j].0 == k;
      assert all[j] in under;
    }
  }

  lemma WideScan<V>(table: map<Blob, V>, width: nat)
    requires Wide(table, width)
    ensures WideRows(Scan(table), width)
  {
    ScanLists(table);
  }

  lemma LedgerIsRebuilt(table: map<Blob, Referral>, list: seq<Referral>)
    requires Indexed(table, list) && |list| <= VEC_MAX
    ensures WideRows(Scan(table), 8)
    ensures Ledger(SortRows(Numbered(Scan(table)))) == list
  {
    IndexedScan(table, list);
    var rows := Numbered(Scan(table));
    forall i | 0 <= i < |rows| ensures rows[i] == (i, list[i]) {
      U64Value(i);
    }
    SortedStays(rows);
  }

  lemma BackfillIsIdle(groups: map<GroupId, Group>, records: seq<Record>)
    requires forall gid :: gid in groups ==> groups[gid].creator.Some?
    ensures Backfilled(Bare(groups), records) == Bare(groups)
  {
  }

  lemma LogsAreRebuilt(table: map<Blob, Envelope>, groups: map<GroupId, Group>)
    requires HoldsLogs(table, groups)
    requires forall gid :: gid in groups ==> |groups[gid].log| <= VEC_MAX
    ensures WithLogs(Bare(groups), Scan(table)) == groups
  {
    hide Scan, HoldsLogs, RowsUnder;
    forall gid | gid in groups
      ensures Bare(groups)[gid].(log := Bare(groups)[gid].log + Values(RowsUnder(Scan(table), gid))) == groups[gid]
    {
      LogIsRebuilt(table, groups, gid);
      assert [] + groups[gid].log == groups[gid].log;
    }
  }

  lemma PrefixedScan(table: map<Blob, Envelope>, groups: map<GroupId, Group>)
    requires HoldsLogs(table, groups)
    ensures Prefixed(Scan(table))
  {
    hide Scan;
    ScanLists(table);
    forall k | k in table ensures |k| >= 32 { assert HasPlace(k, groups); }
  }

  /** A store that mirrors the relay, but whose rosters read back only after the backfill. */
  ghost predicate Recoverable(d: Store, s: Relay)
  {
    && Indexed(d.audit, s.audit)
    && Indexed(d.referrals, s.referrals)
    && Wide(d.membership, 32) && Backfilled(AsGroups(d.membership), s.audit) == Bare(s.groups)
    && HoldsLogs(d.envelopes, s.groups)
    && Wide(d.keyPackages, 20) && AsDirectory(d.keyPackages) == s.keyPackages
    && Wide(d.invites, 32) && AsInvites(d.invites) == s.invites
  }

  lemma OpenRebuilds(c: Crypto, s: Relay, d: Store, genesis: nat)
    requires Walk(c.link, s.audit, 0).Ok? && Recoverable(d, s) && Fits(s)
    ensures Open(c, d, s.domain, s.owner, genesis) == Ok(Restarted(s).(store := Some(d)))
  {
    hide Scan, Walk, SortRows, Backfilled, WithLogs, Indexed, AsGroups, Bare, HoldsLogs, AsDirectory, AsInvites,
         Prefixed;
    IndexedScan(d.audit, s.audit);
    WideScan(d.membership, 32);
    WideScan(d.keyPackages, 20);
    WideScan(d.invites, 32);
    LedgerIsRebuilt(d.referrals, s.referrals);
    LogsAreRebuilt(d.envelopes, s.groups);
    PrefixedScan(d.envelopes, s.groups);
  }

  /** Reopening the store of a running relay gives that relay back, with only its volatile parts reset. */
  lemma ReopenRebuilds(c: Crypto, s: Relay, genesis: nat)
    requires Inv(c, s) && s.store.Some? && Mirrored(s) && Fits(s)
    ensures Open(c, s.store.value, s.domain, s.owner, genesis) == Ok(Restarted(s))
  {
    hide Scan, Open, Indexed, HoldsLogs, Consistent;
    ChainIsAccepted(c, s);
    BackfillIsIdle(s.groups, s.audit);
    OpenRebuilds(c, s, s.store.value, genesis);
  }

  /** The same store as written before snapshots carried a creator. */
  function Legacy(d: Store): Store
  {
    d.(membership := map k | k in d.membership :: d.membership[k].(creator := None))
  }

  /** The audit chain restores the creators a legacy store lacks, so it reopens to the same groups. */
  lemma LegacyReopenRebuilds(c: Crypto, s: Relay, genesis: nat)
    requires Inv(c, s) && s.store.Some? && Mirrored(s) && Fits(s)
    ensures var d := Legacy(s.store.value);
            Open(c, d, s.domain, s.owner, genesis) == Ok(Restarted(s).(store := Some(d)))
  {
    hide Scan, Open, Indexed, HoldsLogs, Valid, Ordered;
    var d := Legacy(s.store.value);
    ChainIsAccepted(c, s);
    LegacyBackfill(c, s);
    OpenRebuilds(c, s, d, genesis);
  }

  lemma LegacyBackfill(c: Crypto, s: Relay)
    requires Inv(c, s) && s.store.Some? && HoldsRosters(s.store.value.membership, s.groups)
    ensures var m := Legacy(s.store.value).membership; Wide(m, 32) && Backfilled(AsGroups(m), s.audit) == Bare(s.groups)
  {
    hide FirstCreator, Receipts, ReceiptsFor, Valid, Ordered;
    var table, m := s.store.value.membership, Legacy(s.store.value).membership;
    var found := Backfilled(AsGroups(m), s.audit);
    assert AsGroups(m).Keys == AsGroups(table).Keys;
    forall gid | gid in s.groups ensures gid in found && found[gid] == Bare(s.groups)[gid] {
      assert Agrees(c, s.audit, s.groups, gid);
      assert gid in AsGroups(table) && AsGroups(table)[gid] == Bare(s.groups)[gid];
      assert AsGroups(m)[gid] == AsGroups(table)[gid].(creator := None);
    }
  }

  lemma ChainIsAccepted(c: Crypto, s: Relay)
    requires Inv(c, s)
    ensures Walk(c.link, s.audit, 0).Ok?
    ensures forall gid :: gid in s.groups ==> s.groups[gid].creator.Some?
  {
    WalkExactly(c.link, s.audit, 0);
    forall gid | gid in s.groups ensures s.groups[gid].creator.Some? { assert Agrees(c, s.audit, s.groups, gid); }
  }
}
