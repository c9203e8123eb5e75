/** How the store lays its column families out, and how each is read back into memory. */
module StoreLayout {
  import opened Common
  import opened Bytes
  import opened Table
  import opened Proto
  import opened RelayState

  function Values<V>(rows: seq<(Blob, V)>): (vs: seq<V>)
    ensures |vs| == |rows|
    ensures forall i :: 0 <= i < |rows| ==> vs[i] == rows[i].1
  {
    seq(|rows|, i requires 0 <= i < |rows| => rows[i].1)
  }

  predicate Wide<V>(table: map<Blob, V>, width: nat)
  {
    forall k :: k in table ==> |k| == width
  }

  predicate WideRows<V>(rows: seq<(Blob, V)>, width: nat)
  {
    forall i :: 0 <= i < |rows| ==> |rows[i].0| == width
  }

  /** Every envelope key is long enough to name a group. */
  predicate Prefixed(rows: seq<(Blob, Envelope)>)
  {
    forall i :: 0 <= i < |rows| ==> |rows[i].0| >= 32
  }

  function AsGroups(table: map<Blob, GroupSnapshot>): map<GroupId, Group>
  {
    map k | k in table && |k| == 32 :: GroupId(k) := FromSnapshot(table[k])
  }

  function AsDirectory(table: map<Blob, seq<Publication>>): map<Wallet, seq<Publication>>
  {
    map k | k in table && |k| == 20 :: Wallet(k) := table[k]
  }

  function AsInvites(table: map<Blob, Invite>): map<Digest, Invite>
  {
    map k | k in table && |k| == 32 :: Digest(k) := table[k]
  }

  lemma DirectoryPut(table: map<Blob, seq<Publication>>, w: Wallet, queue: seq<Publication>)
    ensures AsDirectory(table[w.bytes := queue]) == AsDirectory(table)[w := queue]
  {
    var after, wanted := AsDirectory(table[w.bytes := queue]), AsDirectory(table)[w := queue];
    forall x: Wallet ensures x in after <==> x in wanted {
      assert x == Wallet(x.bytes);
    }
  }

  lemma InvitesPut(table: map<Blob, Invite>, th: Digest, invite: Invite)
    ensures AsInvites(table[th.bytes := invite]) == AsInvites(table)[th := invite]
  {
    var after, wanted := AsInvites(table[th.bytes := invite]), AsInvites(table)[th := invite];
    forall x: Digest ensures x in after <==> x in wanted {
      assert x == Digest(x.bytes);
    }
  }

  lemma GroupsPut(table: map<Blob, GroupSnapshot>, gid: GroupId, snapshot: GroupSnapshot)
    ensures AsGroups(table[gid.bytes := snapshot]) == AsGroups(table)[gid := FromSnapshot(snapshot)]
  {
    var after, wanted := AsGroups(table[gid.bytes := snapshot]), AsGroups(table)[gid := FromSnapshot(snapshot)];
    forall x: GroupId ensures x in after <==> x in wanted {
      assert x == GroupId(x.bytes);
    }
  }

  predicate Under(k: Blob, gid: GroupId)
  {
    |k| >= 32 && k[..32] == gid.bytes
  }

  /** The rows of one group's envelopes, in scan order. */
  function RowsUnder(rows: seq<(Blob, Envelope)>, gid: GroupId): seq<(Blob, Envelope)>
  {
    if rows == [] then []
    else
      var rest, row := RowsUnder(rows[..|rows| - 1], gid), rows[|rows| - 1];
      if Under(row.0, gid) then rest + [row] else rest
  }

  /** Each row pushed onto the log of its group; rows of unknown groups are skipped. */
  function WithLogs(groups: map<GroupId, Group>, rows: seq<(Blob, Envelope)>): map<GroupId, Group>
  {
    map gid | gid in groups :: groups[gid].(log := groups[gid].log + Values(RowsUnder(rows, gid)))
  }

  /** Stable insertion by index. */
  function InsertRow<V>(rows: seq<(nat, V)>, row: (nat, V)): seq<(nat, V)>
  {
    if rows != [] && rows[|rows| - 1].0 > row.0 then InsertRow(rows[..|rows| - 1], row) + [rows[|rows| - 1]]
    else rows + [row]
  }

  function SortRows<V>(rows: seq<(nat, V)>): seq<(nat, V)>
  {
    if rows == [] then [] else InsertRow(SortRows(rows[..|rows| - 1]), rows[|rows| - 1])
  }

  predicate Sorted<V>(rows: seq<(nat, V)>)
  {
    forall i, j :: 0 <= i < j < |rows| ==> rows[i].0 <= rows[j].0
  }

  lemma {:induction false} InsertRowKeeps<V>(rows: seq<(nat, V)>, row: (nat, V))
    ensures multiset(InsertRow(rows, row)) == multiset(rows) + multiset{row}
  {
    if rows != [] && rows[|rows| - 1].0 > row.0 {
      InsertRowKeeps(rows[..|rows| - 1], row);
      assert rows == rows[..|rows| - 1] + [rows[|rows| - 1]];
    }
  }

  predicate Below<V>(rows: seq<(nat, V)>, bound: nat)
  {
    forall i :: 0 <= i < |rows| ==> rows[i].0 <= bound
  }

  lemma {:induction false} InsertRowSorts<V>(rows: seq<(nat, V)>, row: (nat, V), bound: nat)
    requires Sorted(rows) && row.0 <= bound && Below(rows, bound)
    ensures Sorted(InsertRow(rows, row)) && Below(InsertRow(rows, row), bound)
  {
    if rows != [] && rows[|rows| - 1].0 > row.0 {
      InsertRowSorts(rows[..|rows| - 1], row, rows[|rows| - 1].0);
    }
  }

  lemma SortedInsert<V>(rows: seq<(nat, V)>, row: (nat, V))
    requires Sorted(rows)
    ensures Sorted(InsertRow(rows, row))
  {
    hide InsertRow;
    var top := if rows == [] then 0 else rows[|rows| - 1].0;
    InsertRowSorts(rows, row, if top < row.0 then row.0 else top);
  }

  /** The sort sorts: ascending indices, and the same rows with the same multiplicity. */
  lemma {:induction false} SortRowsSorts<V>(rows: seq<(nat, V)>)
    ensures Sorted(SortRows(rows)) && multiset(SortRows(rows)) == multiset(rows)
  {
    hide InsertRow, Sorted;
    if rows == [] {
      NothingSorted<V>();
    } else {
      var rest, row := rows[..|rows| - 1], rows[|rows| - 1];
      SortRowsSorts(rest);
      SortedInsert(SortRows(rest), row);
      InsertRowKeeps(SortRows(rest), row);
      assert rows == rest + [row];
    }
  }

  lemma NothingSorted<V>()
    ensures Sorted<V>([])
  {
  }

  lemma {:induction false} SortedStays<V>(rows: seq<(nat, V)>)
    requires Sorted(rows)
    ensures SortRows(rows) == rows
  {
    if rows != [] { SortedStays(rows[..|rows| - 1]); }
  }

  /** A scan of keys of one width is already in the order of their indices, so the sort finds nothing to do. */
  lemma ScannedIsSorted<V>(rows: seq<(Blob, V)>, width: nat)
    requires Ascending(rows) && WideRows(rows, width)
    ensures Sorted(Numbered(rows)) && SortRows(Numbered(rows)) == Numbered(rows)
  {
    hide Value, Less;
    forall i, j | 0 <= i < j < |rows| ensures Value(rows[i].0) <= Value(rows[j].0) {
      ValueOrder(rows[i].0, rows[j].0);
    }
    SortedStays(Numbered(rows));
  }

  function Numbered<V>(rows: seq<(Blob, V)>): (out: seq<(nat, V)>)
    ensures |out| == |rows|
  {
    seq(|rows|, i requires 0 <= i < |rows| => (Value(rows[i].0), rows[i].1))
  }

  function Ledger(rows: seq<(nat, Referral)>): (out: seq<Referral>)
    ensures |out| == |rows|
  {
    seq(|rows|, i requires 0 <= i < |rows| => rows[i].1)
  }

  lemma EmptyTables()
    ensures AsGroups(map[]) == map[] && AsDirectory(map[]) == map[] && AsInvites(map[]) == map[]
  {
  }

  lemma NoGroups(rows: seq<(Blob, GroupSnapshot)>)
    ensures AsGroups(RowsToMap(rows[..0])) == map[]
  {
  }

  lemma NoDirectory(rows: seq<(Blob, seq<Publication>)>)
    ensures AsDirectory(RowsToMap(rows[..0])) == map[]
  {
  }

  lemma NoInvites(rows: seq<(Blob, Invite)>)
    ensures AsInvites(RowsToMap(rows[..0])) == map[]
  {
  }

  // Replaying, row by row; a key of the wrong length is corrupt

  method ReplayGroups(rows: seq<(Blob, GroupSnapshot)>) returns (r: Option<map<GroupId, Group>>)
    ensures r == if WideRows(rows, 32) then Some(AsGroups(RowsToMap(rows))) else None
  {
    hide AsGroups, RowsToMap;
    NoGroups(rows);
    var groups: map<GroupId, Group> := map[];
    for i := 0 to |rows|
      invariant forall k :: 0 <= k < i ==> |rows[k].0| == 32
      invariant groups == AsGroups(RowsToMap(rows[..i]))
    {
      var k, v := rows[i].0, rows[i].1;
      if |k| != 32 {
        return None;
      }
      groups := groups[GroupId(k) := FromSnapshot(v)];
      RowsToMapSnoc(rows, i);
      GroupsPut(RowsToMap(rows[..i]), GroupId(k), v);
    }
    assert rows[..|rows|] == rows;
    r := Some(groups);
  }

  method ReplayDirectory(rows: seq<(Blob, seq<Publication>)>) returns (r: Option<map<Wallet, seq<Publication>>>)
    ensures r == if WideRows(rows, 20) then Some(AsDirectory(RowsToMap(rows))) else None
  {
    hide AsDirectory, RowsToMap;
    NoDirectory(rows);
    var directory: map<Wallet, seq<Publication>> := map[];
    for i := 0 to |rows|
      invariant forall k :: 0 <= k < i ==> |rows[k].0| == 20
      invariant directory == AsDirectory(RowsToMap(rows[..i]))
    {
      var k, v := rows[i].0, rows[i].1;
      if |k| != 20 {
        return None;
      }
      directory := directory[Wallet(k) := v];
      RowsToMapSnoc(rows, i);
      DirectoryPut(RowsToMap(rows[..i]), Wallet(k), v);
    }
    assert rows[..|rows|] == rows;
    r := Some(directory);
  }

  method ReplayInvites(rows: seq<(Blob, Invite)>) returns (r: Option<map<Digest, Invite>>)
    ensures r == if WideRows(rows, 32) then Some(AsInvites(RowsToMap(rows))) else None
  {
    hide AsInvites, RowsToMap;
    NoInvites(rows);
    var invites: map<Digest, Invite> := map[];
    for i := 0 to |rows|
      invariant forall k :: 0 <= k < i ==> |rows[k].0| == 32
      invariant invites == AsInvites(RowsToMap(rows[..i]))
    {
      var k, v := rows[i].0, rows[i].1;
      if |k| != 32 {
        return None;
      }
      invites := invites[Digest(k) := v];
      RowsToMapSnoc(rows, i);
      InvitesPut(RowsToMap(rows[..i]), Digest(k), v);
    }
    assert rows[..|rows|] == rows;
    r := Some(invites);
  }

  method ReplayReferrals(rows: seq<(Blob, Referral)>) returns (r: Option<seq<Referral>>)
    ensures r == if WideRows(rows, 8) then Some(Ledger(SortRows(Numbered(rows)))) else None
    ensures r.Some? && Ascending(rows) ==> r.value == Values(rows)
  {
    hide Value, SortRows;
    var numbered: seq<(nat, Referral)> := [];
    for i := 0 to |rows|
      invariant forall k :: 0 <= k < i ==> |rows[k].0| == 8
      invariant numbered == Numbered(rows)[..i]
    {
      if |rows[i].0| != 8 {
        return None;
      }
      numbered := numbered + [(Value(rows[i].0), rows[i].1)];
    }
    assert numbered == Numbered(rows) && rows[..|rows|] == rows;
    r := Some(Ledger(SortRows(numbered)));
    if Ascending(rows) { ScannedIsSorted(rows, 8); }
  }

  /** Push every envelope onto the log of its group, in scan order. */
  method ReplayLogs(base: map<GroupId, Group>, rows: seq<(Blob, Envelope)>) returns (r: Option<map<GroupId, Group>>)
    ensures r == if Prefixed(rows) then Some(WithLogs(base, rows)) else None
  {
    var groups := base;
    assert rows[..0] == [];
    assert groups == WithLogs(base, rows[..0]) by {
      forall gid | gid in base
        ensures base[gid].(log := base[gid].log + Values(RowsUnder(rows[..0], gid))) == base[gid]
      {
        assert base[gid].log + [] == base[gid].log;
      }
    }
    for i := 0 to |rows|
      invariant forall k :: 0 <= k < i ==> |rows[k].0| >= 32
      invariant groups == WithLogs(base, rows[..i])
    {
      var k, e := rows[i].0, rows[i].1;
      if |k| < 32 {
        return None;
      }
      var gid := GroupId(k[..32]);
      assert rows[..i + 1][..i] == rows[..i];
      PushedRow(base, rows[..i + 1], gid);
      if gid in groups {
        groups := groups[gid := groups[gid].(log := groups[gid].log + [e])];
      }
    }
    assert rows[..|rows|] == rows;
    r := Some(groups);
  }

  lemma PushedRow(base: map<GroupId, Group>, rows: seq<(Blob, Envelope)>, gid: GroupId)
    requires rows != [] && Under(rows[|rows| - 1].0, gid)
    ensures var before := WithLogs(base, rows[..|rows| - 1]);
            WithLogs(base, rows) ==
              if gid in base then before[gid := before[gid].(log := before[gid].log + [rows[|rows| - 1].1])] else before
  {
    var rest, row := rows[..|rows| - 1], rows[|rows| - 1];
    forall x | x in base
      ensures Values(RowsUnder(rows, x)) == Values(RowsUnder(rest, x)) + if x == gid then [row.1] else []
    {
      assert Under(row.0, x) <==> x == gid by { assert x == GroupId(x.bytes) && gid == GroupId(gid.bytes); }
    }
    if gid in base {
      assert base[gid].log + (Values(RowsUnder(rest, gid)) + [row.1])
             == base[gid].log + Values(RowsUnder(rest, gid)) + [row.1];
    }
  }
}
