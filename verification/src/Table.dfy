/** A column family: an ordered map from byte keys, read back by a scan in key order. */
module Table {
  import opened Bytes

  predicate Ascending<V>(rows: seq<(Blob, V)>)
  {
    forall i, j :: 0 <= i < j < |rows| ==> Less(rows[i].0, rows[j].0)
  }

  /** The rows are exactly the entries of the table. */
  ghost predicate Lists<V>(rows: seq<(Blob, V)>, table: map<Blob, V>)
  {
    && (forall i :: 0 <= i < |rows| ==> rows[i].0 in table && table[rows[i].0] == rows[i].1)
    && (forall k :: k in table ==> exists i :: 0 <= i < |rows| && rows[i].0 == k)
  }

  predicate IsLeast(k: Blob, keys: set<Blob>)
  {
    k in keys && forall x :: x in keys ==> x == k || Less(k, x)
  }

  lemma {:induction false} LeastExists(keys: set<Blob>) returns (least: Blob)
    requires keys != {}
    ensures IsLeast(least, keys)
  {
    var k :| k in keys;
    if keys == {k} {
      least := k;
    } else {
      var rest := keys - {k};
      assert rest != {};
      least := LeastExists(rest);
      LessTotal(k, least);
      if Less(k, least) {
        forall x | x in rest && x != least { LessTransitive(k, least, x); }
        least := k;
      }
    }
  }

  ghost function Least(keys: set<Blob>): (k: Blob)
    requires keys != {}
    ensures IsLeast(k, keys)
  {
    assert exists k :: IsLeast(k, keys) by { var k := LeastExists(keys); }
    var k :| IsLeast(k, keys); k
  }

  lemma LeastIsUnique(a: Blob, b: Blob, keys: set<Blob>)
    requires IsLeast(a, keys) && IsLeast(b, keys)
    ensures a == b
  {
    if a != b {
      LessTransitive(a, b, a);
      LessIrreflexive(a);
    }
  }

  /** The entries in key order. */
  ghost function Scan<V>(table: map<Blob, V>): (rows: seq<(Blob, V)>)
    decreases |table|
  {
    if table.Keys == {} then []
    else
      var k := Least(table.Keys);
      [(k, table[k])] + Scan(table - {k})
  }

  lemma ConsLists<V>(k: Blob, v: V, tail: seq<(Blob, V)>, table: map<Blob, V>)
    requires IsLeast(k, table.Keys) && table[k] == v
    requires Ascending(tail) && Lists(tail, table - {k})
    ensures Ascending([(k, v)] + tail) && Lists([(k, v)] + tail, table)
  {
    var rows := [(k, v)] + tail;
    forall i, j | 0 <= i < j < |rows| ensures Less(rows[i].0, rows[j].0) {
      assert rows[j] == tail[j - 1];
    }
    forall x | x in table ensures exists i :: 0 <= i < |rows| && rows[i].0 == x {
      if x == k {
        assert rows[0].0 == x;
      } else {
        assert x in table - {k};
        var i :| 0 <= i < |tail| && tail[i].0 == x;
        assert rows[i + 1].0 == x;
      }
    }
  }

  lemma {:induction false} ScanLists<V>(table: map<Blob, V>)
    ensures Ascending(Scan(table)) && Lists(Scan(table), table)
    decreases |table|
  {
    if table.Keys != {} {
      var k := Least(table.Keys);
      ScanLists(table - {k});
      ConsLists(k, table[k], Scan(table - {k}), table);
    }
  }

  /** A table has one listing in key order, so any sorted list of its entries is the scan. */
  lemma {:induction false} ScanIsUnique<V>(a: seq<(Blob, V)>, b: seq<(Blob, V)>, table: map<Blob, V>)
    requires Ascending(a) && Lists(a, table)
    requires Ascending(b) && Lists(b, table)
    ensures a == b
    decreases |a|
  {
    assert a != [] ==> a[0].0 in table;
    assert b != [] ==> b[0].0 in table;
    if a != [] && b != [] {
      HeadIsLeast(a, table);
      HeadIsLeast(b, table);
      LeastIsUnique(a[0].0, b[0].0, table.Keys);
      TailLists(a, table);
      TailLists(b, table);
      ScanIsUnique(a[1..], b[1..], table - {a[0].0});
      assert a == [a[0]] + a[1..] && b == [b[0]] + b[1..];
    }
  }

  lemma HeadIsLeast<V>(rows: seq<(Blob, V)>, table: map<Blob, V>)
    requires rows != [] && Ascending(rows) && Lists(rows, table)
    ensures IsLeast(rows[0].0, table.Keys)
  {
    forall x | x in table ensures x == rows[0].0 || Less(rows[0].0, x) {
      var i :| 0 <= i < |rows| && rows[i].0 == x;
    }
  }

  lemma TailLists<V>(rows: seq<(Blob, V)>, table: map<Blob, V>)
    requires rows != [] && Ascending(rows) && Lists(rows, table)
    ensures Ascending(rows[1..]) && Lists(rows[1..], table - {rows[0].0})
  {
    var k, tail, rest := rows[0].0, rows[1..], table - {rows[0].0};
    forall i | 0 <= i < |tail| ensures tail[i].0 in rest && rest[tail[i].0] == tail[i].1 {
      assert tail[i] == rows[i + 1] && Less(k, rows[i + 1].0);
      LessIrreflexive(k);
    }
    forall x | x in rest ensures exists i :: 0 <= i < |tail| && tail[i].0 == x {
      var i :| 0 <= i < |rows| && rows[i].0 == x;
      assert i > 0 && tail[i - 1].0 == x;
    }
  }

  lemma ScanIs<V>(rows: seq<(Blob, V)>, table: map<Blob, V>)
    requires Ascending(rows) && Lists(rows, table)
    ensures Scan(table) == rows
  {
    ScanLists(table);
    ScanIsUnique(Scan(table), rows, table);
  }

  function RowsToMap<V>(rows: seq<(Blob, V)>): (table: map<Blob, V>)
  {
    if rows == [] then map[]
    else
      var (k, v) := rows[|rows| - 1];
      RowsToMap(rows[..|rows| - 1])[k := v]
  }

  lemma RowsToMapSnoc<V>(rows: seq<(Blob, V)>, i: nat)
    requires i < |rows|
    ensures RowsToMap(rows[..i + 1]) == RowsToMap(rows[..i])[rows[i].0 := rows[i].1]
  {
    assert rows[..i + 1][..i] == rows[..i];
  }

  lemma {:induction false} RowsToMapExactly<V>(rows: seq<(Blob, V)>)
    requires Ascending(rows)
    ensures Lists(rows, RowsToMap(rows))
  {
    if rows != [] {
      var rest, k := rows[..|rows| - 1], rows[|rows| - 1].0;
      RowsToMapExactly(rest);
      forall i | 0 <= i < |rows| ensures rows[i].0 in RowsToMap(rows) && RowsToMap(rows)[rows[i].0] == rows[i].1 {
        if i < |rest| {
          assert rest[i] == rows[i] && Less(rows[i].0, k);
          LessIrreflexive(k);
        }
      }
      forall x | x in RowsToMap(rows) ensures exists i :: 0 <= i < |rows| && rows[i].0 == x {
        if x == k {
          assert rows[|rows| - 1].0 == x;
        } else {
          var i :| 0 <= i < |rest| && rest[i].0 == x;
          assert rows[i].0 == x;
        }
      }
    }
  }

  /** Reading a whole table back gives the table. */
  lemma ScanReadsBack<V>(table: map<Blob, V>)
    ensures RowsToMap(Scan(table)) == table
  {
    ScanLists(table);
    RowsToMapExactly(Scan(table));
    var rows, again := Scan(table), RowsToMap(Scan(table));
    forall k | k in table ensures k in again && again[k] == table[k] {
      var i :| 0 <= i < |rows| && rows[i].0 == k;
    }
    forall k | k in again ensures k in table {
      var i :| 0 <= i < |rows| && rows[i].0 == k;
    }
  }

  /** The database's iterator over one column family. */
  method ScanTable<V>(table: map<Blob, V>) returns (rows: seq<(Blob, V)>)
    ensures rows == Scan(table)
  {
    rows := [];
    var rest := table;
    while rest.Keys != {}
      invariant rows + Scan(rest) == Scan(table)
      decreases |rest|
    {
      ghost var least := Least(rest.Keys);
      var k :| k in rest.Keys && forall x :: x in rest.Keys ==> x == k || Less(k, x);
      LeastIsUnique(k, least, rest.Keys);
      rows, rest := rows + [(k, rest[k])], rest - {k};
    }
  }
}
