/** Byte strings, big-endian keys and the byte-wise key order of the database. */
module Bytes {
  import opened Common

  type Byte = b: int | 0 <= b < 256
  type Blob = seq<Byte>

  type Bytes20 = b: Blob | |b| == 20 witness seq(20, _ => 0)
  type Bytes32 = b: Blob | |b| == 32 witness seq(32, _ => 0)

  /** A BLAKE3 digest. */
  datatype Digest = Digest(bytes: Bytes32)

  const ZERO: Digest := Digest(BigEndian(0, 32))

  /** The low `width` bytes of `n`, most significant first (`u64::to_be_bytes` at width 8). */
  function BigEndian(n: nat, width: nat): (k: Blob)
    ensures |k| == width
    decreases width
  {
    if width == 0 then [] else BigEndian(n / 256, width - 1) + [n % 256]
  }

  /** The number a big-endian byte string denotes (`u64::from_be_bytes` at width 8). */
  function Value(k: Blob): nat
  {
    if k == [] then 0 else 256 * Value(k[..|k| - 1]) + k[|k| - 1]
  }

  function Pow256(width: nat): (p: nat)
    ensures p > 0
  {
    if width == 0 then 1 else 256 * Pow256(width - 1)
  }

  /** `store::seq_key`: the prefix, then the index as eight big-endian bytes. */
  function SeqKey(prefix: Blob, index: nat): Blob
  {
    prefix + BigEndian(index, 8)
  }

  /** The byte-wise order of database keys. */
  predicate Less(a: Blob, b: Blob)
    decreases |b|
  {
    if b == [] then false
    else if a == [] then true
    else if a[0] != b[0] then a[0] < b[0]
    else Less(a[1..], b[1..])
  }

  lemma {:induction false} BigEndianValue(n: nat, width: nat)
    requires n < Pow256(width)
    ensures Value(BigEndian(n, width)) == n
    decreases width
  {
    if width > 0 {
      BigEndianValue(n / 256, width - 1);
      var k := BigEndian(n, width);
      assert k[..|k| - 1] == BigEndian(n / 256, width - 1);
    }
  }

  lemma U64Value(n: nat)
    requires n <= U64_MAX
    ensures Value(BigEndian(n, 8)) == n
  {
    U64Range();
    BigEndianValue(n, 8);
  }

  lemma {:induction false} LessSnoc(a: Blob, x: Byte, b: Blob, y: Byte)
    requires |a| == |b|
    ensures Less(a + [x], b + [y]) <==> Less(a, b) || (a == b && x < y)
    decreases |a|
  {
    if a != [] {
      assert (a + [x])[1..] == a[1..] + [x] && (b + [y])[1..] == b[1..] + [y];
      LessSnoc(a[1..], x, b[1..], y);
      assert a[0] == b[0] && a[1..] == b[1..] ==> a == [a[0]] + a[1..] == [b[0]] + b[1..] == b;
    }
  }

  lemma {:induction false} LessAfterPrefix(p: Blob, a: Blob, b: Blob)
    ensures Less(p + a, p + b) <==> Less(a, b)
  {
    if p == [] {
      assert p + a == a && p + b == b;
    } else {
      assert (p + a)[1..] == p[1..] + a && (p + b)[1..] == p[1..] + b;
      LessAfterPrefix(p[1..], a, b);
    }
  }

  /** Byte order on big-endian keys is numeric order. */
  lemma {:induction false} BigEndianOrder(m: nat, n: nat, width: nat)
    requires m < Pow256(width) && n < Pow256(width)
    ensures Less(BigEndian(m, width), BigEndian(n, width)) <==> m < n
    decreases width
  {
    if width > 0 {
      BigEndianOrder(m / 256, n / 256, width - 1);
      LessSnoc(BigEndian(m / 256, width - 1), m % 256, BigEndian(n / 256, width - 1), n % 256);
      BigEndianValue(m / 256, width - 1);
      BigEndianValue(n / 256, width - 1);
    }
  }

  /** Among keys of one length, byte order is the order of the numbers they denote. */
  lemma {:induction false} ValueOrder(a: Blob, b: Blob)
    requires |a| == |b|
    ensures Less(a, b) <==> Value(a) < Value(b)
    ensures Value(a) == Value(b) ==> a == b
    decreases |a|
  {
    if a != [] {
      var m, n := |a| - 1, |b| - 1;
      ValueOrder(a[..m], b[..n]);
      LessSnoc(a[..m], a[m], b[..n], b[n]);
      assert a == a[..m] + [a[m]] && b == b[..n] + [b[n]];
    }
  }

  lemma U64Range()
    ensures Pow256(8) == U64_MAX + 1
  {
    assert Pow256(2) == 65536;
    assert Pow256(4) == 4294967296;
    assert Pow256(6) == 281474976710656;
  }

  /** Within one prefix, the scan order of the keys is the order of the indices. */
  lemma SeqKeyOrder(prefix: Blob, m: nat, n: nat)
    requires m <= U64_MAX && n <= U64_MAX
    ensures Less(SeqKey(prefix, m), SeqKey(prefix, n)) <==> m < n
  {
    U64Range();
    BigEndianOrder(m, n, 8);
    LessAfterPrefix(prefix, BigEndian(m, 8), BigEndian(n, 8));
  }

  /** A sequence key names its prefix and its index. */
  lemma SeqKeyParts(prefix: Blob, n: nat)
    requires n <= U64_MAX
    ensures var k := SeqKey(prefix, n);
            |k| == |prefix| + 8 && k[..|prefix|] == prefix && Value(k[|prefix|..]) == n
  {
    U64Value(n);
    var k := SeqKey(prefix, n);
    assert k[|prefix|..] == BigEndian(n, 8);
  }

  /** A shorter key stands before its extensions. */
  lemma PrefixIsLess(a: Blob, x: Byte)
    ensures Less(a, a + [x])
  {
    LessAfterPrefix(a, [], [x]);
    assert a + [] == a;
  }

  lemma {:induction false} LessIrreflexive(a: Blob)
    ensures !Less(a, a)
  {
    if a != [] { LessIrreflexive(a[1..]); }
  }

  lemma {:induction false} LessTransitive(a: Blob, b: Blob, c: Blob)
    requires Less(a, b) && Less(b, c)
    ensures Less(a, c)
    decreases |a|
  {
    if a != [] && a[0] == b[0] == c[0] { LessTransitive(a[1..], b[1..], c[1..]); }
  }

  lemma {:induction false} LessTotal(a: Blob, b: Blob)
    ensures a == b || Less(a, b) || Less(b, a)
  {
    if a != [] && b != [] && a[0] == b[0] {
      LessTotal(a[1..], b[1..]);
      assert a[1..] == b[1..] ==> a == [a[0]] + a[1..] == [b[0]] + b[1..] == b;
    }
  }
}
