/** Byte-string keys: their order, the range that covers a prefix, and log keys. */
module Bytes {
  import opened Types

  /** The engine's key order. */
  predicate Less(a: Key, b: Key) {
    if b == [] then false
    else if a == [] then true
    else if a[0] != b[0] then a[0] < b[0]
    else Less(a[1..], b[1..])
  }

  /** What an iterator over [lower, upper) visits; no upper bound means to the end. */
  predicate InRange(k: Key, lower: Key, upper: Option<Key>) {
    !Less(k, lower) && (upper.Some? ==> Less(k, upper.value))
  }

  // ---------------------------------------------------------------- prefix ranges

  /** The last byte below 0xFF goes up by one and everything after it is dropped. */
  function UpperBound(p: Key): Option<Key> {
    if p == [] then None
    else if p[|p| - 1] == 255 then UpperBound(p[..|p| - 1])
    else Some(p[..|p| - 1] + [p[|p| - 1] + 1])
  }

  /** prefixUpperBound: increments in place from the right; a byte that wraps to zero carries. */
  method PrefixUpperBound(prefix: Key) returns (upper: Option<Key>)
    ensures upper == UpperBound(prefix)
  {
    var buf := new byte[|prefix|](i requires 0 <= i < |prefix| => prefix[i]);
    var i := |prefix|;
    assert prefix[..i] == prefix;
    while i > 0
      invariant 0 <= i <= |prefix| == buf.Length
      invariant buf[..i] == prefix[..i]
      invariant UpperBound(prefix) == UpperBound(prefix[..i])
    {
      i := i - 1;
      assert prefix[..i + 1][..i] == prefix[..i];
      buf[i] := if buf[i] == 255 then 0 else buf[i] + 1;
      if buf[i] != 0 {
        assert buf[..i + 1] == prefix[..i] + [prefix[i] + 1];
        return Some(buf[..i + 1]);
      }
    }
    upper := None;
  }

  /** The same bound read from the front. */
  lemma {:induction false} UpperBoundFront(b: byte, q: Key)
    ensures UpperBound([b] + q) ==
            match UpperBound(q)
            case Some(u) => Some([b] + u)
            case None => if b == 255 then None else Some([b + 1])
  {
    var p := [b] + q;
    if q == [] {
      assert p[..|p| - 1] == [];
      assert b != 255 ==> p[..|p| - 1] + [p[|p| - 1] + 1] == [b + 1];
    } else {
      assert p[..|p| - 1] == [b] + q[..|q| - 1];
      UpperBoundFront(b, q[..|q| - 1]);
      assert [b] + (q[..|q| - 1] + [q[|q| - 1] + if q[|q| - 1] == 255 then 0 else 1]) ==
             p[..|p| - 1] + [q[|q| - 1] + if q[|q| - 1] == 255 then 0 else 1];
    }
  }

  lemma LessFront(b: byte, x: Key, c: byte, y: Key)
    ensures Less([b] + x, [c] + y) <==> b < c || (b == c && Less(x, y))
  {
    assert ([b] + x)[1..] == x && ([c] + y)[1..] == y;
  }

  /** The range from p to its upper bound holds exactly the keys that start with p. */
  lemma {:induction false} PrefixRange(k: Key, p: Key)
    ensures InRange(k, p, UpperBound(p)) <==> p <= k
  {
    hide UpperBound;
    if p == [] {
      NoUpperBound();
    } else if k != [] {
      var b, q := p[0], p[1..];
      var c, l := k[0], k[1..];
      assert p == [b] + q && k == [c] + l;
      UpperBoundFront(b, q);
      PrefixRange(l, q);
      LessFront(c, l, b, q);
      if UpperBound(q).Some? {
        LessFront(c, l, b, UpperBound(q).value);
      } else if b != 255 {
        LessFront(c, l, b + 1, []);
        assert [b + 1] + [] == [b + 1];
      }
      assert p <= k <==> b == c && q <= l;
    }
  }

  lemma NoUpperBound()
    ensures UpperBound([]) == None
  {
  }

  // ---------------------------------------------------------------- log keys

  function Power256(n: nat): (r: nat)
    ensures r > 0
  {
    if n == 0 then 1 else 256 * Power256(n - 1)
  }

  /** The low n bytes of x, most significant first. */
  function BigEndian(x: nat, n: nat): (bs: Key)
    ensures |bs| == n
    decreases n
  {
    if n == 0 then [] else BigEndian(x / 256, n - 1) + [(x % 256) as byte]
  }

  function FromBigEndian(bs: Key): nat {
    if bs == [] then 0 else FromBigEndian(bs[..|bs| - 1]) * 256 + bs[|bs| - 1] as nat
  }

  lemma {:induction false} BigEndianRoundTrip(x: nat, n: nat)
    requires x < Power256(n)
    ensures FromBigEndian(BigEndian(x, n)) == x
    decreases n
  {
    if n > 0 {
      BigEndianRoundTrip(x / 256, n - 1);
      var bs := BigEndian(x, n);
      assert bs[..n - 1] == BigEndian(x / 256, n - 1);
    }
  }

  lemma {:induction false} LessLast(a: Key, b: Key, x: byte, y: byte)
    requires |a| == |b|
    ensures Less(a + [x], b + [y]) <==> Less(a, b) || (a == b && x < y)
  {
    if a == [] {
    } else {
      assert (a + [x])[1..] == a[1..] + [x] && (b + [y])[1..] == b[1..] + [y];
      LessLast(a[1..], b[1..], x, y);
      assert a == [a[0]] + a[1..] && b == [b[0]] + b[1..];
    }
  }

  /** Byte order is number order. */
  lemma {:induction false} BigEndianOrder(x: nat, y: nat, n: nat)
    requires x < Power256(n) && y < Power256(n)
    ensures Less(BigEndian(x, n), BigEndian(y, n)) <==> x < y
    decreases n
  {
    if n > 0 {
      BigEndianOrder(x / 256, y / 256, n - 1);
      LessLast(BigEndian(x / 256, n - 1), BigEndian(y / 256, n - 1), (x % 256) as byte, (y % 256) as byte);
      BigEndianRoundTrip(x / 256, n - 1);
      BigEndianRoundTrip(y / 256, n - 1);
    }
  }

  const LOG_PREFIX: Key := [0x6C, 0x2F] // "l/"

  function LogKey(index: nat): Key {
    LOG_PREFIX + BigEndian(index, 8)
  }

  function IndexFromLogKey(k: Key): nat
    requires |k| >= 2
  {
    FromBigEndian(k[2..])
  }

  /** A log key gives its index back, sorts as its index does, and lies in the range the log is loaded from. */
  lemma LogKeys(i: nat, j: nat)
    requires i < Power256(8) && j < Power256(8)
    ensures IndexFromLogKey(LogKey(i)) == i
    ensures Less(LogKey(i), LogKey(j)) <==> i < j
    ensures InRange(LogKey(i), LOG_PREFIX, UpperBound(LOG_PREFIX))
  {
    hide BigEndian, Power256, UpperBound, InRange;
    BigEndianRoundTrip(i, 8);
    assert LogKey(i)[2..] == BigEndian(i, 8);
    BigEndianOrder(i, j, 8);
    LessAfterPrefix(0x6C, 0x2F, BigEndian(i, 8), BigEndian(j, 8));
    PrefixRange(LogKey(i), LOG_PREFIX);
  }

  lemma LessAfterPrefix(b: byte, c: byte, x: Key, y: Key)
    ensures Less([b, c] + x, [b, c] + y) <==> Less(x, y)
  {
    assert ([b, c] + x)[1..] == [c] + x && ([b, c] + y)[1..] == [c] + y;
    assert ([c] + x)[1..] == x && ([c] + y)[1..] == y;
  }
}
