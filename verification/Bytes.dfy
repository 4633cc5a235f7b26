/** Octets and big-endian integers, as the async readers and writers of the wire protocol use them. */
module Bytes {

  type byte = x: int | 0 <= x < 256

  datatype Option<+T> = None | Some(value: T)

  /** The number of values a `width`-byte integer can take. */
  function Range(width: nat): nat {
    if width == 0 then 1 else 256 * Range(width - 1)
  }

  lemma Ranges()
    ensures Range(2) == 0x1_0000 && Range(4) == 0x1_0000_0000 && Range(8) == 0x1_0000_0000_0000_0000
  {
    assert Range(1) == 256 && Range(2) == 0x1_0000 && Range(3) == 0x100_0000;
    assert Range(4) == 0x1_0000_0000 && Range(6) == 0x1_0000_0000_0000;
  }

  /** Big-endian encoding in exactly `width` bytes; what does not fit is cut off, as an `as uN` cast does. */
  function BigEndian(n: nat, width: nat): (s: seq<byte>)
    ensures |s| == width
    decreases width, n
  {
    if width == 0 then [] else BigEndian(n / 256, width - 1) + [n % 256]
  }

  function FromBigEndian(s: seq<byte>): nat {
    if s == [] then 0 else FromBigEndian(s[..|s| - 1]) * 256 + s[|s| - 1]
  }

  lemma {:induction false} BigEndianRange(s: seq<byte>)
    ensures FromBigEndian(s) < Range(|s|)
  {
    if s != [] { BigEndianRange(s[..|s| - 1]); }
  }

  /** Reading back a written integer gives it modulo the width. */
  lemma {:induction false} BigEndianTruncates(n: nat, width: nat)
    ensures Range(width) > 0
    ensures FromBigEndian(BigEndian(n, width)) == n % Range(width)
    decreases width
  {
    if width > 0 {
      BigEndianTruncates(n / 256, width - 1);
      var s := BigEndian(n, width);
      assert s[..width - 1] == BigEndian(n / 256, width - 1);
      ModSplit(n, Range(width - 1));
    }
  }

  lemma BigEndianRoundTrip(n: nat, width: nat)
    requires n < Range(width)
    ensures FromBigEndian(BigEndian(n, width)) == n
  {
    hide *;
    BigEndianTruncates(n, width);
    var m := Range(width);
    assert n % m == n;
  }

  lemma ModSplit(n: nat, r: nat)
    requires r > 0
    ensures (n / 256 % r) * 256 + n % 256 == n % (256 * r)
  {
    var q, d := n / 256, n % 256;
    var x := q % r * 256 + d;
    assert n == q / r * (256 * r) + x by {
      assert n == 256 * q + d && q == q / r * r + q % r;
      MulRegroup(q / r, r);
    }
    assert 0 <= x < 256 * r;
    ModUnique(n, 256 * r, q / r, x);
  }

  lemma MulRegroup(a: nat, r: nat)
    ensures 256 * (a * r) == a * (256 * r)
  {
  }

  lemma ModUnique(n: nat, m: nat, q: nat, x: nat)
    requires m > 0 && n == q * m + x && x < m
    ensures n % m == x
  {
    var d := n / m - q;
    assert d * m == x - n % m;
    assert d >= 1 ==> d * m >= m;
    assert d <= -1 ==> d * m + m <= 0;
  }

  /** Writing back a read integer gives the same bytes. */
  lemma {:induction false} BigEndianRestores(s: seq<byte>)
    ensures BigEndian(FromBigEndian(s), |s|) == s
  {
    if s != [] {
      BigEndianRestores(s[..|s| - 1]);
      assert s == s[..|s| - 1] + [s[|s| - 1]];
    }
  }

  /** The most significant byte comes first. */
  lemma {:induction false} BigEndianByte(n: nat, width: nat, i: nat)
    requires i < width
    ensures Range(width - 1 - i) > 0
    ensures BigEndian(n, width)[i] == n / Range(width - 1 - i) % 256
    decreases width
  {
    if i < width - 1 {
      BigEndianByte(n / 256, width - 1, i);
      var r := Range(width - 2 - i);
      DivTwice(n, r);
    }
  }

  lemma DivTwice(n: nat, r: nat)
    requires r > 0
    ensures n / 256 / r == n / (256 * r)
  {
    var q := n / 256 / r;
    var m := n / 256;
    assert q * r <= m < q * r + r;
    assert q * (256 * r) == 256 * (q * r);
    assert q * (256 * r) <= n < q * (256 * r) + 256 * r;
    DivUnique(n, 256 * r, q);
  }

  lemma DivUnique(n: nat, d: nat, q: nat)
    requires d > 0 && q * d <= n < q * d + d
    ensures n / d == q
  {
    var k := n / d;
    assert k < q ==> (k + 1) * d <= q * d;
    assert k > q ==> (q + 1) * d <= k * d;
  }
}
