/** Bytes and big-endian integers. */
module Bytes {
  import opened Wrappers

  type byte = x: int | 0 <= x < 256

  type u16 = x: int | 0 <= x < 0x1_0000
  type u32 = x: int | 0 <= x < 0x1_0000_0000
  type u64 = x: int | 0 <= x <= U64_MAX

  /** The low `width` bytes of `n`, most significant first. */
  function ToBytes(n: nat, width: nat): (b: seq<byte>)
    ensures |b| == width
  {
    if width == 0 then [] else ToBytes(n / 256, width - 1) + [n % 256]
  }

  function FromBytes(b: seq<byte>): nat
  {
    if |b| == 0 then 0 else FromBytes(b[..|b| - 1]) * 256 + b[|b| - 1]
  }

  function Pow256(width: nat): nat
  {
    if width == 0 then 1 else 256 * Pow256(width - 1)
  }

  lemma {:induction false} BytesRoundTrip(n: nat, width: nat)
    requires n < Pow256(width)
    ensures FromBytes(ToBytes(n, width)) == n
  {
    if width > 0 {
      BytesRoundTrip(n / 256, width - 1);
      var b := ToBytes(n, width);
      assert b[..|b| - 1] == ToBytes(n / 256, width - 1);
    }
  }

  /** The first byte of `n + k * 256^(width-1)` written in `width` bytes is its leading digit. */
  lemma {:induction false} LeadingByte(n: nat, width: nat, k: byte)
    requires 0 < width && n < Pow256(width - 1)
    ensures ToBytes(n + k * Pow256(width - 1), width)[0] == k
    ensures ToBytes(n + k * Pow256(width - 1), width)[1..] == ToBytes(n, width - 1)
  {
    var m := n + k * Pow256(width - 1);
    if width == 1 {
      assert ToBytes(m, 1) == ToBytes(m / 256, 0) + [m % 256];
    } else {
      var p := Pow256(width - 2);
      assert m == n + 256 * (k * p);
      assert m / 256 == n / 256 + k * p && m % 256 == n % 256;
      LeadingByte(n / 256, width - 1, k);
      assert ToBytes(m, width) == ToBytes(m / 256, width - 1) + [m % 256];
    }
  }

  /** A number is below the next multiple of its leading digit's weight. */
  lemma {:induction false} LeadingBound(b: seq<byte>)
    requires |b| > 0
    ensures FromBytes(b) < (b[0] + 1) * Pow256(|b| - 1)
  {
    var n := |b| - 1;
    if n > 0 {
      LeadingBound(b[..n]);
      assert b[..n][0] == b[0];
      var first: nat := b[0];
      var p, d := Pow256(n - 1), first + 1;
      assert d * (256 * p) == 256 * (d * p);
    }
  }

  lemma AtMost(d: nat, p: nat)
    requires d <= 256
    ensures d * p <= 256 * p
  {
  }

  lemma FromBytesBound(b: seq<byte>)
    ensures FromBytes(b) < Pow256(|b|)
  {
    if |b| > 0 {
      LeadingBound(b);
      var first: nat := b[0];
      AtMost(first + 1, Pow256(|b| - 1));
    }
  }

  /** Bytes are the big-endian form of their value. */
  lemma {:induction false} ValueRoundTrip(b: seq<byte>)
    ensures ToBytes(FromBytes(b), |b|) == b
  {
    if |b| > 0 {
      var init, last := b[..|b| - 1], b[|b| - 1];
      ValueRoundTrip(init);
      assert FromBytes(b) / 256 == FromBytes(init) && FromBytes(b) % 256 == last;
      assert b == init + [last];
    }
  }

  /** The first byte counts its digit's weight. */
  lemma {:induction false} LeadingDigit(b: seq<byte>)
    requires |b| > 0
    ensures FromBytes(b) == b[0] * Pow256(|b| - 1) + FromBytes(b[1..])
  {
    if |b| > 1 {
      var init := b[..|b| - 1];
      LeadingDigit(init);
      assert init[1..] == b[1..][..|b[1..]| - 1];
      Shifted(b[0], Pow256(|b| - 2), FromBytes(init[1..]), b[|b| - 1]);
    } else {
      assert b[..0] == [];
    }
  }

  lemma Shifted(d: nat, p: nat, n: nat, last: nat)
    ensures (d * p + n) * 256 + last == d * (256 * p) + (n * 256 + last)
  {
    assert d * (256 * p) == (d * p) * 256;
  }
}
