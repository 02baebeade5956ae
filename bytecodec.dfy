/**
 * Little-endian byte packing shared by the binary protocols.
 *
 * `(v >> 8k) & 0xFF` on a JavaScript number takes byte k of the 32-bit
 * two's-complement pattern of ToInt32(v). For k < 4 that is
 * `(v div 256^k) mod 256` with floor division, whatever v's sign: the
 * wrap of ToInt32 only adds multiples of 2^32, which leaves those four
 * bytes alone (ByteAtWrap32).
 */
module ByteCodec {
  import opened PeqTypes

  function Pow256(k: nat): (p: nat)
    ensures p >= 1
  {
    if k == 0 then 1 else 256 * Pow256(k - 1)
  }

  /**
   * Byte k of the little-endian two's-complement encoding of v, that is,
   * `(v div 256^k) mod 256`, taken one division by 256 at a time.
   */
  function ByteAt(v: int, k: nat): Byte
    decreases k
  {
    if k == 0 then v % 256 else ByteAt(v / 256, k - 1)
  }

  /** The four low bytes, one division by 256 after another. */
  lemma ByteAtSteps(v: int)
    ensures ByteAt(v, 0) == v % 256
    ensures ByteAt(v, 1) == v / 256 % 256
    ensures ByteAt(v, 2) == v / 256 / 256 % 256
    ensures ByteAt(v, 3) == v / 256 / 256 / 256 % 256
  {
    assert ByteAt(v, 3) == ByteAt(v / 256, 2) == ByteAt(v / 256 / 256, 1);
  }

  /** Unsigned 16-bit little-endian value of two bytes. */
  function U16(lo: Byte, hi: Byte): (u: nat)
    ensures u < 0x10000
  {
    lo as int + 256 * hi as int
  }

  /** Signed 16-bit value: an unsigned value above 0x7FFF has 0x10000 taken off. */
  function S16(lo: Byte, hi: Byte): (s: int)
    ensures -0x8000 <= s < 0x8000
    ensures s == U16(lo, hi) || s == U16(lo, hi) - 0x10000
  {
    var u := U16(lo, hi);
    if u > 0x7FFF then u - 0x10000 else u
  }

  /** Unsigned 32-bit little-endian value of four bytes. */
  function U32(b: seq<Byte>): (u: nat)
    requires |b| == 4
    ensures u < 0x1_0000_0000
  {
    b[0] as int + 256 * b[1] as int + 65536 * b[2] as int + 16777216 * b[3] as int
  }

  lemma DivModUnique(v: int, d: int, q: int, r: int)
    requires 0 < d && v == d * q + r && 0 <= r < d
    ensures v / d == q && v % d == r
  {
    var q', r' := v / d, v % d;
    assert d * (q - q') == r' - r;
    if q > q' {
      MulAtLeast(d, q - q');
    } else if q < q' {
      MulAtLeast(d, q' - q);
    }
  }

  lemma MulAtLeast(d: int, x: int)
    requires 0 < d && 1 <= x
    ensures d * x >= d
  {
    assert d * x == d + d * (x - 1);
  }

  /** The two low bytes of v, read back little-endian, give v modulo 2^16. */
  lemma {:induction false} Le16RoundTrip(v: int)
    ensures U16(ByteAt(v, 0), ByteAt(v, 1)) == v % 0x10000
  {
    var q, r := v / 256, v % 256;
    var q1, q0 := q / 256, q % 256;
    assert ByteAt(v, 0) == r && ByteAt(v, 1) == q0;
    assert v == 0x10000 * q1 + (256 * q0 + r);
    DivModUnique(v, 0x10000, q1, 256 * q0 + r);
  }

  /** Every integer of the unsigned 16-bit range is recovered from its two bytes. */
  lemma UnsignedRoundTrip(v: int)
    requires 0 <= v < 0x10000
    ensures U16(ByteAt(v, 0), ByteAt(v, 1)) == v
  {
    Le16RoundTrip(v);
  }

  /** Every integer of the signed 16-bit range is recovered by the signed decode. */
  lemma SignedRoundTrip(v: int)
    requires -0x8000 <= v < 0x8000
    ensures S16(ByteAt(v, 0), ByteAt(v, 1)) == v
  {
    Le16RoundTrip(v);
    if v < 0 {
      DivModUnique(v, 0x10000, -1, v + 0x10000);
    }
  }

  /** The four low bytes of v, read back little-endian, give v modulo 2^32. */
  lemma {:induction false} Le32RoundTrip(v: int)
    ensures U32([ByteAt(v, 0), ByteAt(v, 1), ByteAt(v, 2), ByteAt(v, 3)]) == v % 0x1_0000_0000
  {
    var q1, r0 := v / 256, v % 256;
    var q2, r1 := q1 / 256, q1 % 256;
    var q3, r2 := q2 / 256, q2 % 256;
    var q4, r3 := q3 / 256, q3 % 256;
    ByteAtSteps(v);
    assert v == 0x1_0000_0000 * q4 + (16777216 * r3 + 65536 * r2 + 256 * r1 + r0);
    DivModUnique(v, 0x1_0000_0000, q4, 16777216 * r3 + 65536 * r2 + 256 * r1 + r0);
  }

  /** ToInt32's wrap modulo 2^32 does not change any of the four low bytes. */
  lemma ByteAtWrap32(v: int, m: int, k: nat)
    requires k < 4
    ensures ByteAt(v + 0x1_0000_0000 * m, k) == ByteAt(v, k)
  {
    assert Pow256(4) == 0x1_0000_0000;
    ByteAtPeriodic(v, m, k, 4);
  }

  /** Adding a multiple of 256^n leaves the bytes below n alone. */
  lemma {:induction false} ByteAtPeriodic(v: int, m: int, k: nat, n: nat)
    requires k < n
    ensures ByteAt(v + Pow256(n) * m, k) == ByteAt(v, k)
    decreases k
  {
    var p := Pow256(n - 1);
    var w := v + Pow256(n) * m;
    assert w == 256 * (v / 256 + p * m) + v % 256;
    DivModUnique(w, 256, v / 256 + p * m, v % 256);
    if k > 0 {
      ByteAtPeriodic(v / 256, m, k - 1, n - 1);
    }
  }

  /**
   * The 20-byte block of a biquad: coefficient k at bytes 4k..4k+3,
   * little-endian; bytes no coefficient reaches stay 0.
   */
  function CoefficientBlock(coeffs: seq<int>): (block: seq<Byte>)
    ensures |block| == 20
  {
    seq(20, j requires 0 <= j < 20 => if j / 4 < |coeffs| then ByteAt(coeffs[j / 4], j % 4) else 0)
  }

  /** The 32-bit word at bytes 4k..4k+3 of a block. */
  function Word(block: seq<Byte>, k: nat): nat
    requires |block| == 20 && k < 5
  {
    U32(block[4 * k .. 4 * k + 4])
  }

  /** Word k of the block is coefficient k modulo 2^32; a missing coefficient reads 0. */
  lemma CoefficientBlockWords(coeffs: seq<int>, k: nat)
    requires k < 5
    ensures Word(CoefficientBlock(coeffs), k) == if k < |coeffs| then coeffs[k] % 0x1_0000_0000 else 0
  {
    var block := CoefficientBlock(coeffs);
    if k < |coeffs| {
      var v := coeffs[k];
      assert block[4 * k .. 4 * k + 4] == [ByteAt(v, 0), ByteAt(v, 1), ByteAt(v, 2), ByteAt(v, 3)];
      Le32RoundTrip(v);
    } else {
      assert block[4 * k .. 4 * k + 4] == [0, 0, 0, 0];
    }
  }

  /**
   * toLittleEndianBytes: `Math.round(value * scale)` split into its two
   * low bytes.
   */
  function ToLittleEndianBytes(value: real, scale: real): (b: seq<Byte>)
    ensures |b| == 2 && U16(b[0], b[1]) == Round(value * scale) % 0x10000
  {
    var v := Round(value * scale);
    Le16RoundTrip(v);
    [ByteAt(v, 0), ByteAt(v, 1)]
  }

  /**
   * toSignedLittleEndianBytes: the rounded value, moved into 0..0xFFFF by
   * adding 0x10000 when negative, split into two bytes.
   */
  function ToSignedLittleEndianBytes(value: real, scale: real): seq<Byte>
  {
    var v := Round(value * scale);
    var w := if v < 0 then v + 0x10000 else v;
    [ByteAt(w, 0), ByteAt(w, 1)]
  }

  /** The two helpers produce the same bytes for every input. */
  lemma SignedBytesEqualUnsigned(value: real, scale: real)
    ensures ToSignedLittleEndianBytes(value, scale) == ToLittleEndianBytes(value, scale)
  {
    var v := Round(value * scale);
    if v < 0 {
      DivModUnique(v + 0x10000, 256, v / 256 + 256, v % 256);
      DivModUnique(v / 256 + 256, 256, v / 256 / 256 + 1, v / 256 % 256);
    }
  }
}
