// Numbers as bit lists, least significant bit first, and bit lists inside byte buffers.
module Bits {

  function Pow2(n: nat): (p: nat)
    ensures p > 0
  {
    if n == 0 then 1 else 2 * Pow2(n - 1)
  }

  // OBitStream::put_bits: the low `n` bits of v.
  function BitsOf(n: nat, v: nat): seq<bool> {
    if n == 0 then [] else [v % 2 == 1] + BitsOf(n - 1, v / 2)
  }

  // IBitStream::get_bits.
  function ValueOf(bits: seq<bool>): nat {
    if bits == [] then 0 else (if bits[0] then 1 else 0) + 2 * ValueOf(bits[1..])
  }

  lemma {:induction false} BitsLength(n: nat, v: nat)
    ensures |BitsOf(n, v)| == n
  {
    if n > 0 {
      BitsLength(n - 1, v / 2);
    }
  }

  lemma HalfMod(v: nat, p: nat)
    requires p > 0
    ensures v % (2 * p) == v % 2 + 2 * ((v / 2) % p)
  {
    var q, r := (v / 2) / p, (v / 2) % p;
    assert v / 2 == q * p + r;
    assert v == 2 * (v / 2) + v % 2;
    assert v == q * (2 * p) + (2 * r + v % 2) by {
      assert 2 * (q * p) == q * (2 * p);
    }
    DivModIs(v, 2 * p, q, 2 * r + v % 2);
  }

  // Division with remainder is unique.
  lemma DivModIs(v: int, d: int, q: int, r: int)
    requires d > 0 && 0 <= r < d && v == q * d + r
    ensures v / d == q && v % d == r
  {
    var k := v / d - q;
    assert k * d == r - v % d by {
      assert (v / d) * d - q * d == k * d;
    }
    assert -d < k * d < d;
    Small(k, d);
  }

  lemma Small(k: int, d: int)
    requires d > 0 && -d < k * d < d
    ensures k == 0
  {
  }

  // Reading back what was written keeps the low bits.
  lemma {:induction false} BitsRoundTrip(n: nat, v: nat)
    ensures ValueOf(BitsOf(n, v)) == v % Pow2(n)
  {
    if n > 0 {
      BitsRoundTrip(n - 1, v / 2);
      assert BitsOf(n, v)[1..] == BitsOf(n - 1, v / 2);
      HalfMod(v, Pow2(n - 1));
    }
  }

  lemma {:induction false} ValueBound(bits: seq<bool>)
    ensures ValueOf(bits) < Pow2(|bits|)
  {
    if bits != [] {
      ValueBound(bits[1..]);
    }
  }

  // One more bit on top.
  lemma {:induction false} ValueSnoc(bits: seq<bool>, b: bool)
    ensures ValueOf(bits + [b]) == ValueOf(bits) + if b then Pow2(|bits|) else 0
  {
    if bits == [] {
      assert ValueOf([b][1..]) == 0;
    } else {
      assert (bits + [b])[1..] == bits[1..] + [b];
      ValueSnoc(bits[1..], b);
    }
  }

  // The test `bits & (1 << i)`.
  predicate TestBit(v: nat, i: nat) {
    v / Pow2(i) % 2 == 1
  }

  lemma DivTwice(v: nat, p: nat)
    requires p > 0
    ensures v / 2 / p == v / (2 * p)
  {
    var q := v / (2 * p);
    var r := v % (2 * p);
    assert v == q * (2 * p) + r;
    assert v / 2 == q * p + r / 2 by {
      assert q * (2 * p) == 2 * (q * p);
    }
    assert 0 <= r / 2 < p;
    DivModIs(v / 2, p, q, r / 2);
  }

  lemma {:induction false} BitsSnoc(n: nat, v: nat)
    ensures BitsOf(n + 1, v) == BitsOf(n, v) + [TestBit(v, n)]
  {
    if n == 0 {
      assert BitsOf(0, v / 2) == [];
    } else {
      BitsSnoc(n - 1, v / 2);
      DivTwice(v, Pow2(n - 1));
    }
  }

  // ---------------------------------------------------------------------------------
  // Byte buffers
  // ---------------------------------------------------------------------------------

  function Mask(k: nat): bv8
    requires k < 8
  {
    match k
    case 0 => 0x01
    case 1 => 0x02
    case 2 => 0x04
    case 3 => 0x08
    case 4 => 0x10
    case 5 => 0x20
    case 6 => 0x40
    case 7 => 0x80
  }

  predicate BitAt(buf: seq<bv8>, i: nat)
    requires i < 8 * |buf|
  {
    buf[i / 8] & Mask(i % 8) != 0
  }

  // Setting bit k of a byte sets that bit and no other.
  lemma MaskSets(b: bv8, k: nat, j: nat)
    requires k < 8 && j < 8
    ensures (b | Mask(k)) & Mask(j) != 0 <==> k == j || b & Mask(j) != 0
  {
  }

  // The first n bits of a buffer.
  function BufBits(buf: seq<bv8>, n: nat): (bits: seq<bool>)
    requires n <= 8 * |buf|
    ensures |bits| == n
  {
    if n == 0 then [] else BufBits(buf, n - 1) + [BitAt(buf, n - 1)]
  }

  lemma {:induction false} BufBitsAt(buf: seq<bv8>, n: nat)
    requires n <= 8 * |buf|
    ensures forall i :: 0 <= i < n ==> BufBits(buf, n)[i] == BitAt(buf, i)
  {
    if n > 0 {
      BufBitsAt(buf, n - 1);
    }
  }

  // Two buffers that agree on their first n bits.
  lemma {:induction false} BufBitsSame(a: seq<bv8>, b: seq<bv8>, n: nat)
    requires n <= 8 * |a| && n <= 8 * |b|
    requires forall i :: 0 <= i < n ==> BitAt(a, i) == BitAt(b, i)
    ensures BufBits(a, n) == BufBits(b, n)
  {
    BufBitsAt(a, n);
    BufBitsAt(b, n);
  }
}
