// The bits of an order as numbers: what the encoder puts, field by field, with the widths, the
// tags and the bounds written out.
module WireFormat {
  import opened Types
  import opened Bits
  import opened Codec

  // `n` bits from `at` on hold v, least significant first.
  predicate Field(bits: seq<bool>, at: nat, n: nat, v: nat) {
    at + n <= |bits| && forall k :: 0 <= k < n ==> (bits[at + k] <==> v / Pow2(k) % 2 == 1)
  }

  lemma {:induction false} BitsAre(n: nat, v: nat)
    ensures |BitsOf(n, v)| == n
    ensures forall k :: 0 <= k < n ==> (BitsOf(n, v)[k] <==> v / Pow2(k) % 2 == 1)
  {
    if n > 0 {
      BitsAre(n - 1, v);
      BitsSnoc(n - 1, v);
    }
  }

  lemma FieldOf(pre: seq<bool>, n: nat, v: nat, post: seq<bool>)
    ensures Field(pre + BitsOf(n, v) + post, |pre|, n, v)
  {
    BitsAre(n, v);
    Shifted(pre, BitsOf(n, v), post, n, v);
  }

  const LENGTH_BITS: nat := 5

  lemma SmallPowers()
    ensures Pow2(0) == 1 && Pow2(1) == 2 && Pow2(2) == 4
  {
  }

  lemma Tag(n: nat)
    requires n < 8
    ensures BitsOf(3, n) == [n % 2 == 1, n / 2 % 2 == 1, n / 4 == 1]
  {
    BitsAre(3, n);
    SmallPowers();
  }

  // The tags of the six order types; a limit order's depends on its price difference.
  lemma OtherTags(last: u32, o: Order)
    ensures o.typ == CounterBest ==> EncodeBody(last, o) == [true, true, false]
    ensures o.typ == ClientBest ==> EncodeBody(last, o) == [false, false, true]
    ensures o.typ == BestFive ==> EncodeBody(last, o) == [true, false, true]
    ensures o.typ == FAK ==> EncodeBody(last, o) == [false, true, true]
    ensures o.typ == FOK ==> EncodeBody(last, o) == [true, true, true]
  {
    Tag(3);
    Tag(4);
    Tag(5);
    Tag(6);
    Tag(7);
  }

  // A difference in -2048..2047 is tag 0 and its twelve two's complement bits.
  lemma ShortForm(d: int)
    requires -2048 <= d <= 2047
    ensures var bits := BitsOf(3, PriceCode(d)) + EncodeDiff(d);
            |bits| == 15 && bits[..3] == [false, false, false] && Field(bits, 3, 12, if d >= 0 then d else d + 4096)
  {
    Tag(0);
    var v: nat := if d >= 0 then d else d + 4096;
    assert IsShort(d) && PriceCode(d) == 0;
    LowBits(SHORTINT_LENGTH, Wrap(d), v);
    OneField(BitsOf(3, 0), SHORTINT_LENGTH, v);
  }

  lemma OneField(tag: seq<bool>, n: nat, v: nat)
    ensures var bits := tag + BitsOf(n, v);
            |bits| == |tag| + n && bits[..|tag|] == tag && Field(bits, |tag|, n, v)
  {
    BitsAre(n, v);
    FieldOf(tag, n, v, []);
    assert tag + BitsOf(n, v) == tag + BitsOf(n, v) + [];
  }

  // A field is found again behind others.
  lemma Shifted(pre: seq<bool>, bits: seq<bool>, post: seq<bool>, n: nat, v: nat)
    requires |bits| == n && Field(bits, 0, n, v)
    ensures Field(pre + bits + post, |pre|, n, v)
  {
    var all := pre + bits + post;
    forall k | 0 <= k < n ensures all[|pre| + k] <==> v / Pow2(k) % 2 == 1 {
      assert all[|pre| + k] == bits[0 + k];
    }
  }

  lemma Behind(tag: seq<bool>, b: seq<bool>, m: nat, u: nat, c: seq<bool>, n: nat, v: nat)
    requires |b| == m && Field(b, 0, m, u) && |c| == n && Field(c, 0, n, v)
    ensures var bits := tag + (b + c);
            && |bits| == |tag| + m + n && bits[..|tag|] == tag
            && Field(bits, |tag|, m, u) && Field(bits, |tag| + m, n, v)
  {
    Shifted(tag, b, c, m, u);
    Shifted(tag + b, c, [], n, v);
    Assoc(tag, b, c);
    assert (tag + b) + c + [] == (tag + b) + c;
  }

  // Twelve bits of a 32-bit word do not see its upper part.
  lemma LowBits(n: nat, w: nat, v: nat)
    requires n == 12 && (w == v || w == v + 0x1_0000_0000 - 4096)
    ensures BitsOf(n, w) == BitsOf(n, v)
  {
    if w != v {
      SameLowBits(12, w, v, 0xF_FFFF);
      Powers();
    }
  }

  lemma {:induction false} SameLowBits(n: nat, w: nat, v: nat, c: nat)
    requires w == v + c * Pow2(n)
    ensures BitsOf(n, w) == BitsOf(n, v)
  {
    if n > 0 {
      assert c * Pow2(n) == 2 * (c * Pow2(n - 1));
      SameLowBits(n - 1, w / 2, v / 2, c);
    }
  }

  // Any other is tag 1 or 2 by its sign, the five-bit position n of its leading bit, and the n bits
  // below that.
  lemma LongFormUp(d: int) returns (n: nat)
    requires 2047 < d < 0x8000_0000
    ensures var bits := BitsOf(3, PriceCode(d)) + EncodeDiff(d);
            && Pow2(n) <= d < 2 * Pow2(n) && n < 31 && |bits| == 8 + n
            && bits[..3] == [true, false, false] && Field(bits, 3, 5, n) && Field(bits, 8, n, d)
  {
    LongCodeUp(d);
    n := LengthAndBits([true, false, false], d);
  }

  lemma LongFormDown(v: int) returns (n: nat)
    requires 2048 < v < 0x8000_0000
    ensures var bits := BitsOf(3, PriceCode(-v)) + EncodeDiff(-v);
            && Pow2(n) <= v < 2 * Pow2(n) && n < 31 && |bits| == 8 + n
            && bits[..3] == [false, true, false] && Field(bits, 3, 5, n) && Field(bits, 8, n, v)
  {
    LongCodeDown(-v);
    n := LengthAndBits([false, true, false], v);
  }

  lemma LongCodeUp(d: int)
    requires d > 2047
    ensures BitsOf(3, PriceCode(d)) + EncodeDiff(d) == [true, false, false] + EncodeUint(d)
  {
    Tag(1);
  }

  lemma LongCodeDown(d: int)
    requires d < -2048
    ensures BitsOf(3, PriceCode(d)) + EncodeDiff(d) == [false, true, false] + EncodeUint(-d)
  {
    Tag(2);
  }

  lemma LengthAndBits(tag: seq<bool>, v: nat) returns (n: nat)
    requires |tag| == 3 && 1 <= v < 0x8000_0000
    ensures var bits := tag + EncodeUint(v);
            && Pow2(n) <= v < 2 * Pow2(n) && n < 31 && |bits| == 8 + n
            && bits[..3] == tag && Field(bits, 3, 5, n) && Field(bits, 8, n, v)
  {
    n := Log2(v);
    LogBound(v);
    BitsAre(LENGTH_BITS, n);
    BitsAre(n, v);
    Behind(tag, BitsOf(LENGTH_BITS, n), LENGTH_BITS, n, BitsOf(n, v), n, v);
  }

  // Every order starts with its side, set for an ask, and ten bits of volume; its body follows.
  lemma OrderForm(last: u32, o: Order)
    ensures var bits := EncodeOrder(last, o);
            && |bits| >= 11 && (bits[0] <==> o.dir == Ask) && Field(bits, 1, 10, o.volume)
            && bits[11..] == EncodeBody(last, o)
  {
    BitsAre(10, o.volume);
    HeadForm(o.dir == Ask, BitsOf(10, o.volume), 10, o.volume, EncodeBody(last, o));
  }

  // A limit order's body is the form of its difference to the previous limit price, which only
  // limit orders change.
  lemma BodyForm(last: u32, o: Order, d: int)
    requires o.typ == Limit && d == Diff(o.price, last)
    ensures EncodeBody(last, o) == BitsOf(3, PriceCode(d)) + EncodeDiff(d)
  {
  }

  lemma PlainDifference(last: u32, o: Order)
    ensures last < 0x8000_0000 && o.price < 0x8000_0000 ==> Diff(o.price, last) == o.price - last
    ensures (Diff(o.price, last) - (o.price - last)) % 0x1_0000_0000 == 0
    ensures NextLast(last, o) == if o.typ == Limit then o.price else last
  {
  }

  lemma HeadForm(b: bool, field: seq<bool>, n: nat, v: nat, body: seq<bool>)
    requires |field| == n && Field(field, 0, n, v)
    ensures var bits := [b] + field + body;
            |bits| >= n + 1 && bits[0] == b && Field(bits, 1, n, v) && bits[n + 1..] == body
  {
    Shifted([b], field, body, n, v);
    assert ([b] + field + body)[n + 1..] == body;
  }
}
