// Orders as bits: direction, volume, type, and for limit orders the price as a difference to
// the previous limit price, short (12 bits, signed) or long (length and elided leading one).
module Codec {
  import opened Types
  import opened Bits
  import opened BitStream

  const SHORTINT_LENGTH: nat := 12

  // ---------------------------------------------------------------------------------
  // The format
  // ---------------------------------------------------------------------------------

  // 31 - clz(v)
  function Log2(v: nat): (n: nat)
    requires v >= 1
    ensures Pow2(n) <= v < 2 * Pow2(n)
  {
    if v == 1 then 0 else 1 + Log2(v / 2)
  }

  function EncodeUint(v: nat): seq<bool>
    requires v >= 1
  {
    BitsOf(5, Log2(v)) + BitsOf(Log2(v), v)
  }

  function TypeCode(t: OrderType): nat {
    match t
    case Limit => 0
    case CounterBest => 3
    case ClientBest => 4
    case BestFive => 5
    case FAK => 6
    case FOK => 7
  }

  // Conversion to int32_t.
  function Signed(x: u32): int {
    if x < 0x8000_0000 then x else x - 0x1_0000_0000
  }

  // (int32_t)price - (int32_t)last_price
  function Diff(price: u32, last: u32): int {
    Signed(price) - Signed(last)
  }

  // Neither the difference nor its negation overflows int32_t.
  predicate Encodable(last: u32, o: Order) {
    o.typ == Limit ==> -0x8000_0000 < Diff(o.price, last) < 0x8000_0000
  }

  function NextLast(last: u32, o: Order): u32 {
    if o.typ == Limit then o.price else last
  }

  // `diff >> 11` is 0 or -1.
  predicate IsShort(diff: int) {
    diff / 2048 == 0 || diff / 2048 == -1
  }

  // Conversion to uint32_t.
  function Wrap(x: int): u32 {
    x % 0x1_0000_0000
  }

  function PriceCode(diff: int): nat {
    if IsShort(diff) then 0 else if diff > 0 then 1 else 2
  }

  function Abs(x: int): nat {
    if x > 0 then x else -x
  }

  function EncodeDiff(diff: int): seq<bool> {
    if IsShort(diff) then BitsOf(SHORTINT_LENGTH, Wrap(diff))
    else EncodeUint(Abs(diff))
  }

  function EncodeBody(last: u32, o: Order): seq<bool> {
    if o.typ == Limit then BitsOf(3, PriceCode(Diff(o.price, last))) + EncodeDiff(Diff(o.price, last))
    else BitsOf(3, TypeCode(o.typ))
  }

  function EncodeOrder(last: u32, o: Order): seq<bool> {
    [o.dir == Ask] + BitsOf(10, o.volume) + EncodeBody(last, o)
  }

  function EncodeAll(last: u32, orders: seq<Order>): seq<bool>
    decreases |orders|
  {
    if orders == [] then []
    else EncodeOrder(last, orders[0]) + EncodeAll(NextLast(last, orders[0]), orders[1..])
  }

  // What a decoded value says: the price it ends at, and the unread bits.
  datatype Number = Number(value: u32, rest: seq<bool>)

  function DecodeUint(bits: seq<bool>): Option<Number> {
    if |bits| < 5 then None else DecodeTail(FiveBits(bits[..5]), bits[5..])
  }

  // The low bits of a number whose leading one was left out.
  function DecodeTail(length: nat, bits: seq<bool>): Option<Number>
    requires length < 32
  {
    if |bits| < length then None
    else
      ValueBound(bits[..length]);
      Pow2Bound(length);
      Some(Number(ValueOf(bits[..length]) + Pow2(length), bits[length..]))
  }

  function FiveBits(bits: seq<bool>): (v: u32)
    requires |bits| == 5
    ensures v < 32 && v == ValueOf(bits)
  {
    ValueBound(bits);
    Powers();
    ValueOf(bits)
  }

  lemma Powers()
    ensures Pow2(3) == 8 && Pow2(5) == 32 && Pow2(10) == 1024 && Pow2(12) == 4096
  {
  }

  lemma Power31(n: nat)
    requires n == 31
    ensures Pow2(n) == 0x8000_0000
  {
    Powers();
    PowerAdd(10, 10);
    PowerAdd(20, 10);
    PowerAdd(30, 1);
  }

  lemma {:induction false} PowerAdd(a: nat, b: nat)
    ensures Pow2(a + b) == Pow2(a) * Pow2(b)
  {
    if b > 0 {
      PowerAdd(a, b - 1);
    }
  }

  lemma Pow2Bound(n: nat)
    requires n < 32
    ensures Pow2(n) <= 0x8000_0000
  {
    Pow2Monotone(n, 31);
    Power31(31);
  }

  lemma {:induction false} Pow2Monotone(a: nat, b: nat)
    requires a <= b
    ensures Pow2(a) <= Pow2(b)
  {
    if a < b {
      Pow2Monotone(a, b - 1);
    }
  }

  function SignExtend(x: nat): int {
    if x < 2048 then x else x - 4096
  }

  function DecodePrice(tag: nat, last: u32, bits: seq<bool>): Option<Number>
    requires tag < 3
  {
    if tag == 0 then
      if |bits| < SHORTINT_LENGTH then None
      else Some(Number(Wrap(SignExtend(ValueOf(bits[..SHORTINT_LENGTH])) + last), bits[SHORTINT_LENGTH..]))
    else
      match DecodeUint(bits)
      case None => None
      case Some(n) =>
        Some(Number(Wrap(if tag == 1 then last + n.value else last - n.value), n.rest))
  }

  datatype Decoded = Decoded(order: Order, last: u32, rest: seq<bool>)

  function TypeOf(tag: nat): OrderType {
    match tag
    case 3 => CounterBest
    case 4 => ClientBest
    case 5 => BestFive
    case 6 => FAK
    case 7 => FOK
    case _ => Limit
  }

  function TenBits(bits: seq<bool>): (v: u32)
    requires |bits| == 10
    ensures v < 1024 && v == ValueOf(bits)
  {
    ValueBound(bits);
    Powers();
    ValueOf(bits)
  }

  function DecodeBody(last: u32, dir: Direction, volume: u32, bits: seq<bool>): Option<Decoded> {
    if |bits| < 3 then None
    else
      var tag := ValueOf(bits[..3]);
      if tag < 3 then
        match DecodePrice(tag, last, bits[3..])
        case None => None
        case Some(n) => Some(Decoded(Order(dir, Limit, n.value, volume), n.value, n.rest))
      else
        Some(Decoded(Order(dir, TypeOf(tag), 0, volume), last, bits[3..]))
  }

  // The first order in a bit list; None if it is not complete yet.
  function DecodeOrder(last: u32, bits: seq<bool>): Option<Decoded> {
    if |bits| < 11 then None
    else DecodeBody(last, if bits[0] then Ask else Bid, TenBits(bits[1..11]), bits[11..])
  }

  lemma DecodeShrinks(last: u32, bits: seq<bool>)
    ensures DecodeOrder(last, bits).Some? ==> |DecodeOrder(last, bits).value.rest| < |bits|
  {
  }

  // All complete orders in a bit list.
  function DecodeAll(last: u32, bits: seq<bool>): seq<Order>
    decreases |bits|
  {
    match DecodeOrder(last, bits)
    case None => []
    case Some(d) =>
      DecodeShrinks(last, bits);
      [d.order] + DecodeAll(d.last, d.rest)
  }

  // What survives the wire: ten bits of volume, and a price only for limit orders.
  function Canon(o: Order): Order {
    Order(o.dir, o.typ, if o.typ == Limit then o.price else 0, o.volume % 1024)
  }

  function CanonAll(orders: seq<Order>): seq<Order> {
    if orders == [] then [] else [Canon(orders[0])] + CanonAll(orders[1..])
  }

  // ---------------------------------------------------------------------------------
  // Round trip
  // ---------------------------------------------------------------------------------

  // Decoding gives the order back, up to Order::operator==, exactly if its volume fits ten bits.
  lemma CanonIsSame(o: Order)
    ensures SameOrder(Canon(o), o) <==> o.volume < 1024
  {
  }

  // A field read from the front of a bit list.
  lemma ReadField(n: nat, v: nat, rest: seq<bool>)
    ensures var bits := BitsOf(n, v) + rest;
            |bits| == n + |rest| && bits[..n] == BitsOf(n, v) && bits[n..] == rest && ValueOf(bits[..n]) == v % Pow2(n)
  {
    BitsLength(n, v);
    BitsRoundTrip(n, v);
  }

  lemma Assoc(a: seq<bool>, b: seq<bool>, c: seq<bool>)
    ensures (a + b) + c == a + (b + c)
  {
  }

  lemma LogBound(v: nat)
    requires 1 <= v < 0x8000_0000
    ensures Log2(v) < 31
  {
    if Log2(v) >= 31 {
      Pow2Monotone(31, Log2(v));
      Power31(31);
    }
  }

  // The elided leading one is restored.
  lemma LeadingOne(v: nat)
    requires v >= 1
    ensures v % Pow2(Log2(v)) + Pow2(Log2(v)) == v
  {
    DivModIs(v, Pow2(Log2(v)), 1, v - Pow2(Log2(v)));
  }

  lemma TailRoundTrip(v: nat, rest: seq<bool>)
    requires 1 <= v < 0x8000_0000 && Log2(v) < 31
    ensures DecodeTail(Log2(v), BitsOf(Log2(v), v) + rest) == Some(Number(v, rest))
  {
    ReadField(Log2(v), v, rest);
    LeadingOne(v);
  }

  lemma UintRoundTrip(v: nat, rest: seq<bool>)
    requires 1 <= v < 0x8000_0000
    ensures DecodeUint(EncodeUint(v) + rest) == Some(Number(v, rest))
  {
    LogBound(v);
    var n := Log2(v);
    Assoc(BitsOf(5, n), BitsOf(n, v), rest);
    ReadLength(n, BitsOf(n, v) + rest);
    TailRoundTrip(v, rest);
  }

  lemma ReadLength(n: nat, rest: seq<bool>)
    requires n < 32
    ensures var bits := BitsOf(5, n) + rest;
            |bits| >= 5 && ValueOf(bits[..5]) == n && bits[5..] == rest
  {
    ReadField(5, n, rest);
    Powers();
  }

  lemma WrapDiff(last: u32, price: u32)
    ensures Wrap(last + Diff(price, last)) == price
  {
  }

  // Twelve bits carry any difference in -2048..2047.
  lemma ShortRoundTrip(last: u32, diff: int)
    requires IsShort(diff)
    ensures Wrap(SignExtend(Wrap(diff) % 4096) + last) == Wrap(last + diff)
  {
    assert -2048 <= diff < 2048;
  }

  lemma ShortPrice(last: u32, price: u32, rest: seq<bool>)
    requires IsShort(Diff(price, last))
    ensures DecodePrice(0, last, BitsOf(SHORTINT_LENGTH, Wrap(Diff(price, last))) + rest) == Some(Number(price, rest))
  {
    var diff := Diff(price, last);
    ReadField(SHORTINT_LENGTH, Wrap(diff), rest);
    assert Pow2(SHORTINT_LENGTH) == 4096 by { Powers(); }
    ShortRoundTrip(last, diff);
    WrapDiff(last, price);
  }

  lemma LongPrice(last: u32, price: u32, rest: seq<bool>)
    requires -0x8000_0000 < Diff(price, last) < 0x8000_0000 && Diff(price, last) != 0
    ensures DecodePrice(if Diff(price, last) > 0 then 1 else 2, last, EncodeUint(Abs(Diff(price, last))) + rest)
         == Some(Number(price, rest))
  {
    WrapDiff(last, price);
    if Diff(price, last) > 0 {
      LongUp(last, Abs(Diff(price, last)), rest);
    } else {
      LongDown(last, Abs(Diff(price, last)), rest);
    }
  }

  lemma LongUp(last: u32, v: nat, rest: seq<bool>)
    requires 1 <= v < 0x8000_0000
    ensures DecodePrice(1, last, EncodeUint(v) + rest) == Some(Number(Wrap(last + v), rest))
  {
    UintRoundTrip(v, rest);
  }

  lemma LongDown(last: u32, v: nat, rest: seq<bool>)
    requires 1 <= v < 0x8000_0000
    ensures DecodePrice(2, last, EncodeUint(v) + rest) == Some(Number(Wrap(last - v), rest))
  {
    UintRoundTrip(v, rest);
  }

  lemma ReadTag(tag: nat, rest: seq<bool>)
    requires tag < 8
    ensures var bits := BitsOf(3, tag) + rest;
            |bits| >= 3 && ValueOf(bits[..3]) == tag && bits[3..] == rest
  {
    ReadField(3, tag, rest);
    Powers();
  }

  lemma LimitRoundTrip(last: u32, price: u32, dir: Direction, volume: u32, rest: seq<bool>)
    requires -0x8000_0000 < Diff(price, last) < 0x8000_0000
    ensures var diff := Diff(price, last);
            DecodeBody(last, dir, volume, (BitsOf(3, PriceCode(diff)) + EncodeDiff(diff)) + rest)
            == Some(Decoded(Order(dir, Limit, price, volume), price, rest))
  {
    var code, diff := PriceCode(Diff(price, last)), EncodeDiff(Diff(price, last));
    Assoc(BitsOf(3, code), diff, rest);
    ReadTag(code, diff + rest);
    if IsShort(Diff(price, last)) {
      ShortPrice(last, price, rest);
    } else {
      LongPrice(last, price, rest);
    }
  }

  lemma BodyRoundTrip(last: u32, o: Order, volume: u32, rest: seq<bool>)
    requires Encodable(last, o)
    ensures DecodeBody(last, o.dir, volume, EncodeBody(last, o) + rest)
         == Some(Decoded(Order(o.dir, o.typ, if o.typ == Limit then o.price else 0, volume), NextLast(last, o), rest))
  {
    if o.typ == Limit {
      LimitRoundTrip(last, o.price, o.dir, volume, rest);
    } else {
      ReadTag(TypeCode(o.typ), rest);
    }
  }

  lemma ReadHead(b: bool, volume: nat, tail: seq<bool>)
    ensures var bits := ([b] + BitsOf(10, volume)) + tail;
            && |bits| >= 11 && bits[0] == b && ValueOf(bits[1..11]) == volume % 1024 && bits[11..] == tail
  {
    var bits, field := ([b] + BitsOf(10, volume)) + tail, BitsOf(10, volume) + tail;
    Assoc([b], BitsOf(10, volume), tail);
    ReadField(10, volume, tail);
    Powers();
    assert bits[1..11] == field[..10] && bits[11..] == field[10..];
  }

  // Decoding what was encoded: the order comes back, both sides agree on the last price, and
  // the bits that follow are untouched.
  lemma OrderRoundTrip(last: u32, o: Order, rest: seq<bool>)
    requires Encodable(last, o)
    ensures DecodeOrder(last, EncodeOrder(last, o) + rest) == Some(Decoded(Canon(o), NextLast(last, o), rest))
  {
    var head, body := [o.dir == Ask] + BitsOf(10, o.volume), EncodeBody(last, o);
    Assoc(head, body, rest);
    ReadHead(o.dir == Ask, o.volume, body + rest);
    BodyRoundTrip(last, o, o.volume % 1024, rest);
  }

  predicate AllEncodable(last: u32, orders: seq<Order>)
    decreases |orders|
  {
    orders == [] || (Encodable(last, orders[0]) && AllEncodable(NextLast(last, orders[0]), orders[1..]))
  }

  // Prices below 2^31 never overflow.
  lemma {:induction false} SmallPricesEncode(last: u32, orders: seq<Order>)
    requires last < 0x8000_0000
    requires forall i :: 0 <= i < |orders| ==> (orders[i].typ == Limit ==> orders[i].price < 0x8000_0000)
    ensures AllEncodable(last, orders)
    decreases |orders|
  {
    if orders != [] {
      SmallPricesEncode(NextLast(last, orders[0]), orders[1..]);
    }
  }

  // A whole list of orders.
  lemma {:induction false} StreamRoundTrip(last: u32, orders: seq<Order>)
    requires AllEncodable(last, orders)
    ensures DecodeAll(last, EncodeAll(last, orders)) == CanonAll(orders)
    decreases |orders|
  {
    if orders != [] {
      OrderRoundTrip(last, orders[0], EncodeAll(NextLast(last, orders[0]), orders[1..]));
      StreamRoundTrip(NextLast(last, orders[0]), orders[1..]);
    }
  }

  // More bits never change an order that was complete without them.
  lemma DecodeMonotone(last: u32, bits: seq<bool>, more: seq<bool>)
    requires DecodeOrder(last, bits).Some?
    ensures var d := DecodeOrder(last, bits).value;
            DecodeOrder(last, bits + more) == Some(Decoded(d.order, d.last, d.rest + more))
  {
    var all := bits + more;
    assert all[1..11] == bits[1..11] && all[11..] == bits[11..] + more;
    var body, longer := bits[11..], bits[11..] + more;
    assert longer[..3] == body[..3] && longer[3..] == body[3..] + more;
    var tag := ValueOf(body[..3]);
    if tag < 3 {
      PriceMonotone(tag, last, body[3..], more);
    }
  }

  lemma PriceMonotone(tag: nat, last: u32, bits: seq<bool>, more: seq<bool>)
    requires tag < 3 && DecodePrice(tag, last, bits).Some?
    ensures var n := DecodePrice(tag, last, bits).value;
            DecodePrice(tag, last, bits + more) == Some(Number(n.value, n.rest + more))
  {
    var all := bits + more;
    if tag == 0 {
      assert all[..SHORTINT_LENGTH] == bits[..SHORTINT_LENGTH];
      assert all[SHORTINT_LENGTH..] == bits[SHORTINT_LENGTH..] + more;
    } else {
      var n := FiveBits(bits[..5]);
      assert all[..5] == bits[..5] && all[5..] == bits[5..] + more;
      assert all[5..][..n] == bits[5..][..n] && all[5..][n..] == bits[5..][n..] + more;
    }
  }

  // From any part of the bits that has arrived, exactly an initial part of the orders decodes.
  lemma {:induction false} PrefixDecodes(last: u32, orders: seq<Order>, bits: seq<bool>)
    requires AllEncodable(last, orders)
    requires bits <= EncodeAll(last, orders)
    ensures DecodeAll(last, bits) <= CanonAll(orders)
    decreases |orders|
  {
    var all := EncodeAll(last, orders);
    var more := all[|bits|..];
    assert all == bits + more;
    if DecodeOrder(last, bits).Some? {
      DecodeMonotone(last, bits, more);
      var d := DecodeOrder(last, bits).value;
      if orders == [] {
      } else {
        var tail := EncodeAll(NextLast(last, orders[0]), orders[1..]);
        OrderRoundTrip(last, orders[0], tail);
        assert d.rest + more == tail;
        PrefixDecodes(NextLast(last, orders[0]), orders[1..], d.rest);
      }
    }
  }

  // ---------------------------------------------------------------------------------
  // The classes
  // ---------------------------------------------------------------------------------

  class OrderEncoder {
    var lastPrice: u32
    const os: OBitStream

    ghost predicate Valid()
      reads this, os
    {
      os.Valid() && os.maxNumBits >= 1
    }

    constructor (shard: u32, maxNumBits: nat)
      requires maxNumBits >= 1
      ensures Valid() && lastPrice == 0 && os.Put() == [] && os.sent == []
      ensures os.shard == shard && os.maxNumBits == maxNumBits
      ensures fresh(os)
    {
      lastPrice := 0;
      os := new OBitStream(shard, maxNumBits);
    }

    method EncodeUintTo(value: u32)
      requires Valid() && 1 <= value < 0x8000_0000
      modifies os
      ensures Valid() && os.Put() == old(os.Put()) + EncodeUint(value)
      ensures AllFull(old(os.sent), os.sent, os.maxNumBits)
    {
      LogBound(value);
      var length := Log2(value);
      os.PutBits(5, length);
      ghost var sent := os.sent;
      os.PutBits(length, value);
      FullOn(old(os.sent), sent, os.sent, os.maxNumBits);
      Assoc(old(os.Put()), BitsOf(5, length), BitsOf(length, value));
    }

    method SendDiff(diff: int)
      requires Valid() && -0x8000_0000 < diff < 0x8000_0000
      modifies os
      ensures Valid() && os.Put() == old(os.Put()) + EncodeDiff(diff)
      ensures AllFull(old(os.sent), os.sent, os.maxNumBits)
    {
      ghost var code := EncodeDiff(diff);
      if IsShort(diff) {
        assert code == BitsOf(SHORTINT_LENGTH, Wrap(diff));
        os.PutBits(SHORTINT_LENGTH, Wrap(diff));
      } else if diff > 0 {
        assert code == EncodeUint(diff);
        EncodeUintTo(diff);
      } else {
        assert code == EncodeUint(-diff);
        EncodeUintTo(-diff);
      }
    }

    method SendPrice(diff: int)
      requires Valid() && -0x8000_0000 < diff < 0x8000_0000
      modifies os
      ensures Valid() && os.Put() == old(os.Put()) + (BitsOf(3, PriceCode(diff)) + EncodeDiff(diff))
      ensures AllFull(old(os.sent), os.sent, os.maxNumBits)
    {
      Assoc(os.Put(), BitsOf(3, PriceCode(diff)), EncodeDiff(diff));
      SendTag(PriceCode(diff));
      ghost var sent := os.sent;
      SendDiff(diff);
      FullOn(old(os.sent), sent, os.sent, os.maxNumBits);
    }

    method SendTag(tag: u32)
      requires Valid()
      modifies os
      ensures Valid() && os.Put() == old(os.Put()) + BitsOf(3, tag)
      ensures AllFull(old(os.sent), os.sent, os.maxNumBits)
    {
      os.PutBits(3, tag);
    }

    // The switch of `send`.
    method SendBody(order: Order)
      requires Valid() && Encodable(lastPrice, order)
      modifies this, os
      ensures Valid() && lastPrice == NextLast(old(lastPrice), order)
      ensures os.Put() == old(os.Put()) + EncodeBody(old(lastPrice), order)
      ensures AllFull(old(os.sent), os.sent, os.maxNumBits)
    {
      ghost var body := EncodeBody(lastPrice, order);
      if order.typ == Limit {
        assert body == BitsOf(3, PriceCode(Diff(order.price, lastPrice))) + EncodeDiff(Diff(order.price, lastPrice));
        SendPrice(Diff(order.price, lastPrice));
        lastPrice := order.price;
      } else {
        SendTag(TypeCode(order.typ));
      }
    }

    // The direction and the volume.
    method SendHead(order: Order)
      requires Valid()
      modifies os
      ensures Valid() && os.Put() == old(os.Put()) + ([order.dir == Ask] + BitsOf(10, order.volume))
      ensures AllFull(old(os.sent), os.sent, os.maxNumBits)
    {
      Assoc(os.Put(), [order.dir == Ask], BitsOf(10, order.volume));
      os.PutBit(order.dir == Ask);
      ghost var sent := os.sent;
      os.PutBits(10, order.volume);
      FullOn(old(os.sent), sent, os.sent, os.maxNumBits);
    }

    method Send(order: Order)
      requires Valid() && Encodable(lastPrice, order)
      modifies this, os
      ensures Valid() && lastPrice == NextLast(old(lastPrice), order)
      ensures os.Put() == old(os.Put()) + EncodeOrder(old(lastPrice), order)
      ensures AllFull(old(os.sent), os.sent, os.maxNumBits)
    {
      Assoc(os.Put(), [order.dir == Ask] + BitsOf(10, order.volume), EncodeBody(lastPrice, order));
      SendHead(order);
      ghost var sent := os.sent;
      SendBody(order);
      FullOn(old(os.sent), sent, os.sent, os.maxNumBits);
    }

    method Flush()
      requires Valid()
      modifies os
      ensures Valid() && os.Put() == old(os.Put()) && Payload(os.sent) == os.Put()
      ensures |os.sent| == |old(os.sent)| + 1 && old(os.sent) <= os.sent && os.sent[|old(os.sent)|].numBits < os.maxNumBits
    {
      os.Flush();
    }
  }

  class OrderDecoder {
    var lastPrice: u32
    const input: IBitStream

    ghost predicate Valid()
      reads this, input
    {
      input.Valid()
    }

    constructor (input: IBitStream)
      requires input.Valid()
      ensures Valid() && lastPrice == 0 && this.input == input
    {
      lastPrice := 0;
      this.input := input;
    }

    method DecodeTailFrom(length: u32) returns (r: Option<u32>)
      requires Valid() && length < 32
      modifies input
      ensures Valid()
      ensures match r
              case Some(v) => DecodeTail(length, old(input.Received())) == Some(Number(v, input.Received()))
              case None => DecodeTail(length, old(input.Received())) == None && input.Blocked()
    {
      ghost var bits := input.Received();
      var value := input.GetBits(length);
      if value == None {
        return None;
      }
      ValueBound(bits[..length]);
      Pow2Bound(length);
      r := Some(value.value + Pow2(length));
    }

    method DecodeUintFrom() returns (r: Option<u32>)
      requires Valid()
      modifies input
      ensures Valid()
      ensures match r
              case Some(v) => DecodeUint(old(input.Received())) == Some(Number(v, input.Received()))
              case None => DecodeUint(old(input.Received())) == None && input.Blocked()
    {
      ghost var bits := input.Received();
      var length := input.GetBits(5);
      if length == None {
        return None;
      }
      assert length.value == FiveBits(bits[..5]);
      r := DecodeTailFrom(length.value);
    }

    // The three price forms.
    method NextPrice(tag: nat) returns (r: Option<u32>)
      requires Valid() && tag < 3
      modifies input
      ensures Valid()
      ensures match r
              case Some(p) => DecodePrice(tag, lastPrice, old(input.Received())) == Some(Number(p, input.Received()))
              case None => DecodePrice(tag, lastPrice, old(input.Received())) == None && input.Blocked()
    {
      if tag == 0 {
        r := NextShort();
      } else {
        r := NextLong(tag);
      }
    }

    method NextShort() returns (r: Option<u32>)
      requires Valid()
      modifies input
      ensures Valid()
      ensures match r
              case Some(p) => DecodePrice(0, lastPrice, old(input.Received())) == Some(Number(p, input.Received()))
              case None => DecodePrice(0, lastPrice, old(input.Received())) == None && input.Blocked()
    {
      ghost var bits := input.Received();
      var x := input.GetBits(SHORTINT_LENGTH);
      if x == None {
        return None;
      }
      assert x.value == ValueOf(bits[..SHORTINT_LENGTH]);
      r := Some(Wrap(SignExtend(x.value) + lastPrice));
    }

    method NextLong(tag: nat) returns (r: Option<u32>)
      requires Valid() && 1 <= tag < 3
      modifies input
      ensures Valid()
      ensures match r
              case Some(p) => DecodePrice(tag, lastPrice, old(input.Received())) == Some(Number(p, input.Received()))
              case None => DecodePrice(tag, lastPrice, old(input.Received())) == None && input.Blocked()
    {
      var n := DecodeUintFrom();
      if n == None {
        return None;
      }
      r := Some(Wrap(if tag == 1 then lastPrice + n.value else lastPrice - n.value));
    }

    // The switch of `next`.
    method NextBody(dir: Direction, volume: u32) returns (r: Option<Order>)
      requires Valid()
      modifies this, input
      ensures Valid()
      ensures match r
              case Some(o) => DecodeBody(old(lastPrice), dir, volume, old(input.Received()))
                              == Some(Decoded(o, lastPrice, input.Received()))
              case None => DecodeBody(old(lastPrice), dir, volume, old(input.Received())) == None && input.Blocked()
    {
      var tag := input.GetBits(3);
      if tag == None {
        return None;
      }
      if tag.value < 3 {
        var price := NextPrice(tag.value);
        if price == None {
          return None;
        }
        lastPrice := price.value;
        r := Some(Order(dir, Limit, price.value, volume));
      } else {
        r := Some(Order(dir, TypeOf(tag.value), 0, volume));
      }
    }

    // None while the order is not complete; the call is then waiting for a missing packet.
    method Next() returns (r: Option<Order>)
      requires Valid()
      modifies this, input
      ensures Valid()
      ensures match r
              case Some(o) => DecodeOrder(old(lastPrice), old(input.Received()))
                              == Some(Decoded(o, lastPrice, input.Received()))
              case None => DecodeOrder(old(lastPrice), old(input.Received())) == None && input.Blocked()
    {
      ghost var bits := input.Received();
      var dir := input.GetBit();
      if dir == None {
        return None;
      }
      assert bits[1..] == input.Received();
      var volume := input.GetBits(10);
      if volume == None {
        return None;
      }
      assert bits[1..][..10] == bits[1..11] && bits[1..][10..] == bits[11..];
      assert volume.value == TenBits(bits[1..11]);
      r := NextBody(if dir.value then Ask else Bid, volume.value);
    }
  }
}
