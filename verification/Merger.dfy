// Each trader holds part of every stock's orders.  It encodes its own in order-id order, and
// merges them with the other trader's by its mask: -1 where the order is the other's.
module Merger {
  import opened Types
  import opened BitStream
  import opened Codec
  import opened Reader

  // ---------------------------------------------------------------------------------
  // Splitting and merging by a mask
  // ---------------------------------------------------------------------------------

  function Local(mask: seq<int>, all: seq<Order>): seq<Order>
    requires |mask| == |all|
  {
    if mask == [] then [] else (if mask[0] != -1 then [all[0]] else []) + Local(mask[1..], all[1..])
  }

  function Remote(mask: seq<int>, all: seq<Order>): seq<Order>
    requires |mask| == |all|
  {
    if mask == [] then [] else (if mask[0] == -1 then [all[0]] else []) + Remote(mask[1..], all[1..])
  }

  // OrderMerger: as far as the two streams have come.
  function Merge(mask: seq<int>, local: seq<Order>, remote: seq<Order>): seq<Order> {
    if mask == [] then []
    else if mask[0] == -1 then
      if remote == [] then [] else [remote[0]] + Merge(mask[1..], local, remote[1..])
    else
      if local == [] then [] else [local[0]] + Merge(mask[1..], local[1..], remote)
  }

  // Whatever parts of the two streams are there, their merge is an initial part of the whole
  // list; it is the whole list once both streams are complete.
  lemma {:induction false} MergeRestores(mask: seq<int>, all: seq<Order>, local: seq<Order>, remote: seq<Order>)
    requires |mask| == |all| && local <= Local(mask, all) && remote <= Remote(mask, all)
    ensures Merge(mask, local, remote) <= all
    ensures local == Local(mask, all) && remote == Remote(mask, all) ==> Merge(mask, local, remote) == all
  {
    if mask != [] {
      assert all == [all[0]] + all[1..];
      if mask[0] == -1 {
        assert Remote(mask, all) == [all[0]] + Remote(mask[1..], all[1..]);
        assert Local(mask, all) == Local(mask[1..], all[1..]);
        if remote != [] {
          MergeRestores(mask[1..], all[1..], local, remote[1..]);
        }
      } else {
        assert Local(mask, all) == [all[0]] + Local(mask[1..], all[1..]);
        assert Remote(mask, all) == Remote(mask[1..], all[1..]);
        if local != [] {
          MergeRestores(mask[1..], all[1..], local[1..], remote);
        }
      }
    }
  }

  // Every order belongs to exactly one of the traders.
  ghost predicate Complementary(a: seq<int>, b: seq<int>) {
    |a| == |b| && forall i :: 0 <= i < |a| ==> (a[i] == -1 <==> b[i] != -1)
  }

  lemma {:induction false} RemoteIsOthersLocal(a: seq<int>, b: seq<int>, all: seq<Order>)
    requires Complementary(a, b) && |a| == |all|
    ensures Remote(a, all) == Local(b, all)
  {
    if a != [] {
      assert a[0] == -1 <==> b[0] != -1;
      RemoteIsOthersLocal(a[1..], b[1..], all[1..]);
    }
  }

  lemma {:induction false} CanonLocal(mask: seq<int>, all: seq<Order>)
    requires |mask| == |all|
    ensures |CanonAll(all)| == |all|
    ensures CanonAll(Local(mask, all)) == Local(mask, CanonAll(all))
  {
    if mask != [] {
      CanonLocal(mask[1..], all[1..]);
      if mask[0] != -1 {
        assert ([all[0]] + Local(mask[1..], all[1..]))[1..] == Local(mask[1..], all[1..]);
      } else {
        assert [] + Local(mask[1..], all[1..]) == Local(mask[1..], all[1..]);
      }
    }
  }

  // ---------------------------------------------------------------------------------
  // The encoding half of process_stock
  // ---------------------------------------------------------------------------------

  ghost predicate PositionsOk(pos: seq<int>, raw: seq<Order>) {
    forall i :: 0 <= i < |pos| ==> pos[i] == -1 || 0 <= pos[i] < |raw|
  }

  // The orders a trader holds of a stock, by order id.
  function OwnOrders(pos: seq<int>, raw: seq<Order>): seq<Order>
    requires PositionsOk(pos, raw)
  {
    if pos == [] then []
    else
      var n := |pos| - 1;
      OwnOrders(pos[..n], raw) + if pos[n] == -1 then [] else [raw[pos[n]]]
  }

  lemma {:induction false} OwnAreHeld(pos: seq<int>, raw: seq<Order>)
    requires PositionsOk(pos, raw)
    ensures |OwnOrders(pos, raw)| == |Held(pos)|
    ensures forall i :: 0 <= i < |Held(pos)| ==> 0 <= Held(pos)[i] < |raw| && OwnOrders(pos, raw)[i] == raw[Held(pos)[i]]
  {
    if pos != [] {
      OwnAreHeld(pos[..|pos| - 1], raw);
    }
  }

  lemma RowPositionsOk(orderId: seq<nat>, plane: nat, stk: nat, n: nat, raw: seq<Order>)
    requires plane > 0 && |orderId| == |raw|
    ensures PositionsOk(StockRow(orderId, plane, stk, n), raw)
  {
    StockRowAt(orderId, plane, stk, n);
    forall c | 0 <= c < n ensures -1 <= StockRow(orderId, plane, stk, n)[c] < |raw| {
      LastAtIs(orderId, plane, stk, c + 1, |orderId|);
    }
  }

  // On the rows of the table, the loop that skips -1 sends each of the trader's orders of the
  // stock exactly once, by ascending order id: `own` lists their raw entries in that order.
  lemma EncodedOnceInOrder(orderId: seq<nat>, plane: nat, stk: nat, n: nat, raw: seq<Order>) returns (own: seq<int>)
    requires plane > 0 && |orderId| == |raw| && IdsDistinct(orderId, plane)
    ensures PositionsOk(StockRow(orderId, plane, stk, n), raw)
    ensures forall k :: k in own <==> IsOrderOf(orderId, plane, stk, n, k)
    ensures forall i :: 0 <= i < |own| ==> 0 <= own[i] < |raw|
    ensures Ascending(orderId, own)
    ensures var sent := OwnOrders(StockRow(orderId, plane, stk, n), raw);
            |sent| == |own| && forall i :: 0 <= i < |own| ==> sent[i] == raw[own[i]]
  {
    own := Held(StockRow(orderId, plane, stk, n));
    RowPositionsOk(orderId, plane, stk, n, raw);
    RowIsSorted(orderId, plane, stk, n);
    OwnAreHeld(StockRow(orderId, plane, stk, n), raw);
  }

  // Order `id` of the stock is in this trader's file.
  ghost predicate HasOrder(orderId: seq<nat>, plane: nat, stk: nat, id: nat)
    requires plane > 0
  {
    exists k :: 0 <= k < |orderId| && Names(orderId, plane, stk, id, k)
  }

  // Every order 1..n of the stock is in exactly one of the two files.
  ghost predicate Partition(ids1: seq<nat>, ids2: seq<nat>, plane: nat, stk: nat, n: nat)
    requires plane > 0
  {
    forall id :: 1 <= id <= n ==> (HasOrder(ids1, plane, stk, id) <==> !HasOrder(ids2, plane, stk, id))
  }

  lemma CellIsOwned(orderId: seq<nat>, plane: nat, stk: nat, id: nat)
    requires plane > 0
    ensures LastAt(orderId, plane, stk, id, |orderId|) != -1 <==> HasOrder(orderId, plane, stk, id)
  {
    LastAtIs(orderId, plane, stk, id, |orderId|);
  }

  // The masks of the two traders are complementary exactly if the files partition the ids.
  lemma RowsComplement(ids1: seq<nat>, ids2: seq<nat>, plane: nat, stk: nat, n: nat)
    requires plane > 0
    ensures Complementary(StockRow(ids1, plane, stk, n), StockRow(ids2, plane, stk, n))
       <==> Partition(ids1, ids2, plane, stk, n)
  {
    var a, b := StockRow(ids1, plane, stk, n), StockRow(ids2, plane, stk, n);
    StockRowAt(ids1, plane, stk, n);
    StockRowAt(ids2, plane, stk, n);
    forall c | 0 <= c < n
      ensures a[c] != -1 <==> HasOrder(ids1, plane, stk, c + 1)
      ensures b[c] != -1 <==> HasOrder(ids2, plane, stk, c + 1)
    {
      CellIsOwned(ids1, plane, stk, c + 1);
      CellIsOwned(ids2, plane, stk, c + 1);
    }
    if Complementary(a, b) {
      forall id | 1 <= id <= n ensures HasOrder(ids1, plane, stk, id) <==> !HasOrder(ids2, plane, stk, id) {
        assert a[id - 1] == -1 <==> b[id - 1] != -1;
      }
    }
  }

  // The full list both traders work from.
  function AllOrders(pos0: seq<int>, raw0: seq<Order>, pos1: seq<int>, raw1: seq<Order>): seq<Order>
    requires PositionsOk(pos0, raw0) && PositionsOk(pos1, raw1) && Complementary(pos0, pos1)
  {
    if pos0 == [] then []
    else
      var n := |pos0| - 1;
      AllOrders(pos0[..n], raw0, pos1[..n], raw1) + [if pos0[n] != -1 then raw0[pos0[n]] else raw1[pos1[n]]]
  }

  lemma {:induction false} LocalSnoc(mask: seq<int>, all: seq<Order>, i: int, o: Order)
    requires |mask| == |all|
    ensures Local(mask + [i], all + [o]) == Local(mask, all) + if i != -1 then [o] else []
  {
    if mask == [] {
      assert Local([i][1..], [o][1..]) == [];
    } else {
      assert (mask + [i])[1..] == mask[1..] + [i] && (all + [o])[1..] == all[1..] + [o];
      LocalSnoc(mask[1..], all[1..], i, o);
    }
  }

  // What a trader encodes is its part of the full list.
  lemma {:induction false} OwnIsLocal(pos0: seq<int>, raw0: seq<Order>, pos1: seq<int>, raw1: seq<Order>)
    requires PositionsOk(pos0, raw0) && PositionsOk(pos1, raw1) && Complementary(pos0, pos1)
    ensures var all := AllOrders(pos0, raw0, pos1, raw1);
            |all| == |pos0| && OwnOrders(pos0, raw0) == Local(pos0, all) && OwnOrders(pos1, raw1) == Local(pos1, all)
  {
    if pos0 != [] {
      var n := |pos0| - 1;
      OwnIsLocal(pos0[..n], raw0, pos1[..n], raw1);
      var all := AllOrders(pos0[..n], raw0, pos1[..n], raw1);
      var o := if pos0[n] != -1 then raw0[pos0[n]] else raw1[pos1[n]];
      LocalSnoc(pos0[..n], all, pos0[n], o);
      LocalSnoc(pos1[..n], all, pos1[n], o);
      assert pos0 == pos0[..n] + [pos0[n]] && pos1 == pos1[..n] + [pos1[n]];
      assert pos0[n] == -1 <==> pos1[n] != -1;
    }
  }

  lemma {:induction false} AllOrdersSwap(pos0: seq<int>, raw0: seq<Order>, pos1: seq<int>, raw1: seq<Order>)
    requires PositionsOk(pos0, raw0) && PositionsOk(pos1, raw1)
    requires Complementary(pos0, pos1) && Complementary(pos1, pos0)
    ensures AllOrders(pos0, raw0, pos1, raw1) == AllOrders(pos1, raw1, pos0, raw0)
  {
    if pos0 != [] {
      var n := |pos0| - 1;
      AllOrdersSwap(pos0[..n], raw0, pos1[..n], raw1);
      assert pos0[n] == -1 <==> pos1[n] != -1;
    }
  }

  // From any received parts of the two bit streams a trader merges an initial part of the stock's
  // orders by id, up to Order::operator==, and all of them if the streams are complete.
  lemma MergedStream(pos0: seq<int>, raw0: seq<Order>, pos1: seq<int>, raw1: seq<Order>, own: seq<bool>, other: seq<bool>)
    requires PositionsOk(pos0, raw0) && PositionsOk(pos1, raw1) && Complementary(pos0, pos1)
    requires AllEncodable(0, OwnOrders(pos0, raw0)) && AllEncodable(0, OwnOrders(pos1, raw1))
    requires own <= EncodeAll(0, OwnOrders(pos0, raw0)) && other <= EncodeAll(0, OwnOrders(pos1, raw1))
    ensures var all := CanonAll(AllOrders(pos0, raw0, pos1, raw1));
            var merged := Merge(pos0, DecodeAll(0, own), DecodeAll(0, other));
            && |all| == |pos0| && merged <= all
            && (own == EncodeAll(0, OwnOrders(pos0, raw0)) && other == EncodeAll(0, OwnOrders(pos1, raw1)) ==> merged == all)
  {
    var all := AllOrders(pos0, raw0, pos1, raw1);
    OwnIsLocal(pos0, raw0, pos1, raw1);
    CanonLocal(pos0, all);
    CanonLocal(pos1, all);
    RemoteIsOthersLocal(pos0, pos1, CanonAll(all));
    StreamRoundTrip(0, OwnOrders(pos0, raw0));
    StreamRoundTrip(0, OwnOrders(pos1, raw1));
    PrefixDecodes(0, OwnOrders(pos0, raw0), own);
    PrefixDecodes(0, OwnOrders(pos1, raw1), other);
    MergeRestores(pos0, CanonAll(all), DecodeAll(0, own), DecodeAll(0, other));
  }

  function LastAfter(last: u32, orders: seq<Order>): u32 {
    if orders == [] then last else NextLast(LastAfter(last, orders[..|orders| - 1]), orders[|orders| - 1])
  }

  lemma {:induction false} LastAfterCons(last: u32, o: Order, orders: seq<Order>)
    ensures LastAfter(last, [o] + orders) == LastAfter(NextLast(last, o), orders)
  {
    var all := [o] + orders;
    if orders == [] {
      assert all[..0] == [];
    } else {
      assert all[..|all| - 1] == [o] + orders[..|orders| - 1];
      LastAfterCons(last, o, orders[..|orders| - 1]);
    }
  }

  lemma {:induction false} EncodeSnoc(last: u32, orders: seq<Order>, o: Order)
    ensures EncodeAll(last, orders + [o]) == EncodeAll(last, orders) + EncodeOrder(LastAfter(last, orders), o)
    decreases |orders|
  {
    var all := orders + [o];
    if orders == [] {
      assert all[1..] == [] && all[0] == o;
    } else {
      assert all[1..] == orders[1..] + [o] && orders == [orders[0]] + orders[1..];
      EncodeSnoc(NextLast(last, orders[0]), orders[1..], o);
      LastAfterCons(last, orders[0], orders[1..]);
      Assoc(EncodeOrder(last, orders[0]), EncodeAll(NextLast(last, orders[0]), orders[1..]),
            EncodeOrder(LastAfter(last, orders), o));
    }
  }

  // The encoder has sent the orders of the first i cells.
  ghost predicate HasSent(encoder: OrderEncoder, pos: seq<int>, raw: seq<Order>, i: nat)
    reads encoder, encoder.os
    requires PositionsOk(pos, raw) && i <= |pos|
  {
    && encoder.Valid() && encoder.lastPrice == LastAfter(0, OwnOrders(pos[..i], raw))
    && encoder.os.Put() == EncodeAll(0, OwnOrders(pos[..i], raw))
  }

  method EncodeCell(pos: seq<int>, raw: seq<Order>, i: nat, encoder: OrderEncoder)
    requires PositionsOk(pos, raw) && AllEncodable(0, OwnOrders(pos, raw)) && i < |pos| && pos[i] != -1
    requires HasSent(encoder, pos, raw, i)
    modifies encoder, encoder.os
    ensures HasSent(encoder, pos, raw, i + 1)
    ensures AllFull(old(encoder.os.sent), encoder.os.sent, encoder.os.maxNumBits)
  {
    OwnSnoc(pos, raw, i);
    NextEncodable(pos, raw, i);
    encoder.Send(raw[pos[i]]);
  }

  // The first loop of process_stock and the flush after it: every packet but the last is full.
  method EncodeStock(pos: seq<int>, raw: seq<Order>, encoder: OrderEncoder)
    requires PositionsOk(pos, raw) && AllEncodable(0, OwnOrders(pos, raw))
    requires encoder.Valid() && encoder.lastPrice == 0 && encoder.os.Put() == []
    modifies encoder, encoder.os
    ensures encoder.Valid() && Framed(encoder.os.shard, encoder.os.sent)
    ensures Payload(encoder.os.sent) == EncodeAll(0, OwnOrders(pos, raw))
    ensures var packets := encoder.os.sent;
            && packets != [] && packets[|packets| - 1].numBits < encoder.os.maxNumBits
            && AllFull(old(encoder.os.sent), packets[..|packets| - 1], encoder.os.maxNumBits)
  {
    for i := 0 to |pos|
      invariant HasSent(encoder, pos, raw, i)
      invariant AllFull(old(encoder.os.sent), encoder.os.sent, encoder.os.maxNumBits)
    {
      OwnSnoc(pos, raw, i);
      if pos[i] == -1 {
        continue;
      }
      ghost var sent := encoder.os.sent;
      EncodeCell(pos, raw, i, encoder);
      FullOn(old(encoder.os.sent), sent, encoder.os.sent, encoder.os.maxNumBits);
    }
    assert pos[..|pos|] == pos;
    ghost var sent := encoder.os.sent;
    encoder.Flush();
    assert encoder.os.sent[..|encoder.os.sent| - 1] == sent;
  }

  lemma {:induction false} EncodableSnoc(last: u32, orders: seq<Order>, o: Order)
    ensures AllEncodable(last, orders + [o]) <==> AllEncodable(last, orders) && Encodable(LastAfter(last, orders), o)
    decreases |orders|
  {
    var all := orders + [o];
    if orders == [] {
      assert all[1..] == [] && all[0] == o;
    } else {
      assert all[1..] == orders[1..] + [o] && orders == [orders[0]] + orders[1..];
      EncodableSnoc(NextLast(last, orders[0]), orders[1..], o);
      LastAfterCons(last, orders[0], orders[1..]);
    }
  }

  lemma {:induction false} NextEncodable(pos: seq<int>, raw: seq<Order>, i: nat)
    requires i < |pos| && PositionsOk(pos, raw) && AllEncodable(0, OwnOrders(pos, raw))
    ensures pos[i] != -1 ==> Encodable(LastAfter(0, OwnOrders(pos[..i], raw)), raw[pos[i]])
    decreases |pos|
  {
    var n := |pos| - 1;
    if pos[n] != -1 {
      EncodableSnoc(0, OwnOrders(pos[..n], raw), raw[pos[n]]);
    } else {
      assert OwnOrders(pos, raw) == OwnOrders(pos[..n], raw);
    }
    if i < n {
      NextEncodable(pos[..n], raw, i);
      assert pos[..n][..i] == pos[..i];
    }
  }

  lemma OwnSnoc(pos: seq<int>, raw: seq<Order>, i: nat)
    requires i < |pos| && PositionsOk(pos, raw)
    ensures var own, next := OwnOrders(pos[..i], raw), OwnOrders(pos[..i + 1], raw);
            if pos[i] == -1 then next == own
            else
              && EncodeAll(0, next) == EncodeAll(0, own) + EncodeOrder(LastAfter(0, own), raw[pos[i]])
              && LastAfter(0, next) == NextLast(LastAfter(0, own), raw[pos[i]])
  {
    assert pos[..i + 1][..i] == pos[..i];
    var own := OwnOrders(pos[..i], raw);
    if pos[i] != -1 {
      EncodeSnoc(0, own, raw[pos[i]]);
      assert (own + [raw[pos[i]]])[..|own|] == own;
    }
  }

  // ---------------------------------------------------------------------------------
  // OrderMerger
  // ---------------------------------------------------------------------------------

  datatype Answer = Got(order: Order) | Waiting | End

  class OrderMerger {
    const local: OrderDecoder
    const remote: OrderDecoder
    const mask: seq<int>
    var current: nat

    ghost predicate Valid()
      reads this, local, local.input, remote, remote.input
    {
      && local.Valid() && remote.Valid()
      && local != remote && local.input != remote.input
      && current <= |mask|
    }

    // What it returns before it has to wait for another packet, or ends.
    ghost function Expected(): seq<Order>
      reads this, local, local.input, remote, remote.input
      requires Valid()
    {
      Merge(mask[current..], DecodeAll(local.lastPrice, local.input.Received()),
            DecodeAll(remote.lastPrice, remote.input.Received()))
    }

    constructor (local: OrderDecoder, remote: OrderDecoder, mask: seq<int>)
      requires local.Valid() && remote.Valid() && local != remote && local.input != remote.input
      ensures Valid() && this.local == local && this.remote == remote && this.mask == mask && current == 0
    {
      this.local, this.remote, this.mask, current := local, remote, mask, 0;
    }

    // Waiting means that the call is still blocked on a packet that has not arrived: what has
    // been received holds no further order.
    method Next() returns (r: Answer)
      requires Valid()
      modifies this, local, local.input, remote, remote.input
      ensures Valid()
      ensures match r
              case Got(o) => old(Expected()) == [o] + Expected() && current == old(current) + 1
              case Waiting => old(current) < |mask| && old(Expected()) == []
                              && if mask[old(current)] == -1 then remote.input.Blocked() else local.input.Blocked()
              case End => old(current) == |mask| && old(Expected()) == []
    {
      if current >= |mask| {
        return End;
      }
      assert mask[current..][1..] == mask[current + 1..];
      var o;
      if mask[current] == -1 {
        current := current + 1;
        o := remote.Next();
      } else {
        current := current + 1;
        o := local.Next();
      }
      r := if o == None then Waiting else Got(o.value);
    }
  }

  // ---------------------------------------------------------------------------------
  // The merging half of process_stock
  // ---------------------------------------------------------------------------------

  // The loop over the merger, with the orders handed on collected; it stops where the source's
  // would block.
  method CollectOrders(m: OrderMerger) returns (orders: seq<Order>, ended: bool)
    requires m.Valid()
    modifies m, m.local, m.local.input, m.remote, m.remote.input
    ensures orders == old(m.Expected())
    ensures ended <==> |orders| == |m.mask| - old(m.current)
  {
    orders := [];
    ghost var all, start := m.Expected(), m.current;
    while true
      invariant m.Valid() && m.current == start + |orders|
      invariant all == orders + m.Expected()
      decreases |m.mask| - m.current
    {
      ghost var rest := m.Expected();
      var r := m.Next();
      match r {
        case Got(o) =>
          OneMoreOrder(orders, o, rest, m.Expected());
          orders := orders + [o];
        case Waiting => return orders, false;
        case End => return orders, true;
      }
    }
  }

  lemma OneMoreOrder(orders: seq<Order>, o: Order, rest: seq<Order>, rest': seq<Order>)
    requires rest == [o] + rest'
    ensures orders + rest == (orders + [o]) + rest'
  {
  }

  // A stream whose packets carry these orders, as far as they have arrived.
  ghost predicate Feeds(shard: u32, sent: seq<Packet>, arrivals: seq<Packet>, orders: seq<Order>) {
    && Framed(shard, sent) && Genuine(sent, arrivals)
    && AllEncodable(0, orders) && Payload(sent) == EncodeAll(0, orders)
  }

  // The bits of the packets before the first that is missing among the arrivals.
  ghost function Arrived(sent: seq<Packet>, arrivals: seq<Packet>): seq<bool> {
    Payload(sent[..Frontier(0, |sent|, map[], arrivals)])
  }

  // A fresh merger, drained: it hands on an initial part of the stock's orders by id; if no packet
  // is missing among the arrivals, in whatever order and however often they come, it hands on
  // all of them and ends.
  method MergeStock(shard: u32, pos: seq<int>, ownArrivals: seq<Packet>, arrivals: seq<Packet>,
                    ghost raw: seq<Order>, ghost ownSent: seq<Packet>,
                    ghost pos': seq<int>, ghost raw': seq<Order>, ghost sent: seq<Packet>)
    returns (orders: seq<Order>, ended: bool)
    requires PositionsOk(pos, raw) && PositionsOk(pos', raw') && Complementary(pos, pos')
    requires Feeds(shard, ownSent, ownArrivals, OwnOrders(pos, raw))
    requires Feeds(shard, sent, arrivals, OwnOrders(pos', raw'))
    ensures orders == Merge(pos, DecodeAll(0, Arrived(ownSent, ownArrivals)), DecodeAll(0, Arrived(sent, arrivals)))
    ensures orders <= CanonAll(AllOrders(pos, raw, pos', raw'))
    ensures ended <==> orders == CanonAll(AllOrders(pos, raw, pos', raw'))
    ensures Complete(ownSent, ownArrivals) && Complete(sent, arrivals) ==> ended
  {
    var ownStream := new IBitStream(shard, ownArrivals, ownSent);
    var stream := new IBitStream(shard, arrivals, sent);
    var local := new OrderDecoder(ownStream);
    var remote := new OrderDecoder(stream);
    var m := new OrderMerger(local, remote, pos);
    MergedStream(pos, raw, pos', raw', ownStream.Received(), stream.Received());
    assert pos[0..] == pos;
    orders, ended := CollectOrders(m);
  }
}
