// Bits packed into numbered packets, and unpacked again from packets that arrive in any order
// and any number of times.
module BitStream {
  import opened Types
  import opened Bits

  datatype Packet = Packet(shard: u32, seqNo: nat, numBits: nat, data: seq<bv8>)

  // Packet::check_well_formedness
  predicate WellFormed(p: Packet) {
    |p.data| == (p.numBits + 7) / 8
  }

  function PacketBits(p: Packet): seq<bool> {
    if WellFormed(p) then BufBits(p.data, p.numBits) else []
  }

  // Consecutive packets of one shard.
  ghost predicate Framed(shard: u32, packets: seq<Packet>) {
    forall i :: 0 <= i < |packets| ==>
      WellFormed(packets[i]) && packets[i].shard == shard && packets[i].seqNo == i
  }

  ghost predicate AllWellFormed(packets: seq<Packet>) {
    forall i :: 0 <= i < |packets| ==> WellFormed(packets[i])
  }

  function Payload(packets: seq<Packet>): seq<bool> {
    if packets == [] then [] else PacketBits(packets[0]) + Payload(packets[1..])
  }

  lemma {:induction false} PayloadAppend(a: seq<Packet>, b: seq<Packet>)
    ensures Payload(a + b) == Payload(a) + Payload(b)
  {
    if a == [] {
      assert a + b == b;
    } else {
      assert (a + b)[1..] == a[1..] + b;
      PayloadAppend(a[1..], b);
    }
  }

  // ---------------------------------------------------------------------------------
  // The reorder buffer on values
  // ---------------------------------------------------------------------------------

  // Packets kept for later, all of them genuine and none before the wanted one.
  ghost predicate Kept(sent: seq<Packet>, seqNo: nat, packets: map<nat, Packet>) {
    forall k :: k in packets ==> seqNo <= k < |sent| && packets[k] == sent[k]
  }

  // Every arrival is one of the packets sent, possibly a duplicate, in any order.
  ghost predicate Genuine(sent: seq<Packet>, arrivals: seq<Packet>) {
    forall i :: 0 <= i < |arrivals| ==> arrivals[i].seqNo < |sent| && arrivals[i] == sent[arrivals[i].seqNo]
  }

  // Keep or discard one arrival.
  function Absorb(seqNo: nat, packets: map<nat, Packet>, p: Packet): map<nat, Packet> {
    if p.seqNo >= seqNo then packets[p.seqNo := p] else packets
  }

  // The bits after the cursor, and those of the packets still to be fetched.
  function Unread(sent: seq<Packet>, seqNo: nat, buf: seq<bv8>, numBits: nat, cursor: nat): seq<bool>
    requires AllWellFormed(sent) && seqNo <= |sent| && cursor <= numBits <= 8 * |buf|
  {
    BufBits(buf, numBits)[cursor..] + Payload(sent[seqNo..])
  }

  lemma UnreadAdvance(sent: seq<Packet>, seqNo: nat, buf: seq<bv8>, n: nat)
    requires AllWellFormed(sent) && seqNo < |sent| && n <= 8 * |buf|
    ensures Unread(sent, seqNo, buf, n, n) == Unread(sent, seqNo + 1, sent[seqNo].data, sent[seqNo].numBits, 0)
  {
    NextPayload(sent, seqNo);
    assert BufBits(buf, n)[n..] == [];
    var bits := PacketBits(sent[seqNo]);
    assert bits[0..] == bits;
  }

  lemma UnreadStep(sent: seq<Packet>, seqNo: nat, buf: seq<bv8>, numBits: nat, cursor: nat)
    requires AllWellFormed(sent) && seqNo <= |sent| && cursor < numBits <= 8 * |buf|
    ensures Unread(sent, seqNo, buf, numBits, cursor)
         == [BitAt(buf, cursor)] + Unread(sent, seqNo, buf, numBits, cursor + 1)
  {
    BufBitsAt(buf, numBits);
    var bits := BufBits(buf, numBits);
    assert bits[cursor..] == [bits[cursor]] + bits[cursor + 1..];
  }

  predicate Arrives(arrivals: seq<Packet>, k: nat) {
    exists i :: 0 <= i < |arrivals| && arrivals[i].seqNo == k
  }

  ghost predicate Complete(sent: seq<Packet>, arrivals: seq<Packet>) {
    forall k :: 0 <= k < |sent| ==> Arrives(arrivals, k)
  }

  ghost predicate Present(packets: map<nat, Packet>, arrivals: seq<Packet>, k: nat) {
    k in packets || Arrives(arrivals, k)
  }

  // The first of the packets k, ..., n - 1 that is not present, or n.
  ghost function Frontier(k: nat, n: nat, packets: map<nat, Packet>, arrivals: seq<Packet>): (m: nat)
    requires k <= n
    ensures k <= m <= n
    decreases n - k
  {
    if k < n && Present(packets, arrivals, k) then Frontier(k + 1, n, packets, arrivals) else k
  }

  lemma {:induction false} FrontierIs(k: nat, m: nat, n: nat, packets: map<nat, Packet>, arrivals: seq<Packet>)
    requires k <= m <= n
    ensures Frontier(k, n, packets, arrivals) == m
       <==> (forall j :: k <= j < m ==> Present(packets, arrivals, j)) && (m < n ==> !Present(packets, arrivals, m))
    decreases m - k
  {
    if k < m && Present(packets, arrivals, k) {
      FrontierIs(k + 1, m, n, packets, arrivals);
    }
  }

  lemma {:induction false} FrontierSame(k: nat, n: nat, packets: map<nat, Packet>, arrivals: seq<Packet>,
                                        packets': map<nat, Packet>, arrivals': seq<Packet>)
    requires k <= n
    requires forall j :: j >= k ==> (Present(packets, arrivals, j) <==> Present(packets', arrivals', j))
    ensures Frontier(k, n, packets, arrivals) == Frontier(k, n, packets', arrivals')
    decreases n - k
  {
    if k < n && Present(packets, arrivals, k) {
      FrontierSame(k + 1, n, packets, arrivals, packets', arrivals');
    }
  }

  lemma FrontierAdvance(k: nat, n: nat, packets: map<nat, Packet>, arrivals: seq<Packet>)
    requires k < n && Present(packets, arrivals, k)
    ensures Frontier(k, n, packets, arrivals) == Frontier(k + 1, n, packets - {k}, arrivals)
  {
    FrontierSame(k + 1, n, packets, arrivals, packets - {k}, arrivals);
  }

  // The bits after the cursor, and those of the packets before the h-th.
  ghost function Readable(sent: seq<Packet>, h: nat, seqNo: nat, buf: seq<bv8>, numBits: nat, cursor: nat): seq<bool>
    requires AllWellFormed(sent) && seqNo <= h <= |sent| && cursor <= numBits <= 8 * |buf|
  {
    Unread(sent[..h], seqNo, buf, numBits, cursor)
  }

  lemma ReadableAdvance(sent: seq<Packet>, h: nat, seqNo: nat, buf: seq<bv8>, n: nat)
    requires AllWellFormed(sent) && seqNo < h <= |sent| && n <= 8 * |buf|
    ensures Readable(sent, h, seqNo, buf, n, n)
         == Readable(sent, h, seqNo + 1, sent[seqNo].data, sent[seqNo].numBits, 0)
  {
    UnreadAdvance(sent[..h], seqNo, buf, n);
  }

  lemma ReadableStep(sent: seq<Packet>, h: nat, seqNo: nat, buf: seq<bv8>, numBits: nat, cursor: nat)
    requires AllWellFormed(sent) && seqNo <= h <= |sent| && cursor < numBits <= 8 * |buf|
    ensures Readable(sent, h, seqNo, buf, numBits, cursor)
         == [BitAt(buf, cursor)] + Readable(sent, h, seqNo, buf, numBits, cursor + 1)
  {
    UnreadStep(sent[..h], seqNo, buf, numBits, cursor);
  }

  lemma NothingReadable(sent: seq<Packet>, seqNo: nat, buf: seq<bv8>, n: nat)
    requires AllWellFormed(sent) && seqNo <= |sent| && n <= 8 * |buf|
    ensures Readable(sent, seqNo, seqNo, buf, n, n) == []
  {
    assert sent[..seqNo][seqNo..] == [] && BufBits(buf, n)[n..] == [];
  }

  // What can be read is an initial part of what is still to come, and all of it if no packet is
  // missing.
  lemma ReadableIsPrefix(sent: seq<Packet>, h: nat, seqNo: nat, buf: seq<bv8>, numBits: nat, cursor: nat)
    requires AllWellFormed(sent) && seqNo <= h <= |sent| && cursor <= numBits <= 8 * |buf|
    ensures Unread(sent, seqNo, buf, numBits, cursor)
         == Readable(sent, h, seqNo, buf, numBits, cursor) + Payload(sent[h..])
  {
    assert sent[seqNo..] == sent[..h][seqNo..] + sent[h..];
    PayloadAppend(sent[..h][seqNo..], sent[h..]);
  }

  // What a reader holds and will be handed, and the moves it makes.
  datatype Buffer = Buffer(seqNo: nat, packets: map<nat, Packet>, arrivals: seq<Packet>)

  datatype Move =
    | Arrive(packet: Packet)
    // take the next arrival, while the wanted packet is not there
    | Take
    // go on to the wanted packet
    | Next

  // The shared queue hands out the least sequence number first.
  function Enqueue(arrivals: seq<Packet>, p: Packet): seq<Packet> {
    if arrivals == [] || p.seqNo < arrivals[0].seqNo then [p] + arrivals
    else [arrivals[0]] + Enqueue(arrivals[1..], p)
  }

  function Apply(b: Buffer, move: Move): Buffer {
    match move
    case Arrive(p) => Buffer(b.seqNo, b.packets, Enqueue(b.arrivals, p))
    case Take =>
      if b.arrivals == [] || b.seqNo in b.packets then b
      else Buffer(b.seqNo, Absorb(b.seqNo, b.packets, b.arrivals[0]), b.arrivals[1..])
    case Next =>
      if b.seqNo in b.packets then Buffer(b.seqNo + 1, b.packets - {b.seqNo}, b.arrivals) else b
  }

  function Replay(b: Buffer, moves: seq<Move>): Buffer {
    if moves == [] then b else Apply(Replay(b, moves[..|moves| - 1]), moves[|moves| - 1])
  }

  lemma ReplaySnoc(b: Buffer, moves: seq<Move>, move: Move)
    ensures Replay(b, moves + [move]) == Apply(Replay(b, moves), move)
  {
    assert (moves + [move])[..|moves|] == moves;
  }

  lemma {:induction false} EnqueueAdds(arrivals: seq<Packet>, p: Packet)
    ensures multiset(Enqueue(arrivals, p)) == multiset(arrivals) + multiset{p}
  {
    if arrivals == [] || p.seqNo < arrivals[0].seqNo {
    } else {
      EnqueueAdds(arrivals[1..], p);
      assert arrivals == [arrivals[0]] + arrivals[1..];
    }
  }

  lemma {:induction false} EnqueueKeeps(sent: seq<Packet>, arrivals: seq<Packet>, p: Packet)
    requires Genuine(sent, arrivals) && p.seqNo < |sent| && p == sent[p.seqNo]
    ensures Genuine(sent, Enqueue(arrivals, p))
    ensures forall k :: Arrives(Enqueue(arrivals, p), k) <==> Arrives(arrivals, k) || k == p.seqNo
  {
    EnqueueAdds(arrivals, p);
    var all := Enqueue(arrivals, p);
    forall q ensures q in all <==> q in arrivals || q == p {
      assert q in all <==> q in multiset(all);
      assert q in arrivals <==> q in multiset(arrivals);
    }
    forall i | 0 <= i < |all| ensures all[i].seqNo < |sent| && all[i] == sent[all[i].seqNo] {
      assert all[i] in all;
    }
    forall k ensures Arrives(all, k) <==> Arrives(arrivals, k) || k == p.seqNo {
      if Arrives(all, k) {
        var i :| 0 <= i < |all| && all[i].seqNo == k;
        assert all[i] in all;
      }
      if Arrives(arrivals, k) {
        var i :| 0 <= i < |arrivals| && arrivals[i].seqNo == k;
        assert arrivals[i] in all;
      }
      if k == p.seqNo {
        assert p in all;
      }
    }
  }

  // No bit is set beyond the last one.
  ghost predicate TailClear(p: Packet) {
    forall i :: p.numBits <= i < 8 * |p.data| ==> !BitAt(p.data, i)
  }

  ghost predicate ShippedOk(shard: u32, maxNumBits: nat, sent: seq<Packet>) {
    && Framed(shard, sent)
    && forall i :: 0 <= i < |sent| ==> sent[i].numBits <= maxNumBits && TailClear(sent[i])
  }

  // All packets sent since are full.
  ghost predicate AllFull(before: seq<Packet>, after: seq<Packet>, maxNumBits: nat) {
    before <= after && forall i :: |before| <= i < |after| ==> after[i].numBits == maxNumBits
  }

  lemma FullOn(a: seq<Packet>, b: seq<Packet>, c: seq<Packet>, maxNumBits: nat)
    requires AllFull(a, b, maxNumBits) && AllFull(b, c, maxNumBits)
    ensures AllFull(a, c, maxNumBits)
  {
  }

  // `num` more bits have been cut into full packets and a rest short of one.
  ghost predicate CutUp(before: seq<Packet>, cursor: nat, num: nat, after: seq<Packet>, rest: nat, maxNumBits: nat) {
    && AllFull(before, after, maxNumBits) && rest < maxNumBits
    && cursor + num == (|after| - |before|) * maxNumBits + rest
  }

  lemma CutOneMore(before: seq<Packet>, cursor: nat, num: nat, after: seq<Packet>, rest: nat,
                   after': seq<Packet>, rest': nat, maxNumBits: nat)
    requires CutUp(before, cursor, num, after, rest, maxNumBits) && after <= after'
    requires if rest + 1 < maxNumBits then after' == after && rest' == rest + 1
             else rest' == 0 && |after'| == |after| + 1 && after'[|after|].numBits == maxNumBits
    ensures CutUp(before, cursor, num + 1, after', rest', maxNumBits)
  {
    var k := |after| - |before|;
    assert (k + 1) * maxNumBits == k * maxNumBits + maxNumBits;
  }

  // From an empty buffer, packets and rest are quotient and remainder.
  lemma CutCounts(before: seq<Packet>, num: nat, after: seq<Packet>, rest: nat, maxNumBits: nat)
    requires CutUp(before, 0, num, after, rest, maxNumBits)
    ensures maxNumBits > 0 && |after| - |before| == num / maxNumBits && rest == num % maxNumBits
  {
    DivModIs(num, maxNumBits, |after| - |before|, rest);
  }

  class OBitStream {
    var buf: seq<bv8>
    const shard: u32
    var seqNo: nat
    const maxNumBits: nat
    var cursor: nat
    // What has been handed to the sink.
    var sent: seq<Packet>

    // Inside put_bit the buffer may be full; between calls it is not.
    ghost predicate Loaded()
      reads this
    {
      && |buf| == (maxNumBits + 7) / 8 && cursor <= maxNumBits
      && (forall i :: cursor <= i < 8 * |buf| ==> !BitAt(buf, i))
      && ShippedOk(shard, maxNumBits, sent) && seqNo == |sent|
    }

    ghost predicate Valid()
      reads this
    {
      Loaded() && (cursor == 0 || cursor < maxNumBits)
    }

    // Everything put so far.
    ghost function Put(): seq<bool>
      reads this
      requires Loaded()
    {
      Payload(sent) + BufBits(buf, cursor)
    }

    constructor (shard: u32, maxNumBits: nat)
      ensures Valid() && Put() == [] && sent == []
      ensures this.shard == shard && this.maxNumBits == maxNumBits
    {
      this.shard, this.maxNumBits := shard, maxNumBits;
      buf := Zeros((maxNumBits + 7) / 8);
      seqNo, cursor, sent := 0, 0, [];
      new;
      ZerosAreClear((maxNumBits + 7) / 8);
    }

    // A stream without room for a bit has no byte to write to.  A packet goes out exactly when it
    // is full.
    method PutBit(bit: bool)
      requires Valid() && maxNumBits >= 1
      modifies this
      ensures Valid() && Put() == old(Put()) + [bit] && old(sent) <= sent
      ensures if old(cursor) + 1 < maxNumBits then sent == old(sent) && cursor == old(cursor) + 1
              else cursor == 0 && |sent| == |old(sent)| + 1 && sent[|old(sent)|].numBits == maxNumBits
    {
      Append(bit);
      while cursor >= maxNumBits
        invariant Loaded() && Put() == old(Put()) + [bit] && old(sent) <= sent
        invariant if cursor == 0 then old(cursor) + 1 == maxNumBits && |sent| == |old(sent)| + 1 && sent[|old(sent)|].numBits == maxNumBits
                  else sent == old(sent) && cursor == old(cursor) + 1
        decreases cursor
      {
        Flush();
      }
    }

    method Append(bit: bool)
      requires Loaded() && cursor < maxNumBits
      modifies this`buf, this`cursor
      ensures Loaded() && cursor == old(cursor) + 1 && Put() == old(Put()) + [bit]
    {
      PutOneMore(Payload(sent), buf, cursor, bit);
      buf := WithBit(buf, cursor, bit);
      cursor := cursor + 1;
    }

    // Ships the buffer as the next packet, be it full, partial or empty.
    method Flush()
      requires Loaded()
      modifies this
      ensures Valid() && cursor == 0 && Put() == old(Put())
      ensures sent == if maxNumBits == 0 then old(sent)
                      else old(sent) + [Packet(shard, |old(sent)|, old(cursor), old(buf)[..(old(cursor) + 7) / 8])]
    {
      if buf == [] && cursor == 0 {
        return;
      }
      ghost var before := Put();
      var p := Packet(shard, seqNo, cursor, buf[..(cursor + 7) / 8]);
      ShipPacket(sent, p, buf, cursor);
      assert Payload(sent + [p]) == before;
      CutTail(p, buf, cursor);
      ShippedSnoc(shard, maxNumBits, sent, p);
      sent := sent + [p];
      seqNo := seqNo + 1;
      Clear();
      assert Put() == before + [] == before;
    }

    method Clear()
      modifies this`buf, this`cursor
      ensures cursor == 0 && |buf| == (maxNumBits + 7) / 8 && BufBits(buf, 0) == []
      ensures forall i :: 0 <= i < 8 * |buf| ==> !BitAt(buf, i)
    {
      cursor := 0;
      buf := Zeros((maxNumBits + 7) / 8);
      ZerosAreClear((maxNumBits + 7) / 8);
    }

    // put_bits: the low `num` bits, least significant first.
    method PutBits(num: nat, bits: u32)
      requires Valid() && maxNumBits >= 1
      modifies this
      ensures Valid() && Put() == old(Put()) + BitsOf(num, bits)
      ensures CutUp(old(sent), old(cursor), num, sent, cursor, maxNumBits)
    {
      for i := 0 to num
        invariant Valid() && Put() == old(Put()) + BitsOf(i, bits)
        invariant CutUp(old(sent), old(cursor), i, sent, cursor, maxNumBits)
      {
        ghost var packets, rest := sent, cursor;
        PutSnoc(old(Put()), i, bits);
        PutBit(TestBit(bits, i));
        CutOneMore(old(sent), old(cursor), i, packets, rest, sent, cursor, maxNumBits);
      }
    }
  }

  lemma PutSnoc(before: seq<bool>, i: nat, bits: nat)
    ensures before + BitsOf(i + 1, bits) == (before + BitsOf(i, bits)) + [TestBit(bits, i)]
  {
    BitsSnoc(i, bits);
  }

  lemma ShippedSnoc(shard: u32, maxNumBits: nat, sent: seq<Packet>, p: Packet)
    requires ShippedOk(shard, maxNumBits, sent)
    requires WellFormed(p) && p.shard == shard && p.seqNo == |sent| && p.numBits <= maxNumBits && TailClear(p)
    ensures ShippedOk(shard, maxNumBits, sent + [p])
  {
  }

  // Cutting a buffer that is clear beyond the cursor leaves no bit behind.
  lemma CutTail(p: Packet, buf: seq<bv8>, cursor: nat)
    requires cursor <= 8 * |buf| && p.numBits == cursor && p.data == buf[..(cursor + 7) / 8]
    requires forall i :: cursor <= i < 8 * |buf| ==> !BitAt(buf, i)
    ensures WellFormed(p) && TailClear(p)
  {
    forall i | cursor <= i < 8 * |p.data| ensures !BitAt(p.data, i) {
      assert BitAt(p.data, i) == BitAt(buf, i);
    }
  }

  // The byte whose bits are bits[at], bits[at + 1], ..., least significant first.
  function ByteOf(bits: seq<bool>, at: nat): bv8 {
    Weight(bits, at, 0x01) + Weight(bits, at + 1, 0x02) + Weight(bits, at + 2, 0x04) + Weight(bits, at + 3, 0x08)
    + Weight(bits, at + 4, 0x10) + Weight(bits, at + 5, 0x20) + Weight(bits, at + 6, 0x40) + Weight(bits, at + 7, 0x80)
  }

  function Weight(bits: seq<bool>, i: nat, weight: bv8): bv8 {
    if i < |bits| && bits[i] then weight else 0
  }

  lemma ByteSum(b: bv8)
    ensures b == (if b & Mask(0) != 0 then 0x01 else 0) + (if b & Mask(1) != 0 then 0x02 else 0)
               + (if b & Mask(2) != 0 then 0x04 else 0) + (if b & Mask(3) != 0 then 0x08 else 0)
               + (if b & Mask(4) != 0 then 0x10 else 0) + (if b & Mask(5) != 0 then 0x20 else 0)
               + (if b & Mask(6) != 0 then 0x40 else 0) + (if b & Mask(7) != 0 then 0x80 else 0)
  {
  }

  // Every byte of a packet is the number its eight bits make, the missing ones of the last byte
  // taken as zero.
  lemma PacketBytes(p: Packet, j: nat)
    requires WellFormed(p) && TailClear(p) && j < |p.data|
    ensures p.data[j] == ByteOf(PacketBits(p), 8 * j)
  {
    PacketBit(p, j, 0, 0x01);
    PacketBit(p, j, 1, 0x02);
    PacketBit(p, j, 2, 0x04);
    PacketBit(p, j, 3, 0x08);
    PacketBit(p, j, 4, 0x10);
    PacketBit(p, j, 5, 0x20);
    PacketBit(p, j, 6, 0x40);
    PacketBit(p, j, 7, 0x80);
    ByteSum(p.data[j]);
  }

  lemma PacketBit(p: Packet, j: nat, k: nat, weight: bv8)
    requires WellFormed(p) && TailClear(p) && j < |p.data| && k < 8
    ensures Weight(PacketBits(p), 8 * j + k, weight) == if p.data[j] & Mask(k) != 0 then weight else 0
  {
    BufBitsAt(p.data, p.numBits);
    assert (8 * j + k) / 8 == j && (8 * j + k) % 8 == k;
    assert BitAt(p.data, 8 * j + k) <==> p.data[j] & Mask(k) != 0;
  }

  lemma ShipPacket(packets: seq<Packet>, p: Packet, buf: seq<bv8>, cursor: nat)
    requires AllWellFormed(packets) && cursor <= 8 * |buf|
    requires p.numBits == cursor && p.data == buf[..(cursor + 7) / 8]
    ensures AllWellFormed(packets + [p])
    ensures Payload(packets + [p]) == Payload(packets) + BufBits(buf, cursor)
  {
    forall i | 0 <= i < cursor ensures BitAt(p.data, i) == BitAt(buf, i) {
    }
    BufBitsSame(p.data, buf, cursor);
    PayloadAppend(packets, [p]);
    assert Payload([p]) == PacketBits(p) + Payload([p][1..]);
  }

  // The first packet that is neither kept nor among the arrivals.
  ghost function HorizonOf(sent: seq<Packet>, b: Buffer): nat
    requires b.seqNo <= |sent|
  {
    Frontier(b.seqNo, |sent|, b.packets, b.arrivals)
  }

  ghost function ReceivedOf(sent: seq<Packet>, b: Buffer, buf: seq<bv8>, numBits: nat, cursor: nat): seq<bool>
    requires AllWellFormed(sent) && b.seqNo <= |sent| && cursor <= numBits <= 8 * |buf|
  {
    Readable(sent, HorizonOf(sent, b), b.seqNo, buf, numBits, cursor)
  }

  // What a bit stream relies on: its packets are genuine, and its buffer is the last one consumed.
  ghost predicate StreamOk(shard: u32, sent: seq<Packet>, start: Buffer, moves: seq<Move>, now: Buffer,
                          buf: seq<bv8>, numBits: nat, cursor: nat)
  {
    match now
    case Buffer(seqNo, packets, arrivals) =>
      && now == Replay(start, moves)
      && Framed(shard, sent) && seqNo <= |sent|
      && Kept(sent, seqNo, packets) && Genuine(sent, arrivals)
      && cursor <= numBits <= 8 * |buf|
      && (seqNo == 0 ==> numBits == 0)
      && (seqNo > 0 ==> buf == sent[seqNo - 1].data && numBits == sent[seqNo - 1].numBits)
  }

  // The next packet in sequence becomes the buffer.
  lemma AdvanceIsOk(shard: u32, sent: seq<Packet>, start: Buffer, moves: seq<Move>, b: Buffer, buf: seq<bv8>, n: nat)
    requires StreamOk(shard, sent, start, moves, b, buf, n, n) && b.seqNo in b.packets
    ensures b.seqNo < |sent| && b.packets[b.seqNo] == sent[b.seqNo]
    ensures StreamOk(shard, sent, start, moves + [Next], Apply(b, Next), sent[b.seqNo].data, sent[b.seqNo].numBits, 0)
  {
    ReplaySnoc(start, moves, Next);
    assert WellFormed(sent[b.seqNo]);
  }

  // And nothing that can be read is lost or added.
  lemma AdvanceReads(sent: seq<Packet>, b: Buffer, buf: seq<bv8>, n: nat)
    requires AllWellFormed(sent) && b.seqNo < |sent| && b.seqNo in b.packets && n <= 8 * |buf|
    ensures WellFormed(sent[b.seqNo]) && HorizonOf(sent, Apply(b, Next)) == HorizonOf(sent, b)
    ensures ReceivedOf(sent, Apply(b, Next), sent[b.seqNo].data, sent[b.seqNo].numBits, 0) == ReceivedOf(sent, b, buf, n, n)
  {
    assert Present(b.packets, b.arrivals, b.seqNo);
    FrontierAdvance(b.seqNo, |sent|, b.packets, b.arrivals);
    ReadableAdvance(sent, Frontier(b.seqNo, |sent|, b.packets, b.arrivals), b.seqNo, buf, n);
  }

  class IBitStream {
    var buf: seq<bv8>
    const shard: u32
    var seqNo: nat
    var numBits: nat
    var cursor: nat
    var packets: map<nat, Packet>
    // What the packet queue will still hand out.
    var arrivals: seq<Packet>
    // What the sender has sent over the whole run.
    ghost const sent: seq<Packet>
    // How it came to hold what it holds.
    ghost const start: Buffer
    ghost var moves: seq<Move>

    ghost function Now(): Buffer
      reads this
    {
      Buffer(seqNo, packets, arrivals)
    }

    ghost predicate Valid()
      reads this
    {
      StreamOk(shard, sent, start, moves, Now(), buf, numBits, cursor)
    }

    // The first packet that is neither kept nor among the arrivals; what it and its successors
    // carry can not be read yet.
    ghost function Horizon(): nat
      reads this
      requires Valid()
    {
      HorizonOf(sent, Now())
    }

    // The bits not handed out yet that can be read without waiting.
    ghost function Received(): seq<bool>
      reads this
      requires Valid()
    {
      ReceivedOf(sent, Now(), buf, numBits, cursor)
    }

    ghost predicate Has(k: nat)
      reads this
    {
      Present(packets, arrivals, k)
    }

    // No packet that is still wanted is lost or made up.
    twostate predicate SameArrivals()
      reads this
    {
      old(seqNo) <= seqNo
      && forall k :: k >= seqNo ==> (Present(packets, arrivals, k) <==> old(Present(packets, arrivals, k)))
    }

    // Waiting for the wanted packet, which is not among the arrivals.
    ghost predicate Blocked()
      reads this
    {
      cursor >= numBits && arrivals == [] && seqNo !in packets
    }

    constructor (shard: u32, arrivals: seq<Packet>, ghost sent: seq<Packet>)
      requires Framed(shard, sent) && Genuine(sent, arrivals)
      ensures Valid() && seqNo == 0
      ensures this.shard == shard && this.sent == sent
      ensures forall k :: Has(k) <==> Arrives(arrivals, k)
      ensures start == Buffer(0, map[], arrivals) && moves == []
      ensures Horizon() == Frontier(0, |sent|, map[], arrivals) && Received() == Payload(sent[..Horizon()])
      ensures Payload(sent) == Received() + Payload(sent[Horizon()..])
      ensures Complete(sent, arrivals) ==> Received() == Payload(sent)
    {
      this.shard, this.arrivals, this.sent := shard, arrivals, sent;
      buf, seqNo, numBits, cursor, packets := [], 0, 0, 0, map[];
      start, moves := Buffer(0, map[], arrivals), [];
      new;
      assert sent[0..] == sent && sent[..|sent|] == sent;
      ReadableIsPrefix(sent, Horizon(), 0, buf, 0, 0);
      if Complete(sent, arrivals) {
        FrontierIs(0, |sent|, |sent|, packets, arrivals);
      }
    }

    // Another thread hands over a packet.
    method Accept(p: Packet)
      requires Valid() && p.seqNo < |sent| && p == sent[p.seqNo]
      modifies this`arrivals, this`moves
      ensures Valid() && moves == old(moves) + [Arrive(p)]
      ensures arrivals == Enqueue(old(arrivals), p) && (forall k :: Has(k) <==> old(Has(k)) || k == p.seqNo)
    {
      EnqueueKeeps(sent, arrivals, p);
      ReplaySnoc(start, moves, Arrive(p));
      arrivals := Enqueue(arrivals, p);
      moves := moves + [Arrive(p)];
    }

    // The loop of fetch_packet: take arrivals until the wanted packet is there.
    method AwaitPacket() returns (ok: bool)
      requires Valid()
      modifies this`packets, this`arrivals, this`moves
      ensures Valid() && old(moves) <= moves
      ensures SameArrivals()
      ensures ok <==> seqNo in packets
      ensures !ok ==> arrivals == []
    {
      while seqNo !in packets
        invariant Valid() && old(moves) <= moves
        invariant SameArrivals()
        decreases |arrivals|
      {
        if arrivals == [] {
          return false;
        }
        var p := arrivals[0];
        assert p.shard == shard;
        AbsorbKeeps(sent, seqNo, packets, arrivals);
        ReplaySnoc(start, moves, Take);
        packets := Absorb(seqNo, packets, p);
        arrivals := arrivals[1..];
        moves := moves + [Take];
      }
      ok := true;
    }

    // Moves on to the next packet in sequence; false while it has not arrived.
    method FetchPacket() returns (ok: bool)
      requires Valid() && cursor >= numBits
      modifies this
      ensures Valid() && Horizon() == old(Horizon()) && Received() == old(Received())
      ensures ok <==> old(Has(seqNo))
      ensures seqNo == if ok then old(seqNo) + 1 else old(seqNo)
      ensures SameArrivals()
      ensures if ok then cursor == 0 else Blocked() && Received() == []
    {
      ok := AwaitPacket();
      FrontierSame(seqNo, |sent|, packets, arrivals, old(packets), old(arrivals));
      assert Has(seqNo) <==> seqNo in packets;
      if ok {
        Advance();
      } else {
        NothingReadable(sent, seqNo, buf, numBits);
      }
    }

    // Takes the wanted packet out of the reorder buffer.
    method Advance()
      requires Valid() && cursor >= numBits && seqNo in packets
      modifies this`buf, this`seqNo, this`numBits, this`cursor, this`packets, this`moves
      ensures Valid() && Horizon() == old(Horizon()) && Received() == old(Received())
      ensures seqNo == old(seqNo) + 1 && cursor == 0
      ensures packets == old(packets) - {old(seqNo)}
    {
      ghost var b, n, was, before, all := Now(), numBits, buf, moves, Received();
      AdvanceIsOk(shard, sent, start, moves, b, buf, numBits);
      AdvanceReads(sent, b, buf, numBits);
      var p := packets[seqNo];
      moves := moves + [Next];
      packets := packets - {seqNo};
      seqNo := seqNo + 1;
      buf := p.data;
      numBits := p.numBits;
      cursor := 0;
      assert Now() == Apply(b, Next);
      assert StreamOk(shard, sent, start, before + [Next], Apply(b, Next), p.data, p.numBits, 0);
      assert Valid();
      assert HorizonOf(sent, Apply(b, Next)) == HorizonOf(sent, b);
      assert Received() == ReceivedOf(sent, Apply(b, Next), p.data, p.numBits, 0);
      assert all == ReceivedOf(sent, b, was, n, n);
    }

    // Fetches packets, empty ones too, until there is a bit to read.
    method AwaitBit() returns (ok: bool)
      requires Valid()
      modifies this
      ensures Valid() && Horizon() == old(Horizon()) && Received() == old(Received())
      ensures SameArrivals()
      ensures if ok then cursor < numBits else Blocked() && Received() == []
    {
      while cursor >= numBits
        invariant Valid() && Horizon() == old(Horizon()) && Received() == old(Received())
        invariant SameArrivals()
        decreases |sent| - seqNo
      {
        var arrived := FetchPacket();
        if !arrived {
          return false;
        }
      }
      ok := true;
    }

    // None exactly if the next bit has not arrived; the call is then still waiting for it.
    method GetBit() returns (r: Option<bool>)
      requires Valid()
      modifies this
      ensures Valid() && Horizon() == old(Horizon())
      ensures SameArrivals()
      ensures match r
              case Some(b) => old(Received()) == [b] + Received()
              case None => old(Received()) == [] == Received() && Blocked()
    {
      var ok := AwaitBit();
      if !ok {
        return None;
      }
      var bit := TakeBit();
      r := Some(bit);
    }

    method TakeBit() returns (bit: bool)
      requires Valid() && cursor < numBits
      modifies this`cursor
      ensures Valid() && Horizon() == old(Horizon()) && old(Received()) == [bit] + Received()
    {
      ghost var all, rest := Received(), Readable(sent, Horizon(), seqNo, buf, numBits, cursor + 1);
      ReadableStep(sent, Horizon(), seqNo, buf, numBits, cursor);
      bit := BitAt(buf, cursor);
      assert all == [bit] + rest;
      cursor := cursor + 1;
      assert Received() == rest;
    }

    // None exactly if fewer than `num` bits have arrived; the call has then used them up and is
    // still waiting.
    method GetBits(num: nat) returns (r: Option<nat>)
      requires Valid()
      modifies this
      ensures Valid() && Horizon() == old(Horizon())
      ensures SameArrivals()
      ensures r.None? <==> |old(Received())| < num
      ensures match r
              case Some(v) => v == ValueOf(old(Received())[..num]) && Received() == old(Received())[num..]
              case None => Received() == [] && Blocked()
    {
      ghost var all := Received();
      var ret := 0;
      for i := 0 to num
        invariant Valid() && Horizon() == old(Horizon())
        invariant SameArrivals()
        invariant i <= |all| && Received() == all[i..] && ret == ValueOf(all[..i])
      {
        var b := GetBit();
        if b == None {
          return None;
        }
        OneMoreRead(all, i, b.value, Received());
        if b.value {
          ret := ret + Pow2(i);
        }
      }
      r := Some(ret);
    }
  }

  lemma OneMoreRead(all: seq<bool>, i: nat, b: bool, rest: seq<bool>)
    requires i <= |all| && all[i..] == [b] + rest
    ensures i < |all| && rest == all[i + 1..]
    ensures ValueOf(all[..i + 1]) == ValueOf(all[..i]) + if b then Pow2(i) else 0
  {
    assert all[i..][0] == all[i] && all[i..][1..] == all[i + 1..];
    ValueSnoc(all[..i], b);
    assert all[..i + 1] == all[..i] + [b];
  }

  lemma AbsorbKeeps(sent: seq<Packet>, seqNo: nat, packets: map<nat, Packet>, arrivals: seq<Packet>)
    requires arrivals != [] && Kept(sent, seqNo, packets) && Genuine(sent, arrivals)
    ensures var m, rest := Absorb(seqNo, packets, arrivals[0]), arrivals[1..];
            && Kept(sent, seqNo, m) && Genuine(sent, rest)
            && forall k :: k >= seqNo ==> (k in m || Arrives(rest, k) <==> k in packets || Arrives(arrivals, k))
  {
    var m, rest := Absorb(seqNo, packets, arrivals[0]), arrivals[1..];
    forall k | k >= seqNo ensures k in m || Arrives(rest, k) <==> k in packets || Arrives(arrivals, k) {
      if Arrives(arrivals, k) && arrivals[0].seqNo != k {
        var i :| 0 <= i < |arrivals| && arrivals[i].seqNo == k;
        assert rest[i - 1].seqNo == k;
      }
      if Arrives(rest, k) {
        var i :| 0 <= i < |rest| && rest[i].seqNo == k;
        assert arrivals[i + 1].seqNo == k;
      }
    }
  }

  lemma NextPayload(sent: seq<Packet>, k: nat)
    requires k < |sent|
    ensures Payload(sent[k..]) == PacketBits(sent[k]) + Payload(sent[k + 1..])
  {
    assert sent[k..][1..] == sent[k + 1..];
  }

  function Zeros(n: nat): seq<bv8> {
    if n == 0 then [] else Zeros(n - 1) + [0]
  }

  lemma {:induction false} ZerosAreClear(n: nat)
    ensures |Zeros(n)| == n
    ensures forall i :: 0 <= i < 8 * n ==> !BitAt(Zeros(n), i)
  {
    if n > 0 {
      ZerosAreClear(n - 1);
      forall i | 0 <= i < 8 * n ensures !BitAt(Zeros(n), i) {
        assert i < 8 * (n - 1) ==> !BitAt(Zeros(n - 1), i);
      }
    }
  }

  // buf[c >> 3] |= bit << (c & 7)
  function WithBit(buf: seq<bv8>, c: nat, bit: bool): seq<bv8>
    requires c < 8 * |buf|
  {
    buf[c / 8 := buf[c / 8] | if bit then Mask(c % 8) else 0]
  }

  // Or-ing a bit in at the end of the written part.
  lemma WriteBit(a: seq<bv8>, c: nat, bit: bool)
    requires c < 8 * |a| && forall i :: c <= i < 8 * |a| ==> !BitAt(a, i)
    ensures var b := WithBit(a, c, bit);
            && |b| == |a|
            && (forall i :: c < i < 8 * |b| ==> !BitAt(b, i))
            && BufBits(b, c + 1) == BufBits(a, c) + [bit]
  {
    var b := WithBit(a, c, bit);
    forall i | 0 <= i < 8 * |a| ensures BitAt(b, i) <==> if i == c then bit else BitAt(a, i) {
      if i / 8 == c / 8 {
        MaskSets(a[c / 8], c % 8, i % 8);
        OrZero(a[c / 8]);
        assert i == 8 * (i / 8) + i % 8 && c == 8 * (c / 8) + c % 8;
        assert !BitAt(a, c);
      }
    }
    BufBitsSame(a, b, c);
  }

  lemma PutOneMore(before: seq<bool>, a: seq<bv8>, c: nat, bit: bool)
    requires c < 8 * |a| && forall i :: c <= i < 8 * |a| ==> !BitAt(a, i)
    ensures var b := WithBit(a, c, bit);
            && |b| == |a|
            && (forall i :: c < i < 8 * |b| ==> !BitAt(b, i))
            && before + BufBits(b, c + 1) == before + BufBits(a, c) + [bit]
  {
    WriteBit(a, c, bit);
    assert before + (BufBits(a, c) + [bit]) == before + BufBits(a, c) + [bit];
  }

  lemma OrZero(b: bv8)
    ensures b | 0 == b
  {
  }
}
