// One direction of the packet exchange: from a trader's encoders through either exchanger to
// the other trader's decoders.  Whole packets are the unit.  A link keeps the packets handed
// to it in full and delivers them in any order; one whose write fails goes back to the queue
// it was taken from, and may have been delivered nevertheless.
module Transport {
  import opened BitStream

  // Where a packet can be.  Links carry the number of their exchanger and their own.
  datatype Place =
    | SendQueue
    | UpWriting(exchanger: nat, link: nat)
    | UpWire(exchanger: nat, link: nat)
    | ExchangeQueue(exchanger: nat)
    | DownWriting(exchanger: nat, link: nat)
    | DownWire(exchanger: nat, link: nat)
    | ReadQueue(shard: nat)

  // IBitStream's reorder buffer; packets below `seqNo` have been consumed.
  datatype Inbox = Inbox(seqNo: nat, packets: map<nat, Packet>)

  // `plan` lists, shard by shard, the packets the encoders produce in the end; `encoded` says
  // how many exist so far.
  datatype Net = Net(
    plan: seq<seq<Packet>>, encoded: seq<nat>,
    at: map<Place, multiset<Packet>>, readers: seq<Inbox>)

  function In(net: Net, place: Place): multiset<Packet> {
    if place in net.at then net.at[place] else multiset{}
  }

  predicate Holds(net: Net, place: Place, p: Packet) {
    p in In(net, place)
  }

  function With(net: Net, place: Place, q: multiset<Packet>): Net {
    Net(net.plan, net.encoded, net.at[place := q], net.readers)
  }

  function Add(net: Net, place: Place, p: Packet): Net {
    With(net, place, In(net, place) + multiset{p})
  }

  function Drop(net: Net, place: Place, p: Packet): Net {
    With(net, place, In(net, place) - multiset{p})
  }

  // PacketQueue::next takes a packet with the least sequence number.
  ghost predicate IsTop(q: multiset<Packet>, p: Packet) {
    p in q && forall r :: r in q ==> p.seqNo <= r.seqNo
  }

  // A packet waiting in a queue, being written, or on a wire moves on by one of these hops.
  predicate IsHop(from: Place, to: Place, p: Packet) {
    match from
    case SendQueue => to.UpWriting?
    case UpWriting(e, l) => to == UpWire(e, l) || to == SendQueue
    case UpWire(e, l) => to == ExchangeQueue(e)
    case ExchangeQueue(e) => to.DownWriting? && to.exchanger == e
    case DownWriting(e, l) => to == DownWire(e, l) || to == ExchangeQueue(e)
    case DownWire(e, l) => to == ReadQueue(p.shard)
    case ReadQueue(s) => false
  }

  predicate IsQueue(place: Place) {
    place.SendQueue? || place.ExchangeQueue? || place.ReadQueue?
  }

  datatype Step =
    | Encode(shard: nat)
    | Hop(from: Place, to: Place, packet: Packet)
    // a write that fails although the link has the whole packet
    | Duplicate(from: Place, packet: Packet)
    | Fetch(shard: nat, packet: Packet)
    | Advance(shard: nat)

  ghost predicate CanStep(net: Net, step: Step) {
    match step
    case Encode(s) => s < |net.plan| && s < |net.encoded| && net.encoded[s] < |net.plan[s]|
    case Hop(from, to, p) =>
      && Holds(net, from, p) && IsHop(from, to, p)
      && (IsQueue(from) ==> IsTop(In(net, from), p))
    case Duplicate(from, p) => Holds(net, from, p) && (from.UpWriting? || from.DownWriting?)
    case Fetch(s, p) => s < |net.readers| && IsTop(In(net, ReadQueue(s)), p)
    case Advance(s) => s < |net.readers| && net.readers[s].seqNo in net.readers[s].packets
  }

  function Home(from: Place): Place
    requires from.UpWriting? || from.DownWriting?
  {
    if from.UpWriting? then SendQueue else ExchangeQueue(from.exchanger)
  }

  function WireOf(from: Place): Place
    requires from.UpWriting? || from.DownWriting?
  {
    if from.UpWriting? then UpWire(from.exchanger, from.link) else DownWire(from.exchanger, from.link)
  }

  function WithReader(net: Net, s: nat, r: Inbox): Net
    requires s < |net.readers|
  {
    Net(net.plan, net.encoded, net.at, net.readers[s := r])
  }

  function Do(net: Net, step: Step): Net
    requires CanStep(net, step)
  {
    match step
    case Encode(s) =>
      Add(Grown(net, s), SendQueue, net.plan[s][net.encoded[s]])
    case Hop(from, to, p) => Add(Drop(net, from, p), to, p)
    case Duplicate(from, p) => Add(Add(Drop(net, from, p), Home(from), p), WireOf(from), p)
    case Fetch(s, p) =>
      var r := net.readers[s];
      WithReader(Drop(net, ReadQueue(s), p), s, Inbox(r.seqNo, Absorb(r.seqNo, r.packets, p)))
    case Advance(s) =>
      var r := net.readers[s];
      WithReader(net, s, Inbox(r.seqNo + 1, r.packets - {r.seqNo}))
  }

  ghost predicate PlanOk(plan: seq<seq<Packet>>) {
    forall s :: 0 <= s < |plan| ==> s < 0x1_0000_0000 && Framed(s, plan[s])
  }

  function Idle(plan: seq<seq<Packet>>): Net {
    Net(plan, seq(|plan|, _ => 0), map[], seq(|plan|, _ => Inbox(0, map[])))
  }

  // ---------------------------------------------------------------------------------
  // What every step keeps
  // ---------------------------------------------------------------------------------

  // The packet is one that exists, and the demultiplexer has not misplaced it.
  predicate Belongs(net: Net, place: Place, p: Packet) {
    && p.shard < |net.plan| && p.shard < |net.encoded|
    && p.seqNo < net.encoded[p.shard] && p.seqNo < |net.plan[p.shard]|
    && p == net.plan[p.shard][p.seqNo]
    && (place.ReadQueue? ==> place.shard == p.shard)
  }

  ghost predicate Located(net: Net) {
    forall place, p {:trigger Holds(net, place, p)} :: Holds(net, place, p) ==> Belongs(net, place, p)
  }

  ghost predicate ReaderOk(net: Net, s: nat)
    requires s < |net.plan| && s < |net.encoded| && s < |net.readers|
  {
    var r := net.readers[s];
    && net.encoded[s] <= |net.plan[s]|
    && r.seqNo <= net.encoded[s]
    && forall k :: k in r.packets ==> r.seqNo <= k < net.encoded[s] && r.packets[k] == net.plan[s][k]
  }

  ghost predicate Somewhere(net: Net, p: Packet) {
    exists place :: Holds(net, place, p)
  }

  // Nothing that was sent and not consumed is lost.
  ghost predicate NotLost(net: Net, s: nat, k: nat)
    requires s < |net.plan| && s < |net.readers| && k < |net.plan[s]|
  {
    k in net.readers[s].packets || Somewhere(net, net.plan[s][k])
  }

  ghost predicate Shape(net: Net) {
    |net.plan| == |net.encoded| == |net.readers| && PlanOk(net.plan)
  }

  ghost predicate Readers(net: Net)
    requires Shape(net)
  {
    forall s {:trigger net.readers[s]} :: 0 <= s < |net.readers| ==> ReaderOk(net, s)
  }

  ghost predicate NothingLost(net: Net)
    requires Shape(net) && Readers(net)
  {
    forall s, k {:trigger NotLost(net, s, k)} ::
      0 <= s < |net.readers| && net.readers[s].seqNo <= k < net.encoded[s] && k < |net.plan[s]| ==> NotLost(net, s, k)
  }

  ghost predicate Safe(net: Net) {
    Shape(net) && Located(net) && Readers(net) && NothingLost(net)
  }

  lemma IdleSafe(plan: seq<seq<Packet>>)
    requires PlanOk(plan)
    ensures Safe(Idle(plan))
  {
    var net := Idle(plan);
    forall s | 0 <= s < |net.readers| ensures ReaderOk(net, s) {
      assert net.readers[s] == Inbox(0, map[]) && net.encoded[s] == 0;
    }
  }

  // Only the places of packets have changed, and no packet has disappeared.
  ghost predicate Rearranged(net: Net, net': Net) {
    && net'.plan == net.plan && net'.encoded == net.encoded && net'.readers == net.readers
    && forall q :: Somewhere(net, q) ==> Somewhere(net', q)
  }

  lemma RearrangedSafe(net: Net, net': Net)
    requires Safe(net) && Rearranged(net, net') && Located(net')
    ensures Safe(net')
  {
    forall s | 0 <= s < |net'.readers| ensures ReaderOk(net', s) {
      assert net.readers[s] == net'.readers[s];
    }
    forall s, k | 0 <= s < |net'.readers| && net'.readers[s].seqNo <= k < net'.encoded[s] && k < |net'.plan[s]|
      ensures NotLost(net', s, k)
    {
      assert NotLost(net, s, k);
    }
  }

  lemma AddSafe(net: Net, place: Place, p: Packet)
    requires Safe(net) && Belongs(net, place, p)
    ensures Safe(Add(net, place, p))
  {
    var net' := Add(net, place, p);
    forall pl, q | Holds(net', pl, q) ensures Belongs(net', pl, q) {
      assert (pl == place && q == p) || Holds(net, pl, q);
      assert Belongs(net, pl, q);
    }
    forall q | Somewhere(net, q) ensures Somewhere(net', q) {
      var pl :| Holds(net, pl, q);
      assert Holds(net', pl, q);
    }
    RearrangedSafe(net, net');
  }

  // A packet may leave a place if it is somewhere else as well.
  lemma DropSafe(net: Net, place: Place, p: Packet, other: Place)
    requires Safe(net) && other != place && Holds(net, other, p)
    ensures Safe(Drop(net, place, p))
  {
    var net' := Drop(net, place, p);
    forall pl, q | Holds(net', pl, q) ensures Belongs(net', pl, q) {
      assert Holds(net, pl, q);
      assert Belongs(net, pl, q);
    }
    forall q | Somewhere(net, q) ensures Somewhere(net', q) {
      if q == p {
        assert Holds(net', other, q);
      } else {
        var pl :| Holds(net, pl, q);
        assert Holds(net', pl, q);
      }
    }
    RearrangedSafe(net, net');
  }

  lemma MoveSafe(net: Net, from: Place, to: Place, p: Packet)
    requires Safe(net) && Holds(net, from, p) && from != to && (to.ReadQueue? ==> to.shard == p.shard)
    ensures Safe(Add(Drop(net, from, p), to, p))
  {
    assert Belongs(net, from, p);
    AddSafe(net, to, p);
    var both := Add(net, to, p);
    assert Holds(both, to, p);
    DropSafe(both, from, p, to);
    AddDropCommute(net, from, to, p);
  }

  lemma AddDropCommute(net: Net, from: Place, to: Place, p: Packet)
    requires from != to
    ensures Add(Drop(net, from, p), to, p) == Drop(Add(net, to, p), from, p)
  {
    var x, y := In(net, from) - multiset{p}, In(net, to) + multiset{p};
    assert net.at[from := x][to := y] == net.at[to := y][from := x];
  }

  // One more packet exists; it is not anywhere yet.
  function Grown(net: Net, s: nat): Net
    requires s < |net.encoded|
  {
    Net(net.plan, net.encoded[s := net.encoded[s] + 1], net.at, net.readers)
  }

  lemma GrownSafe(net: Net, s: nat)
    requires Safe(net) && CanStep(net, Encode(s))
    ensures var mid := Grown(net, s);
            && Shape(mid) && Located(mid) && Readers(mid)
            && forall t, k {:trigger NotLost(mid, t, k)} |
                 0 <= t < |mid.readers| && mid.readers[t].seqNo <= k < mid.encoded[t] && k < |mid.plan[t]| ::
                 (t == s && k == net.encoded[s]) || NotLost(mid, t, k)
  {
    var mid := Grown(net, s);
    forall pl, q | Holds(mid, pl, q) ensures Belongs(mid, pl, q) {
      assert Holds(net, pl, q);
      assert Belongs(net, pl, q);
    }
    forall t | 0 <= t < |mid.readers| ensures ReaderOk(mid, t) {
      assert ReaderOk(net, t) by {
        assert net.readers[t] == mid.readers[t];
      }
    }
    forall t, k | 0 <= t < |mid.readers| && mid.readers[t].seqNo <= k < mid.encoded[t] && k < |mid.plan[t]|
      && !(t == s && k == net.encoded[s])
      ensures NotLost(mid, t, k)
    {
      assert NotLost(net, t, k);
      KeptSomewhere(net, mid, net.plan[t][k]);
    }
  }

  lemma KeptSomewhere(net: Net, net': Net, q: Packet)
    requires forall place :: Holds(net, place, q) ==> Holds(net', place, q)
    ensures Somewhere(net, q) ==> Somewhere(net', q)
  {
    if Somewhere(net, q) {
      var place :| Holds(net, place, q);
      assert Holds(net', place, q);
    }
  }

  lemma EncodeSafe(net: Net, s: nat)
    requires Safe(net) && CanStep(net, Encode(s))
    ensures Safe(Do(net, Encode(s)))
  {
    var mid := Grown(net, s);
    GrownSafe(net, s);
    var p := net.plan[s][net.encoded[s]];
    var net' := Add(mid, SendQueue, p);
    assert ReaderOk(net, s) by {
      assert net.readers[s] == net.readers[s];
    }
    forall pl, q | Holds(net', pl, q) ensures Belongs(net', pl, q) {
      assert (pl == SendQueue && q == p) || Holds(mid, pl, q);
      assert q != p ==> Belongs(mid, pl, q);
    }
    forall t | 0 <= t < |net'.readers| ensures ReaderOk(net', t) {
      assert mid.readers[t] == net'.readers[t];
    }
    assert Holds(net', SendQueue, p);
    forall t, k | 0 <= t < |net'.readers| && net'.readers[t].seqNo <= k < net'.encoded[t] && k < |net'.plan[t]|
      ensures NotLost(net', t, k)
    {
      if !(t == s && k == net.encoded[s]) {
        assert NotLost(mid, t, k);
        KeptSomewhere(mid, net', net.plan[t][k]);
      }
    }
  }

  lemma FetchSafe(net: Net, s: nat, p: Packet)
    requires Safe(net) && CanStep(net, Fetch(s, p))
    ensures Safe(Do(net, Fetch(s, p)))
  {
    var net' := Do(net, Fetch(s, p));
    assert Holds(net, ReadQueue(s), p);
    assert Belongs(net, ReadQueue(s), p);
    forall pl, q | Holds(net', pl, q) ensures Belongs(net', pl, q) {
      assert Holds(net, pl, q);
      assert Belongs(net, pl, q);
    }
    forall t | 0 <= t < |net'.readers| ensures ReaderOk(net', t) {
      assert ReaderOk(net, t) by {
        assert net.readers[t] == net.readers[t];
      }
    }
    forall t, k | 0 <= t < |net'.readers| && net'.readers[t].seqNo <= k < net'.encoded[t] && k < |net'.plan[t]|
      ensures NotLost(net', t, k)
    {
      assert NotLost(net, t, k);
      var q := net.plan[t][k];
      if q == p {
        assert t == s && k == p.seqNo;
      } else if Somewhere(net, q) {
        var pl :| Holds(net, pl, q);
        assert Holds(net', pl, q);
      }
    }
  }

  lemma AdvanceSafe(net: Net, s: nat)
    requires Safe(net) && CanStep(net, Advance(s))
    ensures Safe(Do(net, Advance(s)))
  {
    var net' := Do(net, Advance(s));
    forall pl, q | Holds(net', pl, q) ensures Belongs(net', pl, q) {
      assert Holds(net, pl, q);
    }
    forall t | 0 <= t < |net'.readers| ensures ReaderOk(net', t) {
      assert ReaderOk(net, t) by {
        assert net.readers[t] == net.readers[t];
      }
    }
    forall t, k | 0 <= t < |net'.readers| && net'.readers[t].seqNo <= k < net'.encoded[t] && k < |net'.plan[t]|
      ensures NotLost(net', t, k)
    {
      assert NotLost(net, t, k);
      if Somewhere(net, net.plan[t][k]) {
        var pl :| Holds(net, pl, net.plan[t][k]);
        assert Holds(net', pl, net.plan[t][k]);
      }
    }
  }

  lemma DuplicateSafe(net: Net, from: Place, p: Packet)
    requires Safe(net) && CanStep(net, Duplicate(from, p))
    ensures Safe(Do(net, Duplicate(from, p)))
  {
    MoveSafe(net, from, Home(from), p);
    var moved := Add(Drop(net, from, p), Home(from), p);
    assert Holds(moved, Home(from), p);
    assert Belongs(moved, Home(from), p);
    AddSafe(moved, WireOf(from), p);
  }

  // Every step, failed writes and duplicates included, keeps every packet genuine, in its
  // place, in order at the reader, and somewhere.
  lemma StepSafe(net: Net, step: Step)
    requires Safe(net) && CanStep(net, step)
    ensures Safe(Do(net, step))
    ensures Do(net, step).plan == net.plan
  {
    match step
    case Encode(s) => EncodeSafe(net, s);
    case Hop(from, to, p) => MoveSafe(net, from, to, p);
    case Duplicate(from, p) => DuplicateSafe(net, from, p);
    case Fetch(s, p) => FetchSafe(net, s, p);
    case Advance(s) => AdvanceSafe(net, s);
  }

  // A run of the network.
  ghost predicate NetRun(plan: seq<seq<Packet>>, steps: seq<Step>, net: Net)
    decreases |steps|
  {
    if steps == [] then net == Idle(plan)
    else
      var n := |steps| - 1;
      exists before: Net :: CanStep(before, steps[n]) && net == Do(before, steps[n]) && NetRun(plan, steps[..n], before)
  }

  lemma {:induction false} NetRunSafe(plan: seq<seq<Packet>>, steps: seq<Step>, net: Net)
    requires PlanOk(plan) && NetRun(plan, steps, net)
    ensures Safe(net) && net.plan == plan
    decreases |steps|
  {
    if steps == [] {
      IdleSafe(plan);
    } else {
      var n := |steps| - 1;
      var before: Net :| CanStep(before, steps[n]) && net == Do(before, steps[n]) && NetRun(plan, steps[..n], before);
      NetRunSafe(plan, steps[..n], before);
      StepSafe(before, steps[n]);
    }
  }

  // The bits a reader has handed on.
  function HandedOut(net: Net, s: nat): seq<bool> {
    if s < |net.plan| && s < |net.readers| && net.readers[s].seqNo <= |net.plan[s]| then
      Payload(net.plan[s][..net.readers[s].seqNo])
    else []
  }

  // In every reachable state the reader has seen exactly an initial part of the packets, in
  // order, so its bits are a prefix of the bits written; nothing else that was sent is lost.
  lemma TransportSafety(plan: seq<seq<Packet>>, steps: seq<Step>, net: Net, s: nat)
    requires PlanOk(plan) && NetRun(plan, steps, net) && s < |plan|
    ensures |net.readers| == |net.encoded| == |net.plan| && net.plan == plan
    ensures net.readers[s].seqNo <= net.encoded[s] <= |plan[s]|
    ensures HandedOut(net, s) <= Payload(plan[s])
    ensures forall k :: net.readers[s].seqNo <= k < net.encoded[s] ==> NotLost(net, s, k)
  {
    NetRunSafe(plan, steps, net);
    assert ReaderOk(net, s) by {
      assert net.readers[s] == net.readers[s];
    }
    var n := net.readers[s].seqNo;
    assert plan[s] == plan[s][..n] + plan[s][n..];
    PayloadAppend(plan[s][..n], plan[s][n..]);
  }

  // ---------------------------------------------------------------------------------
  // When nothing moves any more, everything has arrived
  // ---------------------------------------------------------------------------------

  // Steps that make progress: all but the failing write and the duplicate.
  predicate IsProgress(step: Step) {
    match step
    case Encode(s) => true
    case Hop(from, to, p) => !((from.UpWriting? || from.DownWriting?) && to == Home(from))
    case Duplicate(from, p) => false
    case Fetch(s, p) => true
    case Advance(s) => true
  }

  ghost predicate Quiet(net: Net) {
    forall step :: IsProgress(step) ==> !CanStep(net, step)
  }

  lemma {:induction false} LeastInQueue(q: multiset<Packet>, p: Packet) returns (top: Packet)
    requires p in q
    ensures IsTop(q, top)
    decreases p.seqNo
  {
    if IsTop(q, p) {
      top := p;
    } else {
      var r :| r in q && r.seqNo < p.seqNo;
      top := LeastInQueue(q, r);
    }
  }

  lemma QuietIsEmpty(net: Net, place: Place, p: Packet)
    requires Safe(net) && Quiet(net)
    ensures !Holds(net, place, p)
  {
    if Holds(net, place, p) {
      assert Belongs(net, place, p);
      var step: Step;
      match place {
        case SendQueue =>
          var top := LeastInQueue(In(net, place), p);
          step := Hop(place, UpWriting(0, 0), top);
        case UpWriting(e, l) => step := Hop(place, UpWire(e, l), p);
        case UpWire(e, l) => step := Hop(place, ExchangeQueue(e), p);
        case ExchangeQueue(e) =>
          var top := LeastInQueue(In(net, place), p);
          step := Hop(place, DownWriting(e, 0), top);
        case DownWriting(e, l) => step := Hop(place, DownWire(e, l), p);
        case DownWire(e, l) => step := Hop(place, ReadQueue(p.shard), p);
        case ReadQueue(s) =>
          var top := LeastInQueue(In(net, place), p);
          step := Fetch(s, top);
      }
      assert CanStep(net, step) && IsProgress(step);
    }
  }

  // A network in which only failing writes could still happen has delivered every packet.
  lemma QuietIsComplete(net: Net, s: nat)
    requires Safe(net) && Quiet(net) && s < |net.plan|
    ensures net.readers[s].seqNo == |net.plan[s]| == net.encoded[s]
  {
    assert ReaderOk(net, s) by {
      assert net.readers[s] == net.readers[s];
    }
    assert !CanStep(net, Encode(s));
    var k := net.readers[s].seqNo;
    if k < |net.plan[s]| {
      assert NotLost(net, s, k);
      assert !CanStep(net, Advance(s));
      var place :| Holds(net, place, net.plan[s][k]);
      QuietIsEmpty(net, place, net.plan[s][k]);
    }
  }
}
