// The packet queue that threads share, the demultiplexer in front of the ten read queues, and
// one turn of the sender loop with its requeue guard.
module Network {
  import opened Types
  import opened BitStream
  import opened Transport

  class PacketQueue {
    var queue: multiset<Packet>

    constructor ()
      ensures queue == multiset{}
    {
      queue := multiset{};
    }

    method Send(p: Packet)
      modifies this
      ensures queue == old(queue) + multiset{p}
    {
      queue := queue + multiset{p};
    }

    // None while the queue is empty; the call is then still waiting.
    method Next() returns (r: Option<Packet>)
      modifies this
      ensures match r
              case None => old(queue) == multiset{} == queue
              case Some(p) => IsTop(old(queue), p) && queue == old(queue) - multiset{p}
    {
      if queue == multiset{} {
        return None;
      }
      ghost var some :| some in queue;
      ghost var top := LeastInQueue(queue, some);
      assert forall q :: q in queue ==> top.seqNo <= q.seqNo;
      var p :| p in queue && forall q :: q in queue ==> p.seqNo <= q.seqNo;
      queue := queue - multiset{p};
      r := Some(p);
    }
  }

  // Sender::run, one turn.  `failed` says whether a write throws; the guard then puts the packet
  // back before the thread gives up.
  method SenderTurn(stream: PacketQueue, failed: bool) returns (written: Option<Packet>)
    requires forall p :: p in stream.queue ==> WellFormed(p)
    modifies stream
    ensures failed || old(stream.queue) == multiset{} ==> written == None && stream.queue == old(stream.queue)
    ensures !failed && old(stream.queue) != multiset{} ==>
              written.Some? && IsTop(old(stream.queue), written.value)
              && stream.queue + multiset{written.value} == old(stream.queue)
  {
    var next := stream.Next();
    if next == None {
      return None;
    }
    var p := next.value;
    // check_well_formedness
    assert WellFormed(p);
    if failed {
      stream.Send(p);
      return None;
    }
    written := Some(p);
  }

  class Demux {
    const queues: seq<PacketQueue>

    ghost predicate Valid() {
      forall i, j :: 0 <= i < j < |queues| ==> queues[i] != queues[j]
    }

    constructor (queues: seq<PacketQueue>)
      requires forall i, j :: 0 <= i < j < |queues| ==> queues[i] != queues[j]
      ensures Valid() && this.queues == queues
    {
      this.queues := queues;
    }

    // vector::at throws on a shard without a queue; nothing is changed then.
    method Send(p: Packet) returns (ok: bool)
      requires Valid()
      modifies queues
      ensures ok <==> p.shard < |queues|
      ensures forall s :: 0 <= s < |queues| ==>
                queues[s].queue == old(queues[s].queue) + if s == p.shard then multiset{p} else multiset{}
    {
      ok := p.shard < |queues|;
      if ok {
        queues[p.shard].Send(p);
      }
    }
  }

  // A failed write is as if it had never been tried: every place holds what it held before.
  lemma RequeueUndoes(net: Net, from: Place, p: Packet, writing: Place)
    requires writing.UpWriting? || writing.DownWriting?
    requires from == Home(writing) && Holds(net, from, p) && IsTop(In(net, from), p)
    ensures CanStep(net, Hop(from, writing, p))
    ensures var taken := Do(net, Hop(from, writing, p));
            && CanStep(taken, Hop(writing, from, p))
            && SamePlaces(Do(taken, Hop(writing, from, p)), net)
  {
    MoveBack(net, from, writing, p);
    CanTake(net, writing, p);
    CanPutBack(Add(Drop(net, from, p), writing, p), writing, p);
  }

  lemma CanTake(net: Net, writing: Place, p: Packet)
    requires writing.UpWriting? || writing.DownWriting?
    requires Holds(net, Home(writing), p) && IsTop(In(net, Home(writing)), p)
    ensures CanStep(net, Hop(Home(writing), writing, p))
    ensures Do(net, Hop(Home(writing), writing, p)) == Add(Drop(net, Home(writing), p), writing, p)
  {
  }

  lemma CanPutBack(net: Net, writing: Place, p: Packet)
    requires writing.UpWriting? || writing.DownWriting?
    requires Holds(net, writing, p)
    ensures CanStep(net, Hop(writing, Home(writing), p))
    ensures Do(net, Hop(writing, Home(writing), p)) == Add(Drop(net, writing, p), Home(writing), p)
  {
  }

  ghost predicate SamePlaces(a: Net, b: Net) {
    match a
    case Net(plan, encoded, at, readers) =>
      && plan == b.plan && encoded == b.encoded && readers == b.readers
      && forall place :: In(a, place) == In(b, place)
  }

  lemma MoveBack(net: Net, from: Place, to: Place, p: Packet)
    requires from != to && Holds(net, from, p)
    ensures var moved := Add(Drop(net, from, p), to, p);
            Holds(moved, to, p) && SamePlaces(Add(Drop(moved, to, p), from, p), net)
  {
    var moved := Add(Drop(net, from, p), to, p);
    var back := Add(Drop(moved, to, p), from, p);
    forall place ensures In(moved, place) == Moved(In(net, place), place, from, to, p) {
      AtPlace(net, place, from, to, p);
    }
    forall place ensures In(back, place) == In(net, place) {
      AtPlace(moved, place, to, from, p);
      ThereAndBack(In(net, place), place, from, to, p);
    }
  }

  // A place's contents after `p` has moved.
  function Moved(q: multiset<Packet>, place: Place, from: Place, to: Place, p: Packet): multiset<Packet> {
    if place == from then q - multiset{p} else if place == to then q + multiset{p} else q
  }

  lemma AtPlace(net: Net, place: Place, from: Place, to: Place, p: Packet)
    requires from != to
    ensures In(Add(Drop(net, from, p), to, p), place) == Moved(In(net, place), place, from, to, p)
  {
  }

  lemma ThereAndBack(q: multiset<Packet>, place: Place, from: Place, to: Place, p: Packet)
    requires from != to && (place == from ==> p in q)
    ensures Moved(Moved(q, place, from, to, p), place, to, from, p) == q
  {
  }
}
