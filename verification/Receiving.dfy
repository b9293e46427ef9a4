// A bit stream as the reader of its shard in the network: what it holds, takes and consumes is
// what the step system says, with fetches on demand; and what a merger collects is what the whole
// system lets its trader process.
module Receiving {
  import opened Types
  import opened BitStream
  import opened Codec
  import opened Merger
  import opened Transport
  import opened Exchange
  import opened Hooks
  import N = Network
  import P = Progress

  // The read queue, listed from its top downwards.
  ghost predicate Listing(q: multiset<Packet>, arrivals: seq<Packet>) {
    && multiset(arrivals) == q
    && forall i, j :: 0 <= i < j < |arrivals| ==> arrivals[i].seqNo <= arrivals[j].seqNo
  }

  // The buffer is the reader of shard s.
  ghost predicate Mirrors(b: Buffer, net: Net, s: nat) {
    match b
    case Buffer(seqNo, packets, arrivals) =>
      && s < |net.readers| && net.readers[s] == Inbox(seqNo, packets)
      && Listing(In(net, ReadQueue(s)), arrivals)
  }

  lemma TopOfListing(q: multiset<Packet>, arrivals: seq<Packet>)
    requires Listing(q, arrivals) && arrivals != []
    ensures IsTop(q, arrivals[0]) && Listing(q - multiset{arrivals[0]}, arrivals[1..])
  {
    assert arrivals == [arrivals[0]] + arrivals[1..];
    assert arrivals[0] in multiset(arrivals);
    forall r | r in q ensures arrivals[0].seqNo <= r.seqNo {
      assert r in multiset(arrivals);
      var i :| 0 <= i < |arrivals| && arrivals[i] == r;
    }
  }

  lemma {:induction false} EnqueueSorts(arrivals: seq<Packet>, p: Packet)
    requires forall i, j :: 0 <= i < j < |arrivals| ==> arrivals[i].seqNo <= arrivals[j].seqNo
    ensures forall i, j :: 0 <= i < j < |Enqueue(arrivals, p)| ==>
              Enqueue(arrivals, p)[i].seqNo <= Enqueue(arrivals, p)[j].seqNo
  {
    if arrivals == [] || p.seqNo < arrivals[0].seqNo {
    } else {
      EnqueueSorts(arrivals[1..], p);
      EnqueueAdds(arrivals[1..], p);
      var rest := Enqueue(arrivals[1..], p);
      forall j | 0 <= j < |rest| ensures arrivals[0].seqNo <= rest[j].seqNo {
        assert rest[j] in multiset(rest);
        assert rest[j] in arrivals[1..] || rest[j] == p;
      }
    }
  }

  // ---------------------------------------------------------------------------------
  // Move by move
  // ---------------------------------------------------------------------------------

  // Taking an arrival is a fetch.
  lemma TakeIsFetch(net: Net, s: nat, b: Buffer)
    requires Mirrors(b, net, s) && b.arrivals != [] && b.seqNo !in b.packets
    ensures CanStep(net, Fetch(s, b.arrivals[0]))
    ensures Mirrors(Apply(b, Take), Do(net, Fetch(s, b.arrivals[0])), s)
  {
    TopOfListing(In(net, ReadQueue(s)), b.arrivals);
  }

  // Going on to the wanted packet is an advance.
  lemma NextIsAdvance(net: Net, s: nat, b: Buffer)
    requires Mirrors(b, net, s) && b.seqNo in b.packets
    ensures CanStep(net, Advance(s))
    ensures Mirrors(Apply(b, Next), Do(net, Advance(s)), s)
  {
  }

  lemma HopAt(net: Net, from: Place, to: Place, p: Packet, place: Place)
    requires CanStep(net, Hop(from, to, p))
    ensures In(Do(net, Hop(from, to, p)), place) == N.Moved(In(net, place), place, from, to, p)
    ensures Do(net, Hop(from, to, p)).readers == net.readers
  {
    N.AtPlace(net, place, from, to, p);
  }

  // A packet that reaches the read queue is an arrival.
  lemma HopIsArrival(net: Net, s: nat, b: Buffer, from: Place, p: Packet)
    requires Mirrors(b, net, s) && CanStep(net, Hop(from, ReadQueue(s), p))
    ensures Mirrors(Apply(b, Arrive(p)), Do(net, Hop(from, ReadQueue(s), p)), s)
  {
    HopAt(net, from, ReadQueue(s), p, ReadQueue(s));
    EnqueueAdds(b.arrivals, p);
    EnqueueSorts(b.arrivals, p);
  }

  // Nothing else concerns the reader.
  predicate Concerns(step: Step, s: nat) {
    match step
    case Encode(t) => false
    case Hop(from, to, p) => to == ReadQueue(s)
    case Duplicate(from, p) => false
    case Fetch(t, p) => t == s
    case Advance(t) => t == s
  }

  lemma OtherStepsPass(net: Net, s: nat, b: Buffer, step: Step)
    requires Mirrors(b, net, s) && CanStep(net, step) && !Concerns(step, s)
    ensures Mirrors(b, Do(net, step), s)
  {
    ReadQueueKept(net, s, step);
  }

  lemma ReadQueueKept(net: Net, s: nat, step: Step)
    requires CanStep(net, step) && !Concerns(step, s) && s < |net.readers|
    ensures In(Do(net, step), ReadQueue(s)) == In(net, ReadQueue(s))
    ensures s < |Do(net, step).readers| && Do(net, step).readers[s] == net.readers[s]
  {
    match step
    case Encode(t) =>
    case Hop(from, to, p) => HopAt(net, from, to, p, ReadQueue(s));
    case Duplicate(from, p) => DuplicateAt(net, from, p, ReadQueue(s));
    case Fetch(t, p) => assert ReadQueue(t) != ReadQueue(s);
    case Advance(t) =>
  }

  lemma DuplicateAt(net: Net, from: Place, p: Packet, place: Place)
    requires CanStep(net, Duplicate(from, p)) && place.ReadQueue?
    ensures In(Do(net, Duplicate(from, p)), place) == In(net, place)
  {
    N.AtPlace(net, place, from, Home(from), p);
  }

  // `after` is reached from `net` by these steps of shard s's reader.
  ghost predicate Reads(net: Net, s: nat, steps: seq<Step>, after: Net)
    decreases |steps|
  {
    if steps == [] then after == net
    else
      var n := |steps| - 1;
      && (steps[n].Fetch? || steps[n].Advance?) && Concerns(steps[n], s)
      && exists mid: Net :: DoesTo(mid, steps[n], after) && Reads(net, s, steps[..n], mid)
  }

  ghost predicate DoesTo(before: Net, step: Step, after: Net) {
    CanStep(before, step) && after == Do(before, step)
  }

  lemma ReadsSnoc(net: Net, s: nat, steps: seq<Step>, mid: Net, step: Step)
    requires Reads(net, s, steps, mid) && CanStep(mid, step)
    requires (step.Fetch? || step.Advance?) && Concerns(step, s)
    ensures Reads(net, s, steps + [step], Do(mid, step))
  {
    assert (steps + [step])[..|steps|] == steps;
    assert DoesTo(mid, step, Do(mid, step));
  }

  ghost predicate OnlyReads(moves: seq<Move>) {
    forall i :: 0 <= i < |moves| ==> !moves[i].Arrive?
  }

  // One more move of a reader is one more step, or none.
  lemma MoveIsStep(net: Net, s: nat, b: Buffer, move: Move, steps: seq<Step>, mid: Net) returns (more: seq<Step>, after: Net)
    requires Mirrors(b, mid, s) && Reads(net, s, steps, mid) && !move.Arrive?
    ensures Reads(net, s, more, after) && Mirrors(Apply(b, move), after, s)
  {
    match move
    case Take =>
      if b.arrivals == [] || b.seqNo in b.packets {
        more, after := steps, mid;
      } else {
        TakeIsFetch(mid, s, b);
        ReadsSnoc(net, s, steps, mid, Fetch(s, b.arrivals[0]));
        more, after := steps + [Fetch(s, b.arrivals[0])], Do(mid, Fetch(s, b.arrivals[0]));
      }
    case Next =>
      if b.seqNo in b.packets {
        NextIsAdvance(mid, s, b);
        ReadsSnoc(net, s, steps, mid, Advance(s));
        more, after := steps + [Advance(s)], Do(mid, Advance(s));
      } else {
        more, after := steps, mid;
      }
  }

  // Whatever a reader does between arrivals is a run of its shard's fetches and advances.
  lemma {:induction false} MovesAreSteps(net: Net, s: nat, b: Buffer, moves: seq<Move>) returns (steps: seq<Step>, after: Net)
    requires Mirrors(b, net, s) && OnlyReads(moves)
    ensures Reads(net, s, steps, after) && Mirrors(Replay(b, moves), after, s)
  {
    if moves == [] {
      steps, after := [], net;
    } else {
      var n := |moves| - 1;
      var before, mid := MovesAreSteps(net, s, b, moves[..n]);
      steps, after := MoveIsStep(net, s, Replay(b, moves[..n]), moves[n], before, mid);
    }
  }

  // A stream that started as the network's reader and has only read since is still that reader:
  // the network can take the same packets and consume the same ones.
  lemma StreamIsReader(input: IBitStream, net: Net, s: nat) returns (steps: seq<Step>, after: Net)
    requires input.Valid() && OnlyReads(input.moves) && Mirrors(input.start, net, s)
    ensures Reads(net, s, steps, after) && Mirrors(input.Now(), after, s)
    ensures s < |after.readers| && after.readers[s] == Inbox(input.seqNo, input.packets)
  {
    steps, after := MovesAreSteps(net, s, input.start, input.moves);
  }

  // ---------------------------------------------------------------------------------
  // Reading as far as possible
  // ---------------------------------------------------------------------------------

  lemma {:induction false} ReplayCons(b: Buffer, move: Move, moves: seq<Move>)
    ensures Replay(b, [move] + moves) == Replay(Apply(b, move), moves)
  {
    var all := [move] + moves;
    if moves == [] {
      assert all[..0] == [] && Replay(b, []) == b;
    } else {
      assert all[..|all| - 1] == [move] + moves[..|moves| - 1];
      ReplayCons(b, move, moves[..|moves| - 1]);
    }
  }

  // A reader that goes on while it can consumes everything up to the first missing packet.
  lemma {:induction false} ReadsUpToHorizon(sent: seq<Packet>, b: Buffer) returns (moves: seq<Move>)
    requires Kept(sent, b.seqNo, b.packets) && Genuine(sent, b.arrivals) && b.seqNo <= |sent|
    ensures OnlyReads(moves)
    ensures Replay(b, moves).seqNo == Frontier(b.seqNo, |sent|, b.packets, b.arrivals)
    decreases |b.arrivals| + |sent| - b.seqNo
  {
    if b.seqNo in b.packets {
      assert Present(b.packets, b.arrivals, b.seqNo);
      FrontierAdvance(b.seqNo, |sent|, b.packets, b.arrivals);
      var rest := ReadsUpToHorizon(sent, Apply(b, Next));
      ReplayCons(b, Next, rest);
      moves := [Next] + rest;
    } else if b.arrivals != [] {
      AbsorbKeeps(sent, b.seqNo, b.packets, b.arrivals);
      var after := Apply(b, Take);
      FrontierSame(b.seqNo, |sent|, b.packets, b.arrivals, after.packets, after.arrivals);
      var rest := ReadsUpToHorizon(sent, after);
      ReplayCons(b, Take, rest);
      moves := [Take] + rest;
    } else {
      assert !Present(b.packets, b.arrivals, b.seqNo);
      moves := [];
    }
  }

  // A reader nothing has been taken for yet, and its queue.
  ghost predicate Untouched(net: Net, s: nat, arrivals: seq<Packet>) {
    && s < |net.readers| && net.readers[s] == Inbox(0, map[])
    && Listing(In(net, ReadQueue(s)), arrivals)
  }

  lemma QueueIsGenuine(net: Net, s: nat, arrivals: seq<Packet>)
    requires Safe(net) && Untouched(net, s, arrivals)
    ensures s < |net.plan| && Genuine(net.plan[s], arrivals)
  {
    forall i | 0 <= i < |arrivals|
      ensures arrivals[i].seqNo < |net.plan[s]| && arrivals[i] == net.plan[s][arrivals[i].seqNo]
    {
      assert arrivals[i] in multiset(arrivals);
      assert Holds(net, ReadQueue(s), arrivals[i]);
      assert Belongs(net, ReadQueue(s), arrivals[i]);
    }
  }

  lemma DrainReader(net: Net, s: nat, arrivals: seq<Packet>) returns (steps: seq<Step>, after: Net)
    requires Safe(net) && Untouched(net, s, arrivals)
    ensures Reads(net, s, steps, after) && s < |net.plan| && s < |after.readers|
    ensures after.readers[s].seqNo == Frontier(0, |net.plan[s]|, map[], arrivals)
  {
    QueueIsGenuine(net, s, arrivals);
    var start := Buffer(0, map[], arrivals);
    var moves := ReadsUpToHorizon(net.plan[s], start);
    steps, after := MovesAreSteps(net, s, start, moves);
  }

  // ---------------------------------------------------------------------------------
  // In the whole system
  // ---------------------------------------------------------------------------------

  // A reader's steps are steps of the whole system.
  lemma {:induction false} ReadsInWorld(c: Case, actions: seq<Action>, w: World, u: Trader, s: nat, steps: seq<Step>, after: Net)
    returns (more: seq<Action>)
    requires WorldRun(c, actions, w) && Reads(NetOf(w, u), s, steps, after)
    ensures actions <= more && WorldRun(c, more, WithNet(w, u, after))
    decreases |steps|
  {
    if steps == [] {
      more := actions;
      assert WithNet(w, u, after) == w;
    } else {
      var n := |steps| - 1;
      var mid: Net :| DoesTo(mid, steps[n], after) && Reads(NetOf(w, u), s, steps[..n], mid);
      var part := ReadsInWorld(c, actions, w, u, s, steps[..n], mid);
      more := part + [NetStep(u, steps[n])];
      OneMoreRead(c, part, WithNet(w, u, mid), u, steps[n], after);
      assert WithNet(WithNet(w, u, mid), u, after) == WithNet(w, u, after);
    }
  }

  lemma OneMoreRead(c: Case, actions: seq<Action>, w: World, u: Trader, step: Step, after: Net)
    requires WorldRun(c, actions, w) && DoesTo(NetOf(w, u), step, after)
    ensures WorldRun(c, actions + [NetStep(u, step)], WithNet(w, u, after))
  {
    P.ExtendRun(c, actions, w, NetStep(u, step));
  }

  // The network of a reachable world, and what its packets carry.
  lemma NetInWorld(c: Case, actions: seq<Action>, w: World, u: Trader)
    requires CaseOk(c) && WorldRun(c, actions, w)
    ensures Safe(NetOf(w, u)) && NetOf(w, u).plan == Plan(c, u)
  {
    WorldRunOk(c, actions, w);
  }

  // Once the reader has gone on as far as it can, what its trader may process is the merge of the
  // trader's own packets with those that have arrived in sequence.
  lemma ReadersDeliver(c: Case, actions: seq<Action>, w: World, t: Trader, s: nat, arrivals: seq<Packet>)
    returns (more: seq<Action>, after: World)
    requires CaseOk(c) && WorldRun(c, actions, w) && Untouched(NetOf(w, Other(t)), s, arrivals)
    ensures s < |Plan(c, Other(t))| && actions <= more && WorldRun(c, more, after)
    ensures Available(c, after, t, s)
         == Delivered(Pos(c.input, t, s), Row(Plan(c, t), s), Arrived(Plan(c, Other(t))[s], arrivals))
  {
    var u := Other(t);
    NetInWorld(c, actions, w, u);
    var steps, net := DrainReader(NetOf(w, u), s, arrivals);
    more := ReadsInWorld(c, actions, w, u, s, steps, net);
    after := WithNet(w, u, net);
    NetInWorld(c, more, after, u);
    assert HandedOut(net, s) == Payload(net.plan[s][..net.readers[s].seqNo]);
  }

  lemma CarriesFeeds(c: Case, t: Trader, s: nat, arrivals: seq<Packet>)
    requires CaseOk(c) && s < NR_STOCKS && s < |Plan(c, t)| && Genuine(Plan(c, t)[s], arrivals)
    ensures PositionsOk(Pos(c.input, t, s), Raw(c.input, t))
    ensures Feeds(s, Plan(c, t)[s], arrivals, OwnOrders(Pos(c.input, t, s), Raw(c.input, t)))
  {
    StockIsOk(c.input, s);
    assert Carries(Pos(c.input, t, s), Raw(c.input, t), Plan(c, t)[s]);
  }

  // The merging half of a stock's thread inside the system, with its own packets in its own queue
  // and the other trader's in the read queue: it collects exactly the orders that the system lets
  // the trader process once the reader has gone on as far as it can.
  method CollectInWorld(pos: seq<int>, s: u32, ownArrivals: seq<Packet>, arrivals: seq<Packet>,
                        ghost c: Case, ghost actions: seq<Action>, ghost w: World, ghost t: Trader)
    returns (orders: seq<Order>, ended: bool, ghost more: seq<Action>, ghost after: World)
    requires CaseOk(c) && WorldRun(c, actions, w) && s < NR_STOCKS && pos == Pos(c.input, t, s)
    requires Untouched(NetOf(w, Other(t)), s, arrivals)
    requires s < |Plan(c, t)| && Genuine(Plan(c, t)[s], ownArrivals) && Complete(Plan(c, t)[s], ownArrivals)
    ensures actions <= more && WorldRun(c, more, after)
    ensures orders == Available(c, after, t, s)
    ensures s < |c.setup.orders| && (ended <==> orders == c.setup.orders[s])
  {
    more, after := ReadersDeliver(c, actions, w, t, s, arrivals);
    NetInWorld(c, actions, w, Other(t));
    QueueIsGenuine(NetOf(w, Other(t)), s, arrivals);
    CarriesFeeds(c, t, s, ownArrivals);
    CarriesFeeds(c, Other(t), s, arrivals);
    OrdersOfSetup(c, t, s);
    AllArrived(Plan(c, t)[s], ownArrivals);
    orders, ended := MergeStock(s, pos, ownArrivals, arrivals, Raw(c.input, t), Plan(c, t)[s],
                                Pos(c.input, Other(t), s), Raw(c.input, Other(t)), Plan(c, Other(t))[s]);
  }

  lemma AllArrived(sent: seq<Packet>, arrivals: seq<Packet>)
    requires Complete(sent, arrivals)
    ensures Arrived(sent, arrivals) == Payload(sent)
  {
    FrontierIs(0, |sent|, |sent|, map[], arrivals);
    assert sent[..|sent|] == sent;
  }

  lemma OrdersOfSetup(c: Case, t: Trader, s: nat)
    requires CaseOk(c) && s < NR_STOCKS
    ensures PositionsOk(Pos(c.input, t, s), Raw(c.input, t))
    ensures PositionsOk(Pos(c.input, Other(t), s), Raw(c.input, Other(t)))
    ensures Complementary(Pos(c.input, t, s), Pos(c.input, Other(t), s))
    ensures s < |c.setup.orders|
    ensures c.setup.orders[s]
         == CanonAll(AllOrders(Pos(c.input, t, s), Raw(c.input, t), Pos(c.input, Other(t), s), Raw(c.input, Other(t))))
  {
    StockIsOk(c.input, s);
    assert IsOrderList(c.input, s, c.setup.orders[s]);
    AllOrdersSwap(Pos(c.input, One, s), c.input.raw1, Pos(c.input, Two, s), c.input.raw2);
  }
}
