// The two traders and both directions of the network together.  Each trader encodes its part of
// every stock, ships it, merges both parts as packets arrive, and runs the ten engines.
module Exchange {
  import opened Types
  import opened Engine
  import opened Hooks
  import opened Bits
  import opened BitStream
  import opened Codec
  import opened Reader
  import opened Merger
  import opened Schedule
  import T = Transport

  datatype Trader = One | Two

  function Other(t: Trader): Trader {
    if t == One then Two else One
  }

  // The files: both traders read the closing prices and the hooks; each has its own raw orders
  // with their order ids.  `plane` raw entries in a row belong to one stock, and every stock has
  // the orders 1, ..., maxId.
  datatype Input = Input(
    prevClose: seq<u32>, hooks: seq<Hook>,
    plane: nat, maxId: nat,
    ids1: seq<nat>, raw1: seq<Order>,
    ids2: seq<nat>, raw2: seq<Order>)

  function Ids(input: Input, t: Trader): seq<nat> {
    if t == One then input.ids1 else input.ids2
  }

  function Raw(input: Input, t: Trader): seq<Order> {
    if t == One then input.raw1 else input.raw2
  }

  // The trader's row of the table that sorts stock s by order id.
  function Pos(input: Input, t: Trader, s: nat): seq<int> {
    if input.plane == 0 then [] else StockRow(Ids(input, t), input.plane, s, input.maxId)
  }

  // Each file's ids are in range and distinct within a stock, each order of each stock is in
  // exactly one of the two files, and the price differences fit the encoder.
  ghost predicate InputOk(input: Input) {
    match input
    case Input(prevClose, hooks, plane, maxId, ids1, raw1, ids2, raw2) =>
      && |prevClose| == NR_STOCKS && plane > 0
      && (forall c {:trigger hooks[c]} :: 0 <= c < |hooks| ==> hooks[c].srcStk < NR_STOCKS && hooks[c].targetStk < NR_STOCKS)
      && FileOk(plane, maxId, ids1, raw1) && FileOk(plane, maxId, ids2, raw2)
      && forall s {:trigger Partition(ids1, ids2, plane, s, maxId)} ::
           0 <= s < NR_STOCKS ==> Partition(ids1, ids2, plane, s, maxId)
  }

  ghost predicate FileOk(plane: nat, maxId: nat, ids: seq<nat>, raw: seq<Order>) {
    && plane > 0 && |ids| == |raw|
    && IdsDistinct(ids, plane)
    && (forall k :: 0 <= k < |ids| ==> 1 <= ids[k] <= maxId)
    && forall s {:trigger StockFits(plane, maxId, ids, raw, s)} ::
         0 <= s < NR_STOCKS ==> StockFits(plane, maxId, ids, raw, s)
  }

  ghost predicate StockFits(plane: nat, maxId: nat, ids: seq<nat>, raw: seq<Order>, s: nat) {
    && plane > 0 && PositionsOk(StockRow(ids, plane, s, maxId), raw)
    && AllEncodable(0, OwnOrders(StockRow(ids, plane, s, maxId), raw))
  }

  // What the two rows of a stock must satisfy for its orders to be merged.
  ghost predicate StockOk(mask1: seq<int>, raw1: seq<Order>, mask2: seq<int>, raw2: seq<Order>) {
    && PositionsOk(mask1, raw1) && PositionsOk(mask2, raw2)
    && Complementary(mask1, mask2) && Complementary(mask2, mask1)
    && AllEncodable(0, OwnOrders(mask1, raw1)) && AllEncodable(0, OwnOrders(mask2, raw2))
  }

  lemma ComplementarySym(a: seq<int>, b: seq<int>)
    requires Complementary(a, b)
    ensures Complementary(b, a)
  {
    forall i | 0 <= i < |b| ensures b[i] == -1 <==> a[i] != -1 {
      assert a[i] == -1 <==> b[i] != -1;
    }
  }

  lemma StockIsOk(input: Input, s: nat)
    requires InputOk(input) && s < NR_STOCKS
    ensures StockOk(Pos(input, One, s), input.raw1, Pos(input, Two, s), input.raw2)
  {
    assert StockFits(input.plane, input.maxId, input.ids1, input.raw1, s);
    assert StockFits(input.plane, input.maxId, input.ids2, input.raw2, s);
    assert Partition(input.ids1, input.ids2, input.plane, s, input.maxId);
    RowsComplement(input.ids1, input.ids2, input.plane, s, input.maxId);
    ComplementarySym(Pos(input, One, s), Pos(input, Two, s));
  }

  // What the engines run on: every stock's orders as they survive the wire, and the hooks
  // sharded and sorted.
  ghost predicate IsSetup(input: Input, setup: Setup) {
    match setup
    case Setup(prevClose, orders, futures, promises, target) =>
      && prevClose == input.prevClose
      && |orders| == |futures| == |promises| == NR_STOCKS && |target| == |input.hooks|
      && (forall s {:trigger orders[s]} :: 0 <= s < NR_STOCKS ==> IsOrderList(input, s, orders[s]))
      && (forall s {:trigger futures[s]} :: 0 <= s < NR_STOCKS ==> futures[s] == SortedFutures(FuturesOf(input.hooks, s)))
      && (forall s {:trigger promises[s]} :: 0 <= s < NR_STOCKS ==> promises[s] == SortedPromises(PromisesOf(input.hooks, s)))
      && (forall c {:trigger target[c]} :: 0 <= c < |target| ==> target[c] == input.hooks[c].targetStk)
  }

  ghost predicate IsOrderList(input: Input, s: nat, orders: seq<Order>) {
    && StockOk(Pos(input, One, s), input.raw1, Pos(input, Two, s), input.raw2)
    && orders == CanonAll(AllOrders(Pos(input, One, s), input.raw1, Pos(input, Two, s), input.raw2))
  }

  // Packets of any size, flushed at any time, that carry trader t's encoded orders.
  ghost predicate IsPlan(input: Input, t: Trader, plan: seq<seq<Packet>>) {
    && |plan| == NR_STOCKS && T.PlanOk(plan)
    && forall s {:trigger plan[s]} :: 0 <= s < NR_STOCKS ==> Carries(Pos(input, t, s), Raw(input, t), plan[s])
  }

  ghost predicate Carries(pos: seq<int>, raw: seq<Order>, packets: seq<Packet>) {
    PositionsOk(pos, raw) && Payload(packets) == EncodeAll(0, OwnOrders(pos, raw))
  }

  // One setting of the experiment: the files, the packets each trader makes of them, and the
  // engines' input.
  datatype Case = Case(input: Input, plan1: seq<seq<Packet>>, plan2: seq<seq<Packet>>, setup: Setup)

  function Plan(c: Case, t: Trader): seq<seq<Packet>> {
    if t == One then c.plan1 else c.plan2
  }

  ghost predicate CaseOk(c: Case) {
    match c
    case Case(input, plan1, plan2, setup) =>
      && InputOk(input) && IsSetup(input, setup)
      && IsPlan(input, One, plan1) && IsPlan(input, Two, plan2)
  }

  lemma SetupIsOk(input: Input, setup: Setup)
    requires InputOk(input) && IsSetup(input, setup)
    ensures SetupOk(setup)
  {
    forall s, i | 0 <= s < |setup.futures| && 0 <= i < |setup.futures[s]|
      ensures setup.futures[s][i].channel < |setup.target|
    {
      var fs := FuturesOf(input.hooks, s);
      FuturesAreSorted(fs);
      HooksArePaired(input.hooks, s);
      assert setup.futures[s][i] in multiset(setup.futures[s]);
      assert setup.futures[s][i] in fs;
    }
  }

  // Every input can be run: any bits fit into packets, and the engines' input is determined.
  lemma CaseExists(input: Input) returns (c: Case)
    requires InputOk(input)
    ensures CaseOk(c) && c.input == input
  {
    var plan1 := PlanExists(input, One);
    var plan2 := PlanExists(input, Two);
    var setup := SetupExists(input);
    c := Case(input, plan1, plan2, setup);
  }

  lemma {:induction false} Packed(bits: seq<bool>, room: nat) returns (buf: seq<bv8>)
    requires |bits| <= 8 * room
    ensures |buf| == room && BufBits(buf, |bits|) == bits
    ensures forall i :: |bits| <= i < 8 * room ==> !BitAt(buf, i)
  {
    if bits == [] {
      buf := Zeros(room);
      ZerosAreClear(room);
    } else {
      var n := |bits| - 1;
      var part := Packed(bits[..n], room);
      WriteBit(part, n, bits[n]);
      buf := WithBit(part, n, bits[n]);
      assert bits == bits[..n] + [bits[n]];
    }
  }

  lemma OnePacket(s: u32, bits: seq<bool>) returns (packets: seq<Packet>)
    ensures Framed(s, packets) && Payload(packets) == bits
  {
    var buf := Packed(bits, (|bits| + 7) / 8);
    var p := Packet(s, 0, |bits|, buf);
    packets := [p];
    assert Payload([p]) == PacketBits(p) + Payload([p][1..]);
  }

  ghost predicate StockPlan(input: Input, t: Trader, s: nat, packets: seq<Packet>) {
    s < NR_STOCKS && Framed(s, packets) && Carries(Pos(input, t, s), Raw(input, t), packets)
  }

  lemma {:induction false} StockPlansExist(input: Input, t: Trader, n: nat) returns (plan: seq<seq<Packet>>)
    requires InputOk(input) && n <= NR_STOCKS
    ensures |plan| == n
    ensures forall s {:trigger StockPlan(input, t, s, plan[s])} :: 0 <= s < n ==> StockPlan(input, t, s, plan[s])
  {
    if n == 0 {
      plan := [];
    } else {
      var part := StockPlansExist(input, t, n - 1);
      var packets := StockPlanExists(input, t, n - 1);
      plan := part + [packets];
      forall s | 0 <= s < n ensures StockPlan(input, t, s, plan[s]) {
        assert s < n - 1 ==> StockPlan(input, t, s, part[s]);
      }
    }
  }

  lemma PlanExists(input: Input, t: Trader) returns (plan: seq<seq<Packet>>)
    requires InputOk(input)
    ensures IsPlan(input, t, plan)
  {
    plan := StockPlansExist(input, t, NR_STOCKS);
    forall s | 0 <= s < NR_STOCKS ensures Framed(s, plan[s]) && Carries(Pos(input, t, s), Raw(input, t), plan[s]) {
      assert StockPlan(input, t, s, plan[s]);
    }
  }

  lemma StockPlanExists(input: Input, t: Trader, s: nat) returns (packets: seq<Packet>)
    requires InputOk(input) && s < NR_STOCKS
    ensures StockPlan(input, t, s, packets)
  {
    StockIsOk(input, s);
    packets := OnePacket(s, EncodeAll(0, OwnOrders(Pos(input, t, s), Raw(input, t))));
  }

  lemma SetupExists(input: Input) returns (setup: Setup)
    requires InputOk(input)
    ensures IsSetup(input, setup)
  {
    var orders := OrderLists(input, NR_STOCKS);
    setup := Setup(input.prevClose, orders,
                   seq(NR_STOCKS, s requires 0 <= s => SortedFutures(FuturesOf(input.hooks, s))),
                   seq(NR_STOCKS, s requires 0 <= s => SortedPromises(PromisesOf(input.hooks, s))),
                   seq(|input.hooks|, c requires 0 <= c < |input.hooks| => input.hooks[c].targetStk));
  }

  lemma {:induction false} OrderLists(input: Input, n: nat) returns (orders: seq<seq<Order>>)
    requires InputOk(input) && n <= NR_STOCKS
    ensures |orders| == n
    ensures forall s {:trigger orders[s]} :: 0 <= s < n ==> IsOrderList(input, s, orders[s])
  {
    if n == 0 {
      orders := [];
    } else {
      var part := OrderLists(input, n - 1);
      var last := OrderListExists(input, n - 1);
      orders := part + [last];
    }
  }

  lemma OrderListExists(input: Input, s: nat) returns (orders: seq<Order>)
    requires InputOk(input) && s < NR_STOCKS
    ensures IsOrderList(input, s, orders)
  {
    StockIsOk(input, s);
    orders := CanonAll(AllOrders(Pos(input, One, s), input.raw1, Pos(input, Two, s), input.raw2));
  }

  // ---------------------------------------------------------------------------------
  // Steps of the whole system
  // ---------------------------------------------------------------------------------

  // net1 carries trader One's packets, net2 those of trader Two; trace1 and trace2 are what the
  // traders have computed.
  datatype World = World(net1: T.Net, net2: T.Net, trace1: Trace, trace2: Trace)

  function NetOf(w: World, t: Trader): T.Net {
    if t == One then w.net1 else w.net2
  }

  function TraceOf(w: World, t: Trader): Trace {
    if t == One then w.trace1 else w.trace2
  }

  function WithNet(w: World, t: Trader, net: T.Net): World {
    if t == One then World(net, w.net2, w.trace1, w.trace2) else World(w.net1, net, w.trace1, w.trace2)
  }

  function WithTrace(w: World, t: Trader, tr: Trace): World {
    if t == One then World(w.net1, w.net2, tr, w.trace2) else World(w.net1, w.net2, w.trace1, tr)
  }

  function Row<A>(rows: seq<seq<A>>, s: nat): seq<A> {
    if s < |rows| then rows[s] else []
  }

  // The orders of stock s that a trader's merger can deliver: its own packets come through its
  // own queue, the other's as far as they have been received.
  function Delivered(mask: seq<int>, own: seq<Packet>, received: seq<bool>): seq<Order> {
    Merge(mask, DecodeAll(0, Payload(own)), DecodeAll(0, received))
  }

  function Available(c: Case, w: World, t: Trader, s: nat): seq<Order> {
    Delivered(Pos(c.input, t, s), Row(Plan(c, t), s), T.HandedOut(NetOf(w, Other(t)), s))
  }

  // A stock's thread can take its next order: the merger delivers it and its hook is resolved.
  ghost predicate CanProcess(setup: Setup, tr: Trace, s: nat, available: seq<Order>) {
    && SetupOk(setup) && Shaped(setup, tr)
    && s < |tr| && |tr[s]| <= |available|
    && PassAt(setup, tr, s, |tr[s]| - 1).Some?
  }

  function Processed(setup: Setup, tr: Trace, s: nat, available: seq<Order>): Trace
    requires CanProcess(setup, tr, s, available)
  {
    var k := |tr[s]| - 1;
    tr[s := tr[s] + [NextStock(tr[s][k], available[k], k + 1, PassAt(setup, tr, s, k).value)]]
  }

  datatype Action = NetStep(t: Trader, step: T.Step) | ProcessNext(t: Trader, s: nat)

  // The thread starts merging once it has encoded and flushed all of its own part; the empty packet
  // of the encoder's destructor may still be to come.
  predicate Encoded(net: T.Net, s: nat) {
    && s < |net.encoded| && s < |net.plan| && net.encoded[s] <= |net.plan[s]|
    && Payload(net.plan[s][..net.encoded[s]]) == Payload(net.plan[s])
  }

  ghost predicate CanAct(c: Case, w: World, a: Action) {
    match a
    case NetStep(t, step) => T.CanStep(NetOf(w, t), step)
    case ProcessNext(t, s) => Encoded(NetOf(w, t), s) && CanProcess(c.setup, TraceOf(w, t), s, Available(c, w, t, s))
  }

  function Act(c: Case, w: World, a: Action): World
    requires CanAct(c, w, a)
  {
    match a
    case NetStep(t, step) => WithNet(w, t, T.Do(NetOf(w, t), step))
    case ProcessNext(t, s) => WithTrace(w, t, Processed(c.setup, TraceOf(w, t), s, Available(c, w, t, s)))
  }

  function StartWorld(c: Case): World
    requires |c.setup.orders| <= |c.setup.prevClose| && |c.setup.orders| <= |c.setup.futures|
  {
    World(T.Idle(c.plan1), T.Idle(c.plan2),
          StartTrace(c.setup, |c.setup.orders|), StartTrace(c.setup, |c.setup.orders|))
  }

  // w can be reached by these actions, in this order.
  ghost predicate WorldRun(c: Case, actions: seq<Action>, w: World)
    decreases |actions|
  {
    if actions == [] then
      |c.setup.orders| <= |c.setup.prevClose| && |c.setup.orders| <= |c.setup.futures| && w == StartWorld(c)
    else
      var n := |actions| - 1;
      exists before: World :: ActsTo(c, before, actions[n], w) && WorldRun(c, actions[..n], before)
  }

  ghost predicate ActsTo(c: Case, before: World, a: Action, w: World) {
    CanAct(c, before, a) && w == Act(c, before, a)
  }

  // ---------------------------------------------------------------------------------
  // The order stream both traders see
  // ---------------------------------------------------------------------------------

  // A trader's merge of its own stream with any part of the other's: an initial part of the
  // stock's orders by id, up to Order::operator==, and all of them if the other's is complete.
  lemma DeliveredIsPrefix(input: Input, t: Trader, s: nat, own: seq<Packet>, received: seq<bool>)
    requires StockOk(Pos(input, One, s), input.raw1, Pos(input, Two, s), input.raw2)
    requires Payload(own) == EncodeAll(0, OwnOrders(Pos(input, t, s), Raw(input, t)))
    requires received <= EncodeAll(0, OwnOrders(Pos(input, Other(t), s), Raw(input, Other(t))))
    ensures var all := CanonAll(AllOrders(Pos(input, One, s), input.raw1, Pos(input, Two, s), input.raw2));
            && Delivered(Pos(input, t, s), own, received) <= all
            && (received == EncodeAll(0, OwnOrders(Pos(input, Other(t), s), Raw(input, Other(t))))
                ==> Delivered(Pos(input, t, s), own, received) == all)
  {
    AllOrdersSwap(Pos(input, One, s), input.raw1, Pos(input, Two, s), input.raw2);
    MergedStream(Pos(input, t, s), Raw(input, t), Pos(input, Other(t), s), Raw(input, Other(t)), Payload(own), received);
  }

  lemma ReceivedIsPrefix(net: T.Net, s: nat)
    requires T.Safe(net) && s < |net.plan|
    ensures T.HandedOut(net, s) <= Payload(net.plan[s])
    ensures net.readers[s].seqNo == |net.plan[s]| ==> T.HandedOut(net, s) == Payload(net.plan[s])
  {
    assert T.ReaderOk(net, s) by {
      assert net.readers[s] == net.readers[s];
    }
    var packets, n := net.plan[s], net.readers[s].seqNo;
    assert packets == packets[..n] + packets[n..];
    PayloadAppend(packets[..n], packets[n..]);
    if n == |packets| {
      assert packets[..n] == packets;
    }
  }

  ghost predicate NetOk(c: Case, t: Trader, net: T.Net) {
    T.Safe(net) && net.plan == Plan(c, t)
  }

  lemma AvailableIsPrefix(c: Case, w: World, t: Trader, s: nat)
    requires CaseOk(c) && NetOk(c, Other(t), NetOf(w, Other(t))) && s < NR_STOCKS
    ensures Available(c, w, t, s) <= c.setup.orders[s]
    ensures NetOf(w, Other(t)).readers[s].seqNo == |Plan(c, Other(t))[s]| ==> Available(c, w, t, s) == c.setup.orders[s]
  {
    var input := c.input;
    ReceivedIsPrefix(NetOf(w, Other(t)), s);
    assert IsOrderList(input, s, c.setup.orders[s]);
    assert Carries(Pos(input, One, s), input.raw1, c.plan1[s]);
    assert Carries(Pos(input, Two, s), input.raw2, c.plan2[s]);
    DeliveredIsPrefix(input, t, s, Plan(c, t)[s], T.HandedOut(NetOf(w, Other(t)), s));
  }

  // ---------------------------------------------------------------------------------
  // What every action keeps
  // ---------------------------------------------------------------------------------

  ghost predicate TraceOk(setup: Setup, tr: Trace) {
    SetupOk(setup) && Settled(setup, tr) && Reachable(setup, tr)
  }

  ghost predicate WorldOk(c: Case, w: World) {
    match w
    case World(net1, net2, trace1, trace2) =>
      NetOk(c, One, net1) && NetOk(c, Two, net2) && TraceOk(c.setup, trace1) && TraceOk(c.setup, trace2)
  }

  // Processing what the merger delivers is a step of the schedule, on the order both traders
  // agree on.
  lemma ProcessedIsStep(setup: Setup, tr: Trace, s: nat, available: seq<Order>)
    requires TraceOk(setup, tr) && CanProcess(setup, tr, s, available)
    requires available <= setup.orders[s]
    ensures Enabled(setup, tr, s) && Processed(setup, tr, s, available) == Step(setup, tr, s)
    ensures TraceOk(setup, Processed(setup, tr, s, available))
  {
    var k := |tr[s]| - 1;
    assert available[k] == setup.orders[s][k];
    StepSettled(setup, tr, s);
    var schedule :| Reaches(setup, schedule, tr);
    ExtendSchedule(setup, schedule, tr, s);
  }

  lemma ActKeepsWorld(c: Case, w: World, a: Action)
    requires CaseOk(c) && WorldOk(c, w) && CanAct(c, w, a)
    ensures WorldOk(c, Act(c, w, a))
  {
    match a
    case NetStep(t, step) => T.StepSafe(NetOf(w, t), step);
    case ProcessNext(t, s) =>
      AvailableIsPrefix(c, w, t, s);
      ProcessedIsStep(c.setup, TraceOf(w, t), s, Available(c, w, t, s));
  }

  lemma StartIsOk(c: Case)
    requires CaseOk(c)
    ensures |c.setup.orders| <= |c.setup.prevClose| && |c.setup.orders| <= |c.setup.futures|
    ensures WorldOk(c, StartWorld(c))
  {
    SetupIsOk(c.input, c.setup);
    T.IdleSafe(c.plan1);
    T.IdleSafe(c.plan2);
    var start := StartTrace(c.setup, |c.setup.orders|);
    assert Reaches(c.setup, [], start);
    ReachesSettled(c.setup, [], start);
  }

  lemma {:induction false} WorldRunOk(c: Case, actions: seq<Action>, w: World)
    requires CaseOk(c) && WorldRun(c, actions, w)
    ensures WorldOk(c, w)
    decreases |actions|
  {
    if actions == [] {
      StartIsOk(c);
    } else {
      var n := |actions| - 1;
      var before: World :| ActsTo(c, before, actions[n], w) && WorldRun(c, actions[..n], before);
      WorldRunOk(c, actions[..n], before);
      ActKeepsWorld(c, before, actions[n]);
    }
  }

  // ---------------------------------------------------------------------------------
  // Main results
  // ---------------------------------------------------------------------------------

  // The same files; the packets may be cut differently.
  predicate SameFiles(c: Case, d: Case) {
    c.input == d.input
  }

  // The files determine what the engines run on.
  lemma SetupIsUnique(input: Input, a: Setup, b: Setup)
    requires IsSetup(input, a) && IsSetup(input, b)
    ensures a == b
  {
    forall s | 0 <= s < NR_STOCKS ensures a.orders[s] == b.orders[s] {
      assert IsOrderList(input, s, a.orders[s]) && IsOrderList(input, s, b.orders[s]);
    }
    assert a.orders == b.orders;
    assert a.futures == b.futures;
    assert a.promises == b.promises;
    assert a.target == b.target;
  }

  // Take any two runs on the same files - with any packet sizes, any network behaviour, any
  // interleaving of threads - and either trader of each.  For every stock their trade logs agree
  // as far as both go, and after equally many orders books, totals and logs are the same.
  lemma TradersAgree(c: Case, actionsC: seq<Action>, w: World, t: Trader,
                     d: Case, actionsD: seq<Action>, v: World, u: Trader, s: nat)
    requires CaseOk(c) && CaseOk(d) && SameFiles(c, d) && s < NR_STOCKS
    requires WorldRun(c, actionsC, w) && WorldRun(d, actionsD, v)
    ensures var a, b := TraceOf(w, t), TraceOf(v, u);
            && |a| == |b| == NR_STOCKS && a[s] != [] && b[s] != []
            && (StockLog(a, s) <= StockLog(b, s) || StockLog(b, s) <= StockLog(a, s))
            && (|a[s]| == |b[s]| ==> a[s] == b[s])
  {
    SetupIsUnique(c.input, c.setup, d.setup);
    WorldRunOk(c, actionsC, w);
    WorldRunOk(d, actionsD, v);
    TradeLogsAgree(c.setup, TraceOf(w, t), TraceOf(v, u), s);
  }

  // Nothing but failing writes can still happen.
  ghost predicate AtRest(c: Case, w: World) {
    && T.Quiet(w.net1) && T.Quiet(w.net2)
    && forall t, s: nat :: !CanAct(c, w, ProcessNext(t, s))
  }

  lemma AllAvailable(c: Case, w: World, t: Trader, s: nat)
    requires CaseOk(c) && s < NR_STOCKS && NetOk(c, t, NetOf(w, t)) && NetOk(c, Other(t), NetOf(w, Other(t)))
    requires T.Quiet(NetOf(w, t)) && T.Quiet(NetOf(w, Other(t)))
    ensures Encoded(NetOf(w, t), s) && Available(c, w, t, s) == c.setup.orders[s]
  {
    T.QuietIsComplete(NetOf(w, t), s);
    T.QuietIsComplete(NetOf(w, Other(t)), s);
    assert NetOf(w, t).plan[s][..NetOf(w, t).encoded[s]] == NetOf(w, t).plan[s];
    AvailableIsPrefix(c, w, t, s);
  }

  lemma StockAtRest(c: Case, w: World, t: Trader, s: nat)
    requires CaseOk(c) && WorldOk(c, w) && AtRest(c, w) && s < NR_STOCKS
    ensures !CanProcess(c.setup, TraceOf(w, t), s, c.setup.orders[s])
  {
    AllAvailable(c, w, t, s);
    assert !CanAct(c, w, ProcessNext(t, s));
  }

  // A system at rest is one in which no schedule of the engines could go on either.
  lemma RestIsTerminal(c: Case, w: World, t: Trader)
    requires CaseOk(c) && WorldOk(c, w) && AtRest(c, w)
    ensures TraceOk(c.setup, TraceOf(w, t)) && Terminal(c.setup, TraceOf(w, t))
  {
    var tr := TraceOf(w, t);
    forall s | 0 <= s < |tr| ensures !Enabled(c.setup, tr, s) {
      StockAtRest(c, w, t, s);
    }
  }

  // Once two runs on the same files have come to rest, all their traders have computed exactly
  // the same.
  lemma RestingTradersAgree(c: Case, actionsC: seq<Action>, w: World, t: Trader,
                            d: Case, actionsD: seq<Action>, v: World, u: Trader)
    requires CaseOk(c) && CaseOk(d) && SameFiles(c, d)
    requires WorldRun(c, actionsC, w) && WorldRun(d, actionsD, v)
    requires AtRest(c, w) && AtRest(d, v)
    ensures TraceOf(w, t) == TraceOf(v, u)
  {
    SetupIsUnique(c.input, c.setup, d.setup);
    WorldRunOk(c, actionsC, w);
    WorldRunOk(d, actionsD, v);
    RestIsTerminal(c, w, t);
    RestIsTerminal(d, v, u);
    ScheduleIndependence(c.setup, TraceOf(w, t), TraceOf(v, u));
  }

  // And if the hooks leave any schedule a way to the end, resting means that every stock of
  // every trader has processed all its orders.
  lemma RestingIsFinished(c: Case, actions: seq<Action>, w: World, t: Trader, done: Trace)
    requires CaseOk(c) && WorldRun(c, actions, w) && AtRest(c, w)
    requires SetupOk(c.setup) && Reachable(c.setup, done) && Finished(c.setup, done)
    ensures Finished(c.setup, TraceOf(w, t))
  {
    WorldRunOk(c, actions, w);
    RestIsTerminal(c, w, t);
    if !Finished(c.setup, TraceOf(w, t)) {
      NoDeadlock(c.setup, done, TraceOf(w, t));
    }
  }

  lemma {:induction false} CanonAllAt(orders: seq<Order>)
    ensures |CanonAll(orders)| == |orders|
    ensures forall i :: 0 <= i < |orders| ==> CanonAll(orders)[i] == Canon(orders[i])
  {
    if orders != [] {
      CanonAllAt(orders[1..]);
    }
  }

  lemma {:induction false} AllOrdersAt(pos1: seq<int>, raw1: seq<Order>, pos2: seq<int>, raw2: seq<Order>)
    requires PositionsOk(pos1, raw1) && PositionsOk(pos2, raw2) && Complementary(pos1, pos2)
    ensures |AllOrders(pos1, raw1, pos2, raw2)| == |pos1|
    ensures forall i :: 0 <= i < |pos1| ==>
              AllOrders(pos1, raw1, pos2, raw2)[i] == if pos1[i] != -1 then raw1[pos1[i]] else raw2[pos2[i]]
  {
    if pos1 != [] {
      var n := |pos1| - 1;
      AllOrdersAt(pos1[..n], raw1, pos2[..n], raw2);
    }
  }

  // The engines see each raw order at its own id, as it comes off the wire.
  lemma OrdersArrive(input: Input, t: Trader, s: nat, orders: seq<Order>)
    requires InputOk(input) && s < NR_STOCKS && IsOrderList(input, s, orders)
    ensures |orders| == input.maxId
    ensures forall k :: 0 <= k < |Ids(input, t)| && StockOf(k, input.plane) == s ==>
              1 <= Ids(input, t)[k] <= |orders| && k < |Raw(input, t)|
              && orders[Ids(input, t)[k] - 1] == Canon(Raw(input, t)[k])
  {
    OrderCount(input, s);
    forall k | 0 <= k < |Ids(input, t)| && StockOf(k, input.plane) == s
      ensures 1 <= Ids(input, t)[k] <= |orders| && k < |Raw(input, t)|
      ensures orders[Ids(input, t)[k] - 1] == Canon(Raw(input, t)[k])
    {
      OwnCell(input, t, s, k);
      OrderArrives(input, t, s, k, orders);
    }
  }

  lemma OrderCount(input: Input, s: nat)
    requires input.plane > 0 && StockOk(Pos(input, One, s), input.raw1, Pos(input, Two, s), input.raw2)
    ensures |CanonAll(AllOrders(Pos(input, One, s), input.raw1, Pos(input, Two, s), input.raw2))| == input.maxId
  {
    AllOrdersAt(Pos(input, One, s), input.raw1, Pos(input, Two, s), input.raw2);
    CanonAllAt(AllOrders(Pos(input, One, s), input.raw1, Pos(input, Two, s), input.raw2));
    StockRowAt(input.ids1, input.plane, s, input.maxId);
  }

  lemma OrderArrives(input: Input, t: Trader, s: nat, k: nat, orders: seq<Order>)
    requires IsOrderList(input, s, orders) && |orders| == input.maxId == |Pos(input, t, s)|
    requires k < |Ids(input, t)| && 1 <= Ids(input, t)[k] <= input.maxId && Pos(input, t, s)[Ids(input, t)[k] - 1] == k
    ensures 1 <= Ids(input, t)[k] <= |orders| && k < |Raw(input, t)|
    ensures orders[Ids(input, t)[k] - 1] == Canon(Raw(input, t)[k])
  {
    OrderSurvives(input, t, s, Ids(input, t)[k] - 1);
  }

  // So side, type, limit price and the low ten bits of the volume are those of the file, and the
  // order is the same up to Order::operator== exactly if its volume fits the wire.
  lemma OrdersSurvive(input: Input, t: Trader, s: nat, orders: seq<Order>)
    requires InputOk(input) && s < NR_STOCKS && IsOrderList(input, s, orders)
    ensures |orders| == input.maxId
    ensures forall k :: 0 <= k < |Ids(input, t)| && StockOf(k, input.plane) == s ==>
              1 <= Ids(input, t)[k] <= |orders| && k < |Raw(input, t)|
              && Survives(orders[Ids(input, t)[k] - 1], Raw(input, t)[k])
  {
    OrdersArrive(input, t, s, orders);
    forall r: Order ensures Survives(Canon(r), r) {
      CanonIsSame(r);
    }
  }

  predicate Survives(o: Order, r: Order) {
    && o.dir == r.dir && o.typ == r.typ && (r.typ == Limit ==> o.price == r.price) && o.volume == r.volume % 1024
    && (SameOrder(o, r) <==> r.volume <= 1023)
  }

  lemma OrderSurvives(input: Input, t: Trader, s: nat, i: nat)
    requires StockOk(Pos(input, One, s), input.raw1, Pos(input, Two, s), input.raw2)
    requires i < |Pos(input, t, s)| && Pos(input, t, s)[i] != -1
    ensures var orders := CanonAll(AllOrders(Pos(input, One, s), input.raw1, Pos(input, Two, s), input.raw2));
            var k := Pos(input, t, s)[i];
            && |orders| == |Pos(input, t, s)| && 0 <= k < |Raw(input, t)| && orders[i] == Canon(Raw(input, t)[k])
  {
    OrderAtItsId(input, t, s, i);
    CanonAllAt(AllOrders(Pos(input, One, s), input.raw1, Pos(input, Two, s), input.raw2));
  }

  lemma OrderAtItsId(input: Input, t: Trader, s: nat, i: nat)
    requires StockOk(Pos(input, One, s), input.raw1, Pos(input, Two, s), input.raw2)
    requires i < |Pos(input, t, s)| && Pos(input, t, s)[i] != -1
    ensures var all := AllOrders(Pos(input, One, s), input.raw1, Pos(input, Two, s), input.raw2);
            && |all| == |Pos(input, t, s)| && 0 <= Pos(input, t, s)[i] < |Raw(input, t)|
            && all[i] == Raw(input, t)[Pos(input, t, s)[i]]
  {
    if t == One {
      AllOrdersAtOne(Pos(input, One, s), input.raw1, Pos(input, Two, s), input.raw2, i);
    } else {
      AllOrdersSwap(Pos(input, One, s), input.raw1, Pos(input, Two, s), input.raw2);
      AllOrdersAtOne(Pos(input, Two, s), input.raw2, Pos(input, One, s), input.raw1, i);
    }
  }

  lemma AllOrdersAtOne(pos1: seq<int>, raw1: seq<Order>, pos2: seq<int>, raw2: seq<Order>, i: nat)
    requires PositionsOk(pos1, raw1) && PositionsOk(pos2, raw2) && Complementary(pos1, pos2)
    requires i < |pos1| && pos1[i] != -1
    ensures 0 <= pos1[i] < |raw1| && |AllOrders(pos1, raw1, pos2, raw2)| == |pos1|
    ensures AllOrders(pos1, raw1, pos2, raw2)[i] == raw1[pos1[i]]
  {
    AllOrdersAt(pos1, raw1, pos2, raw2);
  }

  lemma OwnCell(input: Input, t: Trader, s: nat, k: nat)
    requires InputOk(input) && k < |Ids(input, t)| && StockOf(k, input.plane) == s
    ensures |Pos(input, t, s)| == input.maxId
    ensures 1 <= Ids(input, t)[k] <= input.maxId && Pos(input, t, s)[Ids(input, t)[k] - 1] == k
  {
    StockRowAt(Ids(input, t), input.plane, s, input.maxId);
    ScatterInverts(Ids(input, t), input.plane);
  }

  // In every state a stock goes through, the book invariant holds and the trade file has needed
  // no more slots than orders.
  lemma {:induction false} EnginesStaySound(setup: Setup, tr: Trace, s: nat, k: nat)
    requires SetupOk(setup) && Settled(setup, tr) && s < |tr| && k < |tr[s]|
    requires PrevCloseFits(setup.prevClose[s])
    requires forall i :: 0 <= i < |setup.orders[s]| ==> OrderOk(setup.orders[s][i])
    ensures Inv(tr[s][k].engine) && tr[s][k].engine.orderId == k
    ensures |tr[s][k].engine.log| <= k
  {
    if k == 0 {
      InitInv(setup.prevClose[s]);
    } else {
      EnginesStaySound(setup, tr, s, k - 1);
      assert Justified(setup, tr, s, k - 1);
      var st, pass := tr[s][k - 1].engine, PassAt(setup, tr, s, k - 1).value;
      ProcessInv(st, setup.orders[s][k - 1], pass);
      ProcessContinues(st, setup.orders[s][k - 1], pass);
    }
  }

  // So in every state of every run of the whole system, at both traders.
  lemma TradersStaySound(c: Case, actions: seq<Action>, w: World, t: Trader, s: nat, k: nat)
    requires CaseOk(c) && WorldRun(c, actions, w) && HasState(c, TraceOf(w, t), s, k)
    requires PrevCloseFits(c.setup.prevClose[s])
    requires forall i :: 0 <= i < |c.setup.orders[s]| ==> OrderOk(c.setup.orders[s][i])
    ensures var engine := TraceOf(w, t)[s][k].engine;
            Inv(engine) && engine.orderId == k && |engine.log| <= k
  {
    TracesAreOk(c, actions, w, t);
    EnginesStaySound(c.setup, TraceOf(w, t), s, k);
  }

  predicate HasState(c: Case, tr: Trace, s: nat, k: nat) {
    s < |tr| && s < |c.setup.prevClose| && s < |c.setup.orders| && k < |tr[s]|
  }

  lemma TracesAreOk(c: Case, actions: seq<Action>, w: World, t: Trader)
    requires CaseOk(c) && WorldRun(c, actions, w)
    ensures TraceOk(c.setup, TraceOf(w, t))
  {
    WorldRunOk(c, actions, w);
  }
}
