// The Bid and Ask branches are one algorithm: swapping the sides and reflecting prices in the
// middle of the band maps every run to its mirror image.
module Mirror {
  import opened Types
  import opened Book
  import opened BestFive
  import opened Engine

  // `c` is minPrice + maxPrice throughout.
  function Flip(c: nat, price: nat): nat {
    if price <= c then c - price else 0
  }

  function FlipOrder(c: nat, x: ComOrder): ComOrder {
    ComOrder(x.id, Flip(c, x.price), x.volume)
  }

  function FlipQueue(c: nat, q: seq<ComOrder>): seq<ComOrder> {
    if q == [] then [] else [FlipOrder(c, q[0])] + FlipQueue(c, q[1..])
  }

  function FlipFills(c: nat, fills: seq<Fill>): seq<Fill> {
    if fills == [] then []
    else [Fill(fills[0].id, Flip(c, fills[0].price), fills[0].volume)] + FlipFills(c, fills[1..])
  }

  function FlipLog(c: nat, log: seq<Trade>): seq<Trade> {
    if log == [] then []
    else
      [Trade(log[0].askId, log[0].bidId, Flip(c, log[0].price), log[0].volume)] + FlipLog(c, log[1..])
  }

  function FlipLimit(c: nat, limit: Option<nat>): Option<nat> {
    match limit
    case None => None
    case Some(p) => Some(Flip(c, p))
  }

  function FlipState(st: State): State {
    var c := st.minPrice + st.maxPrice;
    State(st.minPrice, st.maxPrice, FlipQueue(c, st.sell), FlipQueue(c, st.buy),
          st.sellTotal, st.buyTotal, st.orderId, FlipLog(c, st.log))
  }

  // An incoming order's mirror image; a limit outside the band stays outside.
  function FlipIncoming(lo: nat, hi: nat, o: Order): Order
    requires hi < 0x8000_0000
  {
    Order(Opposite(o.dir), o.typ, if lo <= o.price <= hi then lo + hi - o.price else o.price, o.volume)
  }

  ghost predicate PricesWithin(q: seq<ComOrder>, c: nat) {
    forall k {:trigger q[k]} :: 0 <= k < |q| ==> q[k].price <= c
  }

  lemma {:induction false} FlipAt(c: nat, q: seq<ComOrder>)
    ensures |FlipQueue(c, q)| == |q|
    ensures forall k :: 0 <= k < |q| ==> FlipQueue(c, q)[k] == FlipOrder(c, q[k])
    ensures Total(FlipQueue(c, q)) == Total(q)
  {
    if q != [] {
      FlipAt(c, q[1..]);
    }
  }

  lemma {:induction false} FlipLogAppend(c: nat, a: seq<Trade>, b: seq<Trade>)
    ensures FlipLog(c, a + b) == FlipLog(c, a) + FlipLog(c, b)
  {
    if a == [] {
      assert a + b == b;
    } else {
      assert (a + b)[1..] == a[1..] + b;
      FlipLogAppend(c, a[1..], b);
    }
  }

  lemma {:induction false} FlipTrades(c: nat, dir: Direction, id: nat, fills: seq<Fill>)
    ensures FlipLog(c, Trades(dir, id, fills)) == Trades(Opposite(dir), id, FlipFills(c, fills))
  {
    if fills != [] {
      FlipTrades(c, dir, id, fills[1..]);
    }
  }

  lemma FlipReaches(c: nat, dir: Direction, price: nat, limit: Option<nat>)
    requires price <= c && (limit.Some? ==> limit.value <= c)
    ensures Reaches(Opposite(dir), Flip(c, price), FlipLimit(c, limit)) <==> Reaches(dir, price, limit)
  {
  }

  lemma FlipPartial(c: nat, dir: Direction, q: seq<ComOrder>, volume: nat, limit: Option<nat>)
    requires q != [] && 0 < volume < q[0].volume && Reaches(dir, q[0].price, limit)
    requires Reaches(Opposite(dir), Flip(c, q[0].price), FlipLimit(c, limit))
    ensures var m := Match(dir, q, volume, limit);
            Match(Opposite(dir), FlipQueue(c, q), volume, FlipLimit(c, limit))
            == FlipSweep(c, m)
  {
    FlipCons(c, q[0], q[1..]);
    FlipCons(c, q[0].(volume := q[0].volume - volume), q[1..]);
    var f := Fill(q[0].id, q[0].price, volume);
    assert [f][1..] == [] && q == [q[0]] + q[1..];
    assert FlipFills(c, [f]) == [Fill(f.id, Flip(c, f.price), f.volume)];
  }

  lemma FlipCons(c: nat, x: ComOrder, q: seq<ComOrder>)
    ensures FlipQueue(c, [x] + q) == [FlipOrder(c, x)] + FlipQueue(c, q)
    ensures FlipQueue(c, [x] + q)[1..] == FlipQueue(c, q)
  {
    assert ([x] + q)[1..] == q;
  }

  lemma {:induction false} FlipMatch(c: nat, dir: Direction, q: seq<ComOrder>, volume: nat, limit: Option<nat>)
    requires PricesWithin(q, c) && (limit.Some? ==> limit.value <= c)
    ensures var m := Match(dir, q, volume, limit);
            Match(Opposite(dir), FlipQueue(c, q), volume, FlipLimit(c, limit))
            == FlipSweep(c, m)
  {
    if q != [] && volume != 0 {
      FlipReaches(c, dir, q[0].price, limit);
      if Reaches(dir, q[0].price, limit) {
        if q[0].volume <= volume {
          assert PricesWithin(q[1..], c);
          FlipMatch(c, dir, q[1..], volume - q[0].volume, limit);
          var m := Match(dir, q, volume, limit);
          assert FlipQueue(c, q)[1..] == FlipQueue(c, q[1..]);
          assert m.fills[1..] == Match(dir, q[1..], volume - q[0].volume, limit).fills;
        } else {
          FlipPartial(c, dir, q, volume, limit);
        }
      }
    }
  }

  lemma {:induction false} FlipInsert(c: nat, dir: Direction, q: seq<ComOrder>, x: ComOrder)
    requires PricesWithin(q, c) && x.price <= c
    ensures Insert(Opposite(dir), FlipQueue(c, q), FlipOrder(c, x)) == FlipQueue(c, Insert(dir, q, x))
  {
    if q == [] {
      assert FlipQueue(c, [x]) == [FlipOrder(c, x)] + FlipQueue(c, [x][1..]);
    } else if Before(dir, x, q[0]) {
      assert ([x] + q)[1..] == q;
    } else {
      assert PricesWithin(q[1..], c);
      FlipInsert(c, dir, q[1..], x);
      assert FlipQueue(c, q)[1..] == FlipQueue(c, q[1..]);
      assert Insert(dir, q, x)[1..] == Insert(dir, q[1..], x);
    }
  }

  lemma {:induction false} FlipLevels(c: nat, q: seq<ComOrder>)
    requires PricesWithin(q, c)
    ensures |Levels(FlipQueue(c, q))| == |Levels(q)|
    ensures forall k :: 0 <= k < |Levels(q)| ==>
              Levels(q)[k] <= c && Levels(FlipQueue(c, q))[k] == Flip(c, Levels(q)[k])
    ensures q != [] ==> |Levels(q)| > 0 && Levels(q)[0] == q[0].price
  {
    if q != [] {
      assert PricesWithin(q[1..], c);
      FlipLevels(c, q[1..]);
      assert FlipQueue(c, q)[1..] == FlipQueue(c, q[1..]);
    }
  }

  lemma InvPrices(st: State, dir: Direction)
    requires Inv(st)
    ensures PricesWithin(Queue(st, dir), st.minPrice + st.maxPrice)
  {
    var q := Queue(st, dir);
    forall k | 0 <= k < |q| ensures q[k].price <= st.minPrice + st.maxPrice {
      assert OrderFits(q[k], st.minPrice, st.maxPrice, st.orderId);
    }
  }

  lemma FlipSwept(st: State, dir: Direction, volume: nat, limit: Option<nat>)
    requires Inv(st) && (limit.Some? ==> limit.value <= st.minPrice + st.maxPrice)
    ensures var opp, c := Opposite(dir), st.minPrice + st.maxPrice;
            var m := Match(opp, Queue(st, opp), volume, limit);
            var n := Match(dir, FlipQueue(c, Queue(st, opp)), volume, FlipLimit(c, limit));
            && n == FlipSweep(c, m)
            && Swept(FlipState(st), opp, st.orderId, volume, n) == FlipState(Swept(st, dir, st.orderId, volume, m))
  {
    var opp, c := Opposite(dir), st.minPrice + st.maxPrice;
    InvPrices(st, opp);
    FlipMatch(c, opp, Queue(st, opp), volume, limit);
    FlipRecord(st, dir, volume, Match(opp, Queue(st, opp), volume, limit));
  }

  function FlipSweep(c: nat, m: Sweep): Sweep {
    Sweep(FlipFills(c, m.fills), FlipQueue(c, m.rest), m.left)
  }

  lemma FlipRecord(st: State, dir: Direction, volume: nat, m: Sweep)
    ensures Swept(FlipState(st), Opposite(dir), st.orderId, volume, FlipSweep(st.minPrice + st.maxPrice, m))
         == FlipState(Swept(st, dir, st.orderId, volume, m))
  {
    var c := st.minPrice + st.maxPrice;
    FlipTrades(c, dir, st.orderId, m.fills);
    FlipLogAppend(c, st.log, Trades(dir, st.orderId, m.fills));
  }

  lemma FlipRest(st: State, dir: Direction, price: nat, volume: nat)
    requires Inv(st) && price <= st.minPrice + st.maxPrice
    ensures Rest(FlipState(st), Opposite(dir), st.orderId, Flip(st.minPrice + st.maxPrice, price), volume)
         == FlipState(Rest(st, dir, st.orderId, price, volume))
  {
    InvPrices(st, dir);
    FlipInsert(st.minPrice + st.maxPrice, dir, Queue(st, dir), ComOrder(st.orderId, price, volume));
  }

  lemma FlipPostLeft(st: State, dir: Direction, price: nat, left: nat)
    requires Inv(st) && price <= st.minPrice + st.maxPrice
    ensures PostLeft(FlipState(st), Opposite(dir), st.orderId, Flip(st.minPrice + st.maxPrice, price), left)
         == FlipState(PostLeft(st, dir, st.orderId, price, left))
  {
    if left > 0 {
      FlipRest(st, dir, price, left);
    }
  }

  lemma FlipProcessLimit(st: State, dir: Direction, price: nat, volume: nat)
    requires Ready(st) && st.minPrice <= price <= st.maxPrice
    ensures ProcessLimit(FlipState(st), Opposite(dir), st.orderId, Flip(st.minPrice + st.maxPrice, price), volume)
         == FlipState(ProcessLimit(st, dir, st.orderId, price, volume))
  {
    var m := Match(Opposite(dir), Queue(st, Opposite(dir)), volume, Some(price));
    FlipSwept(st, dir, volume, Some(price));
    SweptInv(st, dir, volume, Some(price));
    FlipPostLeft(Swept(st, dir, st.orderId, volume, m), dir, price, m.left);
  }

  lemma FlipBestFive(st: State, dir: Direction, volume: nat)
    requires Ready(st) && Inv(FlipState(st))
    ensures ProcessBestFive(FlipState(st), Opposite(dir), st.orderId, volume)
         == FlipState(ProcessBestFive(st, dir, st.orderId, volume))
  {
    var opp, c := Opposite(dir), st.minPrice + st.maxPrice;
    var q := Queue(st, opp);
    SentinelIsSafe(st, opp);
    BestFiveIsThreshold(opp, q, volume);
    SentinelIsSafe(FlipState(st), dir);
    BestFiveIsThreshold(dir, Queue(FlipState(st), dir), volume);
    InvPrices(st, opp);
    FlipLevels(c, q);
    FlipSwept(st, dir, volume, LevelLimit(q, LEVELS));
  }

  lemma {:induction false} FlipLogVolumes(c: nat, log: seq<Trade>)
    ensures |FlipLog(c, log)| == |log|
    ensures forall k :: 0 <= k < |log| ==> FlipLog(c, log)[k].volume == log[k].volume
  {
    if log != [] {
      FlipLogVolumes(c, log[1..]);
    }
  }

  lemma FlipQueueOk(dir: Direction, q: seq<ComOrder>, lo: nat, hi: nat, lastId: nat)
    requires QueueOk(dir, q, lo, hi, lastId)
    ensures QueueOk(Opposite(dir), FlipQueue(lo + hi, q), lo, hi, lastId)
  {
    FlipAt(lo + hi, q);
    var r := FlipQueue(lo + hi, q);
    forall k | 0 <= k < |r| ensures OrderFits(r[k], lo, hi, lastId) && q[k].price <= lo + hi {
      assert OrderFits(q[k], lo, hi, lastId);
    }
    forall i, j | 0 <= i < j < |r| ensures Before(Opposite(dir), r[i], r[j]) && Differ(r[i], r[j]) {
      assert Before(dir, q[i], q[j]) && Differ(q[i], q[j]);
      assert OrderFits(q[i], lo, hi, lastId) && OrderFits(q[j], lo, hi, lastId);
    }
  }

  // The mirror image of a legal engine is legal.
  lemma FlipInv(st: State)
    requires Inv(st)
    ensures Inv(FlipState(st))
  {
    var c := st.minPrice + st.maxPrice;
    FlipQueueOk(Bid, st.buy, st.minPrice, st.maxPrice, st.orderId);
    FlipQueueOk(Ask, st.sell, st.minPrice, st.maxPrice, st.orderId);
    FlipAt(c, st.buy);
    FlipAt(c, st.sell);
    FlipLogVolumes(c, st.log);
    var f := FlipState(st);
    forall i, j | 0 <= i < |f.buy| && 0 <= j < |f.sell| ensures Differ(f.buy[i], f.sell[j]) {
      assert Differ(st.buy[j], st.sell[i]);
    }
    if st.buy != [] && st.sell != [] {
      assert OrderFits(st.buy[0], st.minPrice, st.maxPrice, st.orderId);
      assert OrderFits(st.sell[0], st.minPrice, st.maxPrice, st.orderId);
    }
  }

  lemma FlipCounterBest(st: State, dir: Direction, volume: nat)
    requires Ready(st)
    ensures ProcessCounterBest(FlipState(st), Opposite(dir), st.orderId, volume)
         == FlipState(ProcessCounterBest(st, dir, st.orderId, volume))
  {
    var q := Queue(st, Opposite(dir));
    if q != [] {
      assert OrderFits(q[0], st.minPrice, st.maxPrice, st.orderId);
      FlipProcessLimit(st, dir, q[0].price, volume);
    }
  }

  lemma FlipClientBest(st: State, dir: Direction, volume: nat)
    requires Ready(st)
    ensures ProcessClientBest(FlipState(st), Opposite(dir), st.orderId, volume)
         == FlipState(ProcessClientBest(st, dir, st.orderId, volume))
  {
    var q := Queue(st, dir);
    if q != [] {
      assert OrderFits(q[0], st.minPrice, st.maxPrice, st.orderId);
      FlipRest(st, dir, q[0].price, volume);
    }
  }

  lemma FlipFak(st: State, dir: Direction, volume: nat)
    requires Ready(st)
    ensures ProcessFak(FlipState(st), Opposite(dir), st.orderId, volume)
         == FlipState(ProcessFak(st, dir, st.orderId, volume))
  {
    FlipSwept(st, dir, volume, None);
  }

  lemma FlipDispatch(st: State, o: Order)
    requires Ready(st) && st.maxPrice < 0x8000_0000
    ensures Dispatch(FlipState(st), FlipIncoming(st.minPrice, st.maxPrice, o)) == FlipState(Dispatch(st, o))
  {
    match o.typ
    case Limit =>
      if st.minPrice <= o.price <= st.maxPrice {
        FlipProcessLimit(st, o.dir, o.price, o.volume);
      }
    case CounterBest => FlipCounterBest(st, o.dir, o.volume);
    case ClientBest => FlipClientBest(st, o.dir, o.volume);
    case BestFive =>
      FlipInv(st);
      FlipBestFive(st, o.dir, o.volume);
    case FAK => FlipFak(st, o.dir, o.volume);
    case FOK => FlipFak(st, o.dir, o.volume);
  }

  function FlipOrders(lo: nat, hi: nat, orders: seq<Order>): seq<Order>
    requires hi < 0x8000_0000
    ensures |FlipOrders(lo, hi, orders)| == |orders|
  {
    if orders == [] then []
    else FlipOrders(lo, hi, orders[..|orders| - 1]) + [FlipIncoming(lo, hi, orders[|orders| - 1])]
  }

  lemma FlipProcess(st: State, o: Order, pass: bool)
    requires Inv(st) && st.maxPrice < 0x8000_0000
    ensures Process(FlipState(st), FlipIncoming(st.minPrice, st.maxPrice, o), pass) == FlipState(Process(st, o, pass))
  {
    assert NextId(FlipState(st)) == FlipState(NextId(st));
    if pass {
      NextIsReady(st);
      FlipDispatch(NextId(st), o);
    }
  }

  // The last order of a mirrored run.
  lemma FlipLast(prevClose: u32, orders: seq<Order>, passes: seq<bool>)
    requires orders != [] && |orders| == |passes| && MaxPrice(prevClose) < 0x8000_0000
    requires var n := |orders| - 1;
             var st := Run(Init(prevClose), orders[..n], passes[..n]);
             && Inv(st) && st.minPrice == MinPrice(prevClose) && st.maxPrice == MaxPrice(prevClose)
             && Run(Init(prevClose), FlipOrders(st.minPrice, st.maxPrice, orders[..n]), passes[..n]) == FlipState(st)
    ensures var st := Run(Init(prevClose), orders, passes);
            && st.minPrice == MinPrice(prevClose) && st.maxPrice == MaxPrice(prevClose)
            && Run(Init(prevClose), FlipOrders(st.minPrice, st.maxPrice, orders), passes) == FlipState(st)
  {
    var n := |orders| - 1;
    var s := Run(Init(prevClose), orders[..n], passes[..n]);
    var mirrored := FlipOrders(s.minPrice, s.maxPrice, orders);
    assert mirrored[..n] == FlipOrders(s.minPrice, s.maxPrice, orders[..n]);
    FlipProcess(s, orders[n], passes[n]);
    ProcessContinues(s, orders[n], passes[n]);
  }

  // Whole runs: the mirrored input gives the mirrored books, totals and trade log.
  lemma {:induction false} MirrorRun(prevClose: u32, orders: seq<Order>, passes: seq<bool>)
    requires PrevCloseFits(prevClose) && |orders| == |passes|
    requires forall k :: 0 <= k < |orders| ==> OrderOk(orders[k])
    ensures MaxPrice(prevClose) < 0x8000_0000
    ensures var mirrored := FlipOrders(MinPrice(prevClose), MaxPrice(prevClose), orders);
            var st := Run(Init(prevClose), orders, passes);
            && Run(Init(prevClose), mirrored, passes) == FlipState(st)
            && st.minPrice == MinPrice(prevClose) && st.maxPrice == MaxPrice(prevClose)
  {
    InitInv(prevClose);
    if orders != [] {
      var n := |orders| - 1;
      MirrorRun(prevClose, orders[..n], passes[..n]);
      RunInv(prevClose, orders[..n], passes[..n]);
      FlipLast(prevClose, orders, passes);
    }
  }
}
