// The rules of the market as a trader would put them: prices, ids and volumes alone, with the
// numbers written out, over every run of the engine.
module MarketRules {
  import opened Types
  import opened Bits
  import opened Book
  import opened BestFive
  import opened Engine
  import opened Ledger
  import opened EngineLaws

  // ---------------------------------------------------------------------------------
  // The books
  // ---------------------------------------------------------------------------------

  // Bids with the higher price first, asks with the lower; at one price, the older order first.
  predicate Ahead(dir: Direction, price: nat, id: nat, price': nat, id': nat) {
    if dir == Bid then price > price' || (price == price' && id < id')
    else price < price' || (price == price' && id < id')
  }

  lemma BeforeIsAhead(dir: Direction, x: ComOrder, y: ComOrder)
    ensures Before(dir, x, y) <==> Ahead(dir, x.price, x.id, y.price, y.id)
  {
  }

  lemma InvBooks(st: State)
    requires Inv(st)
    ensures forall i, j :: 0 <= i < j < |st.buy| ==>
              st.buy[i].price > st.buy[j].price || (st.buy[i].price == st.buy[j].price && st.buy[i].id < st.buy[j].id)
    ensures forall i, j :: 0 <= i < j < |st.sell| ==>
              st.sell[i].price < st.sell[j].price || (st.sell[i].price == st.sell[j].price && st.sell[i].id < st.sell[j].id)
    ensures forall i, j :: 0 <= i < |st.buy| && 0 <= j < |st.sell| ==>
              st.buy[i].price < st.sell[j].price && st.buy[i].id != st.sell[j].id
    ensures forall i :: 0 <= i < |st.buy| ==>
              st.minPrice <= st.buy[i].price <= st.maxPrice && 1 <= st.buy[i].volume <= 1023 && 1 <= st.buy[i].id <= st.orderId
    ensures forall i :: 0 <= i < |st.sell| ==>
              st.minPrice <= st.sell[i].price <= st.maxPrice && 1 <= st.sell[i].volume <= 1023 && 1 <= st.sell[i].id <= st.orderId
  {
    forall i, j | 0 <= i < j < |st.buy| ensures Ahead(Bid, st.buy[i].price, st.buy[i].id, st.buy[j].price, st.buy[j].id) {
      assert Before(Bid, st.buy[i], st.buy[j]);
    }
    forall i, j | 0 <= i < j < |st.sell| ensures Ahead(Ask, st.sell[i].price, st.sell[i].id, st.sell[j].price, st.sell[j].id) {
      assert Before(Ask, st.sell[i], st.sell[j]);
    }
    forall i, j | 0 <= i < |st.buy| && 0 <= j < |st.sell|
      ensures st.buy[i].price < st.sell[j].price && st.buy[i].id != st.sell[j].id
    {
      assert Differ(st.buy[i], st.sell[j]);
      assert i > 0 ==> Before(Bid, st.buy[0], st.buy[i]);
      assert j > 0 ==> Before(Ask, st.sell[0], st.sell[j]);
    }
    forall i | 0 <= i < |st.buy| ensures OrderFits(st.buy[i], st.minPrice, st.maxPrice, st.orderId) {
    }
    forall i | 0 <= i < |st.sell| ensures OrderFits(st.sell[i], st.minPrice, st.maxPrice, st.orderId) {
    }
  }

  // In the books after any run the listing is by price and then by age, every bid is below every
  // ask, no id rests twice, and prices and volumes are in range.
  lemma RunBooks(prevClose: u32, orders: seq<Order>, passes: seq<bool>)
    requires PrevCloseFits(prevClose) && |orders| == |passes|
    requires forall k :: 0 <= k < |orders| ==> OrderOk(orders[k])
    ensures var st := Run(Init(prevClose), orders, passes);
            var buy, sell := st.buy, st.sell;
            && (forall i, j :: 0 <= i < j < |buy| ==>
                  buy[i].price > buy[j].price || (buy[i].price == buy[j].price && buy[i].id < buy[j].id))
            && (forall i, j :: 0 <= i < j < |sell| ==>
                  sell[i].price < sell[j].price || (sell[i].price == sell[j].price && sell[i].id < sell[j].id))
            && (forall i, j :: 0 <= i < |buy| && 0 <= j < |sell| ==>
                  buy[i].price < sell[j].price && buy[i].id != sell[j].id)
            && (forall i :: 0 <= i < |buy| ==>
                  st.minPrice <= buy[i].price <= st.maxPrice && 1 <= buy[i].volume <= 1023 && 1 <= buy[i].id <= |orders|)
            && (forall i :: 0 <= i < |sell| ==>
                  st.minPrice <= sell[i].price <= st.maxPrice && 1 <= sell[i].volume <= 1023 && 1 <= sell[i].id <= |orders|)
  {
    RunInv(prevClose, orders, passes);
    InvBooks(Run(Init(prevClose), orders, passes));
  }

  // ---------------------------------------------------------------------------------
  // One order
  // ---------------------------------------------------------------------------------

  // Whatever its type, an arriving order sweeps the opposite book with some volume and limit, no
  // volume meaning that it does not sweep.
  lemma DispatchSweeps(st: State, o: Order) returns (volume: nat, limit: Option<nat>)
    requires Ready(st)
    ensures var opp := Opposite(o.dir);
            var m := Match(opp, Queue(st, opp), volume, limit);
            var s := Dispatch(st, o);
            s.log == st.log + Trades(o.dir, st.orderId, m.fills) && Queue(s, opp) == m.rest
  {
    var opp := Opposite(o.dir);
    var q := Queue(st, opp);
    volume, limit := o.volume, None;
    match o.typ {
      case Limit =>
        if st.minPrice <= o.price <= st.maxPrice {
          limit := Some(o.price);
        } else {
          volume := 0;
        }
      case CounterBest =>
        if q == [] {
          volume := 0;
        } else {
          assert OrderFits(q[0], st.minPrice, st.maxPrice, st.orderId);
          limit := Some(q[0].price);
        }
      case ClientBest => volume := 0;
      case BestFive =>
        SentinelIsSafe(st, opp);
        BestFiveIsThreshold(opp, q, o.volume);
        limit := LevelLimit(q, LEVELS);
      case FAK =>
      case FOK =>
        if CachedTotal(st, opp) < o.volume {
          volume := 0;
        }
    }
  }

  ghost predicate Rests(q: seq<ComOrder>, id: nat) {
    exists i :: 0 <= i < |q| && q[i].id == id
  }

  // A sweep that has filled the k-th order has cleared all before it.
  lemma SweepClears(dir: Direction, q: seq<ComOrder>, volume: nat, limit: Option<nat>, j: nat, k: nat)
    requires DistinctIds(q) && j < k < |Match(dir, q, volume, limit).fills| <= |q|
    ensures !Rests(Match(dir, q, volume, limit).rest, q[j].id)
  {
    var m := Match(dir, q, volume, limit);
    MatchIsPriceTime(dir, q, volume, limit);
    var n := |m.fills|;
    forall i | 0 <= i < |m.rest| ensures m.rest[i].id != q[j].id {
      var at := |q| - |m.rest| + i;
      assert at > j && m.rest[i].id == q[at].id;
      assert Differ(q[j], q[at]);
    }
  }

  lemma PlaceOf(dir: Direction, q: seq<ComOrder>, i: nat, j: nat)
    requires Sorted(dir, q) && i < |q| && j < |q|
    requires Ahead(dir, q[i].price, q[i].id, q[j].price, q[j].id)
    ensures i < j
  {
    assert j < i ==> Before(dir, q[j], q[i]);
  }

  // The new trade at position t of the log took volume from the opposite order y.
  predicate Takes(dir: Direction, t: Trade, y: nat) {
    if dir == Bid then t.askId == y else t.bidId == y
  }

  // Nobody is skipped.  If an arriving order trades with the resting order at position j of the
  // opposite book, then every order of that book at a better price, or older at the same price,
  // has been used up.
  lemma NobodyIsSkipped(st: State, o: Order, i: nat, j: nat, t: nat)
    requires Ready(st)
    requires var q := Queue(st, Opposite(o.dir));
             i < |q| && j < |q| && Ahead(Opposite(o.dir), q[i].price, q[i].id, q[j].price, q[j].id)
    requires var q, s := Queue(st, Opposite(o.dir)), Dispatch(st, o);
             |st.log| <= t < |s.log| && Takes(o.dir, s.log[t], q[j].id)
    ensures !Rests(Queue(Dispatch(st, o), Opposite(o.dir)), Queue(st, Opposite(o.dir))[i].id)
  {
    var opp := Opposite(o.dir);
    var q := Queue(st, opp);
    var volume, limit := DispatchSweeps(st, o);
    var m := Match(opp, q, volume, limit);
    var k := t - |st.log|;
    TradesAre(o.dir, st.orderId, m.fills);
    MatchFills(opp, q, volume, limit);
    assert FillFrom(opp, q[k], m.fills[k], limit);
    SameId(q, k, j);
    PlaceOf(opp, q, i, j);
    SweepClears(opp, q, volume, limit, i, k);
  }

  lemma SameId(q: seq<ComOrder>, i: nat, j: nat)
    requires DistinctIds(q) && i < |q| && j < |q| && q[i].id == q[j].id
    ensures i == j
  {
    assert i < j ==> Differ(q[i], q[j]);
    assert j < i ==> Differ(q[j], q[i]);
  }

  // ---------------------------------------------------------------------------------
  // Trades
  // ---------------------------------------------------------------------------------

  // No limit order ever trades beyond its limit.
  lemma TradesWithinLimits(prevClose: u32, orders: seq<Order>, passes: seq<bool>, k: nat)
    requires PrevCloseFits(prevClose) && |orders| == |passes|
    requires forall i :: 0 <= i < |orders| ==> OrderOk(orders[i])
    requires k < |Run(Init(prevClose), orders, passes).log|
    ensures var t := Run(Init(prevClose), orders, passes).log[k];
            && 1 <= t.bidId <= |orders| && 1 <= t.askId <= |orders|
            && var bid, ask := orders[t.bidId - 1], orders[t.askId - 1];
               && bid.dir == Bid && ask.dir == Ask
               && (bid.typ == Limit ==> t.price <= bid.price)
               && (ask.typ == Limit ==> t.price >= ask.price)
               && 1 <= t.volume <= bid.volume && t.volume <= ask.volume
  {
    var terms, st := RunTerms(prevClose, orders, passes), Run(Init(prevClose), orders, passes);
    RunTrades(prevClose, orders, passes);
    LogOk(orders, terms, st, k);
    forall i | 0 <= i < |orders| ensures LimitTerms(orders[i], terms[i]) {
      RunTermsAt(prevClose, orders, passes, i);
    }
    TradeWithinLimits(orders, terms, st.log[k]);
  }

  lemma LogOk(orders: seq<Order>, terms: seq<Terms>, st: State, k: nat)
    requires |terms| == |orders| && RunOk(orders, terms, st) && k < |st.log|
    ensures TradeOk(orders, terms, st.log[k])
  {
  }

  predicate LimitTerms(o: Order, t: Terms) {
    o.typ == Limit ==> t == Terms(Some(o.price), Some(o.price))
  }

  lemma TradeWithinLimits(orders: seq<Order>, terms: seq<Terms>, t: Trade)
    requires |terms| == |orders| && TradeOk(orders, terms, t)
    requires forall i :: 0 <= i < |orders| ==> LimitTerms(orders[i], terms[i])
    ensures var bid, ask := orders[t.bidId - 1], orders[t.askId - 1];
            && bid.dir == Bid && ask.dir == Ask
            && (bid.typ == Limit ==> t.price <= bid.price)
            && (ask.typ == Limit ==> t.price >= ask.price)
            && 1 <= t.volume <= bid.volume && t.volume <= ask.volume
  {
    assert LimitTerms(orders[t.bidId - 1], terms[t.bidId - 1]);
    assert LimitTerms(orders[t.askId - 1], terms[t.askId - 1]);
  }

  // ---------------------------------------------------------------------------------
  // The price band
  // ---------------------------------------------------------------------------------

  // Ten per cent either way, rounded half up, and at least one tick.
  lemma BandEdges(p: u32)
    requires 11 * p + 5 < 0x1_0000_0000
    ensures p >= 6 ==> 9 * p - 5 < 10 * MinPrice(p) <= 9 * p + 5
    ensures p >= 6 ==> 11 * p - 5 < 10 * MaxPrice(p) <= 11 * p + 5
    ensures p == 0 ==> MinPrice(p) == 0xFFFF_FFFF && MaxPrice(p) == 1
    ensures 1 <= p <= 5 ==> MinPrice(p) == p - 1 && MaxPrice(p) == p + 1
  {
    UpperEdge(p, 0, 11 * p + 5, (11 * p + 5) / 10);
    LowerEdge(p, 0, 9 * p + 5, (9 * p + 5) / 10);
  }

  // In general, unsigned 32-bit arithmetic drops c multiples of 2^32 before the division.
  lemma UpperEdge(p: u32, c: nat, v: nat, q: nat)
    requires 11 * p + 5 == c * 0x1_0000_0000 + v && v < 0x1_0000_0000 && 10 * q <= v < 10 * q + 10
    ensures MaxPrice(p) == if q != p then q else if p == 0xFFFF_FFFF then 0 else p + 1
  {
    DivModIs(11 * p + 5, 0x1_0000_0000, c, v);
  }

  lemma LowerEdge(p: u32, c: nat, v: nat, q: nat)
    requires 9 * p + 5 == c * 0x1_0000_0000 + v && v < 0x1_0000_0000 && 10 * q <= v < 10 * q + 10
    ensures MinPrice(p) == if q != p then q else if p == 0 then 0xFFFF_FFFF else p - 1
  {
    DivModIs(9 * p + 5, 0x1_0000_0000, c, v);
  }

  // A limit order with volume is dropped exactly if its price is outside the edges; otherwise all
  // its volume is traded or rests.
  lemma DroppedOutsideTheBand(p: u32, orders: seq<Order>, passes: seq<bool>, o: Order)
    requires PrevCloseFits(p) && 6 <= p && 11 * p + 5 < 0x1_0000_0000 && |orders| == |passes|
    requires forall k :: 0 <= k < |orders| ==> OrderOk(orders[k])
    requires o.typ == Limit && 1 <= o.volume <= 1023
    ensures var st := Run(Init(p), orders, passes);
            var s := Process(st, o, true);
            if 10 * o.price <= 9 * p - 5 || 10 * o.price > 11 * p + 5 then s == NextId(st)
            else TradedUnder(s.log, |orders| + 1) + RestingUnder(s.buy, |orders| + 1) + RestingUnder(s.sell, |orders| + 1) == o.volume
  {
    BandEdges(p);
    var st := AfterRun(p, orders, passes);
    DroppedOrKept(st, o);
  }

  // A run's engine, before an id it has not given out.
  lemma AfterRun(p: u32, orders: seq<Order>, passes: seq<bool>) returns (st: State)
    requires PrevCloseFits(p) && |orders| == |passes|
    requires forall k :: 0 <= k < |orders| ==> OrderOk(orders[k])
    ensures st == Run(Init(p), orders, passes) && Inv(st) && st.orderId == |orders|
    ensures st.minPrice == MinPrice(p) && st.maxPrice == MaxPrice(p) && Account(st, |orders| + 1) == 0
  {
    st := Run(Init(p), orders, passes);
    RunInv(p, orders, passes);
    BandKept(p, orders, passes);
    RunConserves(p, orders, passes, |orders| + 1);
  }

  lemma DroppedOrKept(st: State, o: Order)
    requires Inv(st) && o.typ == Limit && OrderOk(o) && Account(st, st.orderId + 1) == 0
    ensures var s := Process(st, o, true);
            if o.price < st.minPrice || o.price > st.maxPrice then s == NextId(st)
            else Account(s, st.orderId + 1) == o.volume
  {
    ProcessAccount(st, o, true, st.orderId + 1);
  }

  // Orders that Order::operator== takes for equal are the same to the market.
  lemma SameToTheMarket(st: State, a: Order, b: Order, pass: bool)
    requires SameOrder(a, b)
    ensures Process(st, a, pass) == Process(st, b, pass)
  {
  }

  lemma {:induction false} BandKept(p: u32, orders: seq<Order>, passes: seq<bool>)
    requires |orders| == |passes|
    ensures Run(Init(p), orders, passes).minPrice == MinPrice(p) && Run(Init(p), orders, passes).maxPrice == MaxPrice(p)
  {
    if orders != [] {
      var n := |orders| - 1;
      BandKept(p, orders[..n], passes[..n]);
      ProcessContinues(Run(Init(p), orders[..n], passes[..n]), orders[n], passes[n]);
    }
  }

  // ---------------------------------------------------------------------------------
  // Best five
  // ---------------------------------------------------------------------------------

  // The distinct prices of a book that are better than this one.
  ghost function BetterPrices(dir: Direction, q: seq<ComOrder>, price: nat): set<nat> {
    set k | 0 <= k < |q| && (if dir == Ask then q[k].price < price else q[k].price > price) :: q[k].price
  }

  lemma {:induction false} PriceIsLevel(q: seq<ComOrder>, k: nat) returns (i: nat)
    requires k < |q|
    ensures i < |Levels(q)| && Levels(q)[i] == q[k].price
  {
    if k == 0 {
      i := 0;
    } else {
      var j := PriceIsLevel(q[1..], k - 1);
      var r := Levels(q[1..]);
      i := if r != [] && r[0] == q[0].price then j else j + 1;
    }
  }

  ghost function FirstLevels(levels: seq<nat>, n: nat): set<nat>
    requires n <= |levels|
  {
    if n == 0 then {} else FirstLevels(levels, n - 1) + {levels[n - 1]}
  }

  lemma {:induction false} FirstLevelsHas(levels: seq<nat>, n: nat, p: nat)
    requires n <= |levels|
    ensures p in FirstLevels(levels, n) <==> exists i :: 0 <= i < n && levels[i] == p
  {
    if n > 0 {
      FirstLevelsHas(levels, n - 1, p);
    }
  }

  lemma {:induction false} FirstLevelsCount(levels: seq<nat>, n: nat)
    requires n <= |levels|
    requires forall i, j :: 0 <= i < j < |levels| ==> levels[i] != levels[j]
    ensures |FirstLevels(levels, n)| == n
  {
    if n > 0 {
      FirstLevelsCount(levels, n - 1);
      FirstLevelsHas(levels, n - 1, levels[n - 1]);
    }
  }

  // An order at the k-th level has k better prices.
  lemma BetterAreFirst(dir: Direction, q: seq<ComOrder>, k: nat)
    requires Sorted(dir, q) && k < |Levels(q)|
    ensures |BetterPrices(dir, q, Levels(q)[k])| == k
  {
    var levels := Levels(q);
    LevelsAreMonotone(dir, q);
    forall i, j | 0 <= i < j < |levels| ensures levels[i] != levels[j] {
      assert !Reaches(dir, levels[j], Some(levels[i]));
    }
    FirstLevelsCount(levels, k);
    forall p ensures p in BetterPrices(dir, q, levels[k]) <==> p in FirstLevels(levels, k) {
      if p in BetterPrices(dir, q, levels[k]) {
        BetterIsFirst(dir, q, k, p);
      }
      if p in FirstLevels(levels, k) {
        FirstIsBetter(dir, q, k, p);
      }
    }
    assert BetterPrices(dir, q, levels[k]) == FirstLevels(levels, k);
  }

  lemma BetterIsFirst(dir: Direction, q: seq<ComOrder>, k: nat, p: nat)
    requires Sorted(dir, q) && k < |Levels(q)| && p in BetterPrices(dir, q, Levels(q)[k])
    ensures p in FirstLevels(Levels(q), k)
  {
    var levels := Levels(q);
    LevelsAreMonotone(dir, q);
    var at :| 0 <= at < |q| && q[at].price == p;
    var i := PriceIsLevel(q, at);
    assert i > k ==> !Reaches(dir, levels[i], Some(levels[k]));
    FirstLevelsHas(levels, k, p);
  }

  lemma FirstIsBetter(dir: Direction, q: seq<ComOrder>, k: nat, p: nat)
    requires Sorted(dir, q) && k < |Levels(q)| && p in FirstLevels(Levels(q), k)
    ensures p in BetterPrices(dir, q, Levels(q)[k])
  {
    var levels := Levels(q);
    LevelsAreMonotone(dir, q);
    FirstLevelsHas(levels, k, p);
    var i :| 0 <= i < k && levels[i] == p;
    var at :| 0 <= at < |q| && q[at].price == levels[i];
    assert !Reaches(dir, levels[k], Some(levels[i]));
  }

  lemma WithinFive(dir: Direction, q: seq<ComOrder>, at: nat)
    requires Sorted(dir, q) && at < |q|
    ensures Reaches(dir, q[at].price, LevelLimit(q, LEVELS)) <==> |BetterPrices(dir, q, q[at].price)| < 5
  {
    var k := PriceIsLevel(q, at);
    LevelsAreMonotone(dir, q);
    BetterAreFirst(dir, q, k);
    if |Levels(q)| >= LEVELS {
      var last := Levels(q)[LEVELS - 1];
      assert k < LEVELS - 1 ==> Reaches(dir, Levels(q)[k], Some(last));
      assert k > LEVELS - 1 ==> !Reaches(dir, Levels(q)[k], Some(last));
    }
  }

  // A BestFive order touches a resting order only if fewer than five distinct prices are better
  // than its own; and if it keeps volume, all those are used up.
  lemma BestFiveReach(st: State, dir: Direction, volume: nat, at: nat)
    requires Ready(st) && at < |Queue(st, Opposite(dir))|
    ensures var q := Queue(st, Opposite(dir));
            var s := ProcessBestFive(st, dir, st.orderId, volume);
            && (q[at] !in Queue(s, Opposite(dir)) ==> |BetterPrices(Opposite(dir), q, q[at].price)| < 5)
            && (TradedUnder(s.log, st.orderId) < TradedUnder(st.log, st.orderId) + volume
                && |BetterPrices(Opposite(dir), q, q[at].price)| < 5
                ==> !Rests(Queue(s, Opposite(dir)), q[at].id))
  {
    var opp := Opposite(dir);
    var q := Queue(st, opp);
    var limit := LevelLimit(q, LEVELS);
    var m := Match(opp, q, volume, limit);
    SentinelIsSafe(st, opp);
    BestFiveIsThreshold(opp, q, volume);
    WithinFive(opp, q, at);
    if !Reaches(opp, q[at].price, limit) {
      BeyondLimitSurvives(opp, q, volume, limit, q[at]);
    } else if TradedUnder(ProcessBestFive(st, dir, st.orderId, volume).log, st.orderId)
              < TradedUnder(st.log, st.orderId) + volume {
      TakenVolume(st, dir, volume, limit);
      LeftClears(opp, q, volume, limit, at);
    }
  }

  // What a sweep trades under the incoming id.
  lemma TakenVolume(st: State, dir: Direction, volume: nat, limit: Option<nat>)
    requires Ready(st)
    ensures var m := Match(Opposite(dir), Queue(st, Opposite(dir)), volume, limit);
            TradedUnder(Swept(st, dir, st.orderId, volume, m).log, st.orderId) + m.left
            == TradedUnder(st.log, st.orderId) + volume
  {
    var opp := Opposite(dir);
    var q := Queue(st, opp);
    var m := Match(opp, q, volume, limit);
    MatchConserves(opp, q, volume, limit, st.orderId);
    MatchFills(opp, q, volume, limit);
    forall k | 0 <= k < |m.fills| ensures m.fills[k].id != st.orderId {
      assert FillFrom(opp, q[k], m.fills[k], limit);
    }
    TradesAccount(dir, st.orderId, m.fills, st.orderId);
    TradedAppend(st.log, Trades(dir, st.orderId, m.fills), st.orderId);
  }

  // Volume is left over only when everything within the limit is gone.
  lemma LeftClears(dir: Direction, q: seq<ComOrder>, volume: nat, limit: Option<nat>, at: nat)
    requires Sorted(dir, q) && DistinctIds(q) && at < |q| && Reaches(dir, q[at].price, limit)
    requires Match(dir, q, volume, limit).left > 0
    ensures !Rests(Match(dir, q, volume, limit).rest, q[at].id)
  {
    var m := Match(dir, q, volume, limit);
    MatchIsPriceTime(dir, q, volume, limit);
    MatchAccounts(dir, q, volume, limit);
    var n := |m.fills|;
    forall i | 0 <= i < |m.rest| ensures m.rest[i].id != q[at].id {
      assert m.rest == q[n..];
      assert !Reaches(dir, q[n].price, limit);
      assert at >= n && at > n ==> Before(dir, q[n], q[at]);
      assert at < n;
      assert Differ(q[at], q[n + i]);
    }
  }
}
