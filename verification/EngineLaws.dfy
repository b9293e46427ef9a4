// What the six order types amount to, and what every trade of every run satisfies.
module EngineLaws {
  import opened Types
  import opened Book
  import opened BestFive
  import opened Engine
  import opened Ledger

  // ---------------------------------------------------------------------------------
  // Derived order types
  // ---------------------------------------------------------------------------------

  // FOK, decided on the cached total, leaves everything alone or fills completely; it fills
  // exactly when the opposite book holds enough, and is then a FAK.
  lemma FokAllOrNothing(st: State, dir: Direction, volume: nat)
    requires Ready(st)
    ensures var s := ProcessFok(st, dir, st.orderId, volume);
            if Total(Queue(st, Opposite(dir))) < volume then s == st
            else
              && s == ProcessFak(st, dir, st.orderId, volume)
              && Queue(s, dir) == Queue(st, dir)
              && TradedUnder(s.log, st.orderId) == TradedUnder(st.log, st.orderId) + volume
              && Total(Queue(s, Opposite(dir))) == Total(Queue(st, Opposite(dir))) - volume
  {
    var opp := Opposite(dir);
    var q := Queue(st, opp);
    if volume <= Total(q) {
      FakAccount(st, dir, volume, st.orderId);
      MatchLeft(opp, q, volume, None);
      WithinAll(opp, q);
      MatchAccounts(opp, q, volume, None);
      FakUnused(st, dir, volume);
    }
  }

  // The incoming FAK rests nowhere, before or after.
  lemma FakUnused(st: State, dir: Direction, volume: nat)
    requires Ready(st)
    ensures RestingUnder(Queue(st, Opposite(dir)), st.orderId) == 0
    ensures RestingUnder(Queue(ProcessFak(st, dir, st.orderId, volume), Opposite(dir)), st.orderId) == 0
  {
    var opp := Opposite(dir);
    var q := Queue(st, opp);
    var m := Match(opp, q, volume, None);
    MatchResidue(opp, q, volume, None);
    ResidueUnused(m.rest, q, st.orderId);
    UnusedIsZero(q, st.orderId);
    UnusedIsZero(m.rest, st.orderId);
  }

  lemma ResidueUnused(r: seq<ComOrder>, q: seq<ComOrder>, id: nat)
    requires IsResidue(r, q) && IdUnused(q, id)
    ensures IdUnused(r, id)
  {
    forall k | 0 <= k < |r| ensures r[k].id != id {
      assert r[k].id == q[|q| - |r| + k].id;
    }
  }

  // The most permissive price of the band.
  function Edge(st: State, dir: Direction): nat {
    if dir == Bid then st.maxPrice else st.minPrice
  }

  lemma {:induction false} NonBindingLimit(dir: Direction, q: seq<ComOrder>, volume: nat, limit: Option<nat>)
    requires forall k :: 0 <= k < |q| ==> Reaches(dir, q[k].price, limit)
    ensures Match(dir, q, volume, limit) == Match(dir, q, volume, None)
  {
    if q != [] && 0 < volume {
      assert Reaches(dir, q[0].price, limit);
      if q[0].volume <= volume {
        assert forall k :: 0 <= k < |q[1..]| ==> q[1..][k] == q[k + 1];
        NonBindingLimit(dir, q[1..], volume - q[0].volume, limit);
      }
    }
  }

  // FAK trades what a limit order at the edge of the band would trade, without posting.
  lemma FakIsEdgeLimit(st: State, dir: Direction, volume: nat)
    requires Ready(st)
    ensures var f := ProcessFak(st, dir, st.orderId, volume);
            var l := ProcessLimit(st, dir, st.orderId, Edge(st, dir), volume);
            && f.log == l.log
            && Queue(f, Opposite(dir)) == Queue(l, Opposite(dir))
            && CachedTotal(f, Opposite(dir)) == CachedTotal(l, Opposite(dir))
            && Queue(f, dir) == Queue(st, dir)
  {
    var opp := Opposite(dir);
    var q := Queue(st, opp);
    if q != [] {
      assert OrderFits(q[0], st.minPrice, st.maxPrice, st.orderId);
    }
    forall k | 0 <= k < |q| ensures Reaches(opp, q[k].price, Some(Edge(st, dir))) {
      assert OrderFits(q[k], st.minPrice, st.maxPrice, st.orderId);
    }
    NonBindingLimit(opp, q, volume, Some(Edge(st, dir)));
  }

  // CounterBest is never rejected for its price; all its trades are at the one price it found
  // on top, and what is left is posted there.
  lemma CounterBestOnePrice(st: State, dir: Direction, volume: nat)
    requires Ready(st) && Queue(st, Opposite(dir)) != []
    ensures var q := Queue(st, Opposite(dir));
            var m := Match(Opposite(dir), q, volume, Some(q[0].price));
            var s := ProcessCounterBest(st, dir, st.orderId, volume);
            && |s.log| == |st.log| + |m.fills|
            && (forall k :: |st.log| <= k < |s.log| ==> s.log[k].price == q[0].price)
            && (volume > 0 ==> |m.fills| > 0)
            && Queue(s, dir) == (if m.left == 0 then Queue(st, dir)
                                 else Insert(dir, Queue(st, dir), ComOrder(st.orderId, q[0].price, m.left)))
  {
    var opp := Opposite(dir);
    var q := Queue(st, opp);
    assert OrderFits(q[0], st.minPrice, st.maxPrice, st.orderId);
    var m := Match(opp, q, volume, Some(q[0].price));
    var s := ProcessCounterBest(st, dir, st.orderId, volume);
    assert s.log == st.log + Trades(dir, st.orderId, m.fills);
    MatchFills(opp, q, volume, Some(q[0].price));
    TradesAre(dir, st.orderId, m.fills);
    forall k | 0 <= k < |m.fills| ensures m.fills[k].price == q[0].price {
      assert FillFrom(opp, q[k], m.fills[k], Some(q[0].price));
      assert k > 0 ==> Before(opp, q[0], q[k]);
    }
  }

  // ---------------------------------------------------------------------------------
  // Every trade of every run
  // ---------------------------------------------------------------------------------

  // What an order finds on arrival: the price at which it comes to rest, if it does, and the
  // limit on what it takes.
  datatype Terms = Terms(posts: Option<nat>, takes: Option<nat>)

  function TopPrice(q: seq<ComOrder>): Option<nat> {
    if q == [] then None else Some(q[0].price)
  }

  // A limit order names its price; CounterBest takes and posts at the opposite top, ClientBest
  // posts at its own side's; BestFive takes five levels deep, FAK and FOK without limit.
  function TermsOf(buy: seq<ComOrder>, sell: seq<ComOrder>, o: Order): Terms {
    var own, opp := if o.dir == Bid then buy else sell, if o.dir == Bid then sell else buy;
    match o.typ
    case Limit => Terms(Some(o.price), Some(o.price))
    case CounterBest => Terms(TopPrice(opp), TopPrice(opp))
    case ClientBest => Terms(TopPrice(own), None)
    case BestFive => Terms(None, LevelLimit(opp, LEVELS))
    case FAK => Terms(None, None)
    case FOK => Terms(None, None)
  }

  // The terms of every order of a run, each taken from the books its predecessors left.
  function RunTerms(prevClose: u32, orders: seq<Order>, passes: seq<bool>): (r: seq<Terms>)
    requires |orders| == |passes|
    ensures |r| == |orders|
  {
    if orders == [] then []
    else
      var n := |orders| - 1;
      var st := Run(Init(prevClose), orders[..n], passes[..n]);
      RunTerms(prevClose, orders[..n], passes[..n]) + [TermsOf(st.buy, st.sell, orders[n])]
  }

  lemma {:induction false} RunTermsAt(prevClose: u32, orders: seq<Order>, passes: seq<bool>, k: nat)
    requires |orders| == |passes| && k < |orders|
    ensures var st := Run(Init(prevClose), orders[..k], passes[..k]);
            RunTerms(prevClose, orders, passes)[k] == TermsOf(st.buy, st.sell, orders[k])
  {
    var n := |orders| - 1;
    if k < n {
      RunTermsAt(prevClose, orders[..n], passes[..n], k);
      assert orders[..n][..k] == orders[..k] && passes[..n][..k] == passes[..k];
    }
  }

  // A resting order is what is left of an order of that direction, at exactly the price it
  // posted at.
  predicate RestsFor(orders: seq<Order>, terms: seq<Terms>, dir: Direction, x: ComOrder)
    requires |terms| == |orders|
  {
    && 1 <= x.id <= |orders|
    && orders[x.id - 1].dir == dir
    && x.volume <= orders[x.id - 1].volume
    && terms[x.id - 1].posts == Some(x.price)
  }

  ghost predicate QueueFrom(orders: seq<Order>, terms: seq<Terms>, dir: Direction, q: seq<ComOrder>)
    requires |terms| == |orders|
  {
    forall k :: 0 <= k < |q| ==> RestsFor(orders, terms, dir, q[k])
  }

  // A trade pairs a bid with an ask, for no more than either submitted.  The older one was
  // resting, and the trade is at exactly the price it rested at; that price is within what the
  // newer one takes.
  predicate TradeOk(orders: seq<Order>, terms: seq<Terms>, t: Trade)
    requires |terms| == |orders|
  {
    && 1 <= t.bidId <= |orders| && 1 <= t.askId <= |orders| && t.bidId != t.askId
    && var older, newer := Min(t.bidId, t.askId), t.bidId + t.askId - Min(t.bidId, t.askId);
       && orders[t.bidId - 1].dir == Bid && orders[t.askId - 1].dir == Ask
       && 0 < t.volume <= orders[t.bidId - 1].volume && t.volume <= orders[t.askId - 1].volume
       && terms[older - 1].posts == Some(t.price)
       && orders[newer - 1].typ != ClientBest
       && Reaches(orders[older - 1].dir, t.price, terms[newer - 1].takes)
  }

  ghost predicate RunOk(orders: seq<Order>, terms: seq<Terms>, st: State)
    requires |terms| == |orders|
  {
    match st
    case State(lo, hi, buy, sell, buyTotal, sellTotal, orderId, log) =>
      && QueueFrom(orders, terms, Bid, buy) && QueueFrom(orders, terms, Ask, sell)
      && forall k :: 0 <= k < |log| ==> TradeOk(orders, terms, log[k])
  }

  lemma ResidueFrom(orders: seq<Order>, terms: seq<Terms>, dir: Direction, r: seq<ComOrder>, q: seq<ComOrder>)
    requires |terms| == |orders| && IsResidue(r, q) && QueueFrom(orders, terms, dir, q)
    ensures QueueFrom(orders, terms, dir, r)
  {
    forall k | 0 <= k < |r| ensures RestsFor(orders, terms, dir, r[k]) {
      assert RestsFor(orders, terms, dir, q[|q| - |r| + k]);
    }
  }

  // The newest order has been given its terms.
  ghost predicate Arriving(orders: seq<Order>, terms: seq<Terms>, st: State) {
    && |terms| == |orders| && 1 <= st.orderId <= |orders|
    && terms[st.orderId - 1] == TermsOf(st.buy, st.sell, orders[st.orderId - 1])
  }

  lemma FillIsTrade(orders: seq<Order>, terms: seq<Terms>, id: nat, x: ComOrder, f: Fill)
    requires |terms| == |orders| && 1 <= id <= |orders| && orders[id - 1].typ != ClientBest
    requires var o := orders[id - 1];
             && RestsFor(orders, terms, Opposite(o.dir), x) && x.id < id && x.volume > 0
             && FillFrom(Opposite(o.dir), x, f, terms[id - 1].takes)
             && f.volume <= o.volume
    ensures TradeOk(orders, terms, TradeOf(orders[id - 1].dir, id, f))
  {
  }

  lemma FillsWithin(dir: Direction, q: seq<ComOrder>, volume: nat, limit: Option<nat>)
    ensures var m := Match(dir, q, volume, limit);
            forall k :: 0 <= k < |m.fills| ==> m.fills[k].volume <= volume
  {
    MatchIsPriceTime(dir, q, volume, limit);
  }

  // A sweep with the newest order's limit makes only such trades.
  lemma SweptOk(orders: seq<Order>, terms: seq<Terms>, st: State)
    requires Ready(st) && Arriving(orders, terms, st) && RunOk(orders, terms, st)
    requires orders[st.orderId - 1].typ != ClientBest
    ensures var o := orders[st.orderId - 1];
            var m := Match(Opposite(o.dir), Queue(st, Opposite(o.dir)), o.volume, terms[st.orderId - 1].takes);
            RunOk(orders, terms, Swept(st, o.dir, st.orderId, o.volume, m))
  {
    var o, limit := orders[st.orderId - 1], terms[st.orderId - 1].takes;
    var opp := Opposite(o.dir);
    var q := Queue(st, opp);
    var m := Match(opp, q, o.volume, limit);
    MatchResidue(opp, q, o.volume, limit);
    ResidueFrom(orders, terms, opp, m.rest, q);
    FillsWithin(opp, q, o.volume, limit);
    MatchFills(opp, q, o.volume, limit);
    var trades := Trades(o.dir, st.orderId, m.fills);
    TradesAre(o.dir, st.orderId, m.fills);
    forall k | 0 <= k < |m.fills| ensures TradeOk(orders, terms, trades[k]) {
      assert OrderFits(q[k], st.minPrice, st.maxPrice, st.orderId);
      assert RestsFor(orders, terms, opp, q[k]);
      FillIsTrade(orders, terms, st.orderId, q[k], m.fills[k]);
    }
  }

  lemma RestOk(orders: seq<Order>, terms: seq<Terms>, st: State, price: nat, volume: nat)
    requires |terms| == |orders| && RunOk(orders, terms, st) && 1 <= st.orderId <= |orders|
    requires RestsFor(orders, terms, orders[st.orderId - 1].dir, ComOrder(st.orderId, price, volume))
    ensures RunOk(orders, terms, Rest(st, orders[st.orderId - 1].dir, st.orderId, price, volume))
  {
    var dir := orders[st.orderId - 1].dir;
    var q, x := Queue(st, dir), ComOrder(st.orderId, price, volume);
    InsertMembers(dir, q, x);
    var r := Insert(dir, q, x);
    forall k | 0 <= k < |r| ensures RestsFor(orders, terms, dir, r[k]) {
      assert r[k] in q || r[k] == x;
    }
  }

  lemma LimitOk(orders: seq<Order>, terms: seq<Terms>, st: State, price: nat)
    requires Ready(st) && Arriving(orders, terms, st) && RunOk(orders, terms, st)
    requires orders[st.orderId - 1].typ != ClientBest && terms[st.orderId - 1] == Terms(Some(price), Some(price))
    ensures var o := orders[st.orderId - 1];
            RunOk(orders, terms, ProcessLimit(st, o.dir, st.orderId, price, o.volume))
  {
    var o := orders[st.orderId - 1];
    var opp := Opposite(o.dir);
    var m := Match(opp, Queue(st, opp), o.volume, Some(price));
    SweptOk(orders, terms, st);
    MatchAccounts(opp, Queue(st, opp), o.volume, Some(price));
    if m.left > 0 {
      RestOk(orders, terms, Swept(st, o.dir, st.orderId, o.volume, m), price, m.left);
    }
  }

  lemma DispatchOk(orders: seq<Order>, terms: seq<Terms>, st: State)
    requires Ready(st) && Arriving(orders, terms, st) && RunOk(orders, terms, st)
    ensures RunOk(orders, terms, Dispatch(st, orders[st.orderId - 1]))
  {
    var o := orders[st.orderId - 1];
    var opp := Opposite(o.dir);
    var q := Queue(st, opp);
    match o.typ
    case Limit => LimitOk(orders, terms, st, o.price);
    case CounterBest =>
      if q != [] {
        LimitOk(orders, terms, st, q[0].price);
      }
    case ClientBest =>
      if Queue(st, o.dir) != [] {
        RestOk(orders, terms, st, Queue(st, o.dir)[0].price, o.volume);
      }
    case BestFive =>
      SentinelIsSafe(st, opp);
      BestFiveIsThreshold(opp, q, o.volume);
      SweptOk(orders, terms, st);
    case FAK => SweptOk(orders, terms, st);
    case FOK => SweptOk(orders, terms, st);
  }

  // Every trade of every run is at the price its older order rested at, within what its newer
  // order takes; both are determined by the run before the order's arrival.
  lemma RunTrades(prevClose: u32, orders: seq<Order>, passes: seq<bool>)
    requires PrevCloseFits(prevClose) && |orders| == |passes|
    requires forall k :: 0 <= k < |orders| ==> OrderOk(orders[k])
    ensures RunOk(orders, RunTerms(prevClose, orders, passes), Run(Init(prevClose), orders, passes))
  {
    PrefixTrades(prevClose, orders, passes, |orders|);
    assert orders[..|orders|] == orders && passes[..|orders|] == passes;
  }

  lemma {:induction false} PrefixTrades(prevClose: u32, orders: seq<Order>, passes: seq<bool>, n: nat)
    requires PrevCloseFits(prevClose) && n <= |orders| == |passes|
    requires forall k :: 0 <= k < |orders| ==> OrderOk(orders[k])
    ensures RunOk(orders, RunTerms(prevClose, orders, passes), Run(Init(prevClose), orders[..n], passes[..n]))
  {
    if n > 0 {
      PrefixTrades(prevClose, orders, passes, n - 1);
      RunInv(prevClose, orders[..n - 1], passes[..n - 1]);
      RunTermsAt(prevClose, orders, passes, n - 1);
      OneMoreOrder(Init(prevClose), orders, RunTerms(prevClose, orders, passes), passes, n);
    }
  }

  lemma OneMoreOrder(st: State, orders: seq<Order>, terms: seq<Terms>, passes: seq<bool>, n: nat)
    requires 0 < n <= |orders| == |passes| == |terms|
    requires var s := Run(st, orders[..n - 1], passes[..n - 1]);
             && Inv(s) && s.orderId == n - 1 && RunOk(orders, terms, s)
             && terms[n - 1] == TermsOf(s.buy, s.sell, orders[n - 1])
    ensures RunOk(orders, terms, Run(st, orders[..n], passes[..n]))
  {
    RunLast(st, orders, passes, n);
    ProcessOk(orders, terms, Run(st, orders[..n - 1], passes[..n - 1]), passes[n - 1]);
  }

  lemma RunLast(st: State, orders: seq<Order>, passes: seq<bool>, n: nat)
    requires 0 < n <= |orders| == |passes|
    ensures Run(st, orders[..n], passes[..n])
         == Process(Run(st, orders[..n - 1], passes[..n - 1]), orders[n - 1], passes[n - 1])
  {
    assert orders[..n][..n - 1] == orders[..n - 1] && passes[..n][..n - 1] == passes[..n - 1];
  }

  lemma ProcessOk(orders: seq<Order>, terms: seq<Terms>, st: State, pass: bool)
    requires Inv(st) && st.orderId < |orders| == |terms| && RunOk(orders, terms, st)
    requires terms[st.orderId] == TermsOf(st.buy, st.sell, orders[st.orderId])
    ensures RunOk(orders, terms, Process(st, orders[st.orderId], pass))
  {
    var next := NextId(st);
    NextOk(orders, terms, st);
    if pass {
      NextIsReady(st);
      assert next.orderId - 1 == st.orderId;
      DispatchOk(orders, terms, next);
    }
  }

  lemma NextOk(orders: seq<Order>, terms: seq<Terms>, st: State)
    requires |terms| == |orders| && RunOk(orders, terms, st)
    ensures RunOk(orders, terms, NextId(st))
  {
  }
}
