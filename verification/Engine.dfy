// The matching engine of one stock on values: price band, two books kept in priority order,
// cached totals, trade log, and the six order types.
module Engine {
  import opened Types
  import opened Book
  import opened BestFive

  const MAX_VOLUME: nat := 1023

  datatype State = State(
    minPrice: nat, maxPrice: nat,
    buy: seq<ComOrder>, sell: seq<ComOrder>,
    buyTotal: int, sellTotal: int,
    orderId: nat, log: seq<Trade>)

  function Queue(st: State, dir: Direction): seq<ComOrder> {
    if dir == Bid then st.buy else st.sell
  }

  function CachedTotal(st: State, dir: Direction): int {
    if dir == Bid then st.buyTotal else st.sellTotal
  }

  function WithQueue(st: State, dir: Direction, q: seq<ComOrder>, total: int): State {
    if dir == Bid then st.(buy := q, buyTotal := total) else st.(sell := q, sellTotal := total)
  }

  // The price band of the constructor, in 32-bit unsigned arithmetic.
  function MaxPrice(prevClose: u32): u32 {
    var p := (prevClose * 11 + 5) % 0x1_0000_0000 / 10;
    if p == prevClose then (p + 1) % 0x1_0000_0000 else p
  }

  function MinPrice(prevClose: u32): u32 {
    var p := (prevClose * 9 + 5) % 0x1_0000_0000 / 10;
    if p == prevClose then (p - 1) % 0x1_0000_0000 else p
  }

  // The band fits the 22-bit price field of ComOrder, and has no price 0 with five prices above.
  predicate PrevCloseFits(prevClose: u32) {
    MaxPrice(prevClose) < 0x40_0000 && (MinPrice(prevClose) > 0 || MaxPrice(prevClose) < LEVELS)
  }

  // Closing prices short of the field's width by a tenth fit.
  lemma UsualPricesFit(prevClose: u32)
    requires prevClose * 11 + 5 < 10 * 0x40_0000
    ensures PrevCloseFits(prevClose)
  {
  }

  function Init(prevClose: u32): State {
    State(MinPrice(prevClose), MaxPrice(prevClose), [], [], 0, 0, 0, [])
  }

  function TradeOf(dir: Direction, id: nat, f: Fill): Trade {
    if dir == Bid then Trade(id, f.id, f.price, f.volume) else Trade(f.id, id, f.price, f.volume)
  }

  function Trades(dir: Direction, id: nat, fills: seq<Fill>): seq<Trade> {
    if fills == [] then [] else [TradeOf(dir, id, fills[0])] + Trades(dir, id, fills[1..])
  }

  lemma {:induction false} TradesAre(dir: Direction, id: nat, fills: seq<Fill>)
    ensures |Trades(dir, id, fills)| == |fills|
    ensures forall k :: 0 <= k < |fills| ==> Trades(dir, id, fills)[k] == TradeOf(dir, id, fills[k])
  {
    if fills != [] {
      TradesAre(dir, id, fills[1..]);
    }
  }

  // Record a sweep of the queue opposite to an incoming `dir` order.
  function Swept(st: State, dir: Direction, id: nat, volume: nat, m: Sweep): State {
    var opp := Opposite(dir);
    WithQueue(st, opp, m.rest, CachedTotal(st, opp) - (volume - m.left)).(log := st.log + Trades(dir, id, m.fills))
  }

  function Rest(st: State, dir: Direction, id: nat, price: nat, volume: nat): State {
    WithQueue(st, dir, Insert(dir, Queue(st, dir), ComOrder(id, price, volume)), CachedTotal(st, dir) + volume)
  }

  function ProcessLimit(st: State, dir: Direction, id: nat, price: nat, volume: nat): State {
    if price < st.minPrice || price > st.maxPrice then st
    else
      var opp := Opposite(dir);
      var m := Match(opp, Queue(st, opp), volume, Some(price));
      PostLeft(Swept(st, dir, id, volume, m), dir, id, price, m.left)
  }

  function PostLeft(st: State, dir: Direction, id: nat, price: nat, left: nat): State {
    if left > 0 then Rest(st, dir, id, price, left) else st
  }

  function ProcessCounterBest(st: State, dir: Direction, id: nat, volume: nat): State {
    var q := Queue(st, Opposite(dir));
    if q == [] then st else ProcessLimit(st, dir, id, q[0].price, volume)
  }

  function ProcessClientBest(st: State, dir: Direction, id: nat, volume: nat): State {
    var q := Queue(st, dir);
    if q == [] then st else Rest(st, dir, id, q[0].price, volume)
  }

  function ProcessBestFive(st: State, dir: Direction, id: nat, volume: nat): State {
    var opp := Opposite(dir);
    Swept(st, dir, id, volume, MatchFive(opp, Queue(st, opp), volume, 0, 0))
  }

  function ProcessFak(st: State, dir: Direction, id: nat, volume: nat): State {
    var opp := Opposite(dir);
    Swept(st, dir, id, volume, Match(opp, Queue(st, opp), volume, None))
  }

  function ProcessFok(st: State, dir: Direction, id: nat, volume: nat): State {
    if CachedTotal(st, Opposite(dir)) < volume then st else ProcessFak(st, dir, id, volume)
  }

  // Processor::process after the hook has answered `pass`.
  function Process(st: State, o: Order, pass: bool): State {
    if pass then Dispatch(NextId(st), o) else NextId(st)
  }

  function NextId(st: State): State {
    st.(orderId := st.orderId + 1)
  }

  // The newest id belongs to `o`.
  function Dispatch(st: State, o: Order): State {
    match o.typ
    case Limit => ProcessLimit(st, o.dir, st.orderId, o.price, o.volume)
    case CounterBest => ProcessCounterBest(st, o.dir, st.orderId, o.volume)
    case ClientBest => ProcessClientBest(st, o.dir, st.orderId, o.volume)
    case BestFive => ProcessBestFive(st, o.dir, st.orderId, o.volume)
    case FAK => ProcessFak(st, o.dir, st.orderId, o.volume)
    case FOK => ProcessFok(st, o.dir, st.orderId, o.volume)
  }

  // A run: order i has id i + 1 and hook answer passes[i].
  function Run(st: State, orders: seq<Order>, passes: seq<bool>): State
    requires |orders| == |passes|
  {
    if orders == [] then st
    else
      var n := |orders| - 1;
      Process(Run(st, orders[..n], passes[..n]), orders[n], passes[n])
  }

  // What the decoder can deliver: ten volume bits; and a ClientBest order, which rests
  // unconditionally, must carry volume.
  predicate OrderOk(o: Order) {
    o.volume <= MAX_VOLUME && (o.typ == ClientBest ==> o.volume > 0)
  }

  // ---------------------------------------------------------------------------------
  // The invariant of every run
  // ---------------------------------------------------------------------------------

  // One queue: in priority order, ids distinct and already given out, prices in the band,
  // volumes in the ten-bit field and never zero.
  ghost predicate QueueOk(dir: Direction, q: seq<ComOrder>, lo: nat, hi: nat, lastId: nat) {
    && Sorted(dir, q)
    && DistinctIds(q)
    && forall k {:trigger OrderFits(q[k], lo, hi, lastId)} :: 0 <= k < |q| ==> OrderFits(q[k], lo, hi, lastId)
  }

  predicate OrderFits(x: ComOrder, lo: nat, hi: nat, lastId: nat) {
    1 <= x.id <= lastId && lo <= x.price <= hi && 1 <= x.volume <= MAX_VOLUME
  }

  ghost predicate NoSharedId(q: seq<ComOrder>, r: seq<ComOrder>) {
    forall i, j {:trigger Differ(q[i], r[j])} :: 0 <= i < |q| && 0 <= j < |r| ==> Differ(q[i], r[j])
  }

  predicate Uncrossed(buy: seq<ComOrder>, sell: seq<ComOrder>) {
    buy != [] && sell != [] ==> buy[0].price < sell[0].price
  }

  ghost predicate BooksOk(buy: seq<ComOrder>, sell: seq<ComOrder>, lo: nat, hi: nat, lastId: nat) {
    && QueueOk(Bid, buy, lo, hi, lastId) && QueueOk(Ask, sell, lo, hi, lastId)
    && NoSharedId(buy, sell)
    && Uncrossed(buy, sell)
  }

  // The room left in the trade file, order by order.
  predicate Amortised(st: State) {
    |st.log| + |st.buy| + |st.sell| <= st.orderId
  }

  // No price-0 order can ever be topped by five more levels.
  predicate BandOk(st: State) {
    st.minPrice > 0 || st.maxPrice < LEVELS
  }

  ghost predicate Inv(st: State) {
    match st
    case State(lo, hi, buy, sell, buyTotal, sellTotal, orderId, log) =>
      && BooksOk(buy, sell, lo, hi, orderId)
      && buyTotal == Total(buy) && sellTotal == Total(sell)
      && Amortised(st)
      && BandOk(st)
      && forall k :: 0 <= k < |log| ==> log[k].volume > 0
  }

  lemma InitInv(prevClose: u32)
    ensures PrevCloseFits(prevClose) <==> Inv(Init(prevClose)) && MaxPrice(prevClose) < 0x40_0000
  {
  }

  // What remains of a queue after a sweep: a suffix whose head may have lost volume.
  ghost predicate IsResidue(r: seq<ComOrder>, q: seq<ComOrder>) {
    && |r| <= |q|
    && forall k :: 0 <= k < |r| ==>
         var x := q[|q| - |r| + k];
         && r[k].id == x.id && r[k].price == x.price
         && r[k].volume <= x.volume
         && (x.volume > 0 ==> r[k].volume > 0)
  }

  lemma ResidueCons(r: seq<ComOrder>, q: seq<ComOrder>)
    requires q != [] && IsResidue(r, q[1..])
    ensures IsResidue(r, q)
  {
    forall k | 0 <= k < |r| ensures q[|q| - |r| + k] == q[1..][|q[1..]| - |r| + k] && r[k] == r[k] {
    }
  }

  lemma {:induction false} MatchResidue(dir: Direction, q: seq<ComOrder>, volume: nat, limit: Option<nat>)
    ensures IsResidue(Match(dir, q, volume, limit).rest, q)
  {
    if q == [] || volume == 0 || !Reaches(dir, q[0].price, limit) {
    } else if q[0].volume <= volume {
      MatchResidue(dir, q[1..], volume - q[0].volume, limit);
      ResidueCons(Match(dir, q[1..], volume - q[0].volume, limit).rest, q);
    }
  }

  // Volume is conserved by a sweep, and it makes at most one trade that frees no queue slot:
  // the one that exhausts the incoming order.
  lemma {:induction false} MatchAccounts(dir: Direction, q: seq<ComOrder>, volume: nat, limit: Option<nat>)
    ensures var m := Match(dir, q, volume, limit);
            && m.left <= volume
            && Total(m.rest) + volume == Total(q) + m.left
            && |m.fills| + |m.rest| <= |q| + (if m.left == 0 && volume > 0 then 1 else 0)
            && (m.left > 0 && m.rest != [] ==> !Reaches(dir, m.rest[0].price, limit))
  {
    if q == [] || volume == 0 || !Reaches(dir, q[0].price, limit) {
    } else if q[0].volume <= volume {
      MatchAccounts(dir, q[1..], volume - q[0].volume, limit);
    } else {
      var r := [q[0].(volume := q[0].volume - volume)] + q[1..];
      assert r[1..] == q[1..];
    }
  }

  // A fill takes no more than its resting order has, at that order's price and within the limit.
  predicate FillFrom(dir: Direction, x: ComOrder, f: Fill, limit: Option<nat>) {
    && f.id == x.id && f.price == x.price
    && f.volume <= x.volume && (x.volume > 0 ==> f.volume > 0)
    && Reaches(dir, x.price, limit)
  }

  lemma MatchFills(dir: Direction, q: seq<ComOrder>, volume: nat, limit: Option<nat>)
    ensures var m := Match(dir, q, volume, limit);
            && |m.fills| <= |q|
            && forall k :: 0 <= k < |m.fills| ==> FillFrom(dir, q[k], m.fills[k], limit)
  {
    MatchIsPriceTime(dir, q, volume, limit);
  }

  // An engine whose newest id has not been used yet.
  ghost predicate Ready(st: State) {
    match st
    case State(lo, hi, buy, sell, buyTotal, sellTotal, orderId, log) =>
      && Inv(st)
      && |log| + |buy| + |sell| < orderId
      && IdUnused(buy, orderId) && IdUnused(sell, orderId)
  }

  ghost predicate IdUnused(q: seq<ComOrder>, id: nat) {
    forall k :: 0 <= k < |q| ==> q[k].id != id
  }

  lemma NextIsReady(st: State)
    requires Inv(st)
    ensures Ready(NextId(st))
  {
    NextFits(st.buy, st.minPrice, st.maxPrice, st.orderId);
    NextFits(st.sell, st.minPrice, st.maxPrice, st.orderId);
  }

  lemma NextFits(q: seq<ComOrder>, lo: nat, hi: nat, lastId: nat)
    requires forall k {:trigger OrderFits(q[k], lo, hi, lastId)} :: 0 <= k < |q| ==> OrderFits(q[k], lo, hi, lastId)
    ensures forall k {:trigger OrderFits(q[k], lo, hi, lastId + 1)} :: 0 <= k < |q| ==> OrderFits(q[k], lo, hi, lastId + 1)
    ensures IdUnused(q, lastId + 1)
  {
    forall k | 0 <= k < |q| ensures OrderFits(q[k], lo, hi, lastId + 1) && q[k].id != lastId + 1 {
      assert OrderFits(q[k], lo, hi, lastId);
    }
  }

  lemma ResidueOk(dir: Direction, r: seq<ComOrder>, q: seq<ComOrder>, o: seq<ComOrder>, lo: nat, hi: nat, lastId: nat)
    requires IsResidue(r, q) && QueueOk(dir, q, lo, hi, lastId)
    ensures QueueOk(dir, r, lo, hi, lastId)
    ensures NoSharedId(q, o) ==> NoSharedId(r, o)
    ensures IdUnused(q, lastId) ==> IdUnused(r, lastId)
    ensures r != [] ==> Reaches(dir, q[0].price, Some(r[0].price))
  {
    var d := |q| - |r|;
    forall i, j | 0 <= i < j < |r| ensures Before(dir, r[i], r[j]) && Differ(r[i], r[j]) {
      assert Before(dir, q[d + i], q[d + j]) && Differ(q[d + i], q[d + j]);
    }
    forall i | 0 <= i < |r| ensures OrderFits(r[i], lo, hi, lastId) && r[i].id == q[d + i].id {
      assert OrderFits(q[d + i], lo, hi, lastId);
    }
    if NoSharedId(q, o) {
      forall i, j | 0 <= i < |r| && 0 <= j < |o| ensures Differ(r[i], o[j]) {
        assert Differ(q[d + i], o[j]);
      }
    }
    if r != [] {
      assert d > 0 ==> Before(dir, q[0], q[d]);
    }
  }

  lemma NoSharedIdSym(q: seq<ComOrder>, r: seq<ComOrder>)
    ensures NoSharedId(q, r) ==> NoSharedId(r, q)
  {
    if NoSharedId(q, r) {
      forall i, j | 0 <= i < |r| && 0 <= j < |q| ensures Differ(r[i], q[j]) {
        assert Differ(q[j], r[i]);
      }
    }
  }

  lemma ResidueBooks(dir: Direction, st: State, r: seq<ComOrder>, total: int)
    requires Inv(st) && IsResidue(r, Queue(st, dir))
    ensures var s := WithQueue(st, dir, r, total);
            && BooksOk(s.buy, s.sell, s.minPrice, s.maxPrice, s.orderId)
            && (IdUnused(Queue(st, dir), s.orderId) ==> IdUnused(r, s.orderId))
  {
    NoSharedIdSym(st.buy, st.sell);
    ResidueOk(dir, r, Queue(st, dir), Queue(st, Opposite(dir)), st.minPrice, st.maxPrice, st.orderId);
    if dir == Ask {
      NoSharedIdSym(r, st.buy);
    }
  }

  lemma SweptInv(st: State, dir: Direction, volume: nat, limit: Option<nat>)
    requires Ready(st)
    ensures var opp := Opposite(dir);
            var m := Match(opp, Queue(st, opp), volume, limit);
            var s := Swept(st, dir, st.orderId, volume, m);
            && Inv(s)
            && (m.left > 0 ==> Ready(s) && (m.rest == [] || !Reaches(opp, m.rest[0].price, limit)))
  {
    var opp := Opposite(dir);
    var q := Queue(st, opp);
    var m := Match(opp, q, volume, limit);
    MatchResidue(opp, q, volume, limit);
    MatchAccounts(opp, q, volume, limit);
    ResidueBooks(opp, st, m.rest, 0);
    var s := Swept(st, dir, st.orderId, volume, m);
    TradesAre(dir, st.orderId, m.fills);
    forall k | 0 <= k < |s.log| ensures s.log[k].volume > 0 {
      MatchFills(opp, q, volume, limit);
      if |st.log| <= k {
        var j := k - |st.log|;
        assert OrderFits(q[j], st.minPrice, st.maxPrice, st.orderId);
        assert FillFrom(opp, q[j], m.fills[j], limit);
      }
    }
  }

  // The price does not reach the opposite book.
  predicate Passive(st: State, dir: Direction, price: nat) {
    var q := Queue(st, Opposite(dir));
    q == [] || !Reaches(Opposite(dir), q[0].price, Some(price))
  }

  lemma InsertOk(dir: Direction, q: seq<ComOrder>, x: ComOrder, o: seq<ComOrder>, lo: nat, hi: nat)
    requires QueueOk(dir, q, lo, hi, x.id) && IdUnused(q, x.id) && OrderFits(x, lo, hi, x.id)
    requires NoSharedId(q, o) && IdUnused(o, x.id)
    ensures QueueOk(dir, Insert(dir, q, x), lo, hi, x.id) && NoSharedId(Insert(dir, q, x), o)
  {
    InsertSorted(dir, q, x);
    InsertMembers(dir, q, x);
    var r := Insert(dir, q, x);
    forall k | 0 <= k < |r|
      ensures OrderFits(r[k], lo, hi, x.id) && forall j :: 0 <= j < |o| ==> Differ(r[k], o[j])
    {
      assert r[k] in q || r[k] == x;
      if r[k] != x {
        var i :| 0 <= i < |q| && q[i] == r[k];
        assert OrderFits(q[i], lo, hi, x.id);
        assert forall j :: 0 <= j < |o| ==> Differ(q[i], o[j]);
      }
    }
  }

  lemma RestInv(st: State, dir: Direction, price: nat, volume: nat)
    requires Ready(st) && Passive(st, dir, price)
    requires st.minPrice <= price <= st.maxPrice && 1 <= volume <= MAX_VOLUME
    ensures Inv(Rest(st, dir, st.orderId, price, volume))
  {
    var q, x := Queue(st, dir), ComOrder(st.orderId, price, volume);
    NoSharedIdSym(st.buy, st.sell);
    InsertFacts(dir, q, x);
    InsertOk(dir, q, x, Queue(st, Opposite(dir)), st.minPrice, st.maxPrice);
    if dir == Ask {
      NoSharedIdSym(Insert(dir, q, x), st.buy);
    }
  }

  lemma LimitInv(st: State, dir: Direction, price: nat, volume: nat)
    requires Ready(st) && volume <= MAX_VOLUME
    ensures Inv(ProcessLimit(st, dir, st.orderId, price, volume))
  {
    if st.minPrice <= price <= st.maxPrice {
      var opp := Opposite(dir);
      var m := Match(opp, Queue(st, opp), volume, Some(price));
      SweptInv(st, dir, volume, Some(price));
      MatchAccounts(opp, Queue(st, opp), volume, Some(price));
      if m.left > 0 {
        RestInv(Swept(st, dir, st.orderId, volume, m), dir, price, m.left);
      }
    }
  }

  lemma BestFiveInv(st: State, dir: Direction, volume: nat)
    requires Ready(st)
    ensures Inv(ProcessBestFive(st, dir, st.orderId, volume))
  {
    var opp := Opposite(dir);
    var q := Queue(st, opp);
    SentinelIsSafe(st, opp);
    BestFiveIsThreshold(opp, q, volume);
    SweptInv(st, dir, volume, LevelLimit(q, LEVELS));
  }

  // The band keeps the level counter's sentinel harmless.
  lemma SentinelIsSafe(st: State, dir: Direction)
    requires Inv(st)
    ensures SentinelSafe(Queue(st, dir))
  {
    var q := Queue(st, dir);
    if q != [] && q[0].price == 0 {
      assert OrderFits(q[0], st.minPrice, st.maxPrice, st.orderId);
      forall k | 0 <= k < |q| ensures q[k].price <= LEVELS - 1 {
        assert OrderFits(q[k], st.minPrice, st.maxPrice, st.orderId);
      }
      FewLevels(dir, q, LEVELS - 1);
    }
  }

  lemma FewLevels(dir: Direction, q: seq<ComOrder>, top: nat)
    requires Sorted(dir, q) && forall k :: 0 <= k < |q| ==> q[k].price <= top
    ensures |Levels(q)| <= top + 1
  {
    LevelsAreMonotone(dir, q);
    var levels := Levels(q);
    if levels != [] {
      ClimbingPrices(dir, levels, |levels| - 1);
    }
  }

  lemma {:induction false} ClimbingPrices(dir: Direction, levels: seq<nat>, k: nat)
    requires k < |levels|
    requires forall i, j :: 0 <= i < j < |levels| ==> !Reaches(dir, levels[j], Some(levels[i]))
    ensures if dir == Ask then levels[k] >= levels[0] + k else levels[0] >= levels[k] + k
  {
    if k > 0 {
      ClimbingPrices(dir, levels, k - 1);
    }
  }

  lemma ClientBestInv(st: State, dir: Direction, volume: nat)
    requires Ready(st) && 1 <= volume <= MAX_VOLUME
    ensures Inv(ProcessClientBest(st, dir, st.orderId, volume))
  {
    var q := Queue(st, dir);
    if q != [] {
      assert OrderFits(q[0], st.minPrice, st.maxPrice, st.orderId);
      RestInv(st, dir, q[0].price, volume);
    }
  }

  lemma DispatchInv(st: State, o: Order)
    requires Ready(st) && OrderOk(o)
    ensures Inv(Dispatch(st, o))
  {
    match o.typ
    case Limit => LimitInv(st, o.dir, o.price, o.volume);
    case CounterBest =>
      var q := Queue(st, Opposite(o.dir));
      if q != [] {
        LimitInv(st, o.dir, q[0].price, o.volume);
      }
    case ClientBest => ClientBestInv(st, o.dir, o.volume);
    case BestFive => BestFiveInv(st, o.dir, o.volume);
    case FAK => SweptInv(st, o.dir, o.volume, None);
    case FOK => SweptInv(st, o.dir, o.volume, None);
  }

  // Same band, same id counter, trades only appended.
  predicate Continues(st: State, s: State) {
    && s.orderId == st.orderId && s.minPrice == st.minPrice && s.maxPrice == st.maxPrice
    && st.log <= s.log
  }

  lemma SweptContinues(st: State, dir: Direction, volume: nat, m: Sweep)
    ensures Continues(st, Swept(st, dir, st.orderId, volume, m))
  {
  }

  lemma LimitContinues(st: State, dir: Direction, price: nat, volume: nat)
    ensures Continues(st, ProcessLimit(st, dir, st.orderId, price, volume))
  {
    var opp := Opposite(dir);
    SweptContinues(st, dir, volume, Match(opp, Queue(st, opp), volume, Some(price)));
  }

  lemma DispatchContinues(st: State, o: Order)
    ensures Continues(st, Dispatch(st, o))
  {
    var opp := Opposite(o.dir);
    match o.typ
    case Limit => LimitContinues(st, o.dir, o.price, o.volume);
    case CounterBest =>
      var q := Queue(st, opp);
      if q != [] {
        LimitContinues(st, o.dir, q[0].price, o.volume);
      }
    case ClientBest =>
    case BestFive => SweptContinues(st, o.dir, o.volume, MatchFive(opp, Queue(st, opp), o.volume, 0, 0));
    case FAK => SweptContinues(st, o.dir, o.volume, Match(opp, Queue(st, opp), o.volume, None));
    case FOK => SweptContinues(st, o.dir, o.volume, Match(opp, Queue(st, opp), o.volume, None));
  }

  // Every order, whatever its type and its hook's answer, keeps the whole invariant.
  lemma ProcessInv(st: State, o: Order, pass: bool)
    requires Inv(st) && OrderOk(o)
    ensures Inv(Process(st, o, pass))
  {
    NextIsReady(st);
    if pass {
      DispatchInv(NextId(st), o);
    }
  }

  lemma ProcessContinues(st: State, o: Order, pass: bool)
    ensures Continues(NextId(st), Process(st, o, pass))
  {
    DispatchContinues(NextId(st), o);
  }

  lemma {:induction false} RunInv(prevClose: u32, orders: seq<Order>, passes: seq<bool>)
    requires PrevCloseFits(prevClose) && |orders| == |passes|
    requires forall k :: 0 <= k < |orders| ==> OrderOk(orders[k])
    ensures Inv(Run(Init(prevClose), orders, passes))
    ensures Run(Init(prevClose), orders, passes).orderId == |orders|
  {
    if orders == [] {
      InitInv(prevClose);
    } else {
      var n := |orders| - 1;
      RunInv(prevClose, orders[..n], passes[..n]);
      ProcessInv(Run(Init(prevClose), orders[..n], passes[..n]), orders[n], passes[n]);
      ProcessContinues(Run(Init(prevClose), orders[..n], passes[..n]), orders[n], passes[n]);
    }
  }

  // The assert in Persister::persist never fires: a trade file with one slot per order is
  // large enough, because a trade either removes a resting order or ends its incoming one.
  lemma TradeFileSuffices(prevClose: u32, orders: seq<Order>, passes: seq<bool>)
    requires PrevCloseFits(prevClose) && |orders| == |passes|
    requires forall k :: 0 <= k < |orders| ==> OrderOk(orders[k])
    ensures var st := Run(Init(prevClose), orders, passes);
            |st.log| + |st.buy| + |st.sell| <= |orders|
  {
    RunInv(prevClose, orders, passes);
  }
}
