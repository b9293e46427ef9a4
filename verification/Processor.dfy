// The matching engine as the source has it: two priority queues updated in place, cached
// 64-bit totals, and one sweep loop per order type and side.  Every method is proved against
// the engine on values.
module Processor {
  import opened Types
  import opened Book
  import opened BestFive
  import opened Engine
  import opened Hooks
  import opened Persister
  import opened PriorityQueues

  // ComOrder's bit fields: 30 bits of id, 22 of price, 10 of volume.
  function MakeComOrder(id: u32, price: u32, volume: u32): ComOrder {
    ComOrder(id % 0x4000_0000, price % 0x40_0000, volume % 0x400)
  }

  lemma FieldsFit(id: u32, price: u32, volume: u32)
    ensures MakeComOrder(id, price, volume) == ComOrder(id, price, volume)
       <==> id < 0x4000_0000 && price < 0x40_0000 && volume < 0x400
  {
  }

  // ---------------------------------------------------------------------------------
  // One turn of a sweep loop on the queue's listing
  // ---------------------------------------------------------------------------------

  function TopFill(q: seq<ComOrder>, volume: nat): Fill
    requires q != []
  {
    Fill(q[0].id, q[0].price, Min(q[0].volume, volume))
  }

  function AfterTop(q: seq<ComOrder>, volume: nat): seq<ComOrder>
    requires q != []
  {
    if q[0].volume <= volume then q[1..] else [q[0].(volume := q[0].volume - volume)] + q[1..]
  }

  function Prepend(f: Fill, m: Sweep): Sweep {
    Sweep([f] + m.fills, m.rest, m.left)
  }

  function AfterTurn(dir: Direction, q: seq<ComOrder>, volume: nat, limit: Option<nat>): Sweep
    requires q != []
  {
    Match(dir, AfterTop(q, volume), volume - TopFill(q, volume).volume, limit)
  }

  lemma MatchTurn(dir: Direction, q: seq<ComOrder>, volume: nat, limit: Option<nat>)
    requires q != [] && volume > 0 && Reaches(dir, q[0].price, limit)
    ensures Match(dir, q, volume, limit)
         == Prepend(TopFill(q, volume), AfterTurn(dir, q, volume, limit))
  {
  }

  function AfterFiveTurn(dir: Direction, q: seq<ComOrder>, volume: nat, lastPrice: nat, priceCount: nat): Sweep
    requires q != []
  {
    MatchFive(dir, AfterTop(q, volume), volume - TopFill(q, volume).volume, lastPrice, priceCount)
  }

  lemma MatchFiveTurn(dir: Direction, q: seq<ComOrder>, volume: nat, lastPrice: nat, priceCount: nat)
    requires q != [] && volume > 0 && (q[0].price == lastPrice || priceCount < LEVELS)
    ensures MatchFive(dir, q, volume, lastPrice, priceCount)
         == Prepend(TopFill(q, volume),
                    AfterFiveTurn(dir, q, volume, q[0].price, Counted(q[0].price, lastPrice, priceCount)))
  {
  }

  lemma MatchFiveEnds(dir: Direction, q: seq<ComOrder>, volume: nat, lastPrice: nat, priceCount: nat)
    requires q == [] || volume == 0 || (q[0].price != lastPrice && priceCount >= LEVELS)
    ensures MatchFive(dir, q, volume, lastPrice, priceCount) == Sweep([], q, volume)
  {
  }

  ghost predicate Positive(q: seq<ComOrder>) {
    forall k {:trigger q[k]} :: 0 <= k < |q| ==> 0 < q[k].volume <= MAX_VOLUME
  }

  lemma AfterTopOk(dir: Direction, q: seq<ComOrder>, volume: nat)
    requires q != [] && volume > 0 && Sorted(dir, q) && Positive(q)
    ensures Sorted(dir, AfterTop(q, volume)) && Positive(AfterTop(q, volume))
    ensures Total(AfterTop(q, volume)) == Total(q) - TopFill(q, volume).volume
  {
    var r := AfterTop(q, volume);
    var d := |q| - |r|;
    forall i, j | 0 <= i < j < |r| ensures Before(dir, r[i], r[j]) {
      assert Before(dir, q[d + i], q[d + j]);
    }
    forall k | 0 <= k < |r| ensures 0 < r[k].volume <= MAX_VOLUME {
      assert q[d + k].volume > 0;
    }
    if q[0].volume > volume {
      assert r[1..] == q[1..];
    }
  }

  // Where a sweep must end.
  datatype Goal = Goal(dir: Direction, engine: State, notifier: Notifier, left: nat)

  // Invariant of every sweep loop on values: making the rest `m` of the sweep with `volume`
  // from engine `st` and notifier `n` reaches the goal.
  ghost predicate Midway(goal: Goal, st: State, n: Notifier, volume: nat, m: Sweep) {
    match goal
    case Goal(dir, engine, notifier, left) =>
      && Swept(st, dir, st.orderId, volume, m) == engine && m.left == left
      && NotifyAll(n, LogVolumes(Trades(dir, st.orderId, m.fills))) == notifier
      && SideReady(Opposite(dir), Queue(st, Opposite(dir)), CachedTotal(st, Opposite(dir)))
  }

  ghost predicate SideReady(dir: Direction, q: seq<ComOrder>, total: int) {
    Sorted(dir, q) && Positive(q) && total == Total(q)
  }

  // Pushed back, the residual of the top is again the top.
  lemma ResidualOnTop(dir: Direction, q: seq<ComOrder>, left: nat)
    requires q != [] && Sorted(dir, q)
    ensures Insert(dir, q[1..], q[0].(volume := left)) == [q[0].(volume := left)] + q[1..]
  {
    assert |q| > 1 ==> Before(dir, q[0], q[1]);
  }

  // The engine after one turn.
  function Turned(dir: Direction, st: State, volume: nat): State
    requires Queue(st, Opposite(dir)) != []
  {
    var q := Queue(st, Opposite(dir));
    WithQueue(st, Opposite(dir), AfterTop(q, volume), CachedTotal(st, Opposite(dir)) - TopFill(q, volume).volume)
      .(log := st.log + [TradeOf(dir, st.orderId, TopFill(q, volume))])
  }

  lemma NotifyFirst(n: Notifier, dir: Direction, id: nat, f: Fill, fills: seq<Fill>)
    ensures NotifyAll(n, LogVolumes(Trades(dir, id, [f] + fills)))
         == NotifyAll(NotifyTrade(n, f.volume), LogVolumes(Trades(dir, id, fills)))
  {
    var t := TradeOf(dir, id, f);
    assert ([f] + fills)[1..] == fills;
    LogVolumesAppend([t], Trades(dir, id, fills));
    assert LogVolumes([t]) == [f.volume];
    NotifyAllAppend(n, [f.volume], LogVolumes(Trades(dir, id, fills)));
    assert NotifyAll(n, [f.volume]) == NotifyTrade(NotifyAll(n, [f.volume][..0]), f.volume);
    assert [f.volume][..0] == [];
  }

  lemma MidwayTurn(goal: Goal, st: State, n: Notifier, volume: nat, m: Sweep)
    requires Queue(st, Opposite(goal.dir)) != [] && volume > 0
    requires Midway(goal, st, n, volume, Prepend(TopFill(Queue(st, Opposite(goal.dir)), volume), m))
    ensures var q := Queue(st, Opposite(goal.dir));
            var f := TopFill(q, volume);
            && SideReady(Opposite(goal.dir), q, CachedTotal(st, Opposite(goal.dir)))
            && 0 < f.volume <= volume
            && Midway(goal, Turned(goal.dir, st, volume), NotifyTrade(n, f.volume), volume - f.volume, m)
  {
    var q := Queue(st, Opposite(goal.dir));
    var f := TopFill(q, volume);
    AfterTopOk(Opposite(goal.dir), q, volume);
    NotifyFirst(n, goal.dir, st.orderId, f, m.fills);
    SweptTurn(goal.dir, st, volume, f, m);
    assert q[0].volume > 0;
  }

  lemma SweptTurn(dir: Direction, st: State, volume: nat, f: Fill, m: Sweep)
    requires Queue(st, Opposite(dir)) != [] && f == TopFill(Queue(st, Opposite(dir)), volume) && f.volume <= volume
    ensures Swept(st, dir, st.orderId, volume, Prepend(f, m))
         == Swept(Turned(dir, st, volume), dir, st.orderId, volume - f.volume, m)
  {
    assert ([f] + m.fills)[1..] == m.fills;
    assert st.log + ([TradeOf(dir, st.orderId, f)] + Trades(dir, st.orderId, m.fills))
        == (st.log + [TradeOf(dir, st.orderId, f)]) + Trades(dir, st.orderId, m.fills);
  }

  // What a sweep `m` from here amounts to.
  function GoalOf(st: State, n: Notifier, dir: Direction, volume: nat, m: Sweep): Goal {
    Goal(dir, Swept(st, dir, st.orderId, volume, m),
         NotifyAll(n, LogVolumes(Trades(dir, st.orderId, m.fills))), m.left)
  }

  lemma MidwayStart(st: State, n: Notifier, dir: Direction, volume: nat, limit: Option<nat>, capacity: nat)
    requires Ready(st) && st.orderId <= capacity
    ensures var m := Match(Opposite(dir), Queue(st, Opposite(dir)), volume, limit);
            && Midway(GoalOf(st, n, dir, volume, m), st, n, volume, m)
            && |st.log| + |m.fills| <= capacity
            && Inv(Swept(st, dir, st.orderId, volume, m))
            && m.left <= volume
  {
    var m := Match(Opposite(dir), Queue(st, Opposite(dir)), volume, limit);
    SweptInv(st, dir, volume, limit);
    TradesAre(dir, st.orderId, m.fills);
    InvPositive(st, Opposite(dir));
    MatchAccounts(Opposite(dir), Queue(st, Opposite(dir)), volume, limit);
  }

  lemma FiveStart(st: State, n: Notifier, dir: Direction, volume: nat, capacity: nat)
    requires Ready(st) && st.orderId <= capacity
    ensures var m := MatchFive(Opposite(dir), Queue(st, Opposite(dir)), volume, 0, 0);
            && Midway(GoalOf(st, n, dir, volume, m), st, n, volume, m)
            && |st.log| + |m.fills| <= capacity
            && Inv(Swept(st, dir, st.orderId, volume, m))
            && m.left <= volume
  {
    var opp := Opposite(dir);
    SentinelIsSafe(st, opp);
    BestFiveIsThreshold(opp, Queue(st, opp), volume);
    MidwayStart(st, n, dir, volume, LevelLimit(Queue(st, opp), LEVELS), capacity);
  }

  // At the end the engine has made the whole sweep.
  lemma MidwayEnd(goal: Goal, st: State, n: Notifier, left: nat)
    requires Midway(goal, st, n, left, Sweep([], Queue(st, Opposite(goal.dir)), left))
    ensures st == goal.engine && n == goal.notifier && left == goal.left
  {
    assert st.log + [] == st.log;
  }

  // The notifier once the trades of `s` that `st` does not have are announced.
  function Announced(n: Notifier, st: State, s: State): Notifier
    requires st.log <= s.log
  {
    NotifyAll(n, LogVolumes(s.log[|st.log|..]))
  }

  lemma GoalAnnounced(st: State, n: Notifier, dir: Direction, volume: nat, m: Sweep)
    ensures var goal := GoalOf(st, n, dir, volume, m);
            st.log <= goal.engine.log && goal.notifier == Announced(n, st, goal.engine)
  {
    var goal := GoalOf(st, n, dir, volume, m);
    assert goal.engine.log[|st.log|..] == Trades(dir, st.orderId, m.fills);
  }

  // A limit order in the band ends where its sweep ends, the remainder posted.
  lemma LimitAnnounced(st: State, n: Notifier, dir: Direction, price: nat, volume: nat)
    requires st.minPrice <= price <= st.maxPrice
    ensures var m := Match(Opposite(dir), Queue(st, Opposite(dir)), volume, Some(price));
            var goal := GoalOf(st, n, dir, volume, m);
            var s := Engine.ProcessLimit(st, dir, st.orderId, price, volume);
            && s == PostLeft(goal.engine, dir, st.orderId, price, goal.left)
            && st.log <= s.log && goal.notifier == Announced(n, st, s)
  {
    var m := Match(Opposite(dir), Queue(st, Opposite(dir)), volume, Some(price));
    var goal := GoalOf(st, n, dir, volume, m);
    GoalAnnounced(st, n, dir, volume, m);
    assert PostLeft(goal.engine, dir, st.orderId, price, goal.left).log == goal.engine.log;
  }

  lemma NothingAnnounced(n: Notifier, st: State)
    ensures Announced(n, st, st) == n
  {
    assert st.log[|st.log|..] == [];
  }

  lemma {:induction false} TotalBound(q: seq<ComOrder>)
    requires Positive(q)
    ensures Total(q) <= MAX_VOLUME * |q|
  {
    if q != [] {
      assert q[0].volume <= MAX_VOLUME && forall k :: 0 <= k < |q[1..]| ==> q[1..][k] == q[k + 1];
      TotalBound(q[1..]);
    }
  }

  lemma InvPositive(st: State, dir: Direction)
    requires Inv(st)
    ensures Positive(Queue(st, dir)) && Sorted(dir, Queue(st, dir))
    ensures CachedTotal(st, dir) == Total(Queue(st, dir)) <= MAX_VOLUME * st.orderId
    ensures Queue(st, dir) != [] ==> st.minPrice <= Queue(st, dir)[0].price <= st.maxPrice
  {
    var q := Queue(st, dir);
    if q != [] {
      assert OrderFits(q[0], st.minPrice, st.maxPrice, st.orderId);
    }
    forall k | 0 <= k < |q| ensures 0 < q[k].volume <= MAX_VOLUME {
      assert OrderFits(q[k], st.minPrice, st.maxPrice, st.orderId);
    }
    TotalBound(q);
  }

  // The engine once the hook of its newest order has answered.
  function Answered(st: State, o: Order, pass: bool): State {
    if pass then Engine.Dispatch(st, o) else st
  }

  class Processor {
    const buy: PriorityQueue
    const sell: PriorityQueue
    var buyTotal: u64
    var sellTotal: u64
    var orderId: u32
    const minPrice: u32
    const maxPrice: u32
    const checker: HookChecker
    const notifier: HookNotifier
    const persister: Persister
    const board: Board

    // The engine this object stands for.
    ghost function Model(): State
      reads this, buy, sell, persister, persister.tp
      requires persister.Valid()
    {
      State(minPrice, maxPrice, buy.listing, sell.listing, buyTotal, sellTotal, orderId, persister.Written())
    }

    // The parts are in order and fit together.
    ghost predicate Linked()
      reads this, buy, sell, persister, notifier, board
    {
      Fitted() && notifier.Valid(board)
    }

    // The same without the board, which other processors write to as well.
    ghost predicate Fitted()
      reads this, buy, sell, persister, notifier
    {
      && buy != sell && buy.dir == Bid && sell.dir == Ask
      && buy.Valid() && sell.Valid() && persister.Valid()
      && notifier.idx == persister.nowCnt
      && maxPrice < 0x40_0000
      && orderId <= persister.tp.Length < 0x4000_0000
    }

    ghost predicate Valid()
      reads this, buy, sell, persister, persister.tp, notifier, board
    {
      Linked() && Inv(Model())
    }

    // The state between the id increment of `process` and the end of the order.
    ghost predicate Accepting()
      reads this, buy, sell, persister, persister.tp, notifier, board
    {
      Linked() && Ready(Model())
    }

    // Everything an order may change: the engine, and the notifier through the new trades.
    ghost predicate Became(s: State, n: Notifier)
      reads this, buy, sell, persister, persister.tp, notifier, board
    {
      Linked() && Model() == s && notifier.State(board) == n
    }

    constructor (checker: HookChecker, notifier: HookNotifier, persister: Persister, board: Board, prevClose: u32)
      requires persister.Valid() && persister.Written() == [] && persister.tp.Length < 0x4000_0000
      requires notifier.Valid(board) && notifier.idx == 0
      ensures this.checker == checker && this.notifier == notifier
      ensures this.persister == persister && this.board == board
      ensures Model() == Init(prevClose)
      ensures Valid() <==> PrevCloseFits(prevClose)
      ensures fresh(buy) && fresh(sell)
    {
      this.checker, this.notifier, this.persister, this.board := checker, notifier, persister, board;
      buy := new PriorityQueue(Bid);
      sell := new PriorityQueue(Ask);
      buyTotal, sellTotal, orderId := 0, 0, 0;
      var max: u32 := (prevClose * 11 + 5) % 0x1_0000_0000 / 10;
      if max == prevClose {
        max := (max + 1) % 0x1_0000_0000;
      }
      var min: u32 := (prevClose * 9 + 5) % 0x1_0000_0000 / 10;
      if min == prevClose {
        min := (min - 1) % 0x1_0000_0000;
      }
      maxPrice, minPrice := max, min;
      new;
      InitInv(prevClose);
      assert Model() == Init(prevClose);
      assert maxPrice == MaxPrice(prevClose);
      assert Linked() <==> maxPrice < 0x40_0000;
    }

    // `volume > 0` and the free slot are the source's asserts.
    method Commit(bidId: nat, askId: nat, price: nat, volume: nat)
      requires volume > 0
      requires persister.Valid() && persister.nowCnt < persister.tp.Length
      requires notifier.Valid(board) && notifier.idx == persister.nowCnt < 0xFFFF_FFFF
      modifies notifier, board, persister, persister.tp
      ensures persister.Valid() && persister.Written() == old(persister.Written()) + [Trade(bidId, askId, price, volume)]
      ensures notifier.Valid(board) && notifier.idx == persister.nowCnt == old(persister.nowCnt) + 1
      ensures notifier.State(board) == NotifyTrade(old(notifier.State(board)), volume)
    {
      notifier.Notify(volume, board);
      persister.Persist(bidId, askId, price, volume);
    }

    ghost predicate Mid(goal: Goal, volume: nat, m: Sweep)
      reads this, buy, sell, persister, persister.tp, notifier, board
    {
      match goal
      case Goal(dir, engine, notifierGoal, left) =>
        && Linked()
        && persister.nowCnt + |m.fills| <= persister.tp.Length
        && Midway(goal, Model(), notifier.State(board), volume, m)
    }

    // What a loop body needs to know of its invariant.
    lemma MidFacts(goal: Goal, volume: nat, m: Sweep)
      requires Mid(goal, volume, m)
      ensures goal.dir == Bid ==> Sorted(Ask, sell.listing) && sell.dir == Ask && sell.Valid()
      ensures goal.dir == Ask ==> Sorted(Bid, buy.listing) && buy.dir == Bid && buy.Valid()
    {
    }

    // The loop body shared by the four Bid sweeps: pop the best ask; trade; push its residual.
    method TakeSell(volume: u32) returns (left: u32)
      requires Linked() && persister.nowCnt < persister.tp.Length
      requires sell.listing != [] && Sorted(Ask, sell.listing) && sellTotal == Total(sell.listing)
      requires volume > 0 && sell.listing[0].volume > 0
      modifies sell, this`sellTotal, notifier, board, persister, persister.tp
      ensures Linked() && left == volume - TopFill(old(sell.listing), volume).volume
      ensures sell.listing == AfterTop(old(sell.listing), volume)
      ensures sellTotal == old(sellTotal) - TopFill(old(sell.listing), volume).volume
      ensures persister.Written() == old(persister.Written()) + [TradeOf(Bid, orderId, TopFill(old(sell.listing), volume))]
      ensures notifier.State(board) == NotifyTrade(old(notifier.State(board)), TopFill(old(sell.listing), volume).volume)
    {
      var tmp := sell.Top();
      sell.Pop();
      if tmp.volume <= volume {
        Commit(orderId, tmp.id, tmp.price, tmp.volume);
        sellTotal := sellTotal - tmp.volume;
        left := volume - tmp.volume;
      } else {
        Commit(orderId, tmp.id, tmp.price, volume);
        sellTotal := sellTotal - volume;
        tmp := tmp.(volume := tmp.volume - volume);
        left := 0;
        ResidualOnTop(Ask, old(sell.listing), tmp.volume);
        sell.Push(tmp);
      }
    }

    method SweepSell(volume: u32, ghost goal: Goal, ghost m: Sweep) returns (left: u32)
      requires sell.listing != [] && volume > 0 && goal.dir == Bid
      requires Mid(goal, volume, Prepend(TopFill(sell.listing, volume), m))
      modifies sell, this`sellTotal, notifier, board, persister, persister.tp
      ensures left == volume - TopFill(old(sell.listing), volume).volume < volume
      ensures sell.listing == AfterTop(old(sell.listing), volume)
      ensures Mid(goal, left, m)
    {
      ghost var next := Turned(Bid, Model(), volume);
      MidwayTurn(goal, Model(), notifier.State(board), volume, m);
      left := TakeSell(volume);
      assert Model() == next;
    }

    method TurnSell(volume: u32, ghost goal: Goal, ghost limit: Option<nat>) returns (left: u32)
      requires sell.listing != [] && volume > 0 && goal.dir == Bid && Reaches(Ask, sell.listing[0].price, limit)
      requires Mid(goal, volume, Match(Ask, sell.listing, volume, limit))
      modifies sell, this`sellTotal, notifier, board, persister, persister.tp
      ensures Mid(goal, left, Match(Ask, sell.listing, left, limit))
      ensures left < volume
    {
      MatchTurn(Ask, sell.listing, volume, limit);
      left := SweepSell(volume, goal, AfterTurn(Ask, sell.listing, volume, limit));
    }

    method TurnSellFive(volume: u32, ghost goal: Goal, ghost lastPrice: nat, ghost priceCount: nat) returns (left: u32)
      requires sell.listing != [] && volume > 0 && goal.dir == Bid
      requires sell.listing[0].price == lastPrice || priceCount < LEVELS
      requires Mid(goal, volume, MatchFive(Ask, sell.listing, volume, lastPrice, priceCount))
      modifies sell, this`sellTotal, notifier, board, persister, persister.tp
      ensures Mid(goal, left, MatchFive(Ask, sell.listing, left, old(sell.listing)[0].price,
                                        Counted(old(sell.listing)[0].price, lastPrice, priceCount)))
      ensures left < volume
    {
      ghost var q := sell.listing;
      ghost var count := Counted(q[0].price, lastPrice, priceCount);
      ghost var rest := AfterFiveTurn(Ask, q, volume, q[0].price, count);
      MatchFiveTurn(Ask, q, volume, lastPrice, priceCount);
      left := SweepSell(volume, goal, rest);
      assert sell.listing == AfterTop(q, volume) && left == volume - TopFill(q, volume).volume;
    }

    // The loop body shared by the four Ask sweeps: pop the best bid; trade; push its residual.
    method TakeBuy(volume: u32) returns (left: u32)
      requires Linked() && persister.nowCnt < persister.tp.Length
      requires buy.listing != [] && Sorted(Bid, buy.listing) && buyTotal == Total(buy.listing)
      requires volume > 0 && buy.listing[0].volume > 0
      modifies buy, this`buyTotal, notifier, board, persister, persister.tp
      ensures Linked() && left == volume - TopFill(old(buy.listing), volume).volume
      ensures buy.listing == AfterTop(old(buy.listing), volume)
      ensures buyTotal == old(buyTotal) - TopFill(old(buy.listing), volume).volume
      ensures persister.Written() == old(persister.Written()) + [TradeOf(Ask, orderId, TopFill(old(buy.listing), volume))]
      ensures notifier.State(board) == NotifyTrade(old(notifier.State(board)), TopFill(old(buy.listing), volume).volume)
    {
      var tmp := buy.Top();
      buy.Pop();
      if tmp.volume <= volume {
        Commit(tmp.id, orderId, tmp.price, tmp.volume);
        buyTotal := buyTotal - tmp.volume;
        left := volume - tmp.volume;
      } else {
        Commit(tmp.id, orderId, tmp.price, volume);
        buyTotal := buyTotal - volume;
        tmp := tmp.(volume := tmp.volume - volume);
        left := 0;
        ResidualOnTop(Bid, old(buy.listing), tmp.volume);
        buy.Push(tmp);
      }
    }

    method SweepBuy(volume: u32, ghost goal: Goal, ghost m: Sweep) returns (left: u32)
      requires buy.listing != [] && volume > 0 && goal.dir == Ask
      requires Mid(goal, volume, Prepend(TopFill(buy.listing, volume), m))
      modifies buy, this`buyTotal, notifier, board, persister, persister.tp
      ensures left == volume - TopFill(old(buy.listing), volume).volume < volume
      ensures buy.listing == AfterTop(old(buy.listing), volume)
      ensures Mid(goal, left, m)
    {
      ghost var next := Turned(Ask, Model(), volume);
      MidwayTurn(goal, Model(), notifier.State(board), volume, m);
      left := TakeBuy(volume);
      assert Model() == next;
    }

    method TurnBuy(volume: u32, ghost goal: Goal, ghost limit: Option<nat>) returns (left: u32)
      requires buy.listing != [] && volume > 0 && goal.dir == Ask && Reaches(Bid, buy.listing[0].price, limit)
      requires Mid(goal, volume, Match(Bid, buy.listing, volume, limit))
      modifies buy, this`buyTotal, notifier, board, persister, persister.tp
      ensures Mid(goal, left, Match(Bid, buy.listing, left, limit))
      ensures left < volume
    {
      MatchTurn(Bid, buy.listing, volume, limit);
      left := SweepBuy(volume, goal, AfterTurn(Bid, buy.listing, volume, limit));
    }

    method TurnBuyFive(volume: u32, ghost goal: Goal, ghost lastPrice: nat, ghost priceCount: nat) returns (left: u32)
      requires buy.listing != [] && volume > 0 && goal.dir == Ask
      requires buy.listing[0].price == lastPrice || priceCount < LEVELS
      requires Mid(goal, volume, MatchFive(Bid, buy.listing, volume, lastPrice, priceCount))
      modifies buy, this`buyTotal, notifier, board, persister, persister.tp
      ensures Mid(goal, left, MatchFive(Bid, buy.listing, left, old(buy.listing)[0].price,
                                        Counted(old(buy.listing)[0].price, lastPrice, priceCount)))
      ensures left < volume
    {
      ghost var q := buy.listing;
      ghost var count := Counted(q[0].price, lastPrice, priceCount);
      ghost var rest := AfterFiveTurn(Bid, q, volume, q[0].price, count);
      MatchFiveTurn(Bid, q, volume, lastPrice, priceCount);
      left := SweepBuy(volume, goal, rest);
      assert buy.listing == AfterTop(q, volume) && left == volume - TopFill(q, volume).volume;
    }

    // buy.push(ComOrder(order_id, price, volume)); buy_total += volume;
    method RestBuy(price: u32, volume: u32)
      requires Linked() && price <= maxPrice && volume <= MAX_VOLUME
      requires buyTotal + volume < 0x1_0000_0000_0000_0000
      modifies buy, this`buyTotal
      ensures Linked()
      ensures buy.listing == Insert(Bid, old(buy.listing), ComOrder(orderId, price, volume))
      ensures buyTotal == old(buyTotal) + volume
    {
      FieldsFit(orderId, price, volume);
      buy.Push(MakeComOrder(orderId, price, volume));
      buyTotal := buyTotal + volume;
    }

    method PostBuy(price: u32, left: u32)
      requires Linked() && Inv(Model()) && price <= maxPrice && left <= MAX_VOLUME
      modifies buy, this`buyTotal
      ensures Linked() && Model() == PostLeft(old(Model()), Bid, orderId, price, left)
    {
      InvPositive(Model(), Bid);
      if left > 0 {
        RestBuy(price, left);
      }
    }

    // sell.push(ComOrder(order_id, price, volume)); sell_total += volume;
    method RestSell(price: u32, volume: u32)
      requires Linked() && price <= maxPrice && volume <= MAX_VOLUME
      requires sellTotal + volume < 0x1_0000_0000_0000_0000
      modifies sell, this`sellTotal
      ensures Linked()
      ensures sell.listing == Insert(Ask, old(sell.listing), ComOrder(orderId, price, volume))
      ensures sellTotal == old(sellTotal) + volume
    {
      FieldsFit(orderId, price, volume);
      sell.Push(MakeComOrder(orderId, price, volume));
      sellTotal := sellTotal + volume;
    }

    method PostSell(price: u32, left: u32)
      requires Linked() && Inv(Model()) && price <= maxPrice && left <= MAX_VOLUME
      modifies sell, this`sellTotal
      ensures Linked() && Model() == PostLeft(old(Model()), Ask, orderId, price, left)
    {
      InvPositive(Model(), Ask);
      if left > 0 {
        RestSell(price, left);
      }
    }

    // The loop of a Bid limit order.
    method BidSweepTo(volume: u32, price: u32, ghost goal: Goal) returns (left: u32)
      requires goal.dir == Bid && sell.Valid() && Mid(goal, volume, Match(Ask, sell.listing, volume, Some(price)))
      modifies sell, this`sellTotal, notifier, board, persister, persister.tp
      ensures Mid(goal, left, Sweep([], sell.listing, left))
    {
      left := volume;
      while !sell.Empty() && left > 0
        invariant sell.Valid() && Mid(goal, left, Match(Ask, sell.listing, left, Some(price)))
        decreases left
      {
        MidFacts(goal, left, Match(Ask, sell.listing, left, Some(price)));
        var tmp := sell.Top();
        if tmp.price > price {
          break;
        }
        left := TurnSell(left, goal, Some(price));
      }
    }

    // The loop of an Ask limit order.
    method AskSweepTo(volume: u32, price: u32, ghost goal: Goal) returns (left: u32)
      requires goal.dir == Ask && buy.Valid() && Mid(goal, volume, Match(Bid, buy.listing, volume, Some(price)))
      modifies buy, this`buyTotal, notifier, board, persister, persister.tp
      ensures Mid(goal, left, Sweep([], buy.listing, left))
    {
      left := volume;
      while !buy.Empty() && left > 0
        invariant buy.Valid() && Mid(goal, left, Match(Bid, buy.listing, left, Some(price)))
        decreases left
      {
        MidFacts(goal, left, Match(Bid, buy.listing, left, Some(price)));
        var tmp := buy.Top();
        if tmp.price < price {
          break;
        }
        left := TurnBuy(left, goal, Some(price));
      }
    }

    // The loop of a Bid BestFive order.
    method BidSweepFive(volume: u32, ghost goal: Goal) returns (left: u32)
      requires goal.dir == Bid && sell.Valid() && Mid(goal, volume, MatchFive(Ask, sell.listing, volume, 0, 0))
      modifies sell, this`sellTotal, notifier, board, persister, persister.tp
      ensures Mid(goal, left, Sweep([], sell.listing, left))
    {
      left := volume;
      var lastPrice: nat, priceCount: nat := 0, 0;
      while !sell.Empty() && left > 0
        invariant sell.Valid() && Mid(goal, left, MatchFive(Ask, sell.listing, left, lastPrice, priceCount))
        invariant priceCount <= 5
        decreases left
      {
        MidFacts(goal, left, MatchFive(Ask, sell.listing, left, lastPrice, priceCount));
        var tmp := sell.Top();
        ghost var before, count := lastPrice, priceCount;
        if tmp.price != lastPrice {
          if priceCount + 1 > 5 {
            break;
          }
          lastPrice, priceCount := tmp.price, priceCount + 1;
        }
        assert lastPrice == tmp.price && priceCount == Counted(tmp.price, before, count);
        left := TurnSellFive(left, goal, before, count);
      }
      MatchFiveEnds(Ask, sell.listing, left, lastPrice, priceCount);
    }

    // The loop of an Ask BestFive order.
    method AskSweepFive(volume: u32, ghost goal: Goal) returns (left: u32)
      requires goal.dir == Ask && buy.Valid() && Mid(goal, volume, MatchFive(Bid, buy.listing, volume, 0, 0))
      modifies buy, this`buyTotal, notifier, board, persister, persister.tp
      ensures Mid(goal, left, Sweep([], buy.listing, left))
    {
      left := volume;
      var lastPrice: nat, priceCount: nat := 0, 0;
      while !buy.Empty() && left > 0
        invariant buy.Valid() && Mid(goal, left, MatchFive(Bid, buy.listing, left, lastPrice, priceCount))
        invariant priceCount <= 5
        decreases left
      {
        MidFacts(goal, left, MatchFive(Bid, buy.listing, left, lastPrice, priceCount));
        var tmp := buy.Top();
        ghost var before, count := lastPrice, priceCount;
        if tmp.price != lastPrice {
          if priceCount + 1 > 5 {
            break;
          }
          lastPrice, priceCount := tmp.price, priceCount + 1;
        }
        assert lastPrice == tmp.price && priceCount == Counted(tmp.price, before, count);
        left := TurnBuyFive(left, goal, before, count);
      }
      MatchFiveEnds(Bid, buy.listing, left, lastPrice, priceCount);
    }

    // The loop of a Bid FAK order, repeated for FOK.
    method BidSweepAll(volume: u32, ghost goal: Goal) returns (left: u32)
      requires goal.dir == Bid && sell.Valid() && Mid(goal, volume, Match(Ask, sell.listing, volume, None))
      modifies sell, this`sellTotal, notifier, board, persister, persister.tp
      ensures Mid(goal, left, Sweep([], sell.listing, left))
    {
      left := volume;
      while !sell.Empty() && left > 0
        invariant sell.Valid() && Mid(goal, left, Match(Ask, sell.listing, left, None))
        decreases left
      {
        left := TurnSell(left, goal, None);
      }
    }

    // The loop of an Ask FAK order, repeated for FOK.
    method AskSweepAll(volume: u32, ghost goal: Goal) returns (left: u32)
      requires goal.dir == Ask && buy.Valid() && Mid(goal, volume, Match(Bid, buy.listing, volume, None))
      modifies buy, this`buyTotal, notifier, board, persister, persister.tp
      ensures Mid(goal, left, Sweep([], buy.listing, left))
    {
      left := volume;
      while !buy.Empty() && left > 0
        invariant buy.Valid() && Mid(goal, left, Match(Bid, buy.listing, left, None))
        decreases left
      {
        left := TurnBuy(left, goal, None);
      }
    }

    method BidLimit(price: u32, volume: u32)
      requires Accepting() && volume <= MAX_VOLUME && minPrice <= price <= maxPrice
      modifies this, buy, sell, notifier, board, persister, persister.tp
      ensures var s := Engine.ProcessLimit(old(Model()), Bid, old(orderId), price, volume);
              old(Model()).log <= s.log && Became(s, Announced(old(notifier.State(board)), old(Model()), s))
    {
      InvPositive(Model(), Bid);
      ghost var goal := GoalOf(Model(), notifier.State(board), Bid, volume, Match(Ask, sell.listing, volume, Some(price)));
      MidwayStart(Model(), notifier.State(board), Bid, volume, Some(price), persister.tp.Length);
      LimitAnnounced(Model(), notifier.State(board), Bid, price, volume);
      var left := BidSweepTo(volume, price, goal);
      MidwayEnd(goal, Model(), notifier.State(board), left);
      PostBuy(price, left);
    }

    method AskLimit(price: u32, volume: u32)
      requires Accepting() && volume <= MAX_VOLUME && minPrice <= price <= maxPrice
      modifies this, buy, sell, notifier, board, persister, persister.tp
      ensures var s := Engine.ProcessLimit(old(Model()), Ask, old(orderId), price, volume);
              old(Model()).log <= s.log && Became(s, Announced(old(notifier.State(board)), old(Model()), s))
    {
      InvPositive(Model(), Ask);
      ghost var goal := GoalOf(Model(), notifier.State(board), Ask, volume, Match(Bid, buy.listing, volume, Some(price)));
      MidwayStart(Model(), notifier.State(board), Ask, volume, Some(price), persister.tp.Length);
      LimitAnnounced(Model(), notifier.State(board), Ask, price, volume);
      var left := AskSweepTo(volume, price, goal);
      MidwayEnd(goal, Model(), notifier.State(board), left);
      PostSell(price, left);
    }

    method ProcessLimit(dir: Direction, price: u32, volume: u32)
      requires Accepting() && volume <= MAX_VOLUME
      modifies this, buy, sell, notifier, board, persister, persister.tp
      ensures var s := Engine.ProcessLimit(old(Model()), dir, old(orderId), price, volume);
              old(Model()).log <= s.log && Became(s, Announced(old(notifier.State(board)), old(Model()), s))
    {
      NothingAnnounced(notifier.State(board), Model());
      if price < minPrice || price > maxPrice {
        return;
      }
      if dir == Bid {
        BidLimit(price, volume);
      } else {
        AskLimit(price, volume);
      }
    }

    method ProcessCounterBest(dir: Direction, volume: u32)
      requires Accepting() && volume <= MAX_VOLUME
      modifies this, buy, sell, notifier, board, persister, persister.tp
      ensures var s := Engine.ProcessCounterBest(old(Model()), dir, old(orderId), volume);
              old(Model()).log <= s.log && Became(s, Announced(old(notifier.State(board)), old(Model()), s))
    {
      NothingAnnounced(notifier.State(board), Model());
      InvPositive(Model(), Opposite(dir));
      if dir == Bid {
        if !sell.Empty() {
          var tmp := sell.Top();
          ProcessLimit(dir, tmp.price, volume);
        }
      } else {
        if !buy.Empty() {
          var tmp := buy.Top();
          ProcessLimit(dir, tmp.price, volume);
        }
      }
    }

    method ProcessClientBest(dir: Direction, volume: u32)
      requires Accepting() && volume <= MAX_VOLUME
      modifies this, buy, sell, notifier, board, persister, persister.tp
      ensures var s := Engine.ProcessClientBest(old(Model()), dir, old(orderId), volume);
              old(Model()).log <= s.log && Became(s, Announced(old(notifier.State(board)), old(Model()), s))
    {
      NothingAnnounced(notifier.State(board), Model());
      InvPositive(Model(), dir);
      if dir == Bid {
        if buy.Empty() {
          return;
        }
        var tmp := buy.Top();
        RestBuy(tmp.price, volume);
      } else {
        if sell.Empty() {
          return;
        }
        var tmp := sell.Top();
        RestSell(tmp.price, volume);
      }
    }

    method ProcessBestFive(dir: Direction, volume: u32)
      requires Accepting()
      modifies this, buy, sell, notifier, board, persister, persister.tp
      ensures var s := Engine.ProcessBestFive(old(Model()), dir, old(orderId), volume);
              old(Model()).log <= s.log && Became(s, Announced(old(notifier.State(board)), old(Model()), s))
    {
      if dir == Bid {
        ghost var goal := GoalOf(Model(), notifier.State(board), Bid, volume, MatchFive(Ask, sell.listing, volume, 0, 0));
        FiveStart(Model(), notifier.State(board), Bid, volume, persister.tp.Length);
        GoalAnnounced(Model(), notifier.State(board), Bid, volume, MatchFive(Ask, sell.listing, volume, 0, 0));
        var left := BidSweepFive(volume, goal);
        MidwayEnd(goal, Model(), notifier.State(board), left);
      } else {
        ghost var goal := GoalOf(Model(), notifier.State(board), Ask, volume, MatchFive(Bid, buy.listing, volume, 0, 0));
        FiveStart(Model(), notifier.State(board), Ask, volume, persister.tp.Length);
        GoalAnnounced(Model(), notifier.State(board), Ask, volume, MatchFive(Bid, buy.listing, volume, 0, 0));
        var left := AskSweepFive(volume, goal);
        MidwayEnd(goal, Model(), notifier.State(board), left);
      }
    }

    method ProcessFak(dir: Direction, volume: u32)
      requires Accepting()
      modifies this, buy, sell, notifier, board, persister, persister.tp
      ensures var s := Engine.ProcessFak(old(Model()), dir, old(orderId), volume);
              old(Model()).log <= s.log && Became(s, Announced(old(notifier.State(board)), old(Model()), s))
    {
      if dir == Bid {
        ghost var goal := GoalOf(Model(), notifier.State(board), Bid, volume, Match(Ask, sell.listing, volume, None));
        MidwayStart(Model(), notifier.State(board), Bid, volume, None, persister.tp.Length);
        GoalAnnounced(Model(), notifier.State(board), Bid, volume, Match(Ask, sell.listing, volume, None));
        var left := BidSweepAll(volume, goal);
        MidwayEnd(goal, Model(), notifier.State(board), left);
      } else {
        ghost var goal := GoalOf(Model(), notifier.State(board), Ask, volume, Match(Bid, buy.listing, volume, None));
        MidwayStart(Model(), notifier.State(board), Ask, volume, None, persister.tp.Length);
        GoalAnnounced(Model(), notifier.State(board), Ask, volume, Match(Bid, buy.listing, volume, None));
        var left := AskSweepAll(volume, goal);
        MidwayEnd(goal, Model(), notifier.State(board), left);
      }
    }

    method ProcessFok(dir: Direction, volume: u32)
      requires Accepting()
      modifies this, buy, sell, notifier, board, persister, persister.tp
      ensures var s := Engine.ProcessFok(old(Model()), dir, old(orderId), volume);
              old(Model()).log <= s.log && Became(s, Announced(old(notifier.State(board)), old(Model()), s))
    {
      NothingAnnounced(notifier.State(board), Model());
      if dir == Bid {
        if sellTotal < volume {
          return;
        }
      } else {
        if buyTotal < volume {
          return;
        }
      }
      ProcessFak(dir, volume);
    }

    method Dispatch(order: Order)
      requires Accepting() && order.volume <= MAX_VOLUME
      modifies this, buy, sell, notifier, board, persister, persister.tp
      ensures var s := Engine.Dispatch(old(Model()), order);
              old(Model()).log <= s.log && Became(s, Announced(old(notifier.State(board)), old(Model()), s))
    {
      match order.typ
      case Limit => ProcessLimit(order.dir, order.price, order.volume);
      case CounterBest => ProcessCounterBest(order.dir, order.volume);
      case ClientBest => ProcessClientBest(order.dir, order.volume);
      case BestFive => ProcessBestFive(order.dir, order.volume);
      case FAK => ProcessFak(order.dir, order.volume);
      case FOK => ProcessFok(order.dir, order.volume);
    }

    // ++order_id
    method TakeId()
      requires Valid() && orderId < persister.tp.Length
      modifies this`orderId
      ensures Accepting() && Model() == NextId(old(Model()))
    {
      NextIsReady(Model());
      orderId := orderId + 1;
    }

    // The rest of `process`, for the order that has taken the newest id.  False while its hook is
    // unresolved: the call is then still waiting inside `check`, nothing has changed, and it
    // goes on here once the hook is resolved.
    method Complete(order: Order) returns (done: bool)
      requires Accepting() && OrderOk(order)
      modifies this, buy, sell, checker, notifier, board, persister, persister.tp
      ensures done <==> old(Answer(checker.futures, orderId, board.values)).Some?
      ensures !done ==> Accepting() && checker.futures == old(checker.futures)
                        && Became(old(Model()), old(notifier.State(board)))
      ensures done ==>
                && Valid() && checker.futures == AfterCheck(old(checker.futures), old(orderId))
                && var s := Answered(old(Model()), order, old(Answer(checker.futures, orderId, board.values)).value);
                   old(Model()).log <= s.log && Became(s, Announced(old(notifier.State(board)), old(Model()), s))
    {
      ghost var st := Model();
      DispatchInv(st, order);
      NothingAnnounced(notifier.State(board), st);
      var r := checker.Check(orderId, board);
      if r == None {
        return false;
      }
      if r.value {
        Dispatch(order);
      }
      done := true;
    }

    // False while the order's hook is unresolved: the id is taken, and Complete goes on from there.
    method Process(order: Order) returns (done: bool)
      requires Valid() && OrderOk(order) && orderId < persister.tp.Length
      modifies this, buy, sell, checker, notifier, board, persister, persister.tp
      ensures done <==> old(Answer(checker.futures, orderId + 1, board.values)).Some?
      ensures !done ==> Accepting() && checker.futures == old(checker.futures)
                        && Became(NextId(old(Model())), old(notifier.State(board)))
      ensures done ==>
                && Valid() && checker.futures == AfterCheck(old(checker.futures), old(orderId) + 1)
                && var pass := old(Answer(checker.futures, orderId + 1, board.values)).value;
                   var s := Engine.Process(old(Model()), order, pass);
                   old(Model()).log <= s.log && Became(s, Announced(old(notifier.State(board)), old(Model()), s))
    {
      ghost var st := Model();
      TakeId();
      done := Complete(order);
    }
  }
}
