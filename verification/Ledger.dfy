// Conservation: where the volume of every order goes, over whole runs.
module Ledger {
  import opened Types
  import opened Book
  import opened BestFive
  import opened Engine

  function RestingUnder(q: seq<ComOrder>, id: nat): nat {
    if q == [] then 0 else (if q[0].id == id then q[0].volume else 0) + RestingUnder(q[1..], id)
  }

  function FilledUnder(fills: seq<Fill>, id: nat): nat {
    if fills == [] then 0 else (if fills[0].id == id then fills[0].volume else 0) + FilledUnder(fills[1..], id)
  }

  function FillTotal(fills: seq<Fill>): nat {
    if fills == [] then 0 else fills[0].volume + FillTotal(fills[1..])
  }

  function TradedUnder(log: seq<Trade>, id: nat): nat {
    if log == [] then 0
    else (if log[0].bidId == id || log[0].askId == id then log[0].volume else 0) + TradedUnder(log[1..], id)
  }

  // The part of an order's volume that has been traded or is still in a book.
  function Account(st: State, id: nat): nat {
    TradedUnder(st.log, id) + RestingUnder(st.buy, id) + RestingUnder(st.sell, id)
  }

  // Volume an incoming order with this limit can meet.
  function Within(dir: Direction, q: seq<ComOrder>, limit: Option<nat>): nat {
    if q == [] || !Reaches(dir, q[0].price, limit) then 0 else q[0].volume + Within(dir, q[1..], limit)
  }

  // Volume of an arriving order that is dropped on the spot, type by type.
  function Cancelled(st: State, o: Order, pass: bool): nat {
    var opp := Opposite(o.dir);
    var q := Queue(st, opp);
    if !pass then o.volume
    else
      match o.typ
      case Limit => if st.minPrice <= o.price <= st.maxPrice then 0 else o.volume
      case CounterBest => if q == [] then o.volume else 0
      case ClientBest => if Queue(st, o.dir) == [] then o.volume else 0
      case BestFive => o.volume - Min(o.volume, Within(opp, q, LevelLimit(q, LEVELS)))
      case FAK => o.volume - Min(o.volume, Total(q))
      case FOK => if Total(q) < o.volume then o.volume else 0
  }

  lemma {:induction false} TradedAppend(a: seq<Trade>, b: seq<Trade>, id: nat)
    ensures TradedUnder(a + b, id) == TradedUnder(a, id) + TradedUnder(b, id)
  {
    if a == [] {
      assert a + b == b;
    } else {
      assert (a + b)[1..] == a[1..] + b;
      TradedAppend(a[1..], b, id);
    }
  }

  lemma {:induction false} MatchKeepsIds(dir: Direction, q: seq<ComOrder>, volume: nat, limit: Option<nat>, id: nat)
    ensures var m := Match(dir, q, volume, limit);
            FilledUnder(m.fills, id) + RestingUnder(m.rest, id) == RestingUnder(q, id)
  {
    if q != [] && volume != 0 && Reaches(dir, q[0].price, limit) {
      var m := Match(dir, q, volume, limit);
      if q[0].volume <= volume {
        MatchKeepsIds(dir, q[1..], volume - q[0].volume, limit, id);
        assert m.fills[1..] == Match(dir, q[1..], volume - q[0].volume, limit).fills;
      } else {
        assert m.rest[1..] == q[1..] && m.fills[1..] == [];
      }
    }
  }

  lemma {:induction false} MatchSpends(dir: Direction, q: seq<ComOrder>, volume: nat, limit: Option<nat>)
    ensures var m := Match(dir, q, volume, limit);
            FillTotal(m.fills) + m.left == volume
  {
    if q != [] && volume != 0 && Reaches(dir, q[0].price, limit) {
      var m := Match(dir, q, volume, limit);
      if q[0].volume <= volume {
        MatchSpends(dir, q[1..], volume - q[0].volume, limit);
        assert m.fills[1..] == Match(dir, q[1..], volume - q[0].volume, limit).fills;
      } else {
        assert m.fills[1..] == [];
      }
    }
  }

  lemma MatchConserves(dir: Direction, q: seq<ComOrder>, volume: nat, limit: Option<nat>, id: nat)
    ensures var m := Match(dir, q, volume, limit);
            && FilledUnder(m.fills, id) + RestingUnder(m.rest, id) == RestingUnder(q, id)
            && FillTotal(m.fills) + m.left == volume
  {
    MatchKeepsIds(dir, q, volume, limit, id);
    MatchSpends(dir, q, volume, limit);
  }

  lemma {:induction false} MatchLeft(dir: Direction, q: seq<ComOrder>, volume: nat, limit: Option<nat>)
    ensures Match(dir, q, volume, limit).left == volume - Min(volume, Within(dir, q, limit))
  {
    if q == [] || volume == 0 || !Reaches(dir, q[0].price, limit) {
    } else if q[0].volume <= volume {
      MatchLeft(dir, q[1..], volume - q[0].volume, limit);
    }
  }

  lemma {:induction false} WithinAll(dir: Direction, q: seq<ComOrder>)
    ensures Within(dir, q, None) == Total(q)
  {
    if q != [] {
      WithinAll(dir, q[1..]);
    }
  }

  lemma {:induction false} TradesAccount(dir: Direction, taker: nat, fills: seq<Fill>, id: nat)
    requires forall k :: 0 <= k < |fills| ==> fills[k].id != taker
    ensures TradedUnder(Trades(dir, taker, fills), id)
         == if id == taker then FillTotal(fills) else FilledUnder(fills, id)
  {
    if fills != [] {
      assert Trades(dir, taker, fills)[1..] == Trades(dir, taker, fills[1..]);
      TradesAccount(dir, taker, fills[1..], id);
    }
  }

  lemma {:induction false} InsertAccount(dir: Direction, q: seq<ComOrder>, x: ComOrder, id: nat)
    ensures RestingUnder(Insert(dir, q, x), id) == RestingUnder(q, id) + if x.id == id then x.volume else 0
  {
    var r := Insert(dir, q, x);
    if q == [] || Before(dir, x, q[0]) {
      assert r[1..] == q;
    } else {
      assert r[1..] == Insert(dir, q[1..], x);
      InsertAccount(dir, q[1..], x, id);
    }
  }

  lemma SweptAccount(st: State, dir: Direction, volume: nat, limit: Option<nat>, id: nat)
    requires Ready(st)
    ensures var m := Match(Opposite(dir), Queue(st, Opposite(dir)), volume, limit);
            m.left <= volume
            && Account(Swept(st, dir, st.orderId, volume, m), id)
            == Account(st, id) + if id == st.orderId then volume - m.left else 0
  {
    var opp := Opposite(dir);
    var q := Queue(st, opp);
    var m := Match(opp, q, volume, limit);
    MatchConserves(opp, q, volume, limit, id);
    MatchFills(opp, q, volume, limit);
    forall k | 0 <= k < |m.fills| ensures m.fills[k].id != st.orderId {
      assert FillFrom(opp, q[k], m.fills[k], limit);
    }
    TradesAccount(dir, st.orderId, m.fills, id);
    TradedAppend(st.log, Trades(dir, st.orderId, m.fills), id);
    if id == st.orderId {
      UnusedIsZero(q, id);
    }
  }

  lemma {:induction false} UnusedIsZero(q: seq<ComOrder>, id: nat)
    requires IdUnused(q, id)
    ensures RestingUnder(q, id) == 0
  {
    if q != [] {
      assert q[0].id != id;
      assert forall k :: 0 <= k < |q[1..]| ==> q[1..][k] == q[k + 1];
      UnusedIsZero(q[1..], id);
    }
  }

  lemma RestAccount(st: State, dir: Direction, price: nat, volume: nat, id: nat)
    ensures Account(Rest(st, dir, st.orderId, price, volume), id)
         == Account(st, id) + if id == st.orderId then volume else 0
  {
    InsertAccount(dir, Queue(st, dir), ComOrder(st.orderId, price, volume), id);
  }

  lemma LimitAccount(st: State, dir: Direction, price: nat, volume: nat, id: nat)
    requires Ready(st) && st.minPrice <= price <= st.maxPrice
    ensures Account(ProcessLimit(st, dir, st.orderId, price, volume), id)
         == Account(st, id) + if id == st.orderId then volume else 0
  {
    var m := Match(Opposite(dir), Queue(st, Opposite(dir)), volume, Some(price));
    SweptAccount(st, dir, volume, Some(price), id);
    if m.left > 0 {
      RestAccount(Swept(st, dir, st.orderId, volume, m), dir, price, m.left, id);
    }
  }

  lemma CounterBestAccount(st: State, dir: Direction, volume: nat, id: nat)
    requires Ready(st) && Queue(st, Opposite(dir)) != []
    ensures Account(ProcessCounterBest(st, dir, st.orderId, volume), id)
         == Account(st, id) + if id == st.orderId then volume else 0
  {
    var q := Queue(st, Opposite(dir));
    assert OrderFits(q[0], st.minPrice, st.maxPrice, st.orderId);
    LimitAccount(st, dir, q[0].price, volume, id);
  }

  lemma BestFiveAccount(st: State, dir: Direction, volume: nat, id: nat)
    requires Ready(st)
    ensures var q := Queue(st, Opposite(dir));
            Account(ProcessBestFive(st, dir, st.orderId, volume), id)
            == Account(st, id)
               + if id == st.orderId then Min(volume, Within(Opposite(dir), q, LevelLimit(q, LEVELS))) else 0
  {
    var opp := Opposite(dir);
    var q := Queue(st, opp);
    SentinelIsSafe(st, opp);
    BestFiveIsThreshold(opp, q, volume);
    SweptAccount(st, dir, volume, LevelLimit(q, LEVELS), id);
    MatchLeft(opp, q, volume, LevelLimit(q, LEVELS));
  }

  lemma FakAccount(st: State, dir: Direction, volume: nat, id: nat)
    requires Ready(st)
    ensures Account(ProcessFak(st, dir, st.orderId, volume), id)
         == Account(st, id) + if id == st.orderId then Min(volume, Total(Queue(st, Opposite(dir)))) else 0
  {
    var opp := Opposite(dir);
    var q := Queue(st, opp);
    SweptAccount(st, dir, volume, None, id);
    MatchLeft(opp, q, volume, None);
    WithinAll(opp, q);
  }

  lemma DispatchAccount(st: State, o: Order, id: nat)
    requires Ready(st) && OrderOk(o)
    ensures Account(Dispatch(st, o), id)
         == Account(st, id) + if id == st.orderId then o.volume - Cancelled(st, o, true) else 0
  {
    match o.typ
    case Limit =>
      if st.minPrice <= o.price <= st.maxPrice {
        LimitAccount(st, o.dir, o.price, o.volume, id);
      }
    case CounterBest =>
      if Queue(st, Opposite(o.dir)) != [] {
        CounterBestAccount(st, o.dir, o.volume, id);
      }
    case ClientBest =>
      var q := Queue(st, o.dir);
      if q != [] {
        RestAccount(st, o.dir, q[0].price, o.volume, id);
      }
    case BestFive => BestFiveAccount(st, o.dir, o.volume, id);
    case FAK => FakAccount(st, o.dir, o.volume, id);
    case FOK => FakAccount(st, o.dir, o.volume, id);
  }

  // One order: every other account is untouched, and the new one opens with all that was not
  // cancelled.
  lemma ProcessAccount(st: State, o: Order, pass: bool, id: nat)
    requires Inv(st) && OrderOk(o)
    ensures Account(Process(st, o, pass), id)
         == Account(st, id) + if id == st.orderId + 1 then o.volume - Cancelled(st, o, pass) else 0
  {
    if pass {
      NextIsReady(st);
      DispatchAccount(NextId(st), o, id);
    }
  }

  // Over every run: submitted = traded + resting + cancelled, for every order id; and no
  // volume is ever booked under an id that was not submitted.
  lemma {:induction false} RunConserves(prevClose: u32, orders: seq<Order>, passes: seq<bool>, id: nat)
    requires PrevCloseFits(prevClose) && |orders| == |passes|
    requires forall k :: 0 <= k < |orders| ==> OrderOk(orders[k])
    ensures var st := Run(Init(prevClose), orders, passes);
            if 1 <= id <= |orders| then
              Account(st, id)
              + Cancelled(Run(Init(prevClose), orders[..id - 1], passes[..id - 1]), orders[id - 1], passes[id - 1])
              == orders[id - 1].volume
            else Account(st, id) == 0
  {
    if orders == [] {
      assert Account(Init(prevClose), id) == 0;
    } else {
      var n := |orders| - 1;
      var os, ps := orders[..n], passes[..n];
      var s := Run(Init(prevClose), os, ps);
      RunInv(prevClose, os, ps);
      RunConserves(prevClose, os, ps, id);
      ProcessAccount(s, orders[n], passes[n], id);
      assert Run(Init(prevClose), orders, passes) == Process(s, orders[n], passes[n]);
      if 1 <= id <= n {
        assert os[..id - 1] == orders[..id - 1] && ps[..id - 1] == passes[..id - 1];
      }
    }
  }
}
