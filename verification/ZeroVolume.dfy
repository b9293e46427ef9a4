// When the assert in Processor::commit can fire: a zero-volume order that comes to rest is a
// trap that later orders spring, and nothing else is.
module ZeroVolume {
  import opened Types
  import opened Book
  import opened Engine

  ghost predicate HasZeroTrade(log: seq<Trade>) {
    exists k :: 0 <= k < |log| && log[k].volume == 0
  }

  // Some later input makes commit fail its assert.
  ghost predicate CanTrip(st: State) {
    exists orders: seq<Order>, passes: seq<bool> ::
      Trips(st, orders, passes)
  }

  ghost predicate Trips(st: State, orders: seq<Order>, passes: seq<bool>) {
    && |orders| == |passes|
    && (forall k :: 0 <= k < |orders| ==> OrderOk(orders[k]))
    && HasZeroTrade(Run(st, orders, passes).log)
  }

  lemma {:induction false} RunFromInv(st: State, orders: seq<Order>, passes: seq<bool>)
    requires Inv(st) && |orders| == |passes|
    requires forall k :: 0 <= k < |orders| ==> OrderOk(orders[k])
    ensures Inv(Run(st, orders, passes))
  {
    if orders != [] {
      var n := |orders| - 1;
      RunFromInv(st, orders[..n], passes[..n]);
      ProcessInv(Run(st, orders[..n], passes[..n]), orders[n], passes[n]);
    }
  }

  lemma {:induction false} RunCons(st: State, o: Order, pass: bool, orders: seq<Order>, passes: seq<bool>)
    requires |orders| == |passes|
    ensures Run(st, [o] + orders, [pass] + passes) == Run(Process(st, o, pass), orders, passes)
  {
    var os, ps := [o] + orders, [pass] + passes;
    var n := |orders|;
    if n == 0 {
      assert os[..0] == [] && ps[..0] == [];
      assert Run(st, os[..0], ps[..0]) == st;
    } else {
      assert os[..n] == [o] + orders[..n - 1] && ps[..n] == [pass] + passes[..n - 1];
      RunCons(st, o, pass, orders[..n - 1], passes[..n - 1]);
    }
  }

  // One lot taken from the top of a queue.
  lemma OneLot(dir: Direction, q: seq<ComOrder>, x: ComOrder)
    requires x in q && x.volume == 0 && q[0].volume > 0
    ensures var m := Match(dir, q, 1, None);
            x in m.rest && Total(m.rest) == Total(q) - 1
  {
    var m := Match(dir, q, 1, None);
    if q[0].volume == 1 {
      assert Match(dir, q[1..], 0, None) == Sweep([], q[1..], 0);
    } else {
      assert m.rest[1..] == q[1..];
    }
    assert x in q[1..];
  }

  // A resting order without volume, in either book, can always be sprung: buy or sell single
  // lots until it reaches the top.
  lemma {:induction false} ZeroRestTrips(st: State, dir: Direction, x: ComOrder)
    requires x in Queue(st, dir) && x.volume == 0
    ensures CanTrip(st)
    decreases Total(Queue(st, dir))
  {
    var q := Queue(st, dir);
    var o := Order(Opposite(dir), FAK, 0, 1);
    var s := Process(st, o, true);
    var m := Match(dir, q, 1, None);
    if q[0].volume == 0 {
      assert m.fills[0] == Fill(q[0].id, q[0].price, 0);
      var log := st.log + Trades(o.dir, st.orderId + 1, m.fills);
      assert log[|st.log|].volume == 0;
      assert s.log == log;
      RunCons(st, o, true, [], []);
      assert Run(s, [], []) == s;
      assert Trips(st, [o] + [], [true] + []);
    } else {
      OneLot(dir, q, x);
      assert Queue(s, dir) == m.rest;
      ZeroRestTrips(s, dir, x);
      var orders, passes :| Trips(s, orders, passes);
      RunCons(st, o, true, orders, passes);
      assert Trips(st, [o] + orders, [true] + passes);
    }
  }

  // An arriving order makes the assert reachable if and only if it is a ClientBest order
  // without volume whose own book is not empty and whose hook lets it pass.
  lemma ZeroVolumeExact(st: State, o: Order, pass: bool)
    requires Inv(st) && o.volume <= MAX_VOLUME
    ensures CanTrip(Process(st, o, pass))
       <==> pass && o.typ == ClientBest && o.volume == 0 && Queue(st, o.dir) != []
  {
    var s := Process(st, o, pass);
    if pass && o.typ == ClientBest && o.volume == 0 && Queue(st, o.dir) != [] {
      var x := ComOrder(st.orderId + 1, Queue(st, o.dir)[0].price, 0);
      InsertMembers(o.dir, Queue(st, o.dir), x);
      ZeroRestTrips(s, o.dir, x);
    } else {
      if OrderOk(o) {
        ProcessInv(st, o, pass);
      } else {
        NextIsReady(st);
      }
      if CanTrip(s) {
        var orders, passes :| Trips(s, orders, passes);
        RunFromInv(s, orders, passes);
      }
    }
  }
}
