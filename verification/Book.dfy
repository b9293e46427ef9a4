// One side of the order book: the priority order of resting orders and the sweep that
// an incoming order performs over them.
module Book {
  import opened Types

  // Processor::ComOrder, an order resting in a priority queue.
  datatype ComOrder = ComOrder(id: nat, price: nat, volume: nat)

  predicate Less(x: ComOrder, y: ComOrder) {
    if x.price == y.price then x.id > y.id else x.price < y.price
  }

  predicate Greater(x: ComOrder, y: ComOrder) {
    if x.price == y.price then x.id > y.id else x.price > y.price
  }

  // x leaves the queue of resting `dir` orders before y: `buy` is a max-heap under
  // std::less, `sell` one under std::greater.
  predicate Before(dir: Direction, x: ComOrder, y: ComOrder) {
    if dir == Bid then Less(y, x) else Greater(y, x)
  }

  // The queue listed from its top downwards.
  ghost predicate Sorted(dir: Direction, q: seq<ComOrder>) {
    forall i, j {:trigger Before(dir, q[i], q[j])} :: 0 <= i < j < |q| ==> Before(dir, q[i], q[j])
  }

  predicate Differ(x: ComOrder, y: ComOrder) {
    x.id != y.id
  }

  ghost predicate DistinctIds(q: seq<ComOrder>) {
    forall i, j {:trigger Differ(q[i], q[j])} :: 0 <= i < j < |q| ==> Differ(q[i], q[j])
  }

  // Both comparators are strict total orders on orders with different ids.
  lemma {:induction false} StrictTotalOrder(dir: Direction, x: ComOrder, y: ComOrder, z: ComOrder)
    ensures !Before(dir, x, x)
    ensures !(Before(dir, x, y) && Before(dir, y, x))
    ensures x.id != y.id ==> Before(dir, x, y) || Before(dir, y, x)
    ensures Before(dir, x, y) && Before(dir, y, z) ==> Before(dir, x, z)
  {
  }

  lemma TopIsFixed(dir: Direction, q: seq<ComOrder>, r: seq<ComOrder>)
    requires Sorted(dir, q) && Sorted(dir, r) && q != [] && r != []
    requires q[0] in r && r[0] in q
    ensures q[0] == r[0]
  {
    var i :| 0 <= i < |r| && r[i] == q[0];
    var j :| 0 <= j < |q| && q[j] == r[0];
    if i != 0 && j != 0 {
      assert Before(dir, r[0], r[i]) && Before(dir, q[0], q[j]);
      StrictTotalOrder(dir, q[0], r[0], r[0]);
    }
  }

  // The order in which a queue is emptied is fixed by its contents: the heap's internal
  // layout cannot show.
  lemma {:induction false} LayoutIndependence(dir: Direction, q: seq<ComOrder>, r: seq<ComOrder>)
    requires Sorted(dir, q) && Sorted(dir, r) && multiset(q) == multiset(r)
    ensures q == r
  {
    if q == [] || r == [] {
      assert |multiset(q)| == |multiset(r)|;
    } else {
      assert q[0] in multiset(r) && r[0] in multiset(q);
      TopIsFixed(dir, q, r);
      assert q == [q[0]] + q[1..] && r == [q[0]] + r[1..];
      assert multiset(q[1..]) == multiset(q) - multiset{q[0]} == multiset(r[1..]);
      LayoutIndependence(dir, q[1..], r[1..]);
    }
  }

  function Total(q: seq<ComOrder>): nat {
    if q == [] then 0 else q[0].volume + Total(q[1..])
  }

  // priority_queue::push on the sorted listing.
  function Insert(dir: Direction, q: seq<ComOrder>, x: ComOrder): seq<ComOrder> {
    if q == [] || Before(dir, x, q[0]) then [x] + q else [q[0]] + Insert(dir, q[1..], x)
  }

  lemma {:induction false} InsertFacts(dir: Direction, q: seq<ComOrder>, x: ComOrder)
    ensures var r := Insert(dir, q, x);
            && |r| == |q| + 1
            && multiset(r) == multiset(q) + multiset{x}
            && Total(r) == Total(q) + x.volume
            && r[0] == if q == [] || Before(dir, x, q[0]) then x else q[0]
  {
    if q == [] || Before(dir, x, q[0]) {
      assert ([x] + q)[1..] == q;
    } else {
      InsertFacts(dir, q[1..], x);
      var t := Insert(dir, q[1..], x);
      assert ([q[0]] + t)[1..] == t && q == [q[0]] + q[1..];
    }
  }

  lemma {:induction false} InsertMembers(dir: Direction, q: seq<ComOrder>, x: ComOrder)
    ensures forall y :: y in Insert(dir, q, x) <==> y in q || y == x
  {
    InsertFacts(dir, q, x);
    var r := Insert(dir, q, x);
    forall y ensures y in r <==> y in q || y == x {
      assert y in r <==> y in multiset(r);
      assert y in q <==> y in multiset(q);
    }
  }

  lemma {:induction false} InsertSorted(dir: Direction, q: seq<ComOrder>, x: ComOrder)
    requires Sorted(dir, q) && DistinctIds(q)
    requires forall y :: y in q ==> y.id != x.id
    ensures Sorted(dir, Insert(dir, q, x)) && DistinctIds(Insert(dir, q, x))
  {
    if q == [] {
    } else if Before(dir, x, q[0]) {
      forall j | 0 < j < |q| ensures Before(dir, x, q[j]) {
        StrictTotalOrder(dir, x, q[0], q[j]);
      }
    } else {
      InsertSorted(dir, q[1..], x);
      InsertMembers(dir, q[1..], x);
      var t := Insert(dir, q[1..], x);
      forall j | 0 <= j < |t| ensures Before(dir, q[0], t[j]) && Differ(q[0], t[j]) {
        assert t[j] in q[1..] || t[j] == x;
        if t[j] in q[1..] {
          var i :| 0 < i < |q| && q[i] == t[j];
          assert Before(dir, q[0], q[i]) && Differ(q[0], q[i]);
        }
      }
    }
  }

  // ---------------------------------------------------------------------------------
  // Sweeping
  // ---------------------------------------------------------------------------------

  datatype Fill = Fill(id: nat, price: nat, volume: nat)

  // What a sweep traded, what it left resting, and the volume it could not fill.
  datatype Sweep = Sweep(fills: seq<Fill>, rest: seq<ComOrder>, left: nat)

  // A resting `dir` order at `price` is acceptable to an incoming order with this limit.
  predicate Reaches(dir: Direction, price: nat, limit: Option<nat>) {
    match limit
    case None => true
    case Some(p) => if dir == Ask then price <= p else price >= p
  }

  // The sweep loop: pop the top; fill it completely or, once the incoming volume runs out,
  // push its residual back.
  function Match(dir: Direction, q: seq<ComOrder>, volume: nat, limit: Option<nat>): Sweep {
    if q == [] || volume == 0 || !Reaches(dir, q[0].price, limit) then
      Sweep([], q, volume)
    else if q[0].volume <= volume then
      var m := Match(dir, q[1..], volume - q[0].volume, limit);
      Sweep([Fill(q[0].id, q[0].price, q[0].volume)] + m.fills, m.rest, m.left)
    else
      Sweep([Fill(q[0].id, q[0].price, volume)], [q[0].(volume := q[0].volume - volume)] + q[1..], 0)
  }

  // Price-time priority in closed form, without any loop: the fills go to a prefix of the
  // sorted queue, each order getting what the ones before it left over; only the last may be
  // cut short, and then its residual is the new top; the sweep ends exactly when the volume is
  // used up, the queue is empty or the next price is beyond the limit.
  ghost predicate IsPriceTimeSweep(dir: Direction, q: seq<ComOrder>, volume: nat, limit: Option<nat>, m: Sweep) {
    && |m.fills| <= |q|
    && FillsAPrefix(dir, q, volume, limit, m.fills)
    && (|m.fills| < |q| ==> volume <= Total(q[..|m.fills|]) || !Reaches(dir, q[|m.fills|].price, limit))
    && LeavesTheResidual(q, volume, m)
  }

  ghost predicate FillsAPrefix(dir: Direction, q: seq<ComOrder>, volume: nat, limit: Option<nat>, fills: seq<Fill>)
    requires |fills| <= |q|
  {
    forall k :: 0 <= k < |fills| ==>
      && Reaches(dir, q[k].price, limit)
      && Total(q[..k]) < volume
      && fills[k] == Fill(q[k].id, q[k].price, Min(q[k].volume, volume - Total(q[..k])))
  }

  ghost predicate LeavesTheResidual(q: seq<ComOrder>, volume: nat, m: Sweep)
    requires |m.fills| <= |q|
  {
    var n := |m.fills|;
    if Total(q[..n]) <= volume then
      m.rest == q[n..] && m.left == volume - Total(q[..n])
    else
      n > 0 && m.left == 0 && m.rest == [q[n - 1].(volume := Total(q[..n]) - volume)] + q[n..]
  }

  lemma {:induction false} TotalDrop(q: seq<ComOrder>, k: nat)
    requires 0 < k <= |q|
    ensures Total(q[..k]) == q[0].volume + Total(q[1..][..k - 1])
  {
    assert q[..k][1..] == q[1..][..k - 1];
  }

  lemma {:induction false} FillsAPrefixCons(dir: Direction, q: seq<ComOrder>, volume: nat, limit: Option<nat>, fills: seq<Fill>)
    requires q != [] && 0 < volume && q[0].volume <= volume && Reaches(dir, q[0].price, limit)
    requires |fills| <= |q[1..]| && FillsAPrefix(dir, q[1..], volume - q[0].volume, limit, fills)
    ensures FillsAPrefix(dir, q, volume, limit, [Fill(q[0].id, q[0].price, q[0].volume)] + fills)
  {
    forall k | 0 < k <= |fills|
      ensures Total(q[..k]) == q[0].volume + Total(q[1..][..k - 1]) && q[k] == q[1..][k - 1]
    {
      TotalDrop(q, k);
    }
  }

  lemma PriceTimeCons(dir: Direction, q: seq<ComOrder>, volume: nat, limit: Option<nat>, t: Sweep)
    requires q != [] && 0 < volume && q[0].volume <= volume && Reaches(dir, q[0].price, limit)
    requires IsPriceTimeSweep(dir, q[1..], volume - q[0].volume, limit, t)
    ensures IsPriceTimeSweep(dir, q, volume, limit,
                             Sweep([Fill(q[0].id, q[0].price, q[0].volume)] + t.fills, t.rest, t.left))
  {
    FillsAPrefixCons(dir, q, volume, limit, t.fills);
    var n := |t.fills|;
    TotalDrop(q, n + 1);
    assert q[1..][n..] == q[n + 1..];
    assert n > 0 ==> q[1..][n - 1] == q[n];
  }

  lemma {:induction false} MatchIsPriceTime(dir: Direction, q: seq<ComOrder>, volume: nat, limit: Option<nat>)
    ensures IsPriceTimeSweep(dir, q, volume, limit, Match(dir, q, volume, limit))
  {
    if q == [] || volume == 0 || !Reaches(dir, q[0].price, limit) {
      assert q[..0] == [] && q[0..] == q;
    } else if q[0].volume <= volume {
      MatchIsPriceTime(dir, q[1..], volume - q[0].volume, limit);
      PriceTimeCons(dir, q, volume, limit, Match(dir, q[1..], volume - q[0].volume, limit));
    } else {
      PriceTimeCut(dir, q, volume, limit);
    }
  }

  lemma PriceTimeCut(dir: Direction, q: seq<ComOrder>, volume: nat, limit: Option<nat>)
    requires q != [] && 0 < volume < q[0].volume && Reaches(dir, q[0].price, limit)
    ensures IsPriceTimeSweep(dir, q, volume, limit,
                             Sweep([Fill(q[0].id, q[0].price, volume)],
                                   [q[0].(volume := q[0].volume - volume)] + q[1..], 0))
  {
    assert q[..1] == [q[0]] && q[..0] == [];
  }

  // The closed form determines the sweep: it is Match and nothing else.
  lemma {:induction false} PriceTimeRefinement(dir: Direction, q: seq<ComOrder>, volume: nat, limit: Option<nat>, m: Sweep)
    ensures IsPriceTimeSweep(dir, q, volume, limit, m) <==> m == Match(dir, q, volume, limit)
  {
    MatchIsPriceTime(dir, q, volume, limit);
    if IsPriceTimeSweep(dir, q, volume, limit, m) {
      var t := Match(dir, q, volume, limit);
      assert |m.fills| == |t.fills|;
      assert m.fills == t.fills;
      assert m.rest == t.rest;
    }
  }
}
