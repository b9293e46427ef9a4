// The "best five levels" sweep: the source counts price levels while it pops, with 0 as the
// initial "last price".  This module relates that counter to an ordinary price limit.
module BestFive {
  import opened Types
  import opened Book

  const LEVELS: nat := 5

  // The level counter once `price` has been seen.
  function Counted(price: nat, lastPrice: nat, priceCount: nat): nat {
    if price != lastPrice then priceCount + 1 else priceCount
  }

  // The loop of process_best_five.
  function MatchFive(dir: Direction, q: seq<ComOrder>, volume: nat, lastPrice: nat, priceCount: nat): Sweep {
    if q == [] || volume == 0 then
      Sweep([], q, volume)
    else
      var count := Counted(q[0].price, lastPrice, priceCount);
      if count > LEVELS && q[0].price != lastPrice then
        Sweep([], q, volume)
      else if q[0].volume <= volume then
        var m := MatchFive(dir, q[1..], volume - q[0].volume, q[0].price, count);
        Sweep([Fill(q[0].id, q[0].price, q[0].volume)] + m.fills, m.rest, m.left)
      else
        Sweep([Fill(q[0].id, q[0].price, volume)], [q[0].(volume := q[0].volume - volume)] + q[1..], 0)
  }

  // The distinct prices of a queue, best first.
  function Levels(q: seq<ComOrder>): seq<nat> {
    if q == [] then []
    else
      var r := Levels(q[1..]);
      if r != [] && r[0] == q[0].price then r else [q[0].price] + r
  }

  // A limit at the n-th best level; no limit when there are fewer levels.
  function LevelLimit(q: seq<ComOrder>, n: nat): Option<nat>
    requires n > 0
  {
    if |Levels(q)| < n then None else Some(Levels(q)[n - 1])
  }

  lemma {:induction false} LevelsAreMonotone(dir: Direction, q: seq<ComOrder>)
    requires Sorted(dir, q)
    ensures q == [] <==> Levels(q) == []
    ensures q != [] ==> Levels(q)[0] == q[0].price
    ensures forall i, j :: 0 <= i < j < |Levels(q)| ==>
              Reaches(dir, Levels(q)[i], Some(Levels(q)[j])) && !Reaches(dir, Levels(q)[j], Some(Levels(q)[i]))
    ensures forall i :: 0 <= i < |Levels(q)| ==> exists k :: 0 <= k < |q| && q[k].price == Levels(q)[i]
  {
    if q != [] {
      LevelsAreMonotone(dir, q[1..]);
      var r := Levels(q[1..]);
      forall i | 0 <= i < |Levels(q)| ensures exists k :: 0 <= k < |q| && q[k].price == Levels(q)[i] {
        if Levels(q)[i] == q[0].price {
        } else {
          var i' :| 0 <= i' < |r| && r[i'] == Levels(q)[i];
          var k :| 0 <= k < |q[1..]| && q[1..][k].price == r[i'];
          assert q[k + 1] == q[1..][k];
        }
      }
      if r != [] {
        assert Before(dir, q[0], q[1]);
      }
    }
  }

  // Levels the counter still admits, the one it stands on included.
  function Admitted(q: seq<ComOrder>, lastPrice: nat, priceCount: nat): nat
    requires priceCount <= LEVELS
  {
    LEVELS - priceCount + if q != [] && q[0].price == lastPrice then 1 else 0
  }

  // Taking the top order moves the counter by at most one level and never moves the limit.
  lemma NextAdmitted(dir: Direction, q: seq<ComOrder>, lastPrice: nat, priceCount: nat)
    requires Sorted(dir, q) && |q| > 1 && priceCount <= LEVELS && Admitted(q, lastPrice, priceCount) > 0
    ensures var n := Admitted(q, lastPrice, priceCount);
            var count := Counted(q[0].price, lastPrice, priceCount);
            && count <= LEVELS
            && var k := Admitted(q[1..], q[0].price, count);
               if k == 0 then !Reaches(dir, q[1].price, LevelLimit(q, n)) else LevelLimit(q[1..], k) == LevelLimit(q, n)
  {
    LevelsAreMonotone(dir, q);
    LevelsAreMonotone(dir, q[1..]);
    assert Before(dir, q[0], q[1]);
    if q[1].price != q[0].price {
      assert Levels(q) == [q[0].price] + Levels(q[1..]);
    }
  }

  // At any point of the loop the counter acts as a price limit.
  lemma {:induction false} CounterIsLimit(dir: Direction, q: seq<ComOrder>, volume: nat, lastPrice: nat, priceCount: nat)
    requires Sorted(dir, q) && priceCount <= LEVELS
    ensures MatchFive(dir, q, volume, lastPrice, priceCount)
         == var n := Admitted(q, lastPrice, priceCount);
            if n == 0 then Sweep([], q, volume) else Match(dir, q, volume, LevelLimit(q, n))
  {
    var n := Admitted(q, lastPrice, priceCount);
    if q != [] && volume != 0 && n != 0 {
      LevelsAreMonotone(dir, q);
      assert Reaches(dir, q[0].price, LevelLimit(q, n));
      if q[0].volume <= volume && |q| > 1 {
        NextAdmitted(dir, q, lastPrice, priceCount);
        assert Sorted(dir, q[1..]) by { TailSorted(dir, q); }
        CounterIsLimit(dir, q[1..], volume - q[0].volume, q[0].price,
                       Counted(q[0].price, lastPrice, priceCount));
      }
    }
  }

  lemma TailSorted(dir: Direction, q: seq<ComOrder>)
    requires q != [] && Sorted(dir, q)
    ensures Sorted(dir, q[1..])
  {
    forall i, j | 0 <= i < j < |q[1..]| ensures Before(dir, q[1..][i], q[1..][j]) {
      assert Before(dir, q[i + 1], q[j + 1]);
    }
  }

  // Volumes left beyond a limit survive any sweep with that limit.
  lemma {:induction false} BeyondLimitSurvives(dir: Direction, q: seq<ComOrder>, volume: nat, limit: Option<nat>, x: ComOrder)
    requires x in q && !Reaches(dir, x.price, limit)
    ensures x in Match(dir, q, volume, limit).rest
  {
    if q == [] || volume == 0 || !Reaches(dir, q[0].price, limit) {
    } else {
      assert x in q[1..];
      if q[0].volume <= volume {
        BeyondLimitSurvives(dir, q[1..], volume - q[0].volume, limit, x);
      }
    }
  }

  lemma {:induction false} LargeSweepClears(dir: Direction, q: seq<ComOrder>, volume: nat, limit: Option<nat>)
    requires Sorted(dir, q) && Total(q) <= volume
    requires forall x :: x in q ==> x.volume > 0
    ensures forall x :: x in Match(dir, q, volume, limit).rest ==> !Reaches(dir, x.price, limit)
  {
    if q == [] {
    } else if !Reaches(dir, q[0].price, limit) {
      forall k | 0 <= k < |q| ensures !Reaches(dir, q[k].price, limit) {
        assert k > 0 ==> Before(dir, q[0], q[k]);
      }
    } else {
      assert q[0] in q;
      LargeSweepClears(dir, q[1..], volume - q[0].volume, limit);
    }
  }

  // The sentinel collides only with a price-0 level at the top, and shows only if five more
  // levels follow it.
  ghost predicate SentinelSafe(q: seq<ComOrder>) {
    q == [] || q[0].price != 0 || |Levels(q)| <= LEVELS
  }

  lemma BestFiveIsThreshold(dir: Direction, q: seq<ComOrder>, volume: nat)
    requires Sorted(dir, q) && SentinelSafe(q)
    ensures MatchFive(dir, q, volume, 0, 0) == Match(dir, q, volume, LevelLimit(q, LEVELS))
  {
    CounterIsLimit(dir, q, volume, 0, 0);
    if q != [] && q[0].price == 0 {
      LevelsAreMonotone(dir, q);
      LimitAtLastLevel(dir, q, volume, LevelLimit(q, LEVELS));
      LimitAtLastLevel(dir, q, volume, LevelLimit(q, LEVELS + 1));
    }
  }

  // A limit no level exceeds is no limit.
  lemma {:induction false} LimitAtLastLevel(dir: Direction, q: seq<ComOrder>, volume: nat, limit: Option<nat>)
    requires Sorted(dir, q)
    requires limit.Some? ==> |Levels(q)| > 0 && Reaches(dir, Levels(q)[|Levels(q)| - 1], limit)
    ensures Match(dir, q, volume, limit) == Match(dir, q, volume, None)
  {
    if q != [] && volume != 0 && limit.Some? {
      LevelsAreMonotone(dir, q);
      assert Reaches(dir, q[0].price, limit);
      if q[0].volume <= volume {
        LevelsAreMonotone(dir, q[1..]);
        if q[1..] == [] {
        } else {
          LimitAtLastLevel(dir, q[1..], volume - q[0].volume, limit);
        }
      }
    }
  }

  // For queues of positive volumes the counter equals the five-level threshold on every
  // incoming volume if and only if the sentinel is safe.
  lemma BestFiveExact(dir: Direction, q: seq<ComOrder>)
    requires Sorted(dir, q) && forall x :: x in q ==> x.volume > 0
    ensures (forall volume: nat :: MatchFive(dir, q, volume, 0, 0) == Match(dir, q, volume, LevelLimit(q, LEVELS)))
       <==> SentinelSafe(q)
  {
    if SentinelSafe(q) {
      forall volume: nat ensures MatchFive(dir, q, volume, 0, 0) == Match(dir, q, volume, LevelLimit(q, LEVELS)) {
        BestFiveIsThreshold(dir, q, volume);
      }
    } else {
      var v := Total(q);
      LevelsAreMonotone(dir, q);
      CounterIsLimit(dir, q, v, 0, 0);
      var k :| 0 <= k < |q| && q[k].price == Levels(q)[LEVELS];
      BeyondLimitSurvives(dir, q, v, LevelLimit(q, LEVELS), q[k]);
      LargeSweepClears(dir, q, v, LevelLimit(q, LEVELS + 1));
      assert MatchFive(dir, q, v, 0, 0) != Match(dir, q, v, LevelLimit(q, LEVELS));
    }
  }
}
