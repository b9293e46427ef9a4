// Sorting a trader's raw orders by order id: each raw index is scattered to its stock's row, at
// the column of its order id; -1 marks the orders the other trader holds.
module Reader {
  import opened Bits
  import H = Hooks

  // Raw arrays have dx planes of dy * dz entries; the stock of an entry is its plane's number
  // modulo ten.
  function StockOf(idx: nat, plane: nat): nat
    requires plane > 0
  {
    idx / plane % H.NR_STOCKS
  }

  // The last of the first n raw entries that names order `id` of stock `stk`, or -1.
  function LastAt(orderId: seq<nat>, plane: nat, stk: nat, id: nat, n: nat): int
    requires plane > 0 && n <= |orderId|
  {
    if n == 0 then -1
    else if StockOf(n - 1, plane) == stk && orderId[n - 1] == id then n - 1
    else LastAt(orderId, plane, stk, id, n - 1)
  }

  // Raw entry k is order `id` of stock `stk`.
  predicate Names(orderId: seq<nat>, plane: nat, stk: nat, id: nat, k: nat)
    requires plane > 0 && k < |orderId|
  {
    StockOf(k, plane) == stk && orderId[k] == id
  }

  lemma {:induction false} LastAtIs(orderId: seq<nat>, plane: nat, stk: nat, id: nat, n: nat)
    requires plane > 0 && n <= |orderId|
    ensures var p := LastAt(orderId, plane, stk, id, n);
            && -1 <= p < n
            && (p >= 0 ==> Names(orderId, plane, stk, id, p))
            && forall k :: p < k < n ==> !Names(orderId, plane, stk, id, k)
  {
    if n > 0 && !Names(orderId, plane, stk, id, n - 1) {
      LastAtIs(orderId, plane, stk, id, n - 1);
    }
  }

  ghost predicate IdsDistinct(orderId: seq<nat>, plane: nat)
    requires plane > 0
  {
    forall i, j :: 0 <= i < j < |orderId| ==> !(StockOf(i, plane) == StockOf(j, plane) && orderId[i] == orderId[j])
  }

  // The table finds every raw order again if and only if no stock has two orders of one id.
  lemma ScatterInverts(orderId: seq<nat>, plane: nat)
    requires plane > 0
    ensures (forall i :: 0 <= i < |orderId| ==>
               LastAt(orderId, plane, StockOf(i, plane), orderId[i], |orderId|) == i)
       <==> IdsDistinct(orderId, plane)
  {
    if IdsDistinct(orderId, plane) {
      forall i | 0 <= i < |orderId|
        ensures LastAt(orderId, plane, StockOf(i, plane), orderId[i], |orderId|) == i
      {
        LastAtIs(orderId, plane, StockOf(i, plane), orderId[i], |orderId|);
        assert Names(orderId, plane, StockOf(i, plane), orderId[i], i);
      }
    }
  }

  // The first n columns of a stock's row.
  function StockRow(orderId: seq<nat>, plane: nat, stk: nat, n: nat): seq<int>
    requires plane > 0
  {
    if n == 0 then []
    else StockRow(orderId, plane, stk, n - 1) + [LastAt(orderId, plane, stk, n, |orderId|)]
  }

  lemma {:induction false} StockRowAt(orderId: seq<nat>, plane: nat, stk: nat, n: nat)
    requires plane > 0
    ensures |StockRow(orderId, plane, stk, n)| == n
    ensures forall c :: 0 <= c < n ==> StockRow(orderId, plane, stk, n)[c] == LastAt(orderId, plane, stk, c + 1, |orderId|)
  {
    if n > 0 {
      StockRowAt(orderId, plane, stk, n - 1);
    }
  }

  // One more cell of a row, met by a loop that skips -1.
  function WithCell(own: seq<int>, p: int): seq<int> {
    own + if p == -1 then [] else [p]
  }

  // The entries a loop over the row meets if it skips -1.
  function Held(row: seq<int>): seq<int> {
    if row == [] then []
    else
      var n := |row| - 1;
      WithCell(Held(row[..n]), row[n])
  }

  // Raw entry k is one of the orders 1..n of the stock.
  predicate IsOrderOf(orderId: seq<nat>, plane: nat, stk: nat, n: nat, k: int)
    requires plane > 0
  {
    0 <= k < |orderId| && StockOf(k, plane) == stk && 1 <= orderId[k] <= n
  }

  ghost predicate Ascending(orderId: seq<nat>, own: seq<int>) {
    && (forall i :: 0 <= i < |own| ==> 0 <= own[i] < |orderId|)
    && forall i, j :: 0 <= i < j < |own| ==> orderId[own[i]] < orderId[own[j]]
  }

  // The scatter is a sort: what a stock's row holds are raw entries of that stock with ids in
  // the row, strictly ascending by order id, hence none twice; and if no two entries of a stock
  // share an id, they are all of them.
  lemma {:induction false} RowIsSorted(orderId: seq<nat>, plane: nat, stk: nat, n: nat)
    requires plane > 0
    ensures var own := Held(StockRow(orderId, plane, stk, n));
            && AllOrdersOf(orderId, plane, stk, n, own)
            && Ascending(orderId, own)
            && (IdsDistinct(orderId, plane) ==> forall k :: IsOrderOf(orderId, plane, stk, n, k) ==> k in own)
  {
    if n > 0 {
      RowIsSorted(orderId, plane, stk, n - 1);
      var row, before := StockRow(orderId, plane, stk, n), StockRow(orderId, plane, stk, n - 1);
      assert row[..|row| - 1] == before;
      var p := row[|row| - 1];
      LastAtIs(orderId, plane, stk, n, |orderId|);
      OneMoreHeld(orderId, plane, stk, n, Held(before), p);
      if IdsDistinct(orderId, plane) {
        OneMoreFound(orderId, plane, stk, n, Held(before), p);
      }
    }
  }

  ghost predicate AllOrdersOf(orderId: seq<nat>, plane: nat, stk: nat, n: nat, own: seq<int>)
    requires plane > 0
  {
    forall i :: 0 <= i < |own| ==> IsOrderOf(orderId, plane, stk, n, own[i])
  }

  lemma OneMoreHeld(orderId: seq<nat>, plane: nat, stk: nat, n: nat, own: seq<int>, p: int)
    requires plane > 0 && n > 0 && AllOrdersOf(orderId, plane, stk, n - 1, own) && Ascending(orderId, own)
    requires p != -1 ==> 0 <= p < |orderId| && Names(orderId, plane, stk, n, p)
    ensures AllOrdersOf(orderId, plane, stk, n, WithCell(own, p)) && Ascending(orderId, WithCell(own, p))
  {
    var all := WithCell(own, p);
    forall i | 0 <= i < |all| ensures IsOrderOf(orderId, plane, stk, n, all[i]) {
      assert i < |own| ==> IsOrderOf(orderId, plane, stk, n - 1, own[i]);
    }
    forall i, j | 0 <= i < j < |all| ensures orderId[all[i]] < orderId[all[j]] {
      assert IsOrderOf(orderId, plane, stk, n - 1, own[i]);
    }
  }

  lemma OneMoreFound(orderId: seq<nat>, plane: nat, stk: nat, n: nat, own: seq<int>, p: int)
    requires plane > 0 && n > 0 && IdsDistinct(orderId, plane)
    requires forall k :: IsOrderOf(orderId, plane, stk, n - 1, k) ==> k in own
    requires p == LastAt(orderId, plane, stk, n, |orderId|)
    ensures forall k :: IsOrderOf(orderId, plane, stk, n, k) ==> k in WithCell(own, p)
  {
    LastAtIs(orderId, plane, stk, n, |orderId|);
    forall k | IsOrderOf(orderId, plane, stk, n, k) ensures k in WithCell(own, p) {
      if orderId[k] == n {
        assert Names(orderId, plane, stk, n, k);
        assert k == p;
      } else {
        assert IsOrderOf(orderId, plane, stk, n - 1, k);
      }
    }
  }

  lemma Distribute(a: nat, b: nat, c: nat)
    ensures (a + b) * c == a * c + b * c
  {
  }

  lemma Regroup(a: nat, b: nat, c: nat)
    ensures a * b * c == a * (b * c)
  {
  }

  lemma InRow(y: nat, z: nat, dy: nat, dz: nat)
    requires y < dy && z < dz
    ensures y * dz + z < dy * dz
  {
    Distribute(y + 1, dy - y - 1, dz);
    Distribute(y, 1, dz);
  }

  // Where the three nested loops stand.
  lemma RowMajor(x: nat, y: nat, z: nat, dy: nat, dz: nat)
    requires y < dy && z < dz
    ensures dy * dz > 0 && (x * dy + y) * dz + z < (x + 1) * dy * dz
    ensures ((x * dy + y) * dz + z) / (dy * dz) == x
  {
    InRow(y, z, dy, dz);
    Distribute(x * dy, y, dz);
    Regroup(x, dy, dz);
    Distribute(x, 1, dy);
    Distribute(x * dy, dy, dz);
    DivModIs((x * dy + y) * dz + z, dy * dz, x, y * dz + z);
  }

  ghost predicate Scattered(pos: array2<int>, orderId: seq<nat>, plane: nat, n: nat)
    reads pos
    requires plane > 0 && n <= |orderId|
  {
    forall s, c :: 0 <= s < pos.Length0 && 0 <= c < pos.Length1 ==>
      pos[s, c] == LastAt(orderId, plane, s, c + 1, n)
  }

  // Row s of the table is the row of stock s.
  ghost predicate IsTable(pos: array2<int>, orderId: seq<nat>, plane: nat)
    reads pos
    requires plane > 0
  {
    forall s: nat :: s < pos.Length0 ==> RowIs(pos, s, StockRow(orderId, plane, s, pos.Length1))
  }

  ghost predicate RowIs(pos: array2<int>, s: nat, row: seq<int>)
    reads pos
    requires s < pos.Length0
  {
    |row| == pos.Length1 && forall c :: 0 <= c < |row| ==> pos[s, c] == row[c]
  }

  // The loop of read_all; an order id outside 1..Length1 would be written outside its row.
  method Scatter(orderId: seq<nat>, dx: nat, dy: nat, dz: nat, pos: array2<int>)
    requires dy * dz > 0 && |orderId| == dx * dy * dz
    requires pos.Length0 == H.NR_STOCKS
    requires forall i :: 0 <= i < |orderId| ==> 1 <= orderId[i] <= pos.Length1
    requires forall s, c :: 0 <= s < pos.Length0 && 0 <= c < pos.Length1 ==> pos[s, c] == -1
    modifies pos
    ensures IsTable(pos, orderId, dy * dz)
  {
    for x := 0 to dx
      invariant x * dy * dz <= |orderId|
      invariant Scattered(pos, orderId, dy * dz, x * dy * dz)
    {
      for y := 0 to dy
        invariant (x * dy + y) * dz <= |orderId|
        invariant Scattered(pos, orderId, dy * dz, (x * dy + y) * dz)
      {
        for z := 0 to dz
          invariant (x * dy + y) * dz + z <= |orderId|
          invariant Scattered(pos, orderId, dy * dz, (x * dy + y) * dz + z)
        {
          RowMajor(x, y, z, dy, dz);
          var idx := (x * dy + y) * dz + z;
          assert idx < |orderId| by {
            InRange(x, dx, dy, dz);
          }
          var id := orderId[idx] - 1;
          pos[x % 10, id] := idx;
        }
        NextRow(x * dy + y, dz);
      }
      NextPlane(x, dy, dz);
    }
    ScatteredIsTable(pos, orderId, dy * dz);
  }

  lemma ScatteredIsTable(pos: array2<int>, orderId: seq<nat>, plane: nat)
    requires plane > 0 && Scattered(pos, orderId, plane, |orderId|)
    ensures IsTable(pos, orderId, plane)
  {
    forall s: nat | s < pos.Length0 ensures RowIs(pos, s, StockRow(orderId, plane, s, pos.Length1)) {
      StockRowAt(orderId, plane, s, pos.Length1);
    }
  }

  function Index(x: nat, y: nat, z: nat, dy: nat, dz: nat): nat {
    (x * dy + y) * dz + z
  }

  lemma LessFactor(a: nat, b: nat, r: nat, p: nat)
    requires a * p + r < b * p
    ensures a < b
  {
    Larger(a, b, p);
  }

  lemma Larger(a: nat, b: nat, p: nat)
    ensures a >= b ==> a * p >= b * p
  {
    if a >= b {
      Distribute(a - b, b, p);
    }
  }

  // Every raw index is a place in the three-dimensional array.
  lemma Coordinates(k: nat, dx: nat, dy: nat, dz: nat) returns (x: nat, y: nat, z: nat)
    requires dy * dz > 0 && k < dx * dy * dz
    ensures x < dx && y < dy && z < dz && Index(x, y, z, dy, dz) == k && x == k / (dy * dz)
  {
    var plane := dy * dz;
    x := k / plane;
    var r := k % plane;
    assert k == x * plane + r;
    Regroup(dx, dy, dz);
    LessFactor(x, dx, r, plane);
    assert dz > 0;
    y, z := r / dz, r % dz;
    assert r == y * dz + z;
    LessFactor(y, dy, z, dz);
    Distribute(x * dy, y, dz);
    Regroup(x, dy, dz);
  }

  // The entry at (x, y, z) is found in the row of stock x modulo ten, in the column of its order
  // id, unless another entry of that stock has the same id.
  lemma EntryIsInItsCell(pos: array2<int>, orderId: seq<nat>, dx: nat, dy: nat, dz: nat, x: nat, y: nat, z: nat)
    requires dy * dz > 0 && |orderId| == dx * dy * dz && IsTable(pos, orderId, dy * dz) && pos.Length0 == 10
    requires x < dx && y < dy && z < dz && Index(x, y, z, dy, dz) < |orderId|
    requires 1 <= orderId[(x * dy + y) * dz + z] <= pos.Length1
    requires forall u: nat, v: nat, w: nat | u < dx && v < dy && w < dz && Index(u, v, w, dy, dz) < |orderId| ::
               u % 10 == x % 10 && orderId[Index(u, v, w, dy, dz)] == orderId[Index(x, y, z, dy, dz)]
               ==> Index(u, v, w, dy, dz) == Index(x, y, z, dy, dz)
    ensures pos[x % 10, orderId[(x * dy + y) * dz + z] - 1] == (x * dy + y) * dz + z
  {
    var plane, idx := dy * dz, Index(x, y, z, dy, dz);
    var id := orderId[idx];
    RowMajor(x, y, z, dy, dz);
    StockRowAt(orderId, plane, x % 10, pos.Length1);
    assert RowIs(pos, x % 10, StockRow(orderId, plane, x % 10, pos.Length1));
    LastAtIs(orderId, plane, x % 10, id, |orderId|);
    var p := LastAt(orderId, plane, x % 10, id, |orderId|);
    assert Names(orderId, plane, x % 10, id, idx);
    var u, v, w := Coordinates(p, dx, dy, dz);
    assert Index(u, v, w, dy, dz) == p;
  }

  lemma InRange(x: nat, dx: nat, dy: nat, dz: nat)
    requires x < dx
    ensures (x + 1) * dy * dz <= dx * dy * dz
  {
    assert (x + 1) * dy <= dx * dy;
  }

  lemma NextRow(r: nat, dz: nat)
    ensures r * dz + dz == (r + 1) * dz
  {
  }

  lemma NextPlane(x: nat, dy: nat, dz: nat)
    ensures (x * dy + dy) * dz == (x + 1) * dy * dz
  {
    assert x * dy + dy == (x + 1) * dy;
  }
}
