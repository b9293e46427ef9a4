// The trade file of one stock: a fixed number of slots, filled in order.
module Persister {
  import opened Types

  class Persister {
    const tp: array<Trade>
    var nowCnt: nat

    ghost predicate Valid()
      reads this
    {
      nowCnt <= tp.Length
    }

    ghost function Written(): seq<Trade>
      reads this, tp
      requires Valid()
    {
      tp[..nowCnt]
    }

    constructor (maxTradeCount: nat)
      ensures Valid() && Written() == [] && tp.Length == maxTradeCount && fresh(tp)
    {
      tp := new Trade[maxTradeCount](_ => Trade(0, 0, 0, 0));
      nowCnt := 0;
    }

    // The capacity assert is the precondition.
    method Persist(bidId: nat, askId: nat, price: nat, volume: nat)
      requires Valid() && nowCnt < tp.Length
      modifies this, tp
      ensures Valid()
      ensures Written() == old(Written()) + [Trade(bidId, askId, price, volume)]
    {
      tp[nowCnt] := Trade(bidId, askId, price, volume);
      nowCnt := nowCnt + 1;
    }
  }
}
