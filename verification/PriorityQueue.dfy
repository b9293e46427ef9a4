// std::priority_queue<ComOrder> with either of the two comparators: a bag of orders whose top
// is the one no other precedes.  How the heap lays them out is left open.
module PriorityQueues {
  import opened Types
  import opened Book

  class PriorityQueue {
    const dir: Direction
    var elems: multiset<ComOrder>
    // The orders in the sequence in which pops will return them.
    ghost var listing: seq<ComOrder>

    ghost predicate Valid()
      reads this
    {
      multiset(listing) == elems
    }

    constructor (dir: Direction)
      ensures Valid() && listing == [] && this.dir == dir
    {
      this.dir, elems, listing := dir, multiset{}, [];
    }

    predicate Empty()
      reads this
      requires Valid()
      ensures Empty() <==> listing == []
    {
      assert listing != [] ==> listing[0] in elems;
      elems == multiset{}
    }

    method Top() returns (t: ComOrder)
      requires Valid() && listing != [] && Sorted(dir, listing)
      ensures t == listing[0]
    {
      assert listing[0] in elems;
      forall u | u in elems ensures u == listing[0] || Before(dir, listing[0], u) {
        var i :| 0 <= i < |listing| && listing[i] == u;
      }
      t :| t in elems && forall u :: u in elems ==> u == t || Before(dir, t, u);
      StrictTotalOrder(dir, t, listing[0], t);
    }

    method Pop()
      requires Valid() && listing != [] && Sorted(dir, listing)
      modifies this
      ensures Valid() && listing == old(listing)[1..]
    {
      var t := Top();
      assert listing == [listing[0]] + listing[1..];
      elems := elems - multiset{t};
      listing := listing[1..];
    }

    method Push(x: ComOrder)
      requires Valid()
      modifies this
      ensures Valid() && listing == Insert(dir, old(listing), x)
    {
      InsertFacts(dir, listing, x);
      elems := elems + multiset{x};
      listing := Insert(dir, listing, x);
    }
  }
}
