// What a hook means in a run: the answer an order gets is the verdict on the trade its hook names.
module Verdicts {
  import opened Types
  import opened Hooks
  import opened Schedule
  import opened Exchange

  // Order ids and trade ids count from 1, and an order has at most one hook.
  ghost predicate HooksUsable(hooks: seq<Hook>) {
    && (forall c :: 0 <= c < |hooks| ==> hooks[c].selfOrderId >= 1 && hooks[c].targetTradeId >= 1)
    && forall c, d :: 0 <= c < d < |hooks| ==>
         !(hooks[c].srcStk == hooks[d].srcStk && hooks[c].selfOrderId == hooks[d].selfOrderId)
  }

  // Hook h belongs to order `id` of stock s.
  predicate Guards(h: Hook, s: nat, id: nat) {
    h.srcStk == s && h.selfOrderId == id
  }

  // The verdict on the trade a hook names, once it has been made.
  function Verdict(h: Hook, log: seq<Trade>): Option<bool> {
    if 1 <= h.targetTradeId <= |log| then Some(log[h.targetTradeId - 1].volume <= h.threshold) else None
  }

  lemma {:induction false} CountOne<T>(s: seq<T>, x: T)
    requires forall i, j :: 0 <= i < j < |s| ==> s[i] != s[j]
    ensures multiset(s)[x] <= 1
  {
    if s != [] {
      assert s == [s[0]] + s[1..];
      assert forall i :: 0 <= i < |s[1..]| ==> s[1..][i] == s[i + 1];
      CountOne(s[1..], x);
      if s[0] == x {
        assert x !in s[1..];
      }
    }
  }

  lemma CountTwo<T>(s: seq<T>, i: nat, j: nat)
    requires i < j < |s| && s[i] == s[j]
    ensures multiset(s)[s[i]] >= 2
  {
    assert s == s[..j] + s[j..];
    assert s[..j][i] == s[i] && s[i] in s[..j];
    assert s[j..][0] == s[j] && s[j] in s[j..];
  }

  // Sorting keeps elements distinct.
  lemma StillDistinct<T>(a: seq<T>, b: seq<T>)
    requires multiset(a) == multiset(b)
    requires forall i, j :: 0 <= i < j < |a| ==> a[i] != a[j]
    ensures forall i, j :: 0 <= i < j < |b| ==> b[i] != b[j]
  {
    forall i, j | 0 <= i < j < |b| ensures b[i] != b[j] {
      if b[i] == b[j] {
        CountTwo(b, i, j);
        CountOne(a, b[i]);
      }
    }
  }

  lemma SameElements<T>(a: seq<T>, b: seq<T>, x: T)
    requires multiset(a) == multiset(b)
    ensures x in a <==> x in b
  {
    assert x in a <==> x in multiset(a);
    assert x in b <==> x in multiset(b);
  }

  predicate IsFutureOf(hooks: seq<Hook>, s: nat, f: Future) {
    && f.channel < |hooks| && hooks[f.channel].srcStk == s
    && f == Future(hooks[f.channel].selfOrderId, f.channel)
  }

  predicate IsPromiseOf(hooks: seq<Hook>, s: nat, p: Promise) {
    && p.channel < |hooks| && hooks[p.channel].targetStk == s
    && p == Promise(hooks[p.channel].targetTradeId, hooks[p.channel].threshold, p.channel)
  }

  // A stock's sorted futures: one for each of its hooks.
  lemma SortedFuturesAre(hooks: seq<Hook>, s: nat)
    ensures var fs := SortedFutures(FuturesOf(hooks, s));
            && FuturesSorted(fs)
            && (forall f :: f in fs <==> IsFutureOf(hooks, s, f))
            && forall i, j :: 0 <= i < j < |fs| ==> fs[i] != fs[j]
  {
    var unsorted, fs := FuturesOf(hooks, s), SortedFutures(FuturesOf(hooks, s));
    FuturesAreSorted(unsorted);
    HooksArePaired(hooks, s);
    StillDistinct(unsorted, fs);
    forall f ensures f in fs <==> f in unsorted {
      SameElements(fs, unsorted, f);
    }
  }

  lemma SortedPromisesAre(hooks: seq<Hook>, s: nat)
    ensures var ps := SortedPromises(PromisesOf(hooks, s));
            && PromisesSorted(ps)
            && (forall p :: p in ps <==> IsPromiseOf(hooks, s, p))
            && forall i, j :: 0 <= i < j < |ps| ==> ps[i] != ps[j]
  {
    var unsorted, ps := PromisesOf(hooks, s), SortedPromises(PromisesOf(hooks, s));
    PromisesAreSorted(unsorted);
    HooksArePaired(hooks, s);
    StillDistinct(unsorted, ps);
    forall p ensures p in ps <==> p in unsorted {
      SameElements(ps, unsorted, p);
    }
  }

  lemma FuturesUsable(hooks: seq<Hook>, s: nat)
    requires HooksUsable(hooks)
    ensures IdsUsable(SortedFutures(FuturesOf(hooks, s)))
  {
    var fs := SortedFutures(FuturesOf(hooks, s));
    SortedFuturesAre(hooks, s);
    forall i | 0 <= i < |fs| ensures fs[i].orderId >= 1 {
      assert fs[i] in fs;
    }
    forall i, j | 0 <= i < j < |fs| ensures fs[i].orderId != fs[j].orderId {
      assert fs[i] in fs && fs[j] in fs && fs[i] != fs[j];
    }
  }

  lemma PromisesDiffer(hooks: seq<Hook>, s: nat)
    ensures PromiseChannelsDiffer(SortedPromises(PromisesOf(hooks, s)))
  {
    var ps := SortedPromises(PromisesOf(hooks, s));
    SortedPromisesAre(hooks, s);
    forall i, j | 0 <= i < j < |ps| ensures ps[i].channel != ps[j].channel {
      assert ps[i] in ps && ps[j] in ps && ps[i] != ps[j];
    }
  }

  lemma PromisesAreUsable(hooks: seq<Hook>, s: nat)
    requires HooksUsable(hooks)
    ensures PromisesUsable(SortedPromises(PromisesOf(hooks, s)))
  {
    var ps := SortedPromises(PromisesOf(hooks, s));
    SortedPromisesAre(hooks, s);
    PromisesDiffer(hooks, s);
    forall i | 0 <= i < |ps| ensures ps[i].tradeIdx >= 1 {
      assert ps[i] in ps;
    }
  }

  // The stack a stock has left before its order k + 1 is the one orders 1..k leave.
  lemma {:induction false} FuturesAre(setup: Setup, tr: Trace, s: nat, k: nat)
    requires SetupOk(setup) && Settled(setup, tr) && s < |tr| && k < |tr[s]|
    ensures tr[s][k].futures == AfterChecks(setup.futures[s], k)
  {
    if k > 0 {
      FuturesAre(setup, tr, s, k - 1);
      assert Justified(setup, tr, s, k - 1);
    }
  }

  // The channel order `id` of stock s waits for.
  lemma WantedChannel(hooks: seq<Hook>, s: nat, id: nat, c: nat)
    requires HooksUsable(hooks) && c < |hooks| && Guards(hooks[c], s, id) && id >= 1
    ensures Wanted(AfterChecks(SortedFutures(FuturesOf(hooks, s)), id - 1), id) == Some(c)
  {
    var fs := SortedFutures(FuturesOf(hooks, s));
    SortedFuturesAre(hooks, s);
    FuturesUsable(hooks, s);
    CheckIsExact(fs, id);
    assert IsFutureOf(hooks, s, Future(id, c));
    var i :| 0 <= i < |fs| && fs[i] == Future(id, c);
  }

  lemma NothingWanted(hooks: seq<Hook>, s: nat, id: nat)
    requires HooksUsable(hooks) && id >= 1 && forall c :: 0 <= c < |hooks| ==> !Guards(hooks[c], s, id)
    ensures Wanted(AfterChecks(SortedFutures(FuturesOf(hooks, s)), id - 1), id) == None
  {
    var fs := SortedFutures(FuturesOf(hooks, s));
    SortedFuturesAre(hooks, s);
    FuturesUsable(hooks, s);
    CheckIsExact(fs, id);
    forall i | 0 <= i < |fs| ensures fs[i].orderId != id {
      assert fs[i] in fs && IsFutureOf(hooks, s, fs[i]) && !Guards(hooks[fs[i].channel], s, id);
    }
  }

  // Hook c's promise waits in its target's stack.
  lemma PromiseWaits(input: Input, setup: Setup, c: nat)
    requires IsSetup(input, setup) && HooksUsable(input.hooks) && c < |input.hooks|
    requires input.hooks[c].targetStk < NR_STOCKS
    ensures c < |setup.target| && setup.target[c] == input.hooks[c].targetStk < |setup.promises|
    ensures PromisesUsable(setup.promises[setup.target[c]])
    ensures Promise(input.hooks[c].targetTradeId, input.hooks[c].threshold, c) in setup.promises[setup.target[c]]
  {
    var h := input.hooks[c];
    assert setup.target[c] == h.targetStk;
    assert setup.promises[h.targetStk] == SortedPromises(PromisesOf(input.hooks, h.targetStk));
    SortedPromisesAre(input.hooks, h.targetStk);
    PromisesAreUsable(input.hooks, h.targetStk);
    assert IsPromiseOf(input.hooks, h.targetStk, Promise(h.targetTradeId, h.threshold, c));
  }

  // The value of hook c's channel is the verdict on its trade.
  lemma ChannelVerdict(input: Input, setup: Setup, tr: Trace, c: nat)
    requires IsSetup(input, setup) && HooksUsable(input.hooks) && c < |input.hooks|
    requires SetupOk(setup) && Shaped(setup, tr) && input.hooks[c].targetStk < NR_STOCKS
    ensures c < |setup.target| && input.hooks[c].targetStk < |tr| && tr[input.hooks[c].targetStk] != []
    ensures Outcome(setup, tr, c) == Verdict(input.hooks[c], StockLog(tr, input.hooks[c].targetStk))
  {
    PromiseWaits(input, setup, c);
    OutcomeMeaning(setup, tr, Promise(input.hooks[c].targetTradeId, input.hooks[c].threshold, c));
  }

  lemma FuturesLeft(input: Input, setup: Setup, tr: Trace, s: nat, k: nat)
    requires IsSetup(input, setup) && SetupOk(setup) && Settled(setup, tr) && s < |tr| && k < |tr[s]|
    ensures tr[s][k].futures == AfterChecks(SortedFutures(FuturesOf(input.hooks, s)), k)
  {
    FuturesAre(setup, tr, s, k);
    assert setup.futures[s] == SortedFutures(FuturesOf(input.hooks, s));
  }

  lemma HookDecides(input: Input, setup: Setup, tr: Trace, s: nat, k: nat, c: nat)
    requires IsSetup(input, setup) && HooksUsable(input.hooks)
    requires SetupOk(setup) && Settled(setup, tr) && s < |tr| && k < |tr[s]|
    requires c < |input.hooks| && Guards(input.hooks[c], s, k + 1) && input.hooks[c].targetStk < NR_STOCKS
    ensures input.hooks[c].targetStk < |tr| && tr[input.hooks[c].targetStk] != []
    ensures PassAt(setup, tr, s, k) == Verdict(input.hooks[c], StockLog(tr, input.hooks[c].targetStk))
  {
    FuturesLeft(input, setup, tr, s, k);
    WantedChannel(input.hooks, s, k + 1, c);
    PassIsOutcome(setup, tr, s, k, c);
    ChannelVerdict(input, setup, tr, c);
  }

  lemma PassIsOutcome(setup: Setup, tr: Trace, s: nat, k: nat, c: nat)
    requires SetupOk(setup) && Shaped(setup, tr) && s < |tr| && k < |tr[s]|
    requires Wanted(tr[s][k].futures, k + 1) == Some(c)
    ensures c < |setup.target| && PassAt(setup, tr, s, k) == Outcome(setup, tr, c)
  {
    var f := tr[s][k].futures;
    assert f[|f| - 1] == setup.futures[s][|f| - 1];
  }

  lemma UnhookedPasses(input: Input, setup: Setup, tr: Trace, s: nat, k: nat)
    requires IsSetup(input, setup) && HooksUsable(input.hooks)
    requires SetupOk(setup) && Settled(setup, tr) && s < |tr| && k < |tr[s]|
    requires forall c :: 0 <= c < |input.hooks| ==> !Guards(input.hooks[c], s, k + 1)
    ensures PassAt(setup, tr, s, k) == Some(true)
  {
    FuturesLeft(input, setup, tr, s, k);
    NothingWanted(input.hooks, s, k + 1);
  }

  lemma TargetInRange(input: Input, c: nat)
    requires InputOk(input) && c < |input.hooks|
    ensures input.hooks[c].srcStk < NR_STOCKS && input.hooks[c].targetStk < NR_STOCKS
  {
  }

  // Hook exactness over a run.  In every reachable state, an order without a hook passes; an
  // order with one passes exactly if the trade its hook names has at most the threshold's
  // volume, is dropped if that trade has more, and waits until it is made.
  lemma HookExactness(input: Input, setup: Setup, tr: Trace, s: nat, k: nat)
    requires InputOk(input) && IsSetup(input, setup) && HooksUsable(input.hooks) && SetupOk(setup)
    requires Reachable(setup, tr) && s < |tr| && k < |tr[s]|
    ensures Shaped(setup, tr)
    ensures (forall c :: 0 <= c < |input.hooks| ==> !Guards(input.hooks[c], s, k + 1)) ==>
              PassAt(setup, tr, s, k) == Some(true)
    ensures forall c :: 0 <= c < |input.hooks| && Guards(input.hooks[c], s, k + 1) ==>
              && input.hooks[c].targetStk < |tr| && tr[input.hooks[c].targetStk] != []
              && PassAt(setup, tr, s, k) == Verdict(input.hooks[c], StockLog(tr, input.hooks[c].targetStk))
  {
    ReachableSettled(setup, tr);
    if forall c :: 0 <= c < |input.hooks| ==> !Guards(input.hooks[c], s, k + 1) {
      UnhookedPasses(input, setup, tr, s, k);
    }
    forall c | 0 <= c < |input.hooks| && Guards(input.hooks[c], s, k + 1)
      ensures input.hooks[c].targetStk < |tr| && tr[input.hooks[c].targetStk] != []
      ensures PassAt(setup, tr, s, k) == Verdict(input.hooks[c], StockLog(tr, input.hooks[c].targetStk))
    {
      TargetInRange(input, c);
      HookDecides(input, setup, tr, s, k, c);
    }
  }

  lemma ReachableSettled(setup: Setup, tr: Trace)
    requires SetupOk(setup) && Reachable(setup, tr)
    ensures Settled(setup, tr)
  {
    var schedule :| Reaches(setup, schedule, tr);
    ReachesSettled(setup, schedule, tr);
  }
}
