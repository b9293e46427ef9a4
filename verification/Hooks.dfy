// Cross-stock hooks: an order may wait for a boolean that another stock's n-th trade sets.
// A promise/future pair is a channel, numbered by the hook's position in the hook list; the
// shared states of all pairs form a board of write-once values.
module Hooks {
  import opened Types

  const NR_STOCKS: nat := 10

  datatype Hook = Hook(srcStk: u32, selfOrderId: u32, targetStk: u32, targetTradeId: u32, threshold: u32)
  datatype Future = Future(orderId: u32, channel: nat)
  datatype Promise = Promise(tradeIdx: u32, threshold: u32, channel: nat)

  // ---------------------------------------------------------------------------------
  // Sharding the hooks by stock (prepare_hooks)
  // ---------------------------------------------------------------------------------

  function FuturesOf(hooks: seq<Hook>, stk: nat): seq<Future> {
    if hooks == [] then []
    else
      var n := |hooks| - 1;
      FuturesOf(hooks[..n], stk)
      + if hooks[n].srcStk == stk then [Future(hooks[n].selfOrderId, n)] else []
  }

  function PromisesOf(hooks: seq<Hook>, stk: nat): seq<Promise> {
    if hooks == [] then []
    else
      var n := |hooks| - 1;
      PromisesOf(hooks[..n], stk)
      + if hooks[n].targetStk == stk then [Promise(hooks[n].targetTradeId, hooks[n].threshold, n)] else []
  }

  // vector::at throws on a stock code outside the ten stocks; then there is no result.
  method PrepareHooks(hooks: seq<Hook>) returns (r: Option<(seq<seq<Future>>, seq<seq<Promise>>)>)
    ensures r.None? <==> exists c :: 0 <= c < |hooks| && (hooks[c].srcStk >= NR_STOCKS || hooks[c].targetStk >= NR_STOCKS)
    ensures r.Some? ==>
              && |r.value.0| == NR_STOCKS && |r.value.1| == NR_STOCKS
              && forall s :: 0 <= s < NR_STOCKS ==>
                   r.value.0[s] == FuturesOf(hooks, s) && r.value.1[s] == PromisesOf(hooks, s)
  {
    var futures: seq<seq<Future>> := seq(NR_STOCKS, _ => []);
    var promises: seq<seq<Promise>> := seq(NR_STOCKS, _ => []);
    for c := 0 to |hooks|
      invariant |futures| == NR_STOCKS && |promises| == NR_STOCKS
      invariant forall k :: 0 <= k < c ==> hooks[k].srcStk < NR_STOCKS && hooks[k].targetStk < NR_STOCKS
      invariant forall s :: 0 <= s < NR_STOCKS ==>
                  futures[s] == FuturesOf(hooks[..c], s) && promises[s] == PromisesOf(hooks[..c], s)
    {
      var hook := hooks[c];
      if hook.srcStk >= NR_STOCKS || hook.targetStk >= NR_STOCKS {
        return None;
      }
      futures := futures[hook.srcStk := futures[hook.srcStk] + [Future(hook.selfOrderId, c)]];
      promises := promises[hook.targetStk := promises[hook.targetStk] + [Promise(hook.targetTradeId, hook.threshold, c)]];
      assert hooks[..c + 1][..c] == hooks[..c];
    }
    assert hooks[..|hooks|] == hooks;
    r := Some((futures, promises));
  }

  // Every hook reaches exactly one future, at its own stock, and one promise, at its target,
  // joined by the same channel.
  lemma {:induction false} HooksArePaired(hooks: seq<Hook>, stk: nat)
    ensures forall f :: f in FuturesOf(hooks, stk) <==>
              0 <= f.channel < |hooks| && hooks[f.channel].srcStk == stk
              && f == Future(hooks[f.channel].selfOrderId, f.channel)
    ensures forall p :: p in PromisesOf(hooks, stk) <==>
              0 <= p.channel < |hooks| && hooks[p.channel].targetStk == stk
              && p == Promise(hooks[p.channel].targetTradeId, hooks[p.channel].threshold, p.channel)
    ensures forall i, j :: 0 <= i < j < |FuturesOf(hooks, stk)| ==>
              FuturesOf(hooks, stk)[i].channel != FuturesOf(hooks, stk)[j].channel
    ensures forall i, j :: 0 <= i < j < |PromisesOf(hooks, stk)| ==>
              PromisesOf(hooks, stk)[i].channel != PromisesOf(hooks, stk)[j].channel
  {
    if hooks != [] {
      var n := |hooks| - 1;
      HooksArePaired(hooks[..n], stk);
      var fs, ps := FuturesOf(hooks[..n], stk), PromisesOf(hooks[..n], stk);
      assert forall i :: 0 <= i < |fs| ==> fs[i] in fs;
      assert forall i :: 0 <= i < |ps| ==> ps[i] in ps;
    }
  }

  // ---------------------------------------------------------------------------------
  // HookChecker
  // ---------------------------------------------------------------------------------

  // The channel that order `id` has to wait for; `futures` is used as a stack.
  function Wanted(futures: seq<Future>, id: nat): Option<nat> {
    if futures != [] && futures[|futures| - 1].orderId == id then Some(futures[|futures| - 1].channel) else None
  }

  function AfterCheck(futures: seq<Future>, id: nat): seq<Future> {
    if Wanted(futures, id).Some? then futures[..|futures| - 1] else futures
  }

  // What order `id` gets to hear: no hook lets it pass, a resolved one decides, an unresolved one
  // keeps it waiting.
  function Answer(futures: seq<Future>, id: nat, values: map<nat, bool>): Option<bool> {
    match Wanted(futures, id)
    case None => Some(true)
    case Some(c) => if c in values then Some(values[c]) else None
  }

  // The stack once orders 1..n have been checked.
  function AfterChecks(futures: seq<Future>, n: nat): seq<Future> {
    if n == 0 then futures else AfterCheck(AfterChecks(futures, n - 1), n)
  }

  ghost predicate FuturesSorted(futures: seq<Future>) {
    forall i, j :: 0 <= i < j < |futures| ==> futures[i].orderId >= futures[j].orderId
  }

  ghost predicate ChannelsDiffer(futures: seq<Future>) {
    forall i, j :: 0 <= i < j < |futures| ==> futures[i].channel != futures[j].channel
  }

  // Some order asks for this future.
  ghost predicate Consulted(futures: seq<Future>, f: Future) {
    exists id: nat :: id >= 1 && AsksFor(futures, id, f.channel)
  }

  predicate AsksFor(futures: seq<Future>, id: nat, channel: nat)
    requires id >= 1
  {
    Wanted(AfterChecks(futures, id - 1), id) == Some(channel)
  }

  ghost predicate IdsUsable(futures: seq<Future>) {
    && (forall i :: 0 <= i < |futures| ==> futures[i].orderId >= 1)
    && (forall i, j :: 0 <= i < j < |futures| ==> futures[i].orderId != futures[j].orderId)
  }

  // What remains is always a prefix, and what was popped had been asked for.
  lemma {:induction false} ChecksPopInOrder(futures: seq<Future>, n: nat)
    requires FuturesSorted(futures) && IdsUsable(futures)
    ensures AfterChecks(futures, n) <= futures
    ensures forall i :: 0 <= i < |futures| ==> (i < |AfterChecks(futures, n)| <==> futures[i].orderId > n)
  {
    if n > 0 {
      ChecksPopInOrder(futures, n - 1);
      var s := AfterChecks(futures, n - 1);
      if s != [] {
        assert futures[|s| - 1] == s[|s| - 1];
      }
    }
  }

  // Over a run in which orders 1, 2, 3, ... are checked, an order with a hook waits for
  // exactly its own channel and an order without one waits for none.
  lemma CheckIsExact(futures: seq<Future>, id: nat)
    requires FuturesSorted(futures) && IdsUsable(futures) && id >= 1
    ensures forall i :: 0 <= i < |futures| && futures[i].orderId == id ==>
              Wanted(AfterChecks(futures, id - 1), id) == Some(futures[i].channel)
    ensures (forall i :: 0 <= i < |futures| ==> futures[i].orderId != id) ==>
              Wanted(AfterChecks(futures, id - 1), id) == None
  {
    ChecksPopInOrder(futures, id - 1);
    var s := AfterChecks(futures, id - 1);
    if s != [] {
      assert s[|s| - 1] == futures[|s| - 1];
    }
    forall i | 0 <= i < |futures| && futures[i].orderId == id ensures |s| == i + 1 {
      assert futures[|s| - 1].orderId > id - 1;
    }
  }

  lemma {:induction false} ChecksPopPrefix(futures: seq<Future>, n: nat)
    ensures AfterChecks(futures, n) <= futures
  {
    if n > 0 {
      ChecksPopPrefix(futures, n - 1);
    }
  }

  // No hook is ever lost if and only if the order ids of a stock's hooks are distinct and
  // start at 1: a repeated or zero id stays on top of the stack and hides all later hooks.
  lemma EveryHookConsulted(futures: seq<Future>)
    requires FuturesSorted(futures) && ChannelsDiffer(futures)
    ensures (forall i :: 0 <= i < |futures| ==> Consulted(futures, futures[i])) <==> IdsUsable(futures)
  {
    if IdsUsable(futures) {
      forall i | 0 <= i < |futures| ensures Consulted(futures, futures[i]) {
        CheckIsExact(futures, futures[i].orderId);
        assert AsksFor(futures, futures[i].orderId, futures[i].channel);
      }
    }
    if forall i :: 0 <= i < |futures| ==> Consulted(futures, futures[i]) {
      forall i | 0 <= i < |futures| ensures futures[i].orderId >= 1 {
        ConsultedAtItsId(futures, i);
      }
      forall i, j | 0 <= i < j < |futures| ensures futures[i].orderId != futures[j].orderId {
        OneHookPerId(futures, i, j);
      }
    }
  }

  lemma OneHookPerId(futures: seq<Future>, i: nat, j: nat)
    requires ChannelsDiffer(futures) && i < j < |futures|
    requires Consulted(futures, futures[i]) && Consulted(futures, futures[j])
    ensures futures[i].orderId != futures[j].orderId
  {
    ConsultedAtItsId(futures, i);
    ConsultedAtItsId(futures, j);
    assert futures[i].channel != futures[j].channel;
  }

  lemma ConsultedAtItsId(futures: seq<Future>, i: nat)
    requires ChannelsDiffer(futures) && i < |futures| && Consulted(futures, futures[i])
    ensures futures[i].orderId >= 1
    ensures Wanted(AfterChecks(futures, futures[i].orderId - 1), futures[i].orderId) == Some(futures[i].channel)
  {
    var id: nat :| id >= 1 && AsksFor(futures, id, futures[i].channel);
    ChecksPopPrefix(futures, id - 1);
    WantedIsTop(futures, AfterChecks(futures, id - 1), id, i);
  }

  lemma WantedIsTop(futures: seq<Future>, left: seq<Future>, id: nat, i: nat)
    requires ChannelsDiffer(futures) && left <= futures && i < |futures|
    requires Wanted(left, id) == Some(futures[i].channel)
    ensures futures[i].orderId == id
  {
    SameChannel(futures, |left| - 1, i);
  }

  lemma SameChannel(futures: seq<Future>, i: nat, k: nat)
    requires ChannelsDiffer(futures) && i < |futures| && k < |futures| && futures[i].channel == futures[k].channel
    ensures i == k
  {
  }

  // ---------------------------------------------------------------------------------
  // HookNotifier
  // ---------------------------------------------------------------------------------

  // `promises` is a stack; `values` is the board.
  datatype Notifier = Notifier(idx: nat, promises: seq<Promise>, values: map<nat, bool>)

  // The promise on top waits for the current trade.
  predicate Due(n: Notifier) {
    n.promises != [] && n.promises[|n.promises| - 1].tradeIdx == n.idx
  }

  // Resolve and pop the top promise.
  function ResolveOne(n: Notifier, volume: nat): Notifier
    requires n.promises != []
  {
    var p := n.promises[|n.promises| - 1];
    Notifier(n.idx, n.promises[..|n.promises| - 1], SetOnce(n.values, p.channel, volume <= p.threshold))
  }

  function Resolve(n: Notifier, volume: nat): Notifier
    decreases |n.promises|
  {
    if Due(n) then Resolve(ResolveOne(n, volume), volume) else n
  }

  // promise::set_value; a second write never happens (see PromiseState), and would not stick.
  function SetOnce(values: map<nat, bool>, channel: nat, value: bool): map<nat, bool> {
    if channel in values then values else values[channel := value]
  }

  function NotifyTrade(n: Notifier, volume: nat): Notifier {
    Resolve(n.(idx := n.idx + 1), volume)
  }

  function NotifyAll(n: Notifier, volumes: seq<nat>): Notifier {
    if volumes == [] then n
    else NotifyTrade(NotifyAll(n, volumes[..|volumes| - 1]), volumes[|volumes| - 1])
  }

  // The volumes of a trade log, as the notifier sees them.
  function LogVolumes(log: seq<Trade>): seq<nat> {
    if log == [] then [] else LogVolumes(log[..|log| - 1]) + [log[|log| - 1].volume]
  }

  lemma {:induction false} LogVolumesAre(log: seq<Trade>)
    ensures |LogVolumes(log)| == |log|
    ensures forall k :: 0 <= k < |log| ==> LogVolumes(log)[k] == log[k].volume
  {
    if log != [] {
      LogVolumesAre(log[..|log| - 1]);
    }
  }

  lemma LogVolumesAppend(a: seq<Trade>, b: seq<Trade>)
    ensures LogVolumes(a + b) == LogVolumes(a) + LogVolumes(b)
  {
    LogVolumesAre(a);
    LogVolumesAre(b);
    LogVolumesAre(a + b);
  }

  lemma {:induction false} NotifyAllAppend(n: Notifier, a: seq<nat>, b: seq<nat>)
    ensures NotifyAll(n, a + b) == NotifyAll(NotifyAll(n, a), b)
  {
    if b == [] {
      assert a + b == a;
    } else {
      assert (a + b)[..|a + b| - 1] == a + b[..|b| - 1];
      NotifyAllAppend(n, a, b[..|b| - 1]);
    }
  }

  ghost predicate Extends(m: map<nat, bool>, m': map<nat, bool>) {
    forall c :: c in m ==> c in m' && m'[c] == m[c]
  }

  lemma {:induction false} ResolveExtends(n: Notifier, volume: nat)
    ensures Extends(n.values, Resolve(n, volume).values)
    decreases |n.promises|
  {
    if Due(n) {
      ResolveExtends(ResolveOne(n, volume), volume);
    }
  }

  // Values on the board are never revised: more trades only add to them.
  lemma {:induction false} NotifyExtends(n: Notifier, a: seq<nat>, b: seq<nat>)
    requires a <= b
    ensures Extends(NotifyAll(n, a).values, NotifyAll(n, b).values)
  {
    if |a| < |b| {
      var c := b[..|b| - 1];
      NotifyExtends(n, a, c);
      ResolveExtends(NotifyAll(n, c).(idx := NotifyAll(n, c).idx + 1), b[|b| - 1]);
    } else {
      assert a == b;
    }
  }

  ghost predicate PromisesSorted(promises: seq<Promise>) {
    forall i, j :: 0 <= i < j < |promises| ==> promises[i].tradeIdx >= promises[j].tradeIdx
  }

  ghost predicate PromiseChannelsDiffer(promises: seq<Promise>) {
    forall i, j :: 0 <= i < j < |promises| ==> promises[i].channel != promises[j].channel
  }

  ghost predicate PromisesUsable(promises: seq<Promise>) {
    && PromisesSorted(promises) && PromiseChannelsDiffer(promises)
    && forall i :: 0 <= i < |promises| ==> promises[i].tradeIdx >= 1
  }

  // The promise at position i has been resolved by these trades, at its own trade.
  predicate ResolvedBy(p: Promise, volumes: seq<nat>, values: map<nat, bool>) {
    && 1 <= p.tradeIdx <= |volumes|
    && p.channel in values && values[p.channel] == (volumes[p.tradeIdx - 1] <= p.threshold)
  }

  // The state of a stock's promises after some trades, once those due before trade `next` have
  // been resolved: a prefix of the stack is still pending and unset; the rest is resolved.  While
  // the loop of notify runs, promises for the current trade may be pending too.
  ghost predicate PromiseState(all: seq<Promise>, n: Notifier, volumes: seq<nat>, next: nat) {
    match n
    case Notifier(idx, pending, values) =>
      && idx == |volumes|
      && pending <= all
      && (forall i :: 0 <= i < |all| ==>
            if i < |pending| then all[i].channel !in values && all[i].tradeIdx >= next
            else ResolvedBy(all[i], volumes, values))
      && (forall c :: c in values ==> exists i :: |pending| <= i < |all| && all[i].channel == c)
  }

  lemma ResolveTop(all: seq<Promise>, n: Notifier, volumes: seq<nat>)
    requires PromiseChannelsDiffer(all) && volumes != [] && PromiseState(all, n, volumes, |volumes|) && Due(n)
    ensures PromiseState(all, ResolveOne(n, volumes[|volumes| - 1]), volumes, |volumes|)
  {
    var k := |n.promises| - 1;
    var p := n.promises[k];
    assert p == all[k] && p.channel !in n.values;
    var values := ResolveOne(n, volumes[|volumes| - 1]).values;
    forall c | c in values ensures exists i :: k <= i < |all| && all[i].channel == c {
      if c == p.channel {
        assert all[k].channel == c;
      }
    }
    forall i | k < i < |all| ensures ResolvedBy(all[i], volumes, values) {
      assert ResolvedBy(all[i], volumes, n.values) && all[i].channel != p.channel;
    }
  }

  lemma NothingDue(all: seq<Promise>, n: Notifier, volumes: seq<nat>)
    requires PromisesSorted(all) && PromiseState(all, n, volumes, |volumes|)
    requires !Due(n)
    ensures PromiseState(all, n, volumes, |volumes| + 1)
  {
    var k := |n.promises| - 1;
    forall i | 0 <= i < |n.promises| ensures all[i].tradeIdx > n.idx {
      assert n.promises[k] == all[k] && (i < k ==> all[i].tradeIdx >= all[k].tradeIdx);
    }
  }

  lemma {:induction false} ResolveExact(all: seq<Promise>, n: Notifier, volumes: seq<nat>)
    requires PromisesSorted(all) && PromiseChannelsDiffer(all)
    requires volumes != [] && PromiseState(all, n, volumes, |volumes|)
    ensures PromiseState(all, Resolve(n, volumes[|volumes| - 1]), volumes, |volumes| + 1)
    decreases |n.promises|
  {
    if Due(n) {
      ResolveTop(all, n, volumes);
      ResolveExact(all, ResolveOne(n, volumes[|volumes| - 1]), volumes);
    } else {
      NothingDue(all, n, volumes);
    }
  }

  // After any trades, the promises resolved are exactly those whose trade has happened, each
  // with the verdict of its own trade; several may share one trade.
  lemma {:induction false} NotifyExact(all: seq<Promise>, volumes: seq<nat>)
    requires PromisesSorted(all) && PromiseChannelsDiffer(all)
    requires forall i :: 0 <= i < |all| ==> all[i].tradeIdx >= 1
    ensures PromiseState(all, NotifyAll(Notifier(0, all, map[]), volumes), volumes, |volumes| + 1)
  {
    if volumes != [] {
      var vs := volumes[..|volumes| - 1];
      NotifyExact(all, vs);
      var n := NotifyAll(Notifier(0, all, map[]), vs);
      var n1 := n.(idx := n.idx + 1);
      forall i | |n1.promises| <= i < |all| ensures ResolvedBy(all[i], volumes, n1.values) {
        assert ResolvedBy(all[i], vs, n.values);
      }
      ResolveExact(all, n1, volumes);
    }
  }

  lemma {:induction false} ZeroBlocks(all: seq<Promise>, volumes: seq<nat>)
    requires all != [] && all[|all| - 1].tradeIdx == 0
    ensures NotifyAll(Notifier(0, all, map[]), volumes) == Notifier(|volumes|, all, map[])
  {
    if volumes != [] {
      ZeroBlocks(all, volumes[..|volumes| - 1]);
    }
  }

  // Every promise can be resolved by enough trades if and only if no hook targets trade 0,
  // which would block the stack.
  lemma EveryPromiseResolves(all: seq<Promise>)
    requires PromisesSorted(all) && PromiseChannelsDiffer(all)
    ensures (forall i :: 0 <= i < |all| ==> EventuallySet(all, all[i].channel))
       <==> (forall i :: 0 <= i < |all| ==> all[i].tradeIdx >= 1)
  {
    if forall i :: 0 <= i < |all| ==> all[i].tradeIdx >= 1 {
      forall i | 0 <= i < |all| ensures EventuallySet(all, all[i].channel) {
        var volumes := seq(all[i].tradeIdx, _ => 1);
        NotifyExact(all, volumes);
        assert IsSetBy(all, volumes, all[i].channel);
      }
    } else {
      var k := |all| - 1;
      var i :| 0 <= i < |all| && all[i].tradeIdx < 1;
      assert i < k ==> all[i].tradeIdx >= all[k].tradeIdx;
      assert all[k].tradeIdx == 0;
      forall volumes ensures !IsSetBy(all, volumes, all[k].channel) {
        ZeroBlocks(all, volumes);
      }
      assert !EventuallySet(all, all[k].channel);
    }
  }

  predicate IsSetBy(all: seq<Promise>, volumes: seq<nat>, channel: nat) {
    channel in NotifyAll(Notifier(0, all, map[]), volumes).values
  }

  ghost predicate EventuallySet(all: seq<Promise>, channel: nat) {
    exists volumes :: IsSetBy(all, volumes, channel)
  }

  // ---------------------------------------------------------------------------------
  // std::sort with a descending key
  // ---------------------------------------------------------------------------------

  function InsertDesc<T>(key: T -> nat, s: seq<T>, x: T): seq<T> {
    if s == [] || key(x) >= key(s[0]) then [x] + s else [s[0]] + InsertDesc(key, s[1..], x)
  }

  function SortDesc<T>(key: T -> nat, s: seq<T>): seq<T> {
    if s == [] then [] else InsertDesc(key, SortDesc(key, s[1..]), s[0])
  }

  ghost predicate Descending<T>(key: T -> nat, s: seq<T>) {
    |s| > 1 ==> key(s[0]) >= key(s[1]) && Descending(key, s[1..])
  }

  lemma {:induction false} InsertDescends<T>(key: T -> nat, s: seq<T>, x: T)
    requires Descending(key, s)
    ensures Descending(key, InsertDesc(key, s, x))
  {
    var r := InsertDesc(key, s, x);
    if s == [] || key(x) >= key(s[0]) {
      assert r[1..] == s;
    } else {
      var t := InsertDesc(key, s[1..], x);
      InsertDescends(key, s[1..], x);
      assert r[1..] == t;
    }
  }

  lemma {:induction false} InsertKeeps<T>(key: T -> nat, s: seq<T>, x: T)
    ensures multiset(InsertDesc(key, s, x)) == multiset(s) + multiset{x}
  {
    if s == [] || key(x) >= key(s[0]) {
    } else {
      InsertKeeps(key, s[1..], x);
      assert s == [s[0]] + s[1..];
    }
  }

  lemma {:induction false} SortDescSorts<T>(key: T -> nat, s: seq<T>)
    ensures Descending(key, SortDesc(key, s)) && multiset(SortDesc(key, s)) == multiset(s)
  {
    if s != [] {
      SortDescSorts(key, s[1..]);
      InsertDescends(key, SortDesc(key, s[1..]), s[0]);
      InsertKeeps(key, SortDesc(key, s[1..]), s[0]);
      assert s == [s[0]] + s[1..];
    }
  }

  lemma {:induction false} DescendingPairs<T>(key: T -> nat, s: seq<T>, i: nat, j: nat)
    requires Descending(key, s) && i < j < |s|
    ensures key(s[i]) >= key(s[j])
  {
    if i > 0 {
      DescendingPairs(key, s[1..], i - 1, j - 1);
    } else if j > 1 {
      DescendingPairs(key, s[1..], 0, j - 1);
    }
  }

  function SortedFutures(s: seq<Future>): seq<Future> {
    SortDesc((f: Future) => f.orderId, s)
  }

  lemma FuturesAreSorted(s: seq<Future>)
    ensures FuturesSorted(SortedFutures(s)) && multiset(SortedFutures(s)) == multiset(s)
  {
    var key := (f: Future) => f.orderId;
    SortDescSorts(key, s);
    var r := SortedFutures(s);
    forall i, j | 0 <= i < j < |r| ensures r[i].orderId >= r[j].orderId {
      DescendingPairs(key, r, i, j);
    }
  }

  function SortedPromises(s: seq<Promise>): seq<Promise> {
    SortDesc((p: Promise) => p.tradeIdx, s)
  }

  lemma PromisesAreSorted(s: seq<Promise>)
    ensures PromisesSorted(SortedPromises(s)) && multiset(SortedPromises(s)) == multiset(s)
  {
    var key := (p: Promise) => p.tradeIdx;
    SortDescSorts(key, s);
    var r := SortedPromises(s);
    forall i, j | 0 <= i < j < |r| ensures r[i].tradeIdx >= r[j].tradeIdx {
      DescendingPairs(key, r, i, j);
    }
  }

  // ---------------------------------------------------------------------------------
  // The classes
  // ---------------------------------------------------------------------------------

  // The shared states of all promise/future pairs.
  class Board {
    var values: map<nat, bool>

    constructor ()
      ensures values == map[]
    {
      values := map[];
    }

    method SetValue(channel: nat, value: bool)
      requires channel !in values
      modifies this
      ensures values == old(values)[channel := value]
    {
      values := values[channel := value];
    }
  }

  class HookChecker {
    var futures: seq<Future>

    // std::sort, descending by order id.
    constructor (unsorted: seq<Future>)
      ensures FuturesSorted(futures) && multiset(futures) == multiset(unsorted)
      ensures futures == SortedFutures(unsorted)
    {
      futures := SortedFutures(unsorted);
      FuturesAreSorted(unsorted);
    }

    // None while the order's hook is unresolved: the call is then still waiting in future::get,
    // with the future on top of the stack.
    method Check(orderId: u32, board: Board) returns (r: Option<bool>)
      modifies this
      ensures r == Answer(old(futures), orderId, board.values)
      ensures futures == if r == None then old(futures) else AfterCheck(old(futures), orderId)
    {
      if futures != [] && futures[|futures| - 1].orderId == orderId {
        var channel := futures[|futures| - 1].channel;
        if channel !in board.values {
          return None;
        }
        r := Some(board.values[channel]);
        futures := futures[..|futures| - 1];
      } else {
        r := Some(true);
      }
    }
  }

  class HookNotifier {
    var idx: u32
    var promises: seq<Promise>

    ghost function State(board: Board): Notifier
      reads this, board
    {
      Notifier(idx, promises, board.values)
    }

    // Every pending promise can still be set.
    ghost predicate Valid(board: Board)
      reads this, board
    {
      && PromiseChannelsDiffer(promises)
      && forall i :: 0 <= i < |promises| ==> promises[i].channel !in board.values
    }

    constructor (unsorted: seq<Promise>)
      ensures idx == 0 && PromisesSorted(promises) && multiset(promises) == multiset(unsorted)
      ensures promises == SortedPromises(unsorted)
    {
      idx := 0;
      promises := SortedPromises(unsorted);
      PromisesAreSorted(unsorted);
    }

    method Notify(volume: nat, board: Board)
      requires Valid(board) && idx < 0xFFFF_FFFF
      modifies this, board
      ensures Valid(board)
      ensures State(board) == NotifyTrade(old(State(board)), volume)
      ensures idx == old(idx) + 1
    {
      idx := idx + 1;
      ghost var n := State(board);
      while promises != [] && promises[|promises| - 1].tradeIdx == idx
        invariant Valid(board) && idx == n.idx
        invariant Resolve(State(board), volume) == Resolve(n, volume)
        decreases |promises|
      {
        var p := promises[|promises| - 1];
        board.SetValue(p.channel, volume <= p.threshold);
        promises := promises[..|promises| - 1];
      }
    }
  }
}
