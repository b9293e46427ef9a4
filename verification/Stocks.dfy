// The ten processors of a trader as objects that share one board of promised values.  One call
// of `process` on one of them is one step of the schedule, and disturbs none of the others.
module Stocks {
  import opened Types
  import opened Engine
  import opened Hooks
  import opened Schedule
  import opened Processor
  import opened Persister
  import opened Exchange
  import V = Verdicts

  // ---------------------------------------------------------------------------------
  // One stock's promises on the shared board
  // ---------------------------------------------------------------------------------

  function Lookup(values: map<nat, bool>, c: nat): Option<bool> {
    if c in values then Some(values[c]) else None
  }

  // Channel c is resolved by the trades of stock s.
  predicate Owns(target: seq<nat>, s: nat, c: nat) {
    c < |target| && target[c] == s
  }

  ghost predicate Placed(target: seq<nat>, s: nat, promises: seq<Promise>) {
    forall i :: 0 <= i < |promises| ==> Owns(target, s, promises[i].channel)
  }

  // `m` is what `n` is on a board that other stocks write to as well.
  ghost predicate Shares(target: seq<nat>, s: nat, n: Notifier, m: Notifier) {
    && m.idx == n.idx && m.promises == n.promises
    && forall c :: Owns(target, s, c) ==> Lookup(m.values, c) == Lookup(n.values, c)
  }

  ghost predicate OthersKept(target: seq<nat>, s: nat, before: map<nat, bool>, after: map<nat, bool>) {
    forall c :: !Owns(target, s, c) ==> Lookup(after, c) == Lookup(before, c)
  }

  lemma {:induction false} ResolveShares(target: seq<nat>, s: nat, n: Notifier, m: Notifier, volume: nat)
    requires Placed(target, s, n.promises) && Shares(target, s, n, m)
    ensures Shares(target, s, Resolve(n, volume), Resolve(m, volume))
    ensures OthersKept(target, s, m.values, Resolve(m, volume).values)
    ensures Resolve(n, volume).promises <= n.promises
    decreases |n.promises|
  {
    if Due(n) {
      var k := |n.promises| - 1;
      assert Owns(target, s, n.promises[k].channel);
      ResolveShares(target, s, ResolveOne(n, volume), ResolveOne(m, volume), volume);
    }
  }

  // Trades of a stock do the same on the shared board as on one of its own, and leave the
  // channels of other stocks alone.
  lemma {:induction false} NotifyShares(target: seq<nat>, s: nat, n: Notifier, m: Notifier, volumes: seq<nat>)
    requires Placed(target, s, n.promises) && Shares(target, s, n, m)
    ensures Shares(target, s, NotifyAll(n, volumes), NotifyAll(m, volumes))
    ensures OthersKept(target, s, m.values, NotifyAll(m, volumes).values)
    ensures NotifyAll(n, volumes).promises <= n.promises
  {
    if volumes != [] {
      var k := |volumes| - 1;
      NotifyShares(target, s, n, m, volumes[..k]);
      var n', m' := NotifyAll(n, volumes[..k]), NotifyAll(m, volumes[..k]);
      ResolveShares(target, s, n'.(idx := n'.idx + 1), m'.(idx := m'.idx + 1), volumes[k]);
    }
  }

  // ---------------------------------------------------------------------------------
  // A step on values
  // ---------------------------------------------------------------------------------

  // What a stock's notifier has done in this trace.
  ghost function NotifierOf(setup: Setup, tr: Trace, s: nat): Notifier
    requires s < |tr| && tr[s] != [] && s < |setup.promises|
  {
    NotifyAll(Notifier(0, setup.promises[s], map[]), LogVolumes(StockLog(tr, s)))
  }

  ghost predicate AllPlaced(setup: Setup) {
    forall s {:trigger setup.promises[s]} :: 0 <= s < |setup.promises| ==> Placed(setup.target, s, setup.promises[s])
  }

  // The board shows what stock s has resolved.
  ghost predicate Shows(setup: Setup, tr: Trace, s: nat, values: map<nat, bool>)
    requires s < |tr| && tr[s] != [] && s < |setup.promises|
  {
    forall c :: Owns(setup.target, s, c) ==> Lookup(values, c) == Lookup(NotifierOf(setup, tr, s).values, c)
  }

  ghost predicate ShowsAll(setup: Setup, tr: Trace, values: map<nat, bool>)
    requires SetupOk(setup) && Shaped(setup, tr)
  {
    forall s {:trigger Shows(setup, tr, s, values)} :: 0 <= s < |tr| ==> Shows(setup, tr, s, values)
  }

  lemma PendingPlaced(setup: Setup, tr: Trace, s: nat)
    requires SetupOk(setup) && Shaped(setup, tr) && AllPlaced(setup) && s < |tr|
    ensures Placed(setup.target, s, NotifierOf(setup, tr, s).promises)
  {
    var n := Notifier(0, setup.promises[s], map[]);
    NotifyShares(setup.target, s, n, n, LogVolumes(StockLog(tr, s)));
    var pending := NotifierOf(setup, tr, s).promises;
    forall i | 0 <= i < |pending| ensures Owns(setup.target, s, pending[i].channel) {
      assert pending[i] == setup.promises[s][i];
    }
  }

  // The board gives an order the answer the schedule gives it.
  lemma AnswerIsPass(setup: Setup, tr: Trace, s: nat, values: map<nat, bool>)
    requires SetupOk(setup) && Shaped(setup, tr) && ShowsAll(setup, tr, values) && s < |tr|
    ensures Answer(tr[s][|tr[s]| - 1].futures, |tr[s]|, values) == PassAt(setup, tr, s, |tr[s]| - 1)
  {
    var f := tr[s][|tr[s]| - 1].futures;
    match Wanted(f, |tr[s]|)
    case None =>
    case Some(c) =>
      assert f[|f| - 1] == setup.futures[s][|f| - 1];
      assert Owns(setup.target, setup.target[c], c) && Shows(setup, tr, setup.target[c], values);
  }

  // The trades of a stock's next order.
  ghost function NewVolumes(setup: Setup, tr: Trace, s: nat): seq<nat>
    requires SetupOk(setup) && Settled(setup, tr) && Enabled(setup, tr, s)
  {
    StepGrows(setup, tr, s);
    LogVolumes(StockLog(Step(setup, tr, s), s)[|StockLog(tr, s)|..])
  }

  lemma StepGrows(setup: Setup, tr: Trace, s: nat)
    requires SetupOk(setup) && Settled(setup, tr) && Enabled(setup, tr, s)
    ensures Shaped(setup, Step(setup, tr, s)) && StockLog(tr, s) <= StockLog(Step(setup, tr, s), s)
  {
    StepShaped(setup, tr, s);
    StepGrowsLog(setup, tr, s, s);
  }

  lemma StepNotifies(setup: Setup, tr: Trace, s: nat)
    requires SetupOk(setup) && Settled(setup, tr) && Enabled(setup, tr, s)
    ensures Shaped(setup, Step(setup, tr, s))
    ensures NotifierOf(setup, Step(setup, tr, s), s) == NotifyAll(NotifierOf(setup, tr, s), NewVolumes(setup, tr, s))
  {
    StepGrows(setup, tr, s);
    var a, b := StockLog(tr, s), StockLog(Step(setup, tr, s), s);
    assert b == a + b[|a|..];
    LogVolumesAppend(a, b[|a|..]);
    NotifyAllAppend(Notifier(0, setup.promises[s], map[]), LogVolumes(a), LogVolumes(b[|a|..]));
  }

  // After the step the board shows the new trace, whatever stock one looks at.
  lemma StepShows(setup: Setup, tr: Trace, s: nat, m: Notifier)
    requires SetupOk(setup) && Settled(setup, tr) && AllPlaced(setup) && Enabled(setup, tr, s)
    requires ShowsAll(setup, tr, m.values)
    requires m.idx == NotifierOf(setup, tr, s).idx && m.promises == NotifierOf(setup, tr, s).promises
    ensures Shaped(setup, Step(setup, tr, s))
    ensures var m', n' := NotifyAll(m, NewVolumes(setup, tr, s)), NotifierOf(setup, Step(setup, tr, s), s);
            && ShowsAll(setup, Step(setup, tr, s), m'.values)
            && m'.idx == n'.idx && m'.promises == n'.promises
            && OthersKept(setup.target, s, m.values, m'.values)
  {
    var n, volumes := NotifierOf(setup, tr, s), NewVolumes(setup, tr, s);
    var m' := NotifyAll(m, volumes);
    StepNotifies(setup, tr, s);
    PendingPlaced(setup, tr, s);
    assert Shows(setup, tr, s, m.values);
    NotifyShares(setup.target, s, n, m, volumes);
    var tr': seq<seq<Stock>> := Step(setup, tr, s);
    forall t | 0 <= t < |tr'| ensures Shows(setup, tr', t, m'.values) {
      assert Shows(setup, tr, t, m.values);
      if t != s {
        assert tr'[t] == tr[t];
        forall c | Owns(setup.target, t, c)
          ensures Lookup(m'.values, c) == Lookup(NotifierOf(setup, tr, t).values, c)
        {
          assert !Owns(setup.target, s, c);
        }
      }
    }
  }

  // ---------------------------------------------------------------------------------
  // A step on objects
  // ---------------------------------------------------------------------------------

  // The objects of one stock; the board is common to all.
  ghost function Footprint(p: Processor): set<object> {
    {p, p.buy, p.sell, p.checker, p.notifier, p.persister, p.persister.tp}
  }

  ghost predicate Apart(ps: seq<Processor>, board: Board) {
    && (forall i :: 0 <= i < |ps| ==> ps[i].board == board && board !in Footprint(ps[i]))
    && forall i, j :: 0 <= i < |ps| && 0 <= j < |ps| && i != j ==> Footprint(ps[i]) !! Footprint(ps[j])
  }

  // Processor p is where stock s is in the trace, and can go on writing to the board.  While it
  // waits for a hook, its next order has taken its id already.
  ghost predicate StandsFor(p: Processor, setup: Setup, tr: Trace, s: nat, waiting: bool)
    reads Footprint(p), p.board
    requires SetupOk(setup) && Shaped(setup, tr) && s < |tr|
  {
    Stationed(p, setup, tr, s, waiting) && Pending(p.notifier.promises, p.board.values)
  }

  ghost predicate StandsIn(p: Processor, setup: Setup, tr: Trace, s: nat, waiting: set<nat>)
    reads Footprint(p), p.board
    requires SetupOk(setup) && Shaped(setup, tr) && s < |tr|
  {
    StandsFor(p, setup, tr, s, s in waiting)
  }

  // What HookNotifier.Valid says.
  ghost predicate Pending(promises: seq<Promise>, values: map<nat, bool>) {
    && PromiseChannelsDiffer(promises)
    && forall i :: 0 <= i < |promises| ==> promises[i].channel !in values
  }

  function AsFar(engine: State, waiting: bool): State {
    if waiting then NextId(engine) else engine
  }

  ghost predicate Stationed(p: Processor, setup: Setup, tr: Trace, s: nat, waiting: bool)
    reads Footprint(p)
    requires SetupOk(setup) && Shaped(setup, tr) && s < |tr|
  {
    match tr[s][|tr[s]| - 1]
    case Stock(engine, futures) =>
      && p.Fitted() && Inv(engine) && p.Model() == AsFar(engine, waiting) && p.checker.futures == futures
      && |setup.orders[s]| <= p.persister.tp.Length
      && p.notifier.idx == NotifierOf(setup, tr, s).idx
      && p.notifier.promises == NotifierOf(setup, tr, s).promises
  }

  ghost function AllObjects(ps: seq<Processor>): set<object> {
    set i, o | 0 <= i < |ps| && o in Footprint(ps[i]) :: o
  }

  // The objects are where the trace says; `waiting` are the stocks whose call waits for a hook.
  ghost predicate Stand(ps: seq<Processor>, board: Board, setup: Setup, tr: Trace, waiting: set<nat>)
    reads AllObjects(ps), board, set i | 0 <= i < |ps| :: ps[i].board
  {
    && SetupOk(setup) && AllPlaced(setup) && Settled(setup, tr)
    && |ps| == |tr| && Apart(ps, board)
    && ShowsAll(setup, tr, board.values)
    && forall s {:trigger StandsIn(ps[s], setup, tr, s, waiting)} ::
         0 <= s < |ps| ==> StandsIn(ps[s], setup, tr, s, waiting)
  }

  // None of stock t's pending promises is touched by another stock's trades.
  lemma StillPending(target: seq<nat>, s: nat, t: nat, promises: seq<Promise>, before: map<nat, bool>, after: map<nat, bool>)
    requires s != t && Placed(target, t, promises) && OthersKept(target, s, before, after)
    requires forall i :: 0 <= i < |promises| ==> promises[i].channel !in before
    ensures forall i :: 0 <= i < |promises| ==> promises[i].channel !in after
  {
    forall i | 0 <= i < |promises| ensures promises[i].channel !in after {
      var c := promises[i].channel;
      assert Owns(target, t, c) && !Owns(target, s, c);
      assert Lookup(after, c) == Lookup(before, c);
    }
  }

  lemma {:induction false} OrderIdIs(setup: Setup, tr: Trace, s: nat, k: nat)
    requires SetupOk(setup) && Settled(setup, tr) && s < |tr| && k < |tr[s]|
    ensures tr[s][k].engine.orderId == k
  {
    if k > 0 {
      OrderIdIs(setup, tr, s, k - 1);
      assert Justified(setup, tr, s, k - 1);
      ProcessContinues(tr[s][k - 1].engine, setup.orders[s][k - 1], PassAt(setup, tr, s, k - 1).value);
    }
  }

  // What one processor makes of the next order of its stock.
  ghost predicate Stepped(p: Processor, setup: Setup, tr: Trace, s: nat, before: map<nat, bool>)
    reads Footprint(p), p.board
    requires SetupOk(setup) && Settled(setup, tr) && Enabled(setup, tr, s)
  {
    StepShaped(setup, tr, s);
    && StandsFor(p, setup, Step(setup, tr, s), s, false)
    && ShowsAll(setup, Step(setup, tr, s), p.board.values)
    && OthersKept(setup.target, s, before, p.board.values)
  }

  // The next order takes its id.
  method Begin(p: Processor, s: nat, ghost setup: Setup, ghost tr: Trace)
    requires SetupOk(setup) && Settled(setup, tr) && s < |tr| && |tr[s]| <= |setup.orders[s]|
    requires StandsFor(p, setup, tr, s, false)
    modifies p
    ensures StandsFor(p, setup, tr, s, true)
  {
    OrderIdIs(setup, tr, s, |tr[s]| - 1);
    assert p.orderId == p.Model().orderId;
    p.TakeId();
  }

  // It gets through, or goes on waiting with nothing changed.
  method Continue(p: Processor, s: nat, order: Order, ghost setup: Setup, ghost tr: Trace) returns (done: bool)
    requires SetupOk(setup) && AllPlaced(setup) && Settled(setup, tr)
    requires s < |tr| && |tr[s]| <= |setup.orders[s]|
    requires order == setup.orders[s][|tr[s]| - 1] && OrderOk(order)
    requires StandsFor(p, setup, tr, s, true) && ShowsAll(setup, tr, p.board.values)
    modifies Footprint(p), p.board
    ensures done <==> Enabled(setup, tr, s)
    ensures done ==> Stepped(p, setup, tr, s, old(p.board.values))
    ensures !done ==> StandsFor(p, setup, tr, s, true) && p.board.values == old(p.board.values)
  {
    ghost var k := |tr[s]| - 1;
    ghost var m := p.notifier.State(p.board);
    OrderIdIs(setup, tr, s, k);
    NextIsReady(tr[s][k].engine);
    AnswerIsPass(setup, tr, s, p.board.values);
    assert p.orderId == p.Model().orderId == k + 1;
    done := p.Complete(order);
    if done {
      Arrived(p, setup, tr, s, m);
    }
  }

  lemma Arrived(p: Processor, setup: Setup, tr: Trace, s: nat, m: Notifier)
    requires SetupOk(setup) && AllPlaced(setup) && Settled(setup, tr) && Enabled(setup, tr, s)
    requires ShowsAll(setup, tr, m.values)
    requires m.idx == NotifierOf(setup, tr, s).idx && m.promises == NotifierOf(setup, tr, s).promises
    requires |setup.orders[s]| <= p.persister.tp.Length
    requires var k := |tr[s]| - 1;
             var now := tr[s][k];
             var e := Answered(NextId(now.engine), setup.orders[s][k], PassAt(setup, tr, s, k).value);
             && p.Valid() && p.checker.futures == AfterCheck(now.futures, k + 1)
             && now.engine.log <= e.log && p.Became(e, Announced(m, NextId(now.engine), e))
    ensures Stepped(p, setup, tr, s, m.values)
  {
    StepShows(setup, tr, s, m);
  }

  // A processor of another stock stands where it stood, which is where the step leaves it.
  lemma StillStands(p: Processor, setup: Setup, tr: Trace, s: nat, t: nat, waiting: bool, before: map<nat, bool>)
    requires SetupOk(setup) && AllPlaced(setup) && Settled(setup, tr) && t < |tr| && s != t
    requires Stationed(p, setup, tr, t, waiting) && Pending(p.notifier.promises, before)
    requires OthersKept(setup.target, s, before, p.board.values)
    ensures StandsFor(p, setup, tr, t, waiting)
  {
    PendingPlaced(setup, tr, t);
    StillPending(setup.target, s, t, p.notifier.promises, before, p.board.values);
  }

  lemma StepElsewhere(p: Processor, setup: Setup, tr: Trace, s: nat, t: nat, waiting: bool)
    requires SetupOk(setup) && Settled(setup, tr) && Enabled(setup, tr, s)
    requires t < |tr| && s != t && StandsFor(p, setup, tr, t, waiting)
    ensures Shaped(setup, Step(setup, tr, s)) && StandsFor(p, setup, Step(setup, tr, s), t, waiting)
  {
    StepShaped(setup, tr, s);
  }

  // Everything but stock s.
  ghost predicate OthersStand(ps: seq<Processor>, setup: Setup, tr: Trace, s: nat, waiting: set<nat>)
    reads AllObjects(ps), set i | 0 <= i < |ps| :: ps[i].board
    requires SetupOk(setup) && Shaped(setup, tr) && |ps| == |tr|
  {
    forall t {:trigger StandsIn(ps[t], setup, tr, t, waiting)} ::
      0 <= t < |ps| && t != s ==> StandsIn(ps[t], setup, tr, t, waiting)
  }

  lemma AllStand(ps: seq<Processor>, board: Board, setup: Setup, tr: Trace, s: nat, waiting: set<nat>, waiting': set<nat>)
    requires SetupOk(setup) && AllPlaced(setup) && Settled(setup, tr) && s < |ps| == |tr| && Apart(ps, board)
    requires ShowsAll(setup, tr, board.values) && OthersStand(ps, setup, tr, s, waiting)
    requires StandsIn(ps[s], setup, tr, s, waiting')
    requires waiting' == waiting - {s} || waiting' == waiting + {s}
    ensures Stand(ps, board, setup, tr, waiting')
  {
    forall t | 0 <= t < |ps| ensures StandsIn(ps[t], setup, tr, t, waiting') {
      if t != s {
        assert StandsIn(ps[t], setup, tr, t, waiting);
        assert t in waiting' <==> t in waiting;
      }
    }
  }

  lemma StepLeaves(ps: seq<Processor>, board: Board, setup: Setup, tr: Trace, s: nat,
                   waiting: set<nat>, waiting': set<nat>, before: map<nat, bool>)
    requires SetupOk(setup) && AllPlaced(setup) && Settled(setup, tr) && Enabled(setup, tr, s)
    requires s < |ps| == |tr| && Apart(ps, board)
    requires Stepped(ps[s], setup, tr, s, before) && OthersStand(ps, setup, tr, s, waiting) && waiting' == waiting - {s}
    ensures Stand(ps, board, setup, Step(setup, tr, s), waiting')
  {
    StepSettled(setup, tr, s);
    forall t | 0 <= t < |ps| && t != s ensures StandsIn(ps[t], setup, Step(setup, tr, s), t, waiting) {
      assert StandsIn(ps[t], setup, tr, t, waiting);
      StepElsewhere(ps[t], setup, tr, s, t, t in waiting);
    }
    AllStand(ps, board, setup, Step(setup, tr, s), s, waiting, waiting');
  }

  // Lets the call of stock s go on; the others stand where they stood.
  method ContinueAmong(ps: seq<Processor>, board: Board, s: nat, order: Order,
                       ghost setup: Setup, ghost tr: Trace, ghost waiting: set<nat>)
    returns (done: bool)
    requires Stand(ps, board, setup, tr, waiting) && s < |ps| && s in waiting && |tr[s]| <= |setup.orders[s]|
    requires order == setup.orders[s][|tr[s]| - 1] && OrderOk(order)
    modifies Footprint(ps[s]), board
    ensures done <==> Enabled(setup, tr, s)
    ensures done ==> Stepped(ps[s], setup, tr, s, old(board.values))
    ensures !done ==> StandsFor(ps[s], setup, tr, s, true) && board.values == old(board.values)
    ensures OthersStand(ps, setup, tr, s, waiting)
  {
    ghost var before := board.values;
    assert StandsIn(ps[s], setup, tr, s, waiting);
    done := Continue(ps[s], s, order, setup, tr);
    assert OthersKept(setup.target, s, before, board.values);
    forall t | 0 <= t < |ps| && t != s ensures StandsIn(ps[t], setup, tr, t, waiting) {
      assert old(StandsIn(ps[t], setup, tr, t, waiting)) && Footprint(ps[t]) !! Footprint(ps[s]);
      assert Stationed(ps[t], setup, tr, t, t in waiting);
      StillStands(ps[t], setup, tr, s, t, t in waiting, before);
    }
  }

  method BeginAmong(ps: seq<Processor>, board: Board, s: nat, ghost setup: Setup, ghost tr: Trace, ghost waiting: set<nat>)
    requires Stand(ps, board, setup, tr, waiting) && s < |ps| && s !in waiting && |tr[s]| <= |setup.orders[s]|
    modifies ps[s]
    ensures Stand(ps, board, setup, tr, waiting + {s})
  {
    assert StandsIn(ps[s], setup, tr, s, waiting);
    Begin(ps[s], s, setup, tr);
    forall t | 0 <= t < |ps| && t != s ensures StandsIn(ps[t], setup, tr, t, waiting) {
      assert old(StandsIn(ps[t], setup, tr, t, waiting)) && Footprint(ps[t]) !! Footprint(ps[s]);
    }
    AllStand(ps, board, setup, tr, s, waiting, waiting + {s});
  }

  // One turn of stock s's loop, for its next order or, resumed, for the one it waits with.  It gets
  // through exactly if the schedule can step, and then the ten processors and their board are
  // where the step leads; otherwise it waits, and nothing else has changed.
  method ProcessNext(ps: seq<Processor>, board: Board, s: nat, order: Order, resumed: bool,
                     ghost setup: Setup, ghost tr: Trace, ghost waiting: set<nat>)
    returns (done: bool)
    requires Stand(ps, board, setup, tr, waiting) && s < |ps| && |tr[s]| <= |setup.orders[s]|
    requires order == setup.orders[s][|tr[s]| - 1] && OrderOk(order) && (resumed <==> s in waiting)
    modifies Footprint(ps[s]), board
    ensures done <==> Enabled(setup, tr, s)
    ensures done ==> Stand(ps, board, setup, Step(setup, tr, s), waiting - {s})
    ensures !done ==> Stand(ps, board, setup, tr, waiting + {s}) && board.values == old(board.values)
  {
    ghost var before := board.values;
    if !resumed {
      BeginAmong(ps, board, s, setup, tr, waiting);
    }
    ghost var asked := waiting + {s};
    assert resumed ==> asked == waiting;
    done := ContinueAmong(ps, board, s, order, setup, tr, asked);
    if done {
      StepLeaves(ps, board, setup, tr, s, asked, waiting - {s}, before);
    } else {
      AllStand(ps, board, setup, tr, s, asked, asked);
    }
  }

  // ---------------------------------------------------------------------------------
  // The start
  // ---------------------------------------------------------------------------------

  // What the files say about the promises is what the steps need.
  lemma SetupIsPlaced(input: Input, setup: Setup)
    requires IsSetup(input, setup)
    ensures AllPlaced(setup)
  {
    forall s | 0 <= s < |setup.promises| ensures Placed(setup.target, s, setup.promises[s]) {
      var ps := setup.promises[s];
      assert ps == SortedPromises(PromisesOf(input.hooks, s));
      V.SortedPromisesAre(input.hooks, s);
      forall i | 0 <= i < |ps| ensures Owns(setup.target, s, ps[i].channel) {
        assert ps[i] in ps && V.IsPromiseOf(input.hooks, s, ps[i]);
        assert setup.target[ps[i].channel] == input.hooks[ps[i].channel].targetStk;
      }
    }
  }

  // The objects of one stock before its first order.
  method StartStock(prevClose: u32, futures: seq<Future>, promises: seq<Promise>, capacity: nat, board: Board,
                    ghost setup: Setup, ghost tr: Trace, ghost s: nat)
    returns (p: Processor)
    requires SetupOk(setup) && Shaped(setup, tr) && s < |tr| && tr[s] == [Start(setup, s)]
    requires prevClose == setup.prevClose[s] && PrevCloseFits(prevClose)
    requires setup.futures[s] == SortedFutures(futures) && setup.promises[s] == SortedPromises(promises)
    requires PromiseChannelsDiffer(setup.promises[s]) && board.values == map[]
    requires |setup.orders[s]| <= capacity < 0x4000_0000
    ensures p.board == board && fresh(Footprint(p)) && StandsFor(p, setup, tr, s, false)
  {
    var checker := new HookChecker(futures);
    var notifier := new HookNotifier(promises);
    var persister := new Persister(capacity);
    p := new Processor(checker, notifier, persister, board, prevClose);
  }

  // The first n stocks have been started.
  ghost predicate Started(ps: seq<Processor>, board: Board, setup: Setup, tr: Trace)
    reads AllObjects(ps), board, set i | 0 <= i < |ps| :: ps[i].board
    requires SetupOk(setup) && Shaped(setup, tr)
  {
    && |ps| <= |tr| && Apart(ps, board) && board.values == map[]
    && forall s {:trigger StandsFor(ps[s], setup, tr, s, false)} :: 0 <= s < |ps| ==> StandsFor(ps[s], setup, tr, s, false)
  }

  lemma ApartSnoc(ps: seq<Processor>, p: Processor, board: Board)
    requires Apart(ps, board) && p.board == board && board !in Footprint(p) && AllObjects(ps) !! Footprint(p)
    ensures Apart(ps + [p], board)
  {
    forall i | 0 <= i < |ps| ensures Footprint(ps[i]) !! Footprint(p) {
      assert forall o :: o in Footprint(ps[i]) ==> o in AllObjects(ps);
    }
  }

  lemma StartedSnoc(ps: seq<Processor>, p: Processor, board: Board, setup: Setup, tr: Trace)
    requires SetupOk(setup) && Shaped(setup, tr) && |ps| < |tr| && Started(ps, board, setup, tr)
    requires StandsFor(p, setup, tr, |ps|, false) && p.board == board && board !in Footprint(p)
    requires AllObjects(ps) !! Footprint(p)
    ensures Started(ps + [p], board, setup, tr)
  {
    var all := ps + [p];
    ApartSnoc(ps, p, board);
    forall s | 0 <= s < |all| ensures StandsFor(all[s], setup, tr, s, false) {
      assert s < |ps| ==> StandsFor(ps[s], setup, tr, s, false);
    }
  }

  ghost predicate Startable(setup: Setup, prevClose: seq<u32>, futures: seq<seq<Future>>, promises: seq<seq<Promise>>,
                            capacity: nat) {
    && SetupOk(setup) && prevClose == setup.prevClose && |futures| == |promises| == |prevClose|
    && capacity < 0x4000_0000
    && forall s {:trigger setup.orders[s]} :: 0 <= s < |setup.orders| ==>
         && PrevCloseFits(prevClose[s]) && |setup.orders[s]| <= capacity
         && setup.futures[s] == SortedFutures(futures[s]) && setup.promises[s] == SortedPromises(promises[s])
         && PromiseChannelsDiffer(setup.promises[s])
  }

  method AddStock(ps: seq<Processor>, prevClose: u32, futures: seq<Future>, promises: seq<Promise>, capacity: nat,
                  board: Board, ghost setup: Setup, ghost tr: Trace)
    returns (more: seq<Processor>)
    requires SetupOk(setup) && Shaped(setup, tr) && Started(ps, board, setup, tr)
    requires |ps| < |tr| && tr[|ps|] == [Start(setup, |ps|)]
    requires prevClose == setup.prevClose[|ps|] && PrevCloseFits(prevClose)
    requires setup.futures[|ps|] == SortedFutures(futures) && setup.promises[|ps|] == SortedPromises(promises)
    requires PromiseChannelsDiffer(setup.promises[|ps|])
    requires |setup.orders[|ps|]| <= capacity < 0x4000_0000
    ensures |more| == |ps| + 1 && Started(more, board, setup, tr)
  {
    var p := StartStock(prevClose, futures, promises, capacity, board, setup, tr, |ps|);
    StartedSnoc(ps, p, board, setup, tr);
    more := ps + [p];
  }

  // A trader's processors before the first order.
  method StartStocks(prevClose: seq<u32>, futures: seq<seq<Future>>, promises: seq<seq<Promise>>, capacity: nat,
                     ghost setup: Setup)
    returns (ps: seq<Processor>, board: Board)
    requires Startable(setup, prevClose, futures, promises, capacity) && AllPlaced(setup)
    ensures Stand(ps, board, setup, StartTrace(setup, |setup.orders|), {})
  {
    ghost var tr := StartTrace(setup, |setup.orders|);
    StartTraceAt(setup, |setup.orders|);
    assert Reaches(setup, [], tr);
    ReachesSettled(setup, [], tr);
    board := new Board();
    ps := [];
    for s := 0 to |prevClose|
      invariant |ps| == s && Started(ps, board, setup, tr)
    {
      assert setup.orders[s] == setup.orders[s];
      ps := AddStock(ps, prevClose[s], futures[s], promises[s], capacity, board, setup, tr);
    }
    StartedStands(ps, board, setup, tr);
  }

  lemma StartedStands(ps: seq<Processor>, board: Board, setup: Setup, tr: Trace)
    requires SetupOk(setup) && AllPlaced(setup) && Settled(setup, tr) && tr == StartTrace(setup, |setup.orders|)
    requires |ps| == |tr| && Started(ps, board, setup, tr)
    ensures Stand(ps, board, setup, tr, {})
  {
    StartTraceAt(setup, |setup.orders|);
    forall s | 0 <= s < |tr| ensures Shows(setup, tr, s, board.values) {
      assert tr[s] == [Start(setup, s)];
    }
    forall s | 0 <= s < |ps| ensures StandsIn(ps[s], setup, tr, s, {}) {
      assert StandsFor(ps[s], setup, tr, s, false);
    }
  }

  // ---------------------------------------------------------------------------------
  // From the files
  // ---------------------------------------------------------------------------------

  // The two raw files' orders and the hooks, sharded, can be started on.
  lemma FilesAreStartable(input: Input, setup: Setup, futures: seq<seq<Future>>, promises: seq<seq<Promise>>)
    requires InputOk(input) && IsSetup(input, setup) && input.maxId < 0x4000_0000
    requires forall s :: 0 <= s < |input.prevClose| ==> PrevCloseFits(input.prevClose[s])
    requires |futures| == |promises| == NR_STOCKS
    requires forall s :: 0 <= s < NR_STOCKS ==>
               futures[s] == FuturesOf(input.hooks, s) && promises[s] == PromisesOf(input.hooks, s)
    ensures AllPlaced(setup) && Startable(setup, input.prevClose, futures, promises, input.maxId)
  {
    SetupIsOk(input, setup);
    SetupIsPlaced(input, setup);
    forall s | 0 <= s < |setup.orders|
      ensures |setup.orders[s]| <= input.maxId && PromiseChannelsDiffer(setup.promises[s])
      ensures setup.futures[s] == SortedFutures(futures[s]) && setup.promises[s] == SortedPromises(promises[s])
    {
      StockIsStartable(input, setup, s);
    }
  }

  lemma StockIsStartable(input: Input, setup: Setup, s: nat)
    requires InputOk(input) && IsSetup(input, setup) && s < NR_STOCKS
    ensures s < |setup.orders| == |setup.futures| == |setup.promises| && |setup.orders[s]| == input.maxId
    ensures setup.futures[s] == SortedFutures(FuturesOf(input.hooks, s))
    ensures setup.promises[s] == SortedPromises(PromisesOf(input.hooks, s))
    ensures PromiseChannelsDiffer(setup.promises[s])
  {
    assert IsOrderList(input, s, setup.orders[s]);
    OrdersSurvive(input, One, s, setup.orders[s]);
    assert setup.futures[s] == SortedFutures(FuturesOf(input.hooks, s));
    V.PromisesDiffer(input.hooks, s);
  }

  // A trader's processors, made from its hooks and closing prices.
  method StartTrader(prevClose: seq<u32>, hooks: seq<Hook>, maxId: nat, ghost input: Input, ghost setup: Setup)
    returns (ps: seq<Processor>, board: Board)
    requires InputOk(input) && IsSetup(input, setup) && input.maxId < 0x4000_0000
    requires forall s :: 0 <= s < |input.prevClose| ==> PrevCloseFits(input.prevClose[s])
    requires prevClose == input.prevClose && hooks == input.hooks && maxId == input.maxId
    ensures Stand(ps, board, setup, StartTrace(setup, |setup.orders|), {})
  {
    var sharded := PrepareHooks(hooks);
    forall c | 0 <= c < |hooks| ensures hooks[c].srcStk < NR_STOCKS && hooks[c].targetStk < NR_STOCKS {
      V.TargetInRange(input, c);
    }
    FilesAreStartable(input, setup, sharded.value.0, sharded.value.1);
    ps, board := StartStocks(prevClose, sharded.value.0, sharded.value.1, maxId, setup);
  }
}
