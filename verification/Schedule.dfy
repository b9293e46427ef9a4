// The ten stocks run concurrently and wait for each other's trades.  One step processes one
// order of one stock; a stock whose next order waits for an unset hook cannot step.  A trace
// keeps every state each stock has been through.
module Schedule {
  import opened Types
  import opened Engine
  import opened Hooks

  // What both traders start from: per stock the order list, the checker's and the notifier's
  // stack; per hook the stock whose trade it watches.
  datatype Setup = Setup(
    prevClose: seq<u32>, orders: seq<seq<Order>>,
    futures: seq<seq<Future>>, promises: seq<seq<Promise>>, target: seq<nat>)

  datatype Stock = Stock(engine: State, futures: seq<Future>)

  type Trace = seq<seq<Stock>>

  ghost predicate SetupOk(setup: Setup) {
    && |setup.prevClose| == |setup.orders| == |setup.futures| == |setup.promises|
    && (forall c :: 0 <= c < |setup.target| ==> setup.target[c] < |setup.orders|)
    && (forall s, i :: 0 <= s < |setup.futures| && 0 <= i < |setup.futures[s]| ==>
          setup.futures[s][i].channel < |setup.target|)
  }

  function Start(setup: Setup, s: nat): Stock
    requires s < |setup.prevClose| && s < |setup.futures|
  {
    Stock(Init(setup.prevClose[s]), setup.futures[s])
  }

  ghost predicate Shaped(setup: Setup, tr: Trace)
    requires SetupOk(setup)
  {
    && |tr| == |setup.orders|
    && forall s :: 0 <= s < |tr| ==>
         && 1 <= |tr[s]| <= |setup.orders[s]| + 1
         && tr[s][0] == Start(setup, s)
         && forall k :: 0 <= k < |tr[s]| ==> tr[s][k].futures <= setup.futures[s]
  }

  function StockLog(tr: Trace, s: nat): seq<Trade>
    requires s < |tr| && tr[s] != []
  {
    tr[s][|tr[s]| - 1].engine.log
  }

  // The board's value for a channel, given the trades made so far.
  function Value(promises: seq<Promise>, log: seq<Trade>, channel: nat): Option<bool> {
    var values := NotifyAll(Notifier(0, promises, map[]), LogVolumes(log)).values;
    if channel in values then Some(values[channel]) else None
  }

  function Outcome(setup: Setup, tr: Trace, channel: nat): Option<bool>
    requires SetupOk(setup) && Shaped(setup, tr) && channel < |setup.target|
  {
    Value(setup.promises[setup.target[channel]], StockLog(tr, setup.target[channel]), channel)
  }

  // The hook answer for order k of stock s, if it is known in this trace.
  function PassAt(setup: Setup, tr: Trace, s: nat, k: nat): Option<bool>
    requires SetupOk(setup) && Shaped(setup, tr) && s < |tr| && k < |tr[s]|
  {
    match Wanted(tr[s][k].futures, k + 1)
    case None => Some(true)
    case Some(c) =>
      var f := tr[s][k].futures;
      assert f[|f| - 1] == setup.futures[s][|f| - 1];
      Outcome(setup, tr, c)
  }

  function NextStock(stock: Stock, o: Order, id: nat, pass: bool): Stock {
    Stock(Process(stock.engine, o, pass), AfterCheck(stock.futures, id))
  }

  ghost predicate Enabled(setup: Setup, tr: Trace, s: nat)
    requires SetupOk(setup) && Shaped(setup, tr)
  {
    s < |tr| && |tr[s]| <= |setup.orders[s]| && PassAt(setup, tr, s, |tr[s]| - 1).Some?
  }

  function Step(setup: Setup, tr: Trace, s: nat): Trace
    requires SetupOk(setup) && Shaped(setup, tr) && Enabled(setup, tr, s)
  {
    var k := |tr[s]| - 1;
    tr[s := tr[s] + [NextStock(tr[s][k], setup.orders[s][k], k + 1, PassAt(setup, tr, s, k).value)]]
  }

  function StartTrace(setup: Setup, n: nat): Trace
    requires n <= |setup.prevClose| && n <= |setup.futures|
  {
    if n == 0 then [] else StartTrace(setup, n - 1) + [[Start(setup, n - 1)]]
  }

  lemma {:induction false} StartTraceAt(setup: Setup, n: nat)
    requires n <= |setup.prevClose| && n <= |setup.futures|
    ensures |StartTrace(setup, n)| == n
    ensures forall s :: 0 <= s < n ==> StartTrace(setup, n)[s] == [Start(setup, s)]
  {
    if n > 0 {
      StartTraceAt(setup, n - 1);
    }
  }

  // `schedule` lists the stocks in the order in which they step.
  ghost predicate Reaches(setup: Setup, schedule: seq<nat>, tr: Trace)
    requires SetupOk(setup)
    decreases |schedule|
  {
    if schedule == [] then
      tr == StartTrace(setup, |setup.orders|)
    else
      var n := |schedule| - 1;
      exists before: Trace :: StepsTo(setup, before, schedule[n], tr) && Reaches(setup, schedule[..n], before)
  }

  ghost predicate StepsTo(setup: Setup, before: Trace, s: nat, tr: Trace)
    requires SetupOk(setup)
  {
    Shaped(setup, before) && Enabled(setup, before, s) && tr == Step(setup, before, s)
  }

  ghost predicate Reachable(setup: Setup, tr: Trace)
    requires SetupOk(setup)
  {
    exists schedule :: Reaches(setup, schedule, tr)
  }

  // ---------------------------------------------------------------------------------
  // Every step of a trace is justified by the values now on the board
  // ---------------------------------------------------------------------------------

  ghost predicate Settled(setup: Setup, tr: Trace)
    requires SetupOk(setup)
  {
    && Shaped(setup, tr)
    && forall s, k {:trigger Justified(setup, tr, s, k)} ::
         0 <= s < |tr| && 0 <= k < |tr[s]| - 1 ==> Justified(setup, tr, s, k)
  }

  ghost predicate Justified(setup: Setup, tr: Trace, s: nat, k: nat)
    requires SetupOk(setup) && Shaped(setup, tr) && s < |tr| && k + 1 < |tr[s]|
  {
    && PassAt(setup, tr, s, k).Some?
    && tr[s][k + 1] == NextStock(tr[s][k], setup.orders[s][k], k + 1, PassAt(setup, tr, s, k).value)
  }

  lemma ValueIsStable(promises: seq<Promise>, a: seq<Trade>, b: seq<Trade>, channel: nat)
    requires a <= b && Value(promises, a, channel).Some?
    ensures Value(promises, b, channel) == Value(promises, a, channel)
  {
    assert b == a + b[|a|..];
    LogVolumesAppend(a, b[|a|..]);
    NotifyExtends(Notifier(0, promises, map[]), LogVolumes(a), LogVolumes(b));
  }

  lemma {:induction false} LogGrows(setup: Setup, tr: Trace, s: nat, j: nat, k: nat)
    requires SetupOk(setup) && Settled(setup, tr) && s < |tr| && j <= k < |tr[s]|
    ensures tr[s][j].engine.log <= tr[s][k].engine.log
  {
    if j < k {
      LogGrows(setup, tr, s, j, k - 1);
      assert Justified(setup, tr, s, k - 1);
      ProcessContinues(tr[s][k - 1].engine, setup.orders[s][k - 1], PassAt(setup, tr, s, k - 1).value);
    }
  }

  // The two traces tell the same story about stock s as far as both go.
  predicate SameStory(a: seq<Stock>, b: seq<Stock>) {
    a <= b || b <= a
  }

  ghost predicate Comparable(t: Trace, u: Trace) {
    |t| == |u| && forall s :: 0 <= s < |t| ==> SameStory(t[s], u[s])
  }

  lemma LogsComparable(setup: Setup, t: Trace, u: Trace, s: nat)
    requires SetupOk(setup) && Settled(setup, t) && Settled(setup, u) && Comparable(t, u) && s < |t|
    ensures StockLog(t, s) <= StockLog(u, s) || StockLog(u, s) <= StockLog(t, s)
    ensures t[s] <= u[s] ==> StockLog(t, s) <= StockLog(u, s)
  {
    if t[s] <= u[s] {
      LogGrows(setup, u, s, |t[s]| - 1, |u[s]| - 1);
    } else {
      assert SameStory(t[s], u[s]);
      LogGrows(setup, t, s, |u[s]| - 1, |t[s]| - 1);
    }
  }

  lemma OutcomesAgree(setup: Setup, t: Trace, u: Trace, channel: nat)
    requires SetupOk(setup) && Settled(setup, t) && Settled(setup, u) && Comparable(t, u)
    requires channel < |setup.target| && Outcome(setup, t, channel).Some?
    ensures Outcome(setup, u, channel).Some? ==> Outcome(setup, u, channel) == Outcome(setup, t, channel)
    ensures t[setup.target[channel]] <= u[setup.target[channel]] ==> Outcome(setup, u, channel).Some?
  {
    var s := setup.target[channel];
    LogsComparable(setup, t, u, s);
    if StockLog(t, s) <= StockLog(u, s) {
      ValueIsStable(setup.promises[s], StockLog(t, s), StockLog(u, s), channel);
    } else if Outcome(setup, u, channel).Some? {
      ValueIsStable(setup.promises[s], StockLog(u, s), StockLog(t, s), channel);
    }
  }

  lemma PassesAgree(setup: Setup, t: Trace, u: Trace, s: nat, k: nat)
    requires SetupOk(setup) && Settled(setup, t) && Settled(setup, u) && Comparable(t, u)
    requires s < |t| && k < |t[s]| && k < |u[s]| && t[s][k] == u[s][k]
    requires PassAt(setup, t, s, k).Some? && PassAt(setup, u, s, k).Some?
    ensures PassAt(setup, t, s, k) == PassAt(setup, u, s, k)
  {
    match Wanted(t[s][k].futures, k + 1)
    case None =>
    case Some(c) =>
      var f := t[s][k].futures;
      assert f[|f| - 1] == setup.futures[s][|f| - 1];
      OutcomesAgree(setup, t, u, c);
  }

  lemma StepShaped(setup: Setup, tr: Trace, s: nat)
    requires SetupOk(setup) && Shaped(setup, tr) && Enabled(setup, tr, s)
    ensures Shaped(setup, Step(setup, tr, s))
  {
    var tr': seq<seq<Stock>> := Step(setup, tr, s);
    forall j: nat, k: nat | j < |tr'| && k < |tr'[j]| ensures tr'[j][k].futures <= setup.futures[j] {
      if j == s && k == |tr[s]| {
        assert tr[s][k - 1].futures <= setup.futures[s];
      } else {
        assert tr'[j][k] == tr[j][k];
      }
    }
  }

  lemma StepSettled(setup: Setup, tr: Trace, s: nat)
    requires SetupOk(setup) && Settled(setup, tr) && Enabled(setup, tr, s)
    ensures Settled(setup, Step(setup, tr, s))
  {
    StepShaped(setup, tr, s);
    var tr': seq<seq<Stock>> := Step(setup, tr, s);
    forall j, k | 0 <= j < |tr'| && 0 <= k < |tr'[j]| - 1 ensures Justified(setup, tr', j, k) {
      assert k < |tr[j]| && tr'[j][k] == tr[j][k];
      assert (j == s && k == |tr[s]| - 1) || Justified(setup, tr, j, k);
      StepKeepsPass(setup, tr, s, j, k);
    }
  }

  lemma StepKeepsPass(setup: Setup, tr: Trace, s: nat, j: nat, k: nat)
    requires SetupOk(setup) && Settled(setup, tr) && Enabled(setup, tr, s)
    requires Shaped(setup, Step(setup, tr, s))
    requires j < |tr| && k < |tr[j]| && PassAt(setup, tr, j, k).Some?
    ensures PassAt(setup, Step(setup, tr, s), j, k) == PassAt(setup, tr, j, k)
  {
    var tr': seq<seq<Stock>> := Step(setup, tr, s);
    assert tr'[j][k] == tr[j][k];
    match Wanted(tr[j][k].futures, k + 1)
    case None =>
    case Some(c) =>
      var f := tr[j][k].futures;
      assert f[|f| - 1] == setup.futures[j][|f| - 1];
      StepGrowsLog(setup, tr, s, setup.target[c]);
      ValueIsStable(setup.promises[setup.target[c]], StockLog(tr, setup.target[c]), StockLog(tr', setup.target[c]), c);
  }

  lemma StepGrowsLog(setup: Setup, tr: Trace, s: nat, j: nat)
    requires SetupOk(setup) && Shaped(setup, tr) && Enabled(setup, tr, s) && j < |tr|
    requires Shaped(setup, Step(setup, tr, s))
    ensures StockLog(tr, j) <= StockLog(Step(setup, tr, s), j)
  {
    var n := |tr[s]| - 1;
    ProcessContinues(tr[s][n].engine, setup.orders[s][n], PassAt(setup, tr, s, n).value);
  }

  lemma {:induction false} ReachesSettled(setup: Setup, schedule: seq<nat>, tr: Trace)
    requires SetupOk(setup) && Reaches(setup, schedule, tr)
    ensures Settled(setup, tr)
    decreases |schedule|
  {
    if schedule == [] {
      StartTraceAt(setup, |setup.orders|);
    } else {
      var n := |schedule| - 1;
      var before: Trace :| StepsTo(setup, before, schedule[n], tr) && Reaches(setup, schedule[..n], before);
      ReachesSettled(setup, schedule[..n], before);
      StepSettled(setup, before, schedule[n]);
    }
  }

  // ---------------------------------------------------------------------------------
  // Main results
  // ---------------------------------------------------------------------------------

  lemma StepComparable(setup: Setup, t: Trace, s: nat, u: Trace)
    requires SetupOk(setup) && Settled(setup, t) && Enabled(setup, t, s) && Settled(setup, u) && Comparable(t, u)
    ensures Comparable(Step(setup, t, s), u)
  {
    var k := |t[s]| - 1;
    var t' := Step(setup, t, s);
    forall j | 0 <= j < |t'| ensures SameStory(t'[j], u[j]) {
      assert SameStory(t[j], u[j]);
      if j == s && |t[s]| < |u[s]| {
        assert t[s] <= u[s] && t[s][k] == u[s][k];
        assert Justified(setup, u, s, k);
        PassesAgree(setup, t, u, s, k);
        assert t'[s] == t[s] + [u[s][k + 1]];
      }
    }
  }

  // Whatever the two schedules, the two runs agree: for every stock, the states one run has
  // been through are a prefix of the other's.
  lemma {:induction false} SchedulesAgree(setup: Setup, schedule: seq<nat>, t: Trace, u: Trace)
    requires SetupOk(setup) && Reaches(setup, schedule, t) && Reachable(setup, u)
    ensures Comparable(t, u)
    decreases |schedule|
  {
    var other :| Reaches(setup, other, u);
    ReachesSettled(setup, other, u);
    if schedule == [] {
      StartTraceAt(setup, |setup.orders|);
    } else {
      var n := |schedule| - 1;
      var before: Trace :| StepsTo(setup, before, schedule[n], t) && Reaches(setup, schedule[..n], before);
      SchedulesAgree(setup, schedule[..n], before, u);
      ReachesSettled(setup, schedule[..n], before);
      StepComparable(setup, before, schedule[n], u);
    }
  }

  // In particular the trade logs of any two runs agree as far as both go.
  lemma TradeLogsAgree(setup: Setup, t: Trace, u: Trace, s: nat)
    requires SetupOk(setup) && Reachable(setup, t) && Reachable(setup, u) && s < |setup.orders|
    ensures |t| == |u| == |setup.orders| && t[s] != [] && u[s] != []
    ensures StockLog(t, s) <= StockLog(u, s) || StockLog(u, s) <= StockLog(t, s)
    ensures |t[s]| == |u[s]| ==> t[s] == u[s]
  {
    var a :| Reaches(setup, a, t);
    var b :| Reaches(setup, b, u);
    ReachesSettled(setup, a, t);
    ReachesSettled(setup, b, u);
    SchedulesAgree(setup, a, t, u);
    LogsComparable(setup, t, u, s);
    assert SameStory(t[s], u[s]);
  }

  ghost predicate Terminal(setup: Setup, tr: Trace)
    requires SetupOk(setup) && Shaped(setup, tr)
  {
    forall s :: 0 <= s < |tr| ==> !Enabled(setup, tr, s)
  }

  ghost predicate Finished(setup: Setup, tr: Trace) {
    |tr| == |setup.orders| && forall s :: 0 <= s < |tr| ==> |tr[s]| == |setup.orders[s]| + 1
  }

  ghost predicate Within(t: Trace, u: Trace) {
    |t| == |u| && forall s :: 0 <= s < |t| ==> t[s] <= u[s]
  }

  // A stock that can step in a run can step in any run that is further on but has not
  // processed that order yet.
  lemma EnabledStays(setup: Setup, t: Trace, u: Trace, s: nat)
    requires SetupOk(setup) && Settled(setup, t) && Settled(setup, u) && Within(t, u)
    requires s < |t| && t[s] == u[s] && Enabled(setup, t, s)
    ensures Enabled(setup, u, s)
  {
    var k := |t[s]| - 1;
    assert Comparable(t, u);
    match Wanted(t[s][k].futures, k + 1)
    case None =>
    case Some(c) =>
      var f := t[s][k].futures;
      assert f[|f| - 1] == setup.futures[s][|f| - 1];
      OutcomesAgree(setup, t, u, c);
  }

  lemma StepWithin(setup: Setup, t: Trace, s: nat, last: Trace)
    requires SetupOk(setup) && Settled(setup, t) && Settled(setup, last) && Within(t, last)
    requires Enabled(setup, t, s) && Terminal(setup, last) && Comparable(Step(setup, t, s), last)
    ensures Within(Step(setup, t, s), last)
  {
    var next := Step(setup, t, s);
    forall j | 0 <= j < |next| ensures next[j] <= last[j] {
      assert t[j] <= last[j] && SameStory(next[j], last[j]);
      if j == s && |t[s]| == |last[s]| {
        EnabledStays(setup, t, last, s);
      }
    }
  }

  // A run that cannot continue has overtaken every other run.
  lemma {:induction false} TerminalIsLast(setup: Setup, schedule: seq<nat>, t: Trace, last: Trace)
    requires SetupOk(setup) && Reaches(setup, schedule, t)
    requires Reachable(setup, last) && Shaped(setup, last) && Terminal(setup, last)
    ensures Within(t, last)
    decreases |schedule|
  {
    var other :| Reaches(setup, other, last);
    ReachesSettled(setup, other, last);
    SchedulesAgree(setup, schedule, t, last);
    if schedule == [] {
      StartTraceAt(setup, |setup.orders|);
    } else {
      var n := |schedule| - 1;
      var s := schedule[n];
      var before: Trace :| StepsTo(setup, before, s, t) && Reaches(setup, schedule[..n], before);
      TerminalIsLast(setup, schedule[..n], before, last);
      ReachesSettled(setup, schedule[..n], before);
      StepWithin(setup, before, s, last);
    }
  }

  // All maximal schedules end in one and the same state, whether it is finished or stuck.
  lemma ScheduleIndependence(setup: Setup, t: Trace, u: Trace)
    requires SetupOk(setup) && Reachable(setup, t) && Reachable(setup, u)
    requires Shaped(setup, t) && Shaped(setup, u) && Terminal(setup, t) && Terminal(setup, u)
    ensures t == u
  {
    var a :| Reaches(setup, a, t);
    var b :| Reaches(setup, b, u);
    TerminalIsLast(setup, a, t, u);
    TerminalIsLast(setup, b, u, t);
    forall s | 0 <= s < |t| ensures t[s] == u[s] {
      assert t[s] <= u[s] && u[s] <= t[s];
    }
  }

  // If one schedule finishes every stock, no schedule can get stuck: a run that has not
  // finished can still step.
  lemma NoDeadlock(setup: Setup, done: Trace, t: Trace)
    requires SetupOk(setup) && Reachable(setup, done) && Finished(setup, done)
    requires Reachable(setup, t) && Shaped(setup, t) && !Finished(setup, t)
    ensures exists s :: 0 <= s < |t| && Enabled(setup, t, s)
  {
    var s :| 0 <= s < |t| && |t[s]| != |setup.orders[s]| + 1;
    if Terminal(setup, t) {
      var a :| Reaches(setup, a, done);
      TerminalIsLast(setup, a, done, t);
      assert false;
    }
  }

  lemma ExtendSchedule(setup: Setup, schedule: seq<nat>, t: Trace, s: nat)
    requires SetupOk(setup) && Reaches(setup, schedule, t) && Shaped(setup, t) && Enabled(setup, t, s)
    ensures Reaches(setup, schedule + [s], Step(setup, t, s))
  {
    assert (schedule + [s])[..|schedule|] == schedule;
    assert StepsTo(setup, t, s, Step(setup, t, s));
  }

  lemma NotYetLast(setup: Setup, schedule: seq<nat>, t: Trace, last: Trace) returns (s: nat)
    requires SetupOk(setup) && Reaches(setup, schedule, t) && Shaped(setup, t) && t != last
    requires Reachable(setup, last) && Shaped(setup, last) && Terminal(setup, last)
    ensures Enabled(setup, t, s)
  {
    assert Reachable(setup, t);
    if Terminal(setup, t) {
      ScheduleIndependence(setup, t, last);
      assert false;
    }
    s :| 0 <= s < |t| && Enabled(setup, t, s);
  }

  lemma StepTowards(setup: Setup, schedule: seq<nat>, t: Trace, last: Trace) returns (s: nat, next: Trace)
    requires SetupOk(setup) && Reaches(setup, schedule, t) && t != last
    requires Reachable(setup, last) && Shaped(setup, last) && Terminal(setup, last)
    ensures Reaches(setup, schedule + [s], next)
    ensures Steps(t) < Steps(next) <= Steps(last)
  {
    ReachesSettled(setup, schedule, t);
    s := NotYetLast(setup, schedule, t, last);
    next := Step(setup, t, s);
    ExtendSchedule(setup, schedule, t, s);
    TerminalIsLast(setup, schedule + [s], next, last);
    StepCounts(setup, t, s);
    StepsMonotone(next, last);
  }

  // From any reachable trace the final one is still reachable: no choice of the scheduler is
  // ever a mistake.
  lemma {:induction false} FinalStaysReachable(setup: Setup, schedule: seq<nat>, t: Trace, last: Trace)
    returns (full: seq<nat>)
    requires SetupOk(setup) && Reaches(setup, schedule, t)
    requires Reachable(setup, last) && Shaped(setup, last) && Terminal(setup, last)
    ensures schedule <= full && Reaches(setup, full, last)
    decreases Steps(last) - Steps(t)
  {
    if t == last {
      full := schedule;
    } else {
      var s, next := StepTowards(setup, schedule, t, last);
      full := FinalStaysReachable(setup, schedule + [s], next, last);
    }
  }

  function Steps(tr: Trace): nat {
    if tr == [] then 0 else |tr[0]| + Steps(tr[1..])
  }

  lemma {:induction false} StepsMonotone(t: Trace, u: Trace)
    requires Within(t, u)
    ensures Steps(t) <= Steps(u)
  {
    if t != [] {
      assert t[0] <= u[0];
      forall s | 0 <= s < |t[1..]| ensures t[1..][s] <= u[1..][s] {
        assert t[s + 1] <= u[s + 1];
      }
      StepsMonotone(t[1..], u[1..]);
    }
  }

  lemma {:induction false} StepsUpdate(tr: Trace, s: nat, h: seq<Stock>)
    requires s < |tr|
    ensures Steps(tr[s := h]) == Steps(tr) - |tr[s]| + |h|
  {
    if s > 0 {
      assert tr[s := h][1..] == tr[1..][s - 1 := h];
      StepsUpdate(tr[1..], s - 1, h);
    } else {
      assert tr[s := h][1..] == tr[1..];
    }
  }

  lemma StepCounts(setup: Setup, tr: Trace, s: nat)
    requires SetupOk(setup) && Shaped(setup, tr) && Enabled(setup, tr, s)
    ensures Steps(Step(setup, tr, s)) == Steps(tr) + 1
  {
    var k := |tr[s]| - 1;
    StepsUpdate(tr, s, tr[s] + [NextStock(tr[s][k], setup.orders[s][k], k + 1, PassAt(setup, tr, s, k).value)]);
  }

  // With usable hooks, a channel's value is known exactly from its target's trade on, and is
  // that trade's verdict.
  lemma OutcomeMeaning(setup: Setup, tr: Trace, p: Promise)
    requires SetupOk(setup) && Shaped(setup, tr) && p.channel < |setup.target|
    requires var all := setup.promises[setup.target[p.channel]];
             PromisesUsable(all) && p in all
    ensures var log := StockLog(tr, setup.target[p.channel]);
            Outcome(setup, tr, p.channel)
            == if p.tradeIdx <= |log| then Some(log[p.tradeIdx - 1].volume <= p.threshold) else None
  {
    ValueMeaning(setup.promises[setup.target[p.channel]], StockLog(tr, setup.target[p.channel]), p);
  }

  lemma ValueMeaning(all: seq<Promise>, log: seq<Trade>, p: Promise)
    requires PromisesUsable(all) && p in all
    ensures Value(all, log, p.channel)
         == if p.tradeIdx <= |log| then Some(log[p.tradeIdx - 1].volume <= p.threshold) else None
  {
    LogVolumesAre(log);
    VolumesMeaning(all, log, LogVolumes(log), p);
  }

  lemma VolumesMeaning(all: seq<Promise>, log: seq<Trade>, volumes: seq<nat>, p: Promise)
    requires PromisesUsable(all) && p in all
    requires |volumes| == |log| && forall k :: 0 <= k < |log| ==> volumes[k] == log[k].volume
    ensures var values := NotifyAll(Notifier(0, all, map[]), volumes).values;
            (if p.channel in values then Some(values[p.channel]) else None)
            == if p.tradeIdx <= |log| then Some(log[p.tradeIdx - 1].volume <= p.threshold) else None
  {
    var i :| 0 <= i < |all| && all[i] == p;
    NotifiedMeaning(all, volumes, i);
  }

  lemma NotifiedMeaning(all: seq<Promise>, volumes: seq<nat>, i: nat)
    requires PromisesUsable(all) && i < |all|
    ensures var values := NotifyAll(Notifier(0, all, map[]), volumes).values;
            && (all[i].channel in values <==> all[i].tradeIdx <= |volumes|)
            && (all[i].channel in values ==> values[all[i].channel] == (volumes[all[i].tradeIdx - 1] <= all[i].threshold))
  {
    NotifyExact(all, volumes);
    StateMeaning(all, NotifyAll(Notifier(0, all, map[]), volumes), volumes, i);
  }

  lemma StateMeaning(all: seq<Promise>, n: Notifier, volumes: seq<nat>, i: nat)
    requires i < |all| && all[i].tradeIdx >= 1 && PromiseState(all, n, volumes, |volumes| + 1)
    ensures all[i].channel in n.values <==> all[i].tradeIdx <= |volumes|
    ensures all[i].channel in n.values ==>
              n.values[all[i].channel] == (volumes[all[i].tradeIdx - 1] <= all[i].threshold)
  {
    assert i >= |n.promises| ==> ResolvedBy(all[i], volumes, n.values);
  }
}
