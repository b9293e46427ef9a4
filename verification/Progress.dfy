// Rest is always within reach: from every state of every run the system can still come to rest,
// whatever writes have failed and whatever has been duplicated so far.
module Progress {
  import opened Types
  import opened BitStream
  import opened Transport
  import opened Exchange
  import S = Schedule

  // ---------------------------------------------------------------------------------
  // What is left to do in one network
  // ---------------------------------------------------------------------------------

  // Moves that a packet here has before it, the fetch included.
  function Weight(place: Place): nat {
    match place
    case SendQueue => 7
    case UpWriting(e, l) => 6
    case UpWire(e, l) => 5
    case ExchangeQueue(e) => 4
    case DownWriting(e, l) => 3
    case DownWire(e, l) => 2
    case ReadQueue(s) => 1
  }

  ghost function Load(at: map<Place, multiset<Packet>>): nat
    decreases |at|
  {
    if at == map[] then 0
    else
      var place :| place in at;
      Weight(place) * |at[place]| + Load(at - {place})
  }

  lemma {:induction false} LoadSplit(at: map<Place, multiset<Packet>>, place: Place)
    requires place in at
    ensures Load(at) == Weight(place) * |at[place]| + Load(at - {place})
    decreases |at|
  {
    var first :| first in at && Load(at) == Weight(first) * |at[first]| + Load(at - {first});
    if first != place {
      LoadSplit(at - {first}, place);
      LoadSplit(at - {place}, first);
      assert at - {first} - {place} == at - {place} - {first};
    }
  }

  lemma LoadWith(net: Net, place: Place, q: multiset<Packet>)
    ensures Load(With(net, place, q).at) + Weight(place) * |In(net, place)| == Load(net.at) + Weight(place) * |q|
  {
    var at, at' := net.at, net.at[place := q];
    LoadSplit(at', place);
    assert at' - {place} == at - {place};
    if place in at {
      LoadSplit(at, place);
    } else {
      assert at - {place} == at;
    }
  }

  lemma LoadAdd(net: Net, place: Place, p: Packet)
    ensures Load(Add(net, place, p).at) == Load(net.at) + Weight(place)
  {
    LoadWith(net, place, In(net, place) + multiset{p});
    OneMore(Weight(place), |In(net, place)|);
  }

  lemma LoadDrop(net: Net, place: Place, p: Packet)
    requires Holds(net, place, p)
    ensures Load(Drop(net, place, p).at) + Weight(place) == Load(net.at)
  {
    LoadWith(net, place, In(net, place) - multiset{p});
    OneMore(Weight(place), |In(net, place)| - 1);
  }

  lemma OneMore(a: nat, b: nat)
    ensures a * (b + 1) == a * b + a
  {
  }

  // Items not done yet, stock by stock.
  function Behind(plan: seq<seq<Packet>>, done: seq<nat>): nat
    requires |plan| == |done|
  {
    if plan == [] then 0
    else (if done[0] < |plan[0]| then |plan[0]| - done[0] else 0) + Behind(plan[1..], done[1..])
  }

  lemma {:induction false} BehindStep(plan: seq<seq<Packet>>, done: seq<nat>, s: nat)
    requires |plan| == |done| && s < |done| && done[s] < |plan[s]|
    ensures Behind(plan, done) == Behind(plan, done[s := done[s] + 1]) + 1
  {
    var done' := done[s := done[s] + 1];
    if s == 0 {
      assert done'[1..] == done[1..];
    } else {
      assert done'[1..] == done[1..][s - 1 := done[1..][s - 1] + 1];
      BehindStep(plan[1..], done[1..], s - 1);
    }
  }

  function SeqNos(readers: seq<Inbox>): (r: seq<nat>)
    ensures |r| == |readers| && forall s :: 0 <= s < |r| ==> r[s] == readers[s].seqNo
  {
    if readers == [] then [] else [readers[0].seqNo] + SeqNos(readers[1..])
  }

  ghost function Effort(net: Net): nat
    requires |net.plan| == |net.encoded| == |net.readers|
  {
    Load(net.at) + 8 * Behind(net.plan, net.encoded) + Behind(net.plan, SeqNos(net.readers))
  }

  lemma HopLessens(net: Net, from: Place, to: Place, p: Packet)
    requires Safe(net) && CanStep(net, Hop(from, to, p)) && IsProgress(Hop(from, to, p))
    ensures Effort(Do(net, Hop(from, to, p))) < Effort(net)
  {
    HopIsLighter(from, to, p);
    MoveLoad(net, from, to, p);
    var moved := Add(Drop(net, from, p), to, p);
    assert Do(net, Hop(from, to, p)) == moved;
  }

  lemma HopIsLighter(from: Place, to: Place, p: Packet)
    requires IsHop(from, to, p) && IsProgress(Hop(from, to, p))
    ensures Weight(to) < Weight(from)
  {
  }

  lemma MoveLoad(net: Net, from: Place, to: Place, p: Packet)
    requires Holds(net, from, p)
    ensures Load(Add(Drop(net, from, p), to, p).at) + Weight(from) == Load(net.at) + Weight(to)
  {
    LoadDrop(net, from, p);
    LoadAdd(Drop(net, from, p), to, p);
  }

  lemma EncodeLessens(net: Net, s: nat)
    requires Safe(net) && CanStep(net, Encode(s))
    ensures Effort(Do(net, Encode(s))) < Effort(net)
  {
    LoadAdd(Grown(net, s), SendQueue, net.plan[s][net.encoded[s]]);
    BehindStep(net.plan, net.encoded, s);
  }

  lemma FetchLessens(net: Net, s: nat, p: Packet)
    requires Safe(net) && CanStep(net, Fetch(s, p))
    ensures Effort(Do(net, Fetch(s, p))) < Effort(net)
  {
    LoadDrop(net, ReadQueue(s), p);
    var next := Do(net, Fetch(s, p));
    assert next.at == Drop(net, ReadQueue(s), p).at && next.plan == net.plan && next.encoded == net.encoded;
    assert SeqNos(next.readers) == SeqNos(net.readers);
  }

  lemma AdvanceLessens(net: Net, s: nat)
    requires Safe(net) && CanStep(net, Advance(s))
    ensures Effort(Do(net, Advance(s))) < Effort(net)
  {
    assert ReaderOk(net, s) by {
      assert net.readers[s] == net.readers[s];
    }
    var next := Do(net, Advance(s));
    assert SeqNos(next.readers) == SeqNos(net.readers)[s := net.readers[s].seqNo + 1];
    BehindStep(net.plan, SeqNos(net.readers), s);
  }

  // Every step but a failing write and a duplicate brings the network closer to rest.
  lemma ProgressLessens(net: Net, step: Step)
    requires Safe(net) && CanStep(net, step) && IsProgress(step)
    ensures Safe(Do(net, step)) && Effort(Do(net, step)) < Effort(net)
  {
    StepSafe(net, step);
    match step
    case Encode(s) => EncodeLessens(net, s);
    case Hop(from, to, p) => HopLessens(net, from, to, p);
    case Fetch(s, p) => FetchLessens(net, s, p);
    case Advance(s) => AdvanceLessens(net, s);
  }

  // ---------------------------------------------------------------------------------
  // The whole system
  // ---------------------------------------------------------------------------------

  function Capacity(orders: seq<seq<Order>>): nat {
    if orders == [] then 0 else |orders[0]| + 1 + Capacity(orders[1..])
  }

  lemma {:induction false} StepsBound(orders: seq<seq<Order>>, tr: S.Trace)
    requires |tr| == |orders| && forall s :: 0 <= s < |tr| ==> |tr[s]| <= |orders[s]| + 1
    ensures S.Steps(tr) <= Capacity(orders)
  {
    if tr != [] {
      assert forall s :: 0 <= s < |tr[1..]| ==> tr[1..][s] == tr[s + 1] && orders[1..][s] == orders[s + 1];
      StepsBound(orders[1..], tr[1..]);
    }
  }

  ghost function TraceEffort(setup: S.Setup, tr: S.Trace): nat {
    if S.Steps(tr) <= Capacity(setup.orders) then Capacity(setup.orders) - S.Steps(tr) else 0
  }

  lemma StepLessens(setup: S.Setup, tr: S.Trace, s: nat)
    requires TraceOk(setup, tr) && S.Enabled(setup, tr, s)
    ensures TraceEffort(setup, S.Step(setup, tr, s)) < TraceEffort(setup, tr)
  {
    S.StepCounts(setup, tr, s);
    S.StepShaped(setup, tr, s);
    StepsBound(setup.orders, S.Step(setup, tr, s));
  }

  ghost function WorldEffort(c: Case, w: World): nat
    requires CaseOk(c) && WorldOk(c, w)
  {
    Effort(w.net1) + Effort(w.net2) + TraceEffort(c.setup, w.trace1) + TraceEffort(c.setup, w.trace2)
  }

  predicate Advances(a: Action) {
    a.NetStep? ==> IsProgress(a.step)
  }

  lemma NetActLessens(c: Case, w: World, t: Trader, step: Step)
    requires CaseOk(c) && WorldOk(c, w) && CanAct(c, w, NetStep(t, step)) && IsProgress(step)
    requires WorldOk(c, Act(c, w, NetStep(t, step)))
    ensures WorldEffort(c, Act(c, w, NetStep(t, step))) < WorldEffort(c, w)
  {
    ProgressLessens(NetOf(w, t), step);
  }

  lemma ProcessActLessens(c: Case, w: World, t: Trader, s: nat)
    requires CaseOk(c) && WorldOk(c, w) && CanAct(c, w, ProcessNext(t, s))
    requires WorldOk(c, Act(c, w, ProcessNext(t, s)))
    ensures WorldEffort(c, Act(c, w, ProcessNext(t, s))) < WorldEffort(c, w)
  {
    AvailableIsPrefix(c, w, t, s);
    ProcessedIsStep(c.setup, TraceOf(w, t), s, Available(c, w, t, s));
    StepLessens(c.setup, TraceOf(w, t), s);
  }

  lemma ActLessens(c: Case, w: World, a: Action)
    requires CaseOk(c) && WorldOk(c, w) && CanAct(c, w, a) && Advances(a)
    ensures WorldOk(c, Act(c, w, a)) && WorldEffort(c, Act(c, w, a)) < WorldEffort(c, w)
  {
    ActKeepsWorld(c, w, a);
    match a
    case NetStep(t, step) => NetActLessens(c, w, t, step);
    case ProcessNext(t, s) => ProcessActLessens(c, w, t, s);
  }

  // ---------------------------------------------------------------------------------
  // Setbacks
  // ---------------------------------------------------------------------------------

  // A failed write puts a packet one move back; a duplicate adds at most six moves.
  lemma SetbackCosts(net: Net, step: Step)
    requires Safe(net) && CanStep(net, step) && !IsProgress(step)
    ensures Safe(Do(net, step)) && Effort(Do(net, step)) <= Effort(net) + 6
  {
    StepSafe(net, step);
    match step
    case Hop(from, to, p) => MoveLoad(net, from, to, p);
    case Duplicate(from, p) => DuplicateLoad(net, from, p);
  }

  lemma DuplicateLoad(net: Net, from: Place, p: Packet)
    requires Holds(net, from, p) && (from.UpWriting? || from.DownWriting?)
    ensures Load(Add(Add(Drop(net, from, p), Home(from), p), WireOf(from), p).at) <= Load(net.at) + 6
  {
    MoveLoad(net, from, Home(from), p);
    LoadAdd(Add(Drop(net, from, p), Home(from), p), WireOf(from), p);
  }

  lemma NetActCosts(c: Case, w: World, t: Trader, step: Step)
    requires CaseOk(c) && WorldOk(c, w) && CanAct(c, w, NetStep(t, step)) && !IsProgress(step)
    requires WorldOk(c, Act(c, w, NetStep(t, step)))
    ensures WorldEffort(c, Act(c, w, NetStep(t, step))) <= WorldEffort(c, w) + 6
  {
    SetbackCosts(NetOf(w, t), step);
  }

  function Setbacks(actions: seq<Action>): nat {
    if actions == [] then 0
    else
      var n := |actions| - 1;
      Setbacks(actions[..n]) + if Advances(actions[n]) then 0 else 1
  }

  lemma ActCosts(c: Case, w: World, a: Action)
    requires CaseOk(c) && WorldOk(c, w) && CanAct(c, w, a)
    ensures WorldOk(c, Act(c, w, a))
    ensures WorldEffort(c, Act(c, w, a)) + 1 <= WorldEffort(c, w) + if Advances(a) then 0 else 7
  {
    if Advances(a) {
      ActLessens(c, w, a);
    } else {
      ActKeepsWorld(c, w, a);
      NetActCosts(c, w, a.t, a.step);
    }
  }

  // A run with finitely many failed writes and duplicates is of bounded length.
  lemma {:induction false} RunIsBounded(c: Case, actions: seq<Action>, w: World)
    requires CaseOk(c) && WorldRun(c, actions, w)
    ensures |c.setup.orders| <= |c.setup.prevClose| && |c.setup.orders| <= |c.setup.futures|
    ensures WorldOk(c, StartWorld(c)) && WorldOk(c, w)
    ensures |actions| + WorldEffort(c, w) <= WorldEffort(c, StartWorld(c)) + 7 * Setbacks(actions)
    decreases |actions|
  {
    StartIsOk(c);
    if actions != [] {
      var before := LastStep(c, actions, w);
      RunIsBounded(c, actions[..|actions| - 1], before);
      ActCosts(c, before, actions[|actions| - 1]);
    }
  }

  lemma LastStep(c: Case, actions: seq<Action>, w: World) returns (before: World)
    requires actions != [] && WorldRun(c, actions, w)
    ensures WorldRun(c, actions[..|actions| - 1], before)
    ensures CanAct(c, before, actions[|actions| - 1]) && w == Act(c, before, actions[|actions| - 1])
  {
    var n := |actions| - 1;
    before :| ActsTo(c, before, actions[n], w) && WorldRun(c, actions[..n], before);
  }

  // So a run that goes on as long as anything but a setback can happen comes to rest.
  lemma MaximalRunRests(c: Case, w: World)
    requires forall a :: CanAct(c, w, a) ==> !Advances(a)
    ensures AtRest(c, w)
  {
    if !AtRest(c, w) {
      var a := NotAtRest(c, w);
    }
  }

  lemma NotAtRest(c: Case, w: World) returns (a: Action)
    requires !AtRest(c, w)
    ensures CanAct(c, w, a) && Advances(a)
  {
    if !Quiet(w.net1) {
      var step :| IsProgress(step) && CanStep(w.net1, step);
      a := NetStep(One, step);
    } else if !Quiet(w.net2) {
      var step :| IsProgress(step) && CanStep(w.net2, step);
      a := NetStep(Two, step);
    } else {
      var t, s: nat :| CanAct(c, w, ProcessNext(t, s));
      a := ProcessNext(t, s);
    }
  }

  lemma ExtendRun(c: Case, actions: seq<Action>, w: World, a: Action)
    requires WorldRun(c, actions, w) && CanAct(c, w, a)
    ensures WorldRun(c, actions + [a], Act(c, w, a))
  {
    assert (actions + [a])[..|actions|] == actions;
    assert ActsTo(c, w, a, Act(c, w, a));
  }

  // Every run can be continued until the system rests.
  lemma {:induction false} RestStaysReachable(c: Case, actions: seq<Action>, w: World) returns (full: seq<Action>, last: World)
    requires CaseOk(c) && WorldOk(c, w) && WorldRun(c, actions, w)
    ensures actions <= full && WorldRun(c, full, last) && AtRest(c, last)
    decreases WorldEffort(c, w)
  {
    if AtRest(c, w) {
      full, last := actions, w;
    } else {
      var a := NotAtRest(c, w);
      ExtendRun(c, actions, w, a);
      ActLessens(c, w, a);
      full, last := RestStaysReachable(c, actions + [a], Act(c, w, a));
    }
  }

  // So the files determine one result: however the packets are cut, every run on these files can
  // still reach it, and no run that has come to rest has another.
  lemma ResultIsDetermined(input: Input) returns (result: S.Trace)
    requires InputOk(input)
    ensures forall c, actions, w, t {:trigger WorldRun(c, actions, w), TraceOf(w, t)} ::
              CaseOk(c) && c.input == input && WorldRun(c, actions, w) && AtRest(c, w) ==> TraceOf(w, t) == result
    ensures forall c, actions, w {:trigger WorldRun(c, actions, w)} ::
              CaseOk(c) && c.input == input && WorldRun(c, actions, w) ==> CanRestWith(c, actions, result)
  {
    var one := CaseExists(input);
    StartIsOk(one);
    var full, last := RestStaysReachable(one, [], StartWorld(one));
    result := last.trace1;
    forall c, actions, w, t | CaseOk(c) && c.input == input && WorldRun(c, actions, w) && AtRest(c, w)
      ensures TraceOf(w, t) == result
    {
      RestingTradersAgree(c, actions, w, t, one, full, last, One);
    }
    forall c, actions, w | CaseOk(c) && c.input == input && WorldRun(c, actions, w)
      ensures CanRestWith(c, actions, result)
    {
      RestsAlike(c, actions, w, one, full, last);
    }
  }

  lemma RestsAlike(c: Case, actions: seq<Action>, w: World, d: Case, actionsD: seq<Action>, last: World)
    requires CaseOk(c) && CaseOk(d) && SameFiles(c, d)
    requires WorldRun(c, actions, w) && WorldRun(d, actionsD, last) && AtRest(d, last)
    ensures CanRestWith(c, actions, last.trace1)
  {
    WorldRunOk(c, actions, w);
    var f, l := RestStaysReachable(c, actions, w);
    RestingTradersAgree(c, f, l, One, d, actionsD, last, One);
    RestingTradersAgree(c, f, l, Two, d, actionsD, last, One);
    assert RestsWith(c, actions, f, l, last.trace1);
  }

  ghost predicate RestsWith(c: Case, actions: seq<Action>, full: seq<Action>, last: World, result: S.Trace) {
    actions <= full && WorldRun(c, full, last) && AtRest(c, last) && last.trace1 == last.trace2 == result
  }

  // The run can be continued to rest with this result at both traders.
  ghost predicate CanRestWith(c: Case, actions: seq<Action>, result: S.Trace) {
    exists full, last :: RestsWith(c, actions, full, last, result)
  }
}
