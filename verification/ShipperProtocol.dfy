/** The telemetry shipper over whole lifecycles: any number of threads in ShipEvent and the one shipper
    thread, interleaved at their critical sections, with every POST free to succeed or fail.
    An event is known by its place in the order of acceptance. */
module ShipperProtocol {
  import opened Shipper

  datatype Config = Config(batchSize: nat, maxBufferSize: nat) {
    predicate Valid() {
      batchSize >= 1 && maxBufferSize >= 1
    }
  }

  datatype Phase =
    | Asleep   // in the wait, or on the way to it
    | Awake    // saw g_Running after the wait; batch not drained
    | Posting  // batch drained; outcome of the POST not handled
    | Exited

  datatype State = State(
    running: bool, entered: nat,  // callers of ShipEvent past the test of g_Running, buffer lock not taken
    buffer: seq<nat>, batch: seq<nat>, phase: Phase,
    accepted: nat, eventsShipped: nat, eventsDropped: nat,
    shipped: seq<nat>, lost: seq<nat>)  // history: acknowledged by the backend, dropped

  datatype Action = Enter | Accept | Wake | Drain | PostSucceeds | PostFails | Stop

  const INIT := State(true, 0, [], [], Asleep, 0, 0, 0, [], [])

  predicate Enabled(s: State, a: Action) {
    match a
    case Enter => s.running
    case Accept => s.entered > 0
    case Wake => s.phase.Asleep?
    case Drain => s.phase.Awake?
    case PostSucceeds => s.phase.Posting?
    case PostFails => s.phase.Posting?
    case Stop => s.running
  }

  function Effect(c: Config, s: State, a: Action): State
    requires c.Valid() && Enabled(s, a)
  {
    match a
    case Enter => s.(entered := s.entered + 1)
    case Accept =>
      var full := |s.buffer| >= c.maxBufferSize;
      s.(entered := s.entered - 1,
         buffer := Offered(s.buffer, s.accepted, c.maxBufferSize), accepted := s.accepted + 1,
         eventsDropped := s.eventsDropped + if full then 1 else 0,
         lost := s.lost + if full then s.buffer[..1] else [])
    case Wake => s.(phase := if s.running then Awake else Exited)
    case Drain =>
      var n := BatchLength(|s.buffer|, c.batchSize);
      s.(batch := s.buffer[..n], buffer := s.buffer[n..], phase := if n == 0 then Asleep else Posting)
    case PostSucceeds =>
      s.(batch := [], phase := Asleep, eventsShipped := s.eventsShipped + |s.batch|, shipped := s.shipped + s.batch)
    case PostFails =>
      var kept := Requeued(s.batch, s.buffer, c.maxBufferSize);
      var over := (s.batch + s.buffer)[|kept|..];
      s.(batch := [], phase := Asleep, buffer := kept,
         eventsDropped := s.eventsDropped + |over|, lost := s.lost + over)
    case Stop => s.(running := false)
  }

  function Step(c: Config, s: State, a: Action): State
    requires c.Valid()
  {
    if Enabled(s, a) then Effect(c, s, a) else s
  }

  function Run(c: Config, s: State, actions: seq<Action>): State
    requires c.Valid()
    decreases |actions|
  {
    if actions == [] then s else Run(c, Step(c, s, actions[0]), actions[1..])
  }

  // ------------------------------------------------------------------ invariant

  /** The events not dropped: acknowledged, in flight, buffered. */
  function Live(s: State): seq<nat> {
    s.shipped + s.batch + s.buffer
  }

  ghost predicate Increasing(xs: seq<nat>) {
    forall i, j :: 0 <= i < j < |xs| ==> xs[i] < xs[j]
  }

  ghost predicate Below(xs: seq<nat>, n: nat) {
    forall x :: x in xs ==> x < n
  }

  /** Every event accepted so far is live or lost, never both, and none is in a list twice. */
  ghost predicate Partition(live: seq<nat>, lost: seq<nat>, accepted: nat) {
    && Increasing(live) && Below(live, accepted) && Below(lost, accepted)
    && |live| + |lost| == accepted
    && forall x :: 0 <= x < accepted ==> (x in live <==> x !in lost)
  }

  ghost predicate Inv(c: Config, s: State) {
    && Partition(Live(s), s.lost, s.accepted)
    && s.eventsShipped == |s.shipped| && s.eventsDropped == |s.lost|
    && |s.buffer| <= c.maxBufferSize && |s.batch| <= c.batchSize && |s.batch| <= c.maxBufferSize
    && (s.phase.Posting? <==> s.batch != [])
  }

  lemma PartitionAppend(live: seq<nat>, lost: seq<nat>, n: nat)
    requires Partition(live, lost, n)
    ensures Partition(live + [n], lost, n + 1)
  {
    assert forall i :: 0 <= i < |live| ==> live[i] in live;
  }

  lemma IncreasingCut(front: seq<nat>, cut: seq<nat>, back: seq<nat>)
    requires Increasing(front + cut + back)
    ensures Increasing(front + back)
    ensures forall x :: x in cut ==> x !in front + back
  {
    var live := front + cut + back;
    assert forall i :: 0 <= i < |front| ==> live[i] == front[i];
    assert forall i :: 0 <= i < |back| ==> live[|front| + |cut| + i] == back[i];
    assert forall i :: 0 <= i < |cut| ==> live[|front| + i] == cut[i];
  }

  lemma ElementsCut(front: seq<nat>, cut: seq<nat>, back: seq<nat>, x: nat)
    ensures x in front + cut + back <==> x in cut || x in front + back
  {
  }

  /** Events cut out of the live ones and put with the lost ones leave a partition. */
  lemma PartitionCut(front: seq<nat>, cut: seq<nat>, back: seq<nat>, lost: seq<nat>, n: nat)
    requires Partition(front + cut + back, lost, n)
    ensures Partition(front + back, lost + cut, n)
  {
    hide Increasing;
    IncreasingCut(front, cut, back);
    forall x: nat
      ensures x in front + cut + back <==> x in cut || x in front + back
    {
      ElementsCut(front, cut, back, x);
    }
  }

  lemma AcceptKeeps(c: Config, s: State)
    requires c.Valid() && Inv(c, s) && Enabled(s, Accept)
    ensures Inv(c, Effect(c, s, Accept))
  {
    hide Partition;
    var n := s.accepted;
    if |s.buffer| >= c.maxBufferSize {
      assert s.buffer == s.buffer[..1] + s.buffer[1..];
      assert Live(s) == (s.shipped + s.batch) + s.buffer[..1] + s.buffer[1..];
      PartitionCut(s.shipped + s.batch, s.buffer[..1], s.buffer[1..], s.lost, n);
      PartitionAppend(s.shipped + s.batch + s.buffer[1..], s.lost + s.buffer[..1], n);
      assert Live(Effect(c, s, Accept)) == s.shipped + s.batch + s.buffer[1..] + [n];
    } else {
      PartitionAppend(Live(s), s.lost, n);
      assert Live(Effect(c, s, Accept)) == Live(s) + [n];
      assert s.lost + [] == s.lost;
    }
  }

  lemma FailureKeeps(c: Config, s: State)
    requires c.Valid() && Inv(c, s) && Enabled(s, PostFails)
    ensures Inv(c, Effect(c, s, PostFails))
  {
    hide Partition;
    var all := s.batch + s.buffer;
    var m := |Requeued(s.batch, s.buffer, c.maxBufferSize)|;
    assert all == all[..m] + all[m..];
    assert Live(s) == (s.shipped + all[..m]) + all[m..] + [];
    PartitionCut(s.shipped + all[..m], all[m..], [], s.lost, s.accepted);
    assert Live(Effect(c, s, PostFails)) == (s.shipped + all[..m]) + [];
  }

  lemma StepInv(c: Config, s: State, a: Action)
    requires c.Valid() && Inv(c, s)
    ensures Inv(c, Step(c, s, a))
  {
    hide Partition;
    if Enabled(s, a) {
      match a
      case Accept => AcceptKeeps(c, s);
      case PostFails => FailureKeeps(c, s);
      case Drain => assert Live(Effect(c, s, Drain)) == Live(s);
      case PostSucceeds => assert Live(Effect(c, s, PostSucceeds)) == Live(s);
      case _ =>
    }
  }

  lemma {:induction false} RunInv(c: Config, s: State, actions: seq<Action>)
    requires c.Valid() && Inv(c, s)
    ensures Inv(c, Run(c, s, actions))
    decreases |actions|
  {
    hide Inv;
    if actions != [] {
      StepInv(c, s, actions[0]);
      RunInv(c, Step(c, s, actions[0]), actions[1..]);
    }
  }

  lemma Reached(c: Config, actions: seq<Action>)
    requires c.Valid()
    ensures Inv(c, Run(c, INIT, actions))
  {
    RunInv(c, INIT, actions);
  }

  // --------------------------------------------------------------- main results

  /** Accepted = shipped + dropped + buffered + in flight, at every moment. */
  lemma ShipperConservation(c: Config, actions: seq<Action>)
    requires c.Valid()
    ensures var s := Run(c, INIT, actions);
      s.accepted == s.eventsShipped + s.eventsDropped + |s.buffer| + |s.batch|
  {
    Reached(c, actions);
  }

  /** Acknowledged ++ in flight ++ buffered keeps the order of acceptance with no event twice, and what is
      not there was dropped and counted. */
  lemma OrderOfAcceptance(c: Config, actions: seq<Action>)
    requires c.Valid()
    ensures var s := Run(c, INIT, actions);
      && Increasing(s.shipped + s.batch + s.buffer)
      && |s.lost| == s.eventsDropped
      && (forall x :: x in s.shipped + s.batch + s.buffer || x in s.lost <==> 0 <= x < s.accepted)
      && (forall x :: x in s.lost ==> x !in s.shipped + s.batch + s.buffer)
  {
    Reached(c, actions);
    var s := Run(c, INIT, actions);
    assert Partition(Live(s), s.lost, s.accepted);
  }

  /** The buffer never exceeds its limit, a batch is in flight only during a POST, and none is left in flight
      when the shipper thread has exited: then the counters and the buffer alone balance. */
  lemma ShipperBounds(c: Config, actions: seq<Action>)
    requires c.Valid()
    ensures var s := Run(c, INIT, actions);
      && |s.buffer| <= c.maxBufferSize && |s.batch| <= BatchLength(c.maxBufferSize, c.batchSize)
      && (s.batch != [] <==> s.phase.Posting?)
      && (s.phase.Exited? ==> s.accepted == s.eventsShipped + s.eventsDropped + |s.buffer|)
  {
    Reached(c, actions);
  }

  /** A failed POST never costs an event of its own batch: all of it is back at the front of the buffer. What
      it drops are the newest buffered events, and only those past the limit. */
  lemma RetryKeepsBatch(c: Config, actions: seq<Action>)
    requires c.Valid() && Run(c, INIT, actions).phase.Posting?
    ensures var s := Run(c, INIT, actions);
      var t := Step(c, s, PostFails);
      && s.batch <= t.buffer
      && t.lost == s.lost + (s.batch + s.buffer)[|t.buffer|..]
      && t.buffer + (s.batch + s.buffer)[|t.buffer|..] == s.batch + s.buffer
      && (t.lost != s.lost ==> |t.buffer| == c.maxBufferSize)
  {
    Reached(c, actions);
  }

  /** What a buffer with the documented policy would hold after a re-queue: the newest events. */
  function OldestDropped<T>(batch: seq<T>, buffer: seq<T>, maxBufferSize: nat): seq<T> {
    var all := batch + buffer;
    if |all| > maxBufferSize then all[|all| - maxBufferSize..] else all
  }

  /** TelemetryShipper.h says that overflow drops the oldest events. A re-queue agrees with that exactly when
      nothing overflows; otherwise the oldest event stays and the newest one goes. */
  lemma RequeueDropsNewest(batch: seq<nat>, buffer: seq<nat>, maxBufferSize: nat)
    requires Increasing(batch + buffer) && maxBufferSize >= 1
    ensures Requeued(batch, buffer, maxBufferSize) == OldestDropped(batch, buffer, maxBufferSize)
            <==> |batch| + |buffer| <= maxBufferSize
    ensures |batch| + |buffer| > maxBufferSize ==>
      var all := batch + buffer;
      && all[0] in Requeued(batch, buffer, maxBufferSize)
      && all[|all| - 1] !in Requeued(batch, buffer, maxBufferSize)
  {
  }

  // -------------------------------------------------------------------- no loss

  function Outstanding(s: State): int {
    s.accepted - s.eventsShipped
  }

  /** At no moment of the run are more than maxBufferSize events accepted and not acknowledged. */
  ghost predicate NeverOver(c: Config, s: State, actions: seq<Action>)
    requires c.Valid()
    decreases |actions|
  {
    Outstanding(s) <= c.maxBufferSize && (actions == [] || NeverOver(c, Step(c, s, actions[0]), actions[1..]))
  }

  lemma NoDropInStep(c: Config, s: State, a: Action)
    requires c.Valid() && Inv(c, s) && s.lost == []
    requires Outstanding(s) <= c.maxBufferSize && Outstanding(Step(c, s, a)) <= c.maxBufferSize
    ensures Step(c, s, a).lost == []
  {
  }

  lemma {:induction false} NoDropInRun(c: Config, s: State, actions: seq<Action>)
    requires c.Valid() && Inv(c, s) && s.lost == [] && NeverOver(c, s, actions)
    ensures Run(c, s, actions).lost == []
    decreases |actions|
  {
    hide Inv, Step;
    if actions != [] {
      assert NeverOver(c, Step(c, s, actions[0]), actions[1..]);
      NoDropInStep(c, s, actions[0]);
      StepInv(c, s, actions[0]);
      NoDropInRun(c, Step(c, s, actions[0]), actions[1..]);
    }
  }

  lemma {:induction false} IncreasingFull(xs: seq<nat>, n: nat)
    requires Increasing(xs) && Below(xs, n) && |xs| == n
    ensures forall i :: 0 <= i < n ==> xs[i] == i
  {
    if n > 0 {
      assert xs[n - 1] in xs;
      assert Below(xs[..n - 1], n - 1);
      IncreasingFull(xs[..n - 1], n - 1);
      if n > 1 {
        assert xs[n - 2] == xs[..n - 1][n - 2];
      }
    }
  }

  /** Accept no more than the buffer can hold ahead of the backend, and nothing is lost: acknowledged ++ in
      flight ++ buffered is the whole accepted history, whatever POSTs fail on the way. */
  lemma NoLoss(c: Config, actions: seq<Action>)
    requires c.Valid() && NeverOver(c, INIT, actions)
    ensures var s := Run(c, INIT, actions);
      s.eventsDropped == 0 && s.shipped + s.batch + s.buffer == seq(s.accepted, (i: nat) => i)
  {
    Reached(c, actions);
    NoDropInRun(c, INIT, actions);
    var s := Run(c, INIT, actions);
    IncreasingFull(Live(s), s.accepted);
  }

  /** The bound is sharp: one event more and, with no POST in between, exactly one is lost. */
  function AcceptMany(n: nat): seq<Action> {
    if n == 0 then [] else [Enter, Accept] + AcceptMany(n - 1)
  }

  function Over(n: nat, limit: nat): nat {
    if n <= limit then 0 else n - limit
  }

  lemma AcceptOne(c: Config, s: State)
    requires c.Valid() && s.running
    ensures Step(c, Step(c, s, Enter), Accept) ==
      Effect(c, s.(entered := s.entered + 1), Accept)
  {
  }

  lemma {:induction false} AcceptedMany(c: Config, s: State, n: nat)
    requires c.Valid() && s.running && Inv(c, s)
    ensures var t := Run(c, s, AcceptMany(n));
      && t.accepted == s.accepted + n && t.eventsShipped == s.eventsShipped
      && t.eventsDropped - s.eventsDropped == Over(|s.buffer| + n, c.maxBufferSize)
    decreases n
  {
    if n > 0 {
      var actions := AcceptMany(n);
      var t := Step(c, s, Enter);
      var u := Step(c, t, Accept);
      AcceptOne(c, s);
      StepInv(c, s, Enter);
      StepInv(c, t, Accept);
      assert actions[1..] == [Accept] + AcceptMany(n - 1) && actions[1..][1..] == AcceptMany(n - 1);
      assert Run(c, s, actions) == Run(c, t, actions[1..]);
      assert Run(c, t, actions[1..]) == Run(c, u, AcceptMany(n - 1));
      AcceptedMany(c, u, n - 1);
    }
  }

  lemma NoLossIsSharp(c: Config)
    requires c.Valid()
    ensures var s := Run(c, INIT, AcceptMany(c.maxBufferSize + 1));
      Outstanding(s) == c.maxBufferSize + 1 && s.eventsDropped == 1
  {
    AcceptedMany(c, INIT, c.maxBufferSize + 1);
    Reached(c, AcceptMany(c.maxBufferSize + 1));
  }

  // ------------------------------------------------------------------- progress

  /** The given number of flush cycles whose POSTs succeed, while no event arrives. */
  function Cycles(n: nat): seq<Action> {
    if n == 0 then [] else [Wake, Drain, PostSucceeds] + Cycles(n - 1)
  }

  /** The first k buffered events have been acknowledged. */
  function AfterShipping(s: State, k: nat): State
    requires k <= |s.buffer|
  {
    s.(buffer := s.buffer[k..], shipped := s.shipped + s.buffer[..k], eventsShipped := s.eventsShipped + k)
  }

  lemma OneCycle(c: Config, s: State)
    requires c.Valid() && s.running && s.phase.Asleep? && s.batch == []
    ensures Step(c, Step(c, Step(c, s, Wake), Drain), PostSucceeds) ==
            AfterShipping(s, BatchLength(|s.buffer|, c.batchSize))
  {
    hide Requeued, Offered;
    var n := BatchLength(|s.buffer|, c.batchSize);
    if n == 0 {
      NothingShipped(s);
    }
  }

  lemma NothingShipped(s: State)
    ensures AfterShipping(s, 0) == s
  {
    assert s.buffer[0..] == s.buffer && s.shipped + s.buffer[..0] == s.shipped;
  }

  lemma ShippedInTwo(s: State, k: nat, j: nat)
    requires k + j <= |s.buffer|
    ensures AfterShipping(AfterShipping(s, k), j) == AfterShipping(s, k + j)
  {
    assert s.buffer[k..][j..] == s.buffer[k + j..];
    assert s.shipped + s.buffer[..k] + s.buffer[k..][..j] == s.shipped + s.buffer[..k + j];
  }

  lemma LengthInTwo(buffered: nat, batchSize: nat, n: nat)
    requires n > 0
    ensures var k := BatchLength(buffered, batchSize);
      BatchLength(buffered, n * batchSize) == k + BatchLength(buffered - k, (n - 1) * batchSize)
  {
    assert n * batchSize == batchSize + (n - 1) * batchSize;
    Product(n - 1, batchSize);
  }

  lemma Product(m: nat, n: nat)
    ensures m * n >= 0
  {
  }

  /** Cycles that succeed ship the buffer from its front, batchSize at a time. */
  lemma {:induction false} CyclesShip(c: Config, s: State, n: nat)
    requires c.Valid() && s.running && s.phase.Asleep? && s.batch == []
    ensures Run(c, s, Cycles(n)) == AfterShipping(s, BatchLength(|s.buffer|, n * c.batchSize))
    decreases n
  {
    hide Step;
    if n == 0 {
      NothingShipped(s);
    } else {
      var k := BatchLength(|s.buffer|, c.batchSize);
      var t := AfterShipping(s, k);
      CyclesOne(c, s, n);
      CyclesShip(c, t, n - 1);
      LengthInTwo(|s.buffer|, c.batchSize, n);
      ShippedInTwo(s, k, BatchLength(|t.buffer|, (n - 1) * c.batchSize));
    }
  }

  lemma CyclesOne(c: Config, s: State, n: nat)
    requires c.Valid() && s.running && s.phase.Asleep? && s.batch == [] && n > 0
    ensures Run(c, s, Cycles(n)) == Run(c, AfterShipping(s, BatchLength(|s.buffer|, c.batchSize)), Cycles(n - 1))
  {
    hide Step, Run, AfterShipping;
    OneCycle(c, s);
    ThreeSteps(c, s, Cycles(n));
    assert Cycles(n)[3..] == Cycles(n - 1);
  }

  lemma ThreeSteps(c: Config, s: State, actions: seq<Action>)
    requires c.Valid() && |actions| >= 3
    ensures Run(c, s, actions) ==
      Run(c, Step(c, Step(c, Step(c, s, actions[0]), actions[1]), actions[2]), actions[3..])
  {
    var s1 := Step(c, s, actions[0]);
    var s2 := Step(c, s1, actions[1]);
    assert actions[1..][0] == actions[1] && actions[1..][1..] == actions[2..];
    assert actions[2..][0] == actions[2] && actions[2..][1..] == actions[3..];
    assert Run(c, s, actions) == Run(c, s1, actions[1..]);
    assert Run(c, s1, actions[1..]) == Run(c, s2, actions[2..]);
  }

  /** From any moment the shipper sleeps: n cycles empty the buffer exactly when n * batchSize reaches its
      length, and then all of it has been acknowledged in order. */
  lemma ProgressOnceBackendAnswers(c: Config, history: seq<Action>, n: nat)
    requires c.Valid() && var s := Run(c, INIT, history); s.running && s.phase.Asleep?
    ensures var s := Run(c, INIT, history);
      var t := Run(c, s, Cycles(n));
      && (t.buffer == [] <==> |s.buffer| <= n * c.batchSize)
      && (t.buffer == [] ==> t.shipped == s.shipped + s.buffer && t.eventsDropped == s.eventsDropped)
  {
    Reached(c, history);
    CyclesShip(c, Run(c, INIT, history), n);
  }
}
