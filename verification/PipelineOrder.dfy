/** End to end: what the backend acknowledges of the driver's events, for every interleaving. */
module PipelineOrder {
  import opened Bytes
  import opened Wire
  import opened Pipeline
  import D = DriverProtocol
  import Steps = DriverSteps
  import Safety = DriverSafety
  import Theorems = DriverTheorems
  import S = ShipperProtocol

  // ------------------------------------------------------------------ invariant

  /** The events of the drain under way that have been handed over. */
  function Batch(r: D.Reader): seq<D.Event> {
    if r.Copying? || r.Copied? || r.Returning? then r.batch else []
  }

  /** Where the splitting loop goes on. */
  function NextOffset(r: Reader): nat
    requires !r.Reading?
  {
    if r.Splitting? then r.offset else AddU32(r.offset, r.size)
  }

  ghost predicate InBuffer(b: bytes, offset: nat) {
    offset <= |b| < U32_MOD && Advances(b, offset)
  }

  /** While the agent splits, no drain is under way, and the loop is inside its buffer. */
  ghost predicate ReaderInv(s: State) {
    !s.reader.Reading? ==> s.driver.reader.Waiting? && InBuffer(s.reader.buffer, NextOffset(s.reader))
  }

  /** The records handed over by the driver but not dispatched yet. */
  function Pending(s: State): seq<bytes>
    requires ReaderInv(s)
  {
    if s.reader.Reading? then D.Records(Batch(s.driver.reader)) else Parse(s.reader.buffer[NextOffset(s.reader)..])
  }

  ghost predicate RecordsInv(s: State) {
    ReaderInv(s) && D.Records(s.driver.handed) == s.dispatched + Pending(s)
  }

  /** At most one thread is in a callback; those past the test in ShipEvent are the shipper's callers. */
  ghost predicate CallbackInv(s: State) {
    && !(ReaderInCallback(s) && FilterInCallback(s))
    && s.shipper.entered == (if s.reader.Shipping? then 1 else 0) + (if s.filter.FilterShipping? then 1 else 0)
  }

  /** How many dispatched records ShipEvent is through with. */
  function Passed(s: State): int {
    |s.dispatched| - if ReaderInCallback(s) then 1 else 0
  }

  /** Driver events were accepted in the order of dispatch, each once. */
  ghost predicate InOrder(sources: seq<Source>, bound: int) {
    && (forall i :: 0 <= i < |sources| && sources[i].FromDriver? ==> 0 <= sources[i].at < bound)
    && (forall i, j :: 0 <= i < j < |sources| && sources[i].FromDriver? && sources[j].FromDriver? ==>
          sources[i].at < sources[j].at)
  }

  ghost predicate SourcesInv(s: State) {
    |s.sources| == s.shipper.accepted && Passed(s) >= 0 && InOrder(s.sources, Passed(s))
  }

  ghost predicate Inv(c: S.Config, s: State) {
    && Safety.Inv(s.driver) && S.Inv(c, s.shipper)
    && RecordsInv(s) && CallbackInv(s) && SourcesInv(s)
  }

  // ------------------------------------------------------------ it holds initially

  lemma InitInv(c: S.Config, threads: nat)
    requires c.Valid()
    ensures Inv(c, Init(threads))
  {
    hide Safety.Inv;
    Safety.InitInv(threads);
  }

  // ------------------------------------------------------------ the parts are kept

  lemma PartsKept(c: S.Config, s: State, a: Action)
    requires c.Valid() && Enabled(s, a) && Safety.Inv(s.driver) && S.Inv(c, s.shipper)
    ensures Safety.Inv(Effect(c, s, a).driver) && S.Inv(c, Effect(c, s, a).shipper)
  {
    hide Safety.Inv, S.Inv, D.Effect, D.Enabled, S.Effect, S.Enabled, SizeAt, AddU32;
    match a
    case Driver(d) => DriverKept(s.driver, d);
    case Return => ReturnEnabled(s.driver); DriverKept(s.driver, D.Return);
    case ReaderEnters => S.StepInv(c, s.shipper, S.Enter);
    case ReaderShips => S.StepInv(c, s.shipper, S.Accept);
    case FilterEnters => S.StepInv(c, s.shipper, S.Enter);
    case FilterShips => S.StepInv(c, s.shipper, S.Accept);
    case Shipper(x) => S.StepInv(c, s.shipper, x);
    case _ =>
  }

  lemma ReturnEnabled(d: D.State)
    requires d.reader.Returning?
    ensures D.Enabled(d, D.Return)
  {
  }

  lemma DriverKept(d: D.State, a: D.Action)
    requires Safety.Inv(d) && D.Enabled(d, a)
    ensures Safety.Inv(D.Effect(d, a))
  {
    hide Safety.Inv, D.Enabled, D.Effect;
    Safety.StepInv(d, a);
  }

  // ---------------------------------------------------------------- the records

  function HandedBy(d: D.State, a: D.Action): seq<D.Event> {
    if a.CountOne? && d.reader.Copied? then [d.reader.e] else []
  }

  /** A driver step other than the return hands over what it adds to the batch, and nothing else. */
  lemma HandedStep(d: D.State, a: D.Action)
    requires D.Enabled(d, a) && a != D.Return
    ensures var t := D.Effect(d, a);
      var x := HandedBy(d, a);
      && t.handed == d.handed + x && Batch(t.reader) == Batch(d.reader) + x
      && (d.reader.Waiting? && !a.StartDrain? ==> t.reader.Waiting? && x == [])
  {
    hide D.Effect, D.Enabled, D.Stamped, D.HeadFits, D.AllIdle, D.Increment, AddU32;
    if Steps.ByPusher(a) {
      Steps.PusherActs(d, a);
      Steps.PusherStep(d, a);
    } else {
      Steps.ReaderActs(d, a);
      Steps.ReaderStep(d, a);
      Steps.ReaderMoves(d, a);
    }
  }

  lemma RecordsAppend(a: seq<D.Event>, b: seq<D.Event>)
    ensures D.Records(a + b) == D.Records(a) + D.Records(b)
  {
  }

  lemma DriverRecords(c: S.Config, s: State, d: D.Action)
    requires c.Valid() && RecordsInv(s) && Enabled(s, Driver(d))
    ensures RecordsInv(Effect(c, s, Driver(d)))
  {
    hide D.Effect, D.Enabled, D.Records, Parse, Advances, AddU32, HandedBy;
    HandedStep(s.driver, d);
    var x := HandedBy(s.driver, d);
    RecordsAppend(s.driver.handed, x);
    RecordsAppend(Batch(s.driver.reader), x);
    NoRecords();
  }

  lemma NoRecords()
    ensures D.Records([]) == []
  {
  }

  lemma ReturnRecords(c: S.Config, s: State)
    requires c.Valid() && RecordsInv(s) && Safety.Inv(s.driver) && Enabled(s, Return)
    ensures RecordsInv(Effect(c, s, Return))
  {
    hide Parse, Advances, Safety.Inv, D.Records;
    Theorems.ReturnedBytes(s.driver);
    var out := s.driver.reader.out;
    assert out[0..] == out;
  }

  /** At the splitting loop's test: the next record is the first pending one, or nothing is pending. */
  lemma NextPending(b: bytes, offset: nat)
    requires InBuffer(b, offset)
    ensures var size := SizeAt(b, offset);
      if size == 0 then Parse(b[offset..]) == []
      else
        && Parse(b[offset..]) == [Slice(b, offset, size)] + Parse(b[offset + size..])
        && AddU32(offset, size) == offset + size && InBuffer(b, offset + size)
  {
    hide SizeAt, Parse, Advances, AddU32;
    RecordAtOffset(b, offset);
  }

  lemma NextRecords(c: S.Config, s: State)
    requires c.Valid() && RecordsInv(s) && Enabled(s, NextRecord)
    ensures RecordsInv(Effect(c, s, NextRecord))
  {
    hide Parse, D.Records, SizeAt, Slice, InBuffer, AddU32;
    NextPending(s.reader.buffer, s.reader.offset);
    NoRecords();
  }

  lemma RecordsKept(c: S.Config, s: State, a: Action)
    requires c.Valid() && RecordsInv(s) && Safety.Inv(s.driver) && Enabled(s, a)
    ensures RecordsInv(Effect(c, s, a))
  {
    match a
    case Driver(d) => DriverRecords(c, s, d);
    case Return => ReturnRecords(c, s);
    case NextRecord => NextRecords(c, s);
    case _ => OtherRecords(c, s, a);
  }

  lemma OtherRecords(c: S.Config, s: State, a: Action)
    requires c.Valid() && RecordsInv(s) && Enabled(s, a) && !a.Driver? && !a.Return? && !a.NextRecord?
    ensures RecordsInv(Effect(c, s, a))
  {
  }

  // ------------------------------------------------------- callbacks and sources

  lemma ShipperCallers(c: S.Config, s: S.State, a: S.Action)
    requires c.Valid()
    ensures var t := S.Step(c, s, a);
      && (a.Enter? && s.running ==> t.entered == s.entered + 1 && t.accepted == s.accepted)
      && (a.Accept? && s.entered > 0 ==> t.entered == s.entered - 1 && t.accepted == s.accepted + 1)
      && (!a.Enter? && !a.Accept? ==> t.entered == s.entered && t.accepted == s.accepted)
  {
  }

  lemma CallbacksKept(c: S.Config, s: State, a: Action)
    requires c.Valid() && CallbackInv(s) && Enabled(s, a)
    ensures CallbackInv(Effect(c, s, a))
  {
  }

  lemma SourcesKept(c: S.Config, s: State, a: Action)
    requires c.Valid() && CallbackInv(s) && SourcesInv(s) && Enabled(s, a)
    ensures SourcesInv(Effect(c, s, a))
  {
    hide S.Step, S.Enabled, D.Effect, D.Enabled, SizeAt, AddU32, Slice;
    ShipperCallers(c, s.shipper, S.Enter);
    ShipperCallers(c, s.shipper, S.Accept);
    if a.Shipper? {
      ShipperCallers(c, s.shipper, a.shipper);
    }
  }

  lemma StepInv(c: S.Config, s: State, a: Action)
    requires c.Valid() && Inv(c, s)
    ensures Inv(c, Step(c, s, a))
  {
    hide Safety.Inv, S.Inv, RecordsInv, CallbackInv, SourcesInv, Effect, Enabled;
    if Enabled(s, a) {
      PartsKept(c, s, a);
      RecordsKept(c, s, a);
      CallbacksKept(c, s, a);
      SourcesKept(c, s, a);
    }
  }

  lemma {:induction false} RunInv(c: S.Config, s: State, actions: seq<Action>)
    requires c.Valid() && Inv(c, s)
    ensures Inv(c, Run(c, s, actions))
    decreases |actions|
  {
    hide Inv, Step;
    if actions != [] {
      StepInv(c, s, actions[0]);
      RunInv(c, Step(c, s, actions[0]), actions[1..]);
    }
  }

  // --------------------------------------------------------------- main results

  /** The places, among the dispatched driver records, of those of the given accepted events that came from
      the driver, in the given order. */
  function Places(sources: seq<Source>, events: seq<nat>): seq<int> {
    if events == [] then []
    else
      var x := events[|events| - 1];
      Places(sources, events[..|events| - 1]) +
      if x < |sources| && sources[x].FromDriver? then [sources[x].at] else []
  }

  ghost predicate Ascending(xs: seq<int>) {
    forall i, j :: 0 <= i < j < |xs| ==> xs[i] < xs[j]
  }

  /** p is the place of one of the given accepted events. */
  ghost predicate PlaceOf(sources: seq<Source>, events: seq<nat>, p: int) {
    exists k :: 0 <= k < |events| && events[k] < |sources| && sources[events[k]] == FromDriver(p)
  }

  lemma {:induction false} PlacesComeFrom(sources: seq<Source>, events: seq<nat>, p: int)
    requires p in Places(sources, events)
    ensures PlaceOf(sources, events, p)
  {
    var n := |events| - 1;
    if p in Places(sources, events[..n]) {
      PlacesComeFrom(sources, events[..n], p);
      var k :| 0 <= k < n && events[..n][k] < |sources| && sources[events[..n][k]] == FromDriver(p);
      assert events[k] == events[..n][k];
    } else {
      assert sources[events[n]] == FromDriver(p);
    }
  }

  lemma LaterPlace(sources: seq<Source>, events: seq<nat>, bound: int, p: int, x: nat)
    requires InOrder(sources, bound) && PlaceOf(sources, events, p)
    ensures 0 <= p < bound
    ensures x < |sources| && sources[x].FromDriver? && S.Below(events, x) ==> p < sources[x].at
  {
    var k :| 0 <= k < |events| && events[k] < |sources| && sources[events[k]] == FromDriver(p);
    assert events[k] in events;
  }

  lemma {:induction false} PlacesIncreasing(sources: seq<Source>, events: seq<nat>, bound: int)
    requires InOrder(sources, bound) && S.Increasing(events)
    ensures Ascending(Places(sources, events))
  {
    hide InOrder, PlaceOf;
    if events != [] {
      var n := |events| - 1;
      var before := Places(sources, events[..n]);
      PlacesIncreasing(sources, events[..n], bound);
      assert S.Below(events[..n], events[n]);
      forall i | 0 <= i < |before|
        ensures events[n] < |sources| && sources[events[n]].FromDriver? ==> before[i] < sources[events[n]].at
      {
        assert before[i] in before;
        PlacesComeFrom(sources, events[..n], before[i]);
        LaterPlace(sources, events[..n], bound, before[i], events[n]);
      }
    }
  }

  lemma PlacesBounded(sources: seq<Source>, events: seq<nat>, bound: int)
    requires InOrder(sources, bound)
    ensures forall p :: p in Places(sources, events) ==> 0 <= p < bound
  {
  }

  lemma HandedFirst(d: D.State)
    requires Safety.FifoInv(d)
    ensures D.Records(d.handed) <= D.Records(d.inserted)
  {
    hide Safety.Carried, D.Records;
    var rest := Safety.Carried(d.reader) + d.queue + d.cleaned;
    assert d.handed + rest == d.inserted;
    RecordsAppend(d.handed, rest);
  }

  lemma DispatchedFirst(s: State)
    requires RecordsInv(s)
    ensures s.dispatched <= D.Records(s.driver.handed)
  {
    hide D.Records, Parse, ReaderInv;
  }

  lemma SourcesBelow(s: State)
    requires SourcesInv(s)
    ensures InOrder(s.sources, |s.dispatched|) && |s.sources| == s.shipper.accepted
  {
  }

  lemma ShipperPart(c: S.Config, s: State)
    requires S.Inv(c, s.shipper)
    ensures S.Partition(S.Live(s.shipper), s.shipper.lost, s.shipper.accepted)
  {
    hide S.Partition, S.Live;
  }

  lemma Unpack(c: S.Config, s: State)
    requires Inv(c, s)
    ensures s.dispatched <= D.Records(s.driver.inserted)
    ensures InOrder(s.sources, |s.dispatched|)
    ensures S.Partition(S.Live(s.shipper), s.shipper.lost, |s.sources|)
  {
    hide Safety.Inv, S.Inv, RecordsInv, CallbackInv, SourcesInv, S.Partition, InOrder, D.Records, S.Live;
    Theorems.Parts(s.driver);
    HandedFirst(s.driver);
    DispatchedFirst(s);
    SourcesBelow(s);
    ShipperPart(c, s);
  }

  lemma PrefixIncreasing(a: seq<nat>, b: seq<nat>)
    requires S.Increasing(a + b)
    ensures S.Increasing(a)
  {
    assert forall i :: 0 <= i < |a| ==> (a + b)[i] == a[i];
  }

  /** Every record dispatched is the one inserted into the kernel queue at the same place: between the queue and
      ShipEvent nothing is lost, repeated, reordered, cut or merged. */
  lemma DispatchedIsInserted(c: S.Config, threads: nat, actions: seq<Action>)
    requires c.Valid()
    ensures var s := Run(c, Init(threads), actions);
      s.dispatched <= D.Records(s.driver.inserted)
  {
    hide Inv, Run;
    InitInv(c, threads);
    RunInv(c, Init(threads), actions);
    Unpack(c, Run(c, Init(threads), actions));
  }

  /** End to end: the driver's events that the backend has acknowledged are a subsequence of the insertion order
      of the kernel queue, without repetition, whatever the filter's events among them and whatever was dropped
      or re-sent on the way. */
  lemma AcknowledgedInOrder(c: S.Config, threads: nat, actions: seq<Action>)
    requires c.Valid()
    ensures var s := Run(c, Init(threads), actions);
      var places := Places(s.sources, s.shipper.shipped);
      && Ascending(places)
      && forall p :: p in places ==>
           0 <= p < |s.dispatched| <= |s.driver.inserted| && s.dispatched[p] == s.driver.inserted[p].record
  {
    hide Inv, Run, Places;
    InitInv(c, threads);
    RunInv(c, Init(threads), actions);
    var s := Run(c, Init(threads), actions);
    Unpack(c, s);
    assert S.Live(s.shipper) == s.shipper.shipped + (s.shipper.batch + s.shipper.buffer);
    PrefixIncreasing(s.shipper.shipped, s.shipper.batch + s.shipper.buffer);
    PlacesIncreasing(s.sources, s.shipper.shipped, |s.dispatched|);
    PlacesBounded(s.sources, s.shipper.shipped, |s.dispatched|);
    RecordAt(s.driver.inserted, s.dispatched);
  }

  lemma RecordAt(inserted: seq<D.Event>, dispatched: seq<bytes>)
    requires dispatched <= D.Records(inserted)
    ensures |dispatched| <= |inserted|
    ensures forall p :: 0 <= p < |dispatched| ==> dispatched[p] == inserted[p].record
  {
  }

  // ---------------------------------------------------------- nothing is missing

  /** The places of all accepted driver events. */
  function AllPlaces(sources: seq<Source>): seq<int> {
    if sources == [] then []
    else
      var x := sources[|sources| - 1];
      AllPlaces(sources[..|sources| - 1]) + if x.FromDriver? then [x.at] else []
  }

  function UpTo(n: int): seq<int>
    requires n >= 0
  {
    seq(n, (i: nat) => i)
  }

  /** While the shipper has not been stopped, ShipEvent accepts every record dispatched to it. */
  ghost predicate DenseInv(s: State) {
    Passed(s) >= 0 && (s.shipper.running ==> AllPlaces(s.sources) == UpTo(Passed(s)))
  }

  lemma DenseKept(c: S.Config, s: State, a: Action)
    requires c.Valid() && CallbackInv(s) && DenseInv(s) && Enabled(s, a)
    ensures DenseInv(Effect(c, s, a))
  {
  }

  lemma CallbackPart(c: S.Config, s: State)
    requires Inv(c, s)
    ensures CallbackInv(s)
  {
  }

  lemma {:induction false} RunDense(c: S.Config, s: State, actions: seq<Action>)
    requires c.Valid() && Inv(c, s) && DenseInv(s)
    ensures DenseInv(Run(c, s, actions))
    decreases |actions|
  {
    hide Inv, DenseInv, Effect, Enabled, CallbackInv;
    if actions != [] {
      CallbackPart(c, s);
      StepInv(c, s, actions[0]);
      if Enabled(s, actions[0]) {
        DenseKept(c, s, actions[0]);
      }
      RunDense(c, Step(c, s, actions[0]), actions[1..]);
    }
  }

  lemma {:induction false} PlacesOfAll(sources: seq<Source>, events: seq<nat>)
    requires |events| <= |sources| && forall i :: 0 <= i < |events| ==> events[i] == i
    ensures Places(sources, events) == AllPlaces(sources[..|events|])
  {
    if events != [] {
      var n := |events| - 1;
      PlacesOfAll(sources, events[..n]);
      assert sources[..|events|][..n] == sources[..n];
    }
  }

  /** As long as the shipper runs and drops nothing, the driver events it has or has had are all those dispatched to
      it so far, in order: no gap and no repetition. */
  lemma NothingMissing(c: S.Config, threads: nat, actions: seq<Action>)
    requires c.Valid()
    requires var s := Run(c, Init(threads), actions); s.shipper.running && s.shipper.eventsDropped == 0
    ensures var s := Run(c, Init(threads), actions);
      && Passed(s) >= 0
      && Places(s.sources, s.shipper.shipped + s.shipper.batch + s.shipper.buffer) == UpTo(Passed(s))
  {
    hide Inv, Run, Places, AllPlaces;
    InitInv(c, threads);
    InitDense(threads);
    RunInv(c, Init(threads), actions);
    RunDense(c, Init(threads), actions);
    var s := Run(c, Init(threads), actions);
    AllLive(c, s);
    PlacesOfAll(s.sources, S.Live(s.shipper));
    assert s.sources[..|s.sources|] == s.sources;
  }

  lemma InitDense(threads: nat)
    ensures DenseInv(Init(threads))
  {
  }

  lemma AllLive(c: S.Config, s: State)
    requires Inv(c, s) && s.shipper.eventsDropped == 0
    ensures |S.Live(s.shipper)| == |s.sources|
    ensures forall i :: 0 <= i < |s.sources| ==> S.Live(s.shipper)[i] == i
  {
    hide Safety.Inv, RecordsInv, CallbackInv;
    S.IncreasingFull(S.Live(s.shipper), s.shipper.accepted);
  }

  /** Nothing is left on the way: the driver's queue is drained, the agent has split what it read, and the shipper
      has nothing buffered or in flight. */
  ghost predicate Settled(s: State) {
    && s.driver.queue == [] && s.driver.reader.Waiting? && s.driver.cleaned == []
    && s.reader.Reading? && s.shipper.batch == [] && s.shipper.buffer == []
  }

  /** Lossless: when everything has settled, the shipper still runs and dropped nothing, the backend has acknowledged
      exactly the records inserted into the kernel queue, in their order, however many POSTs failed. */
  lemma LosslessEndToEnd(c: S.Config, threads: nat, actions: seq<Action>)
    requires c.Valid()
    requires var s := Run(c, Init(threads), actions);
      Settled(s) && s.shipper.running && s.shipper.eventsDropped == 0
    ensures var s := Run(c, Init(threads), actions);
      && s.dispatched == D.Records(s.driver.inserted)
      && Places(s.sources, s.shipper.shipped) == UpTo(|s.driver.inserted|)
  {
    hide Inv, Run, Places;
    InitInv(c, threads);
    RunInv(c, Init(threads), actions);
    NothingMissing(c, threads, actions);
    var s := Run(c, Init(threads), actions);
    AllDispatched(c, s);
    assert s.shipper.shipped + s.shipper.batch + s.shipper.buffer == s.shipper.shipped;
  }

  lemma AllDispatched(c: S.Config, s: State)
    requires Inv(c, s) && Settled(s)
    ensures s.dispatched == D.Records(s.driver.inserted) && |D.Records(s.driver.inserted)| == |s.driver.inserted|
  {
    hide Parse, Safety.TypeInv, Safety.CounterInv, Safety.PlaceInv, Safety.TicketInv, Safety.OwnInv, Safety.BeforeInv,
      Safety.OrderInv, Safety.MovingInv, Safety.CapacityInv, SourcesInv, CallbackInv, S.Inv;
    assert s.driver.inserted == s.driver.handed;
    NoRecords();
  }
}
