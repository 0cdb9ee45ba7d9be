/** The agent's scan queue: any number of threads that enqueue paths and set an auto-reset event, and the one
    worker that waits for the event and empties the queue. */
module ScanQueue {

  class PathQueue {
    var queue: seq<string>
    var signalled: bool

    constructor ()
      ensures queue == [] && !signalled
    {
      queue, signalled := [], false;
    }

    method EnqueuePath(path: string)
      modifies this
      ensures queue == old(queue) + [path] && signalled
    {
      queue := queue + [path];
      signalled := true;
    }

    method DequeuePath() returns (found: bool, path: string)
      modifies this`queue
      ensures found <==> old(queue) != []
      ensures found ==> [path] + queue == old(queue)
      ensures !found ==> queue == old(queue)
    {
      if queue == [] {
        return false, "";
      }
      path := queue[0];
      queue := queue[1..];
      found := true;
    }
  }

  // ------------------------------------------------------------------- protocol

  datatype Producer = Idle | Pushed  // Pushed: between the push and SetEvent

  datatype Worker =
    | AtStopTest        // before the test of the stop event
    | Blocked           // in the wait for the queue event
    | Draining          // before a DequeuePath
    | Scanning(path: string)
    | Exited

  datatype State = State(
    queue: seq<string>, event: bool, stop: bool, producers: seq<Producer>, worker: Worker,
    enqueued: seq<string>, scanned: seq<string>)  // history

  datatype Action = Push(i: nat, path: string) | Signal(i: nat) | Stop | Work

  function Init(threads: nat): State {
    State([], false, false, seq(threads, _ => Idle), AtStopTest, [], [])
  }

  /** The worker can take a step: it is not at its end, and not waiting for an event that is not set. */
  predicate CanWork(s: State) {
    !s.worker.Exited? && !(s.worker.Blocked? && !s.event)
  }

  predicate Enabled(s: State, a: Action) {
    match a
    case Push(i, _) => i < |s.producers| && s.producers[i].Idle?
    case Signal(i) => i < |s.producers| && s.producers[i].Pushed?
    case Stop => true
    case Work => CanWork(s)
  }

  function WorkStep(s: State): State
    requires CanWork(s)
  {
    match s.worker
    case AtStopTest => s.(worker := if s.stop then Exited else Blocked)
    case Blocked => s.(event := false, worker := Draining)
    case Draining =>
      if s.queue == [] then s.(worker := AtStopTest) else s.(queue := s.queue[1..], worker := Scanning(s.queue[0]))
    case Scanning(path) => s.(scanned := s.scanned + [path], worker := Draining)
    case Exited => s
  }

  function Effect(s: State, a: Action): State
    requires Enabled(s, a)
  {
    match a
    case Push(i, path) =>
      s.(queue := s.queue + [path], enqueued := s.enqueued + [path], producers := s.producers[i := Pushed])
    case Signal(i) => s.(event := true, producers := s.producers[i := Idle])
    case Stop => s.(stop := true)
    case Work => WorkStep(s)
  }

  function Step(s: State, a: Action): State {
    if Enabled(s, a) then Effect(s, a) else s
  }

  function Run(s: State, actions: seq<Action>): State
    decreases |actions|
  {
    if actions == [] then s else Run(Step(s, actions[0]), actions[1..])
  }

  // ------------------------------------------------------------------ invariant

  function InScan(s: State): seq<string> {
    if s.worker.Scanning? then [s.worker.path] else []
  }

  /** When the worker is past its last look at the queue, a path in the queue has a wake-up on its way. */
  ghost predicate Inv(s: State) {
    && s.enqueued == s.scanned + InScan(s) + s.queue
    && ((s.worker.Blocked? || s.worker.AtStopTest?) && s.queue != [] ==> s.event || Pushed in s.producers)
  }

  lemma StepInv(s: State, a: Action)
    requires Inv(s)
    ensures Inv(Step(s, a))
  {
    if Enabled(s, a) {
      match a
      case Push(i, path) =>
        assert s.producers[i := Pushed][i] == Pushed;
      case Signal(i) =>
      case Stop =>
      case Work =>
    }
  }

  lemma {:induction false} RunInv(s: State, actions: seq<Action>)
    requires Inv(s)
    ensures Inv(Run(s, actions))
    decreases |actions|
  {
    hide Inv;
    if actions != [] {
      StepInv(s, actions[0]);
      RunInv(Step(s, actions[0]), actions[1..]);
    }
  }

  /** No lost wake-up: while the worker waits and there is something to scan, the event is set or a producer
      is about to set it. */
  lemma NoLostWakeup(threads: nat, actions: seq<Action>)
    ensures var s := Run(Init(threads), actions);
      s.worker.Blocked? && s.queue != [] ==> s.event || Pushed in s.producers
  {
    RunInv(Init(threads), actions);
  }

  /** First in, first out, each once: what was enqueued is what was scanned, then the path being scanned, then
      the queue. */
  lemma ScannedInOrder(threads: nat, actions: seq<Action>)
    ensures var s := Run(Init(threads), actions);
      s.enqueued == s.scanned + InScan(s) + s.queue
  {
    RunInv(Init(threads), actions);
  }

  // ------------------------------------------------------------------- progress

  /** The worker alone, for n steps or until it can take none. */
  function Works(s: State, n: nat): State
    decreases n
  {
    if n == 0 || !CanWork(s) then s else Works(WorkStep(s), n - 1)
  }

  function PhaseWeight(w: Worker): nat {
    match w
    case Scanning(_) => 3
    case Draining => 2
    case AtStopTest => 1
    case Blocked => 0
    case Exited => 0
  }

  /** An upper bound on the steps the worker can take by itself. */
  function Effort(s: State): nat {
    2 * |s.queue| + (if s.event then 3 else 0) + PhaseWeight(s.worker)
  }

  lemma {:induction false} WorksEnd(s: State, n: nat)
    requires Inv(s) && n >= Effort(s)
    ensures var t := Works(s, n);
      && Inv(t) && !CanWork(t) && t.enqueued == s.enqueued && t.producers == s.producers && t.stop == s.stop
      && (t.worker.Exited? <==> s.worker.Exited? || (s.stop && CanWork(s)))
    decreases n
  {
    if CanWork(s) {
      var t := WorkStep(s);
      StepInv(s, Work);
      assert Effort(t) < Effort(s);
      WorksEnd(t, n - 1);
      if s.stop {
        assert t.worker.Exited? || CanWork(t);
      }
    }
  }

  /** Once every producer is done, a worker that is not stopped scans everything, in a number of steps that is at
      most twice the queue's length and six, and waits again. */
  lemma EverythingIsScanned(threads: nat, actions: seq<Action>, n: nat)
    requires var s := Run(Init(threads), actions);
      Pushed !in s.producers && !s.stop && !s.worker.Exited? && n >= 2 * |s.queue| + 6
    ensures var t := Works(Run(Init(threads), actions), n);
      t.queue == [] && t.scanned == t.enqueued == Run(Init(threads), actions).enqueued && t.worker.Blocked?
  {
    RunInv(Init(threads), actions);
    WorksEnd(Run(Init(threads), actions), n);
  }

  /** The stop event does not wake a worker that waits for the queue event: left to itself after a stop, the
      worker exits exactly when it was not already waiting for an event that is not set. */
  lemma StopEndsUnlessWaiting(threads: nat, actions: seq<Action>, n: nat)
    requires var s := Run(Init(threads), actions);
      s.stop && !s.worker.Exited? && n >= 2 * |s.queue| + 6
    ensures var s := Run(Init(threads), actions);
      Works(s, n).worker.Exited? <==> !(s.worker.Blocked? && !s.event)
  {
    RunInv(Init(threads), actions);
    WorksEnd(Run(Init(threads), actions), n);
  }
}
