/** The driver's event queue under every interleaving: any number of callbacks that number and push
    events, and the one reader that drains them, each taking the atomic steps of EventBuffer.c.
    A run is a list of actions; an action that is not enabled leaves the state as it is. */
module DriverProtocol {
  import opened Bytes
  import opened EventTypes
  import opened Wire

  /** An event a callback built: its thread, its ticket in the order of numbering, and its bytes. */
  datatype Event = Event(thread: nat, ticket: nat, record: bytes)

  /** Where a callback thread is, between GetNextSequenceNumber and the end of PushEvent. */
  datatype Pusher =
    | Idle
    | Numbered(e: Event)   // has a sequence number; capacity not looked at
    | Full(e: Event)       // saw a full queue or a failed allocation; drop not counted
    | Admitted(e: Event)   // passed the capacity check
    | Typed(e: Event)      // entry allocated and filled, per-type counter bumped
    | Locked(e: Event)     // holds the spinlock
    | Linked(e: Event)     // entry in the list, g_EventCount not bumped
    | Bumped(e: Event)     // g_EventCount bumped, lock still held
    | Published(e: Event)  // lock released, g_TotalGenerated not bumped

  /** Where the reader is inside DrainEvents. */
  datatype Reader =
    | Waiting
    | Moving(start: seq<Event>, local: seq<Event>, total: nat, capacity: nat)  // phase 1; start is the queue it found
    | Settled(local: seq<Event>)                                               // g_EventCount reduced, lock held
    | Copying(local: seq<Event>, batch: seq<Event>, out: bytes)                // phase 2
    | Copied(e: Event, local: seq<Event>, batch: seq<Event>, out: bytes)       // e copied, not counted
    | Returning(batch: seq<Event>, out: bytes)

  datatype Owner = Nobody | Thread(i: nat) | TheReader

  datatype State = State(
    pushers: seq<Pusher>, reader: Reader, lock: Owner, open: bool,
    queue: seq<Event>, count: int, generated: nat, delivered: nat, dropped: nat, types: TypeCounters,
    // history: events numbered, given a pool entry, linked, copied out and freed, dropped, freed by cleanup
    issued: seq<Event>, allocations: seq<Event>, inserted: seq<Event>, handed: seq<Event>, lost: seq<Event>,
    cleaned: seq<Event>)

  datatype Action =
    | GetNumber(i: nat, record: bytes) | CheckCapacity(i: nat) | Allocate(i: nat) | FailAllocation(i: nat)
    | CountDrop(i: nat) | Acquire(i: nat) | Link(i: nat) | BumpCount(i: nat) | Release(i: nat) | Report(i: nat)
    | StartDrain(capacity: nat) | MoveOne | Settle | ReleaseReader | CopyOne | CountOne | Finish | Return
    | Cleanup

  function Records(es: seq<Event>): seq<bytes> {
    seq(|es|, i requires 0 <= i < |es| => es[i].record)
  }

  function Init(threads: nat): State {
    State(seq(threads, _ => Idle), Waiting, Nobody, true, [], 0, 0, 0, 0, ZERO_COUNTERS, [], [], [], [], [], [])
  }

  predicate IsThread(s: State, i: nat) {
    i < |s.pushers|
  }

  /** The head of the queue fits in what is left of the reader's buffer, by the 32-bit sum of the code. */
  predicate HeadFits(s: State)
    requires s.reader.Moving?
  {
    s.queue != [] && AddU32(s.reader.total, |s.queue[0].record|) <= s.reader.capacity
  }

  /** A callback pushes a well-formed record of a counted type that carries its sequence number. */
  predicate Stamped(record: bytes, ticket: nat) {
    && WellFormed(record)
    && SequenceNumber(record) == ticket % U32_MOD
    && CategoryOf(EventType(record)) != NotCounted
  }

  predicate Enabled(s: State, a: Action) {
    match a
    case GetNumber(i, record) => s.open && IsThread(s, i) && s.pushers[i].Idle? && Stamped(record, |s.issued| + 1)
    case CheckCapacity(i) => IsThread(s, i) && s.pushers[i].Numbered?
    case Allocate(i) => IsThread(s, i) && s.pushers[i].Admitted?
    case FailAllocation(i) => IsThread(s, i) && s.pushers[i].Admitted?
    case CountDrop(i) => IsThread(s, i) && s.pushers[i].Full?
    case Acquire(i) => IsThread(s, i) && s.pushers[i].Typed? && s.lock == Nobody
    case Link(i) => IsThread(s, i) && s.pushers[i].Locked?
    case BumpCount(i) => IsThread(s, i) && s.pushers[i].Linked?
    case Release(i) => IsThread(s, i) && s.pushers[i].Bumped?
    case Report(i) => IsThread(s, i) && s.pushers[i].Published?
    case StartDrain(capacity) =>
      s.open && s.reader.Waiting? && s.lock == Nobody && 0 < capacity && capacity + MAX_EVENT_SIZE < U32_MOD
    case MoveOne => s.reader.Moving? && HeadFits(s)
    case Settle => s.reader.Moving? && !HeadFits(s)
    case ReleaseReader => s.reader.Settled?
    case CopyOne => s.reader.Copying? && s.reader.local != []
    case CountOne => s.reader.Copied?
    case Finish => s.reader.Copying? && s.reader.local == []
    case Return => s.reader.Returning?
    case Cleanup => s.open && AllIdle(s) && s.reader.Waiting? && s.lock == Nobody
  }

  predicate AllIdle(s: State) {
    forall i :: 0 <= i < |s.pushers| ==> s.pushers[i].Idle?
  }

  function Move(s: State, i: nat, p: Pusher): State
    requires IsThread(s, i)
  {
    s.(pushers := s.pushers[i := p])
  }

  function Effect(s: State, a: Action): State
    requires Enabled(s, a)
  {
    match a
    case GetNumber(i, record) =>
      var e := Event(i, |s.issued| + 1, record);
      Move(s, i, Numbered(e)).(issued := s.issued + [e])
    case CheckCapacity(i) =>
      Move(s, i, if s.count >= MAX_EVENTS_IN_QUEUE then Full(s.pushers[i].e) else Admitted(s.pushers[i].e))
    case Allocate(i) =>
      var e := s.pushers[i].e;
      Move(s, i, Typed(e)).(types := Increment(s.types, e), allocations := s.allocations + [e])
    case FailAllocation(i) =>
      Move(s, i, Full(s.pushers[i].e))
    case CountDrop(i) =>
      Move(s, i, Idle).(dropped := s.dropped + 1, lost := s.lost + [s.pushers[i].e])
    case Acquire(i) =>
      Move(s, i, Locked(s.pushers[i].e)).(lock := Thread(i))
    case Link(i) =>
      var e := s.pushers[i].e;
      Move(s, i, Linked(e)).(queue := s.queue + [e], inserted := s.inserted + [e])
    case BumpCount(i) =>
      Move(s, i, Bumped(s.pushers[i].e)).(count := s.count + 1)
    case Release(i) =>
      Move(s, i, Published(s.pushers[i].e)).(lock := Nobody)
    case Report(i) =>
      Move(s, i, Idle).(generated := s.generated + 1)
    case StartDrain(capacity) =>
      s.(reader := Moving(s.queue, [], 0, capacity), lock := TheReader)
    case MoveOne =>
      var r := s.reader;
      s.(queue := s.queue[1..],
         reader := r.(local := r.local + [s.queue[0]], total := AddU32(r.total, |s.queue[0].record|)))
    case Settle =>
      s.(reader := Settled(s.reader.local), count := s.count - |s.reader.local|)
    case ReleaseReader =>
      s.(reader := Copying(s.reader.local, [], []), lock := Nobody)
    case CopyOne =>
      var r := s.reader;
      s.(reader := Copied(r.local[0], r.local[1..], r.batch, r.out + r.local[0].record))
    case CountOne =>
      var r := s.reader;
      s.(reader := Copying(r.local, r.batch + [r.e], r.out), delivered := s.delivered + 1, handed := s.handed + [r.e])
    case Finish =>
      s.(reader := Returning(s.reader.batch, s.reader.out))
    case Return =>
      s.(reader := Waiting)
    case Cleanup =>
      s.(queue := [], count := 0, open := false, cleaned := s.queue)
  }

  function Increment(types: TypeCounters, e: Event): TypeCounters {
    if |e.record| >= HEADER_SIZE then types.Increment(EventType(e.record)) else types
  }

  function Step(s: State, a: Action): State {
    if Enabled(s, a) then Effect(s, a) else s
  }

  /** The state after a run. */
  function Run(s: State, actions: seq<Action>): State
    decreases |actions|
  {
    if actions == [] then s else Run(Step(s, actions[0]), actions[1..])
  }
}
