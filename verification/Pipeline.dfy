/** The whole way of an event: pushed by a driver callback, drained and split by the agent's reader thread, handed
    to ShipEvent under the callback lock that the filter's messages share, and shipped or lost by the shipper.
    The driver and shipper protocols run here side by side, in any interleaving of all their threads. */
module Pipeline {
  import opened Bytes
  import opened Wire
  import D = DriverProtocol
  import S = ShipperProtocol

  /** Where DriverEventThread is. Dispatching and Shipping are under g_CallbackMutex. */
  datatype Reader =
    | Reading                                              // at or in the IOCTL
    | Splitting(buffer: bytes, offset: nat)                // at the test of the splitting loop
    | Dispatching(buffer: bytes, offset: nat, size: nat)   // in DispatchEvent, before the test in ShipEvent
    | Shipping(buffer: bytes, offset: nat, size: nat)      // in ShipEvent, past the test

  /** Where FilterEventThread is. */
  datatype FilterReader = Listening | FilterDispatching | FilterShipping

  /** Where an accepted event came from; a driver event with its place among those dispatched. */
  datatype Source = FromDriver(at: int) | FromFilter

  datatype State = State(
    driver: D.State, reader: Reader, filter: FilterReader, shipper: S.State,
    sources: seq<Source>, dispatched: seq<bytes>)  // history: of every accepted event; of every dispatched record

  datatype Action =
    | Driver(driver: D.Action)   // any step of a pusher, and of the reader inside the IOCTL
    | Return                     // DeviceIoControl returns
    | NextRecord | ReaderEnters | ReaderShips
    | FilterMessage | FilterEnters | FilterShips
    | Shipper(shipper: S.Action) // any step of the shipper thread, and its shutdown

  function Init(threads: nat): State {
    State(D.Init(threads), Reading, Listening, S.INIT, [], [])
  }

  predicate ReaderInCallback(s: State) {
    s.reader.Dispatching? || s.reader.Shipping?
  }

  predicate FilterInCallback(s: State) {
    !s.filter.Listening?
  }

  predicate Enabled(s: State, a: Action) {
    match a
    case Driver(d) => d != D.Return && (d.StartDrain? ==> s.reader.Reading?) && D.Enabled(s.driver, d)
    case Return => s.reader.Reading? && s.driver.reader.Returning?
    case NextRecord =>
      s.reader.Splitting? && (SizeAt(s.reader.buffer, s.reader.offset) == 0 || !FilterInCallback(s))
    case ReaderEnters => s.reader.Dispatching?
    case ReaderShips => s.reader.Shipping?
    case FilterMessage => s.filter.Listening? && !ReaderInCallback(s)
    case FilterEnters => s.filter.FilterDispatching?
    case FilterShips => s.filter.FilterShipping?
    case Shipper(a) => a != S.Enter && a != S.Accept && S.Enabled(s.shipper, a)
  }

  function Slice(b: bytes, offset: nat, size: nat): bytes {
    if offset + size <= |b| then b[offset..offset + size] else []
  }

  function Effect(c: S.Config, s: State, a: Action): State
    requires c.Valid() && Enabled(s, a)
  {
    match a
    case Driver(d) => s.(driver := D.Effect(s.driver, d))
    case Return => s.(driver := D.Effect(s.driver, D.Return), reader := Splitting(s.driver.reader.out, 0))
    case NextRecord =>
      var b, offset := s.reader.buffer, s.reader.offset;
      var size := SizeAt(b, offset);
      if size == 0 then s.(reader := Reading)
      else s.(reader := Dispatching(b, offset, size), dispatched := s.dispatched + [Slice(b, offset, size)])
    case ReaderEnters =>
      var r := s.reader;
      if s.shipper.running
      then s.(shipper := S.Step(c, s.shipper, S.Enter), reader := Shipping(r.buffer, r.offset, r.size))
      else s.(reader := Splitting(r.buffer, AddU32(r.offset, r.size)))
    case ReaderShips =>
      s.(shipper := S.Step(c, s.shipper, S.Accept), sources := s.sources + [FromDriver(|s.dispatched| - 1)],
         reader := Splitting(s.reader.buffer, AddU32(s.reader.offset, s.reader.size)))
    case FilterMessage => s.(filter := FilterDispatching)
    case FilterEnters =>
      if s.shipper.running then s.(shipper := S.Step(c, s.shipper, S.Enter), filter := FilterShipping)
      else s.(filter := Listening)
    case FilterShips =>
      s.(shipper := S.Step(c, s.shipper, S.Accept), sources := s.sources + [FromFilter], filter := Listening)
    case Shipper(a) => s.(shipper := S.Step(c, s.shipper, a))
  }

  function Step(c: S.Config, s: State, a: Action): State
    requires c.Valid()
  {
    if Enabled(s, a) then Effect(c, s, a) else s
  }

  function Run(c: S.Config, s: State, actions: seq<Action>): State
    requires c.Valid()
    decreases |actions|
  {
    if actions == [] then s else Run(c, Step(c, s, actions[0]), actions[1..])
  }
}
