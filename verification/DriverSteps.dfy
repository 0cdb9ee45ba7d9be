/** What one step of the driver protocol changes: the phase of one callback and what goes with it, or the reader. */
module DriverSteps {
  import opened Bytes
  import opened DriverProtocol
  import opened Wire

  predicate ByPusher(a: Action) {
    a.GetNumber? || a.CheckCapacity? || a.Allocate? || a.FailAllocation? || a.CountDrop?
    || a.Acquire? || a.Link? || a.BumpCount? || a.Release? || a.Report?
  }

  // ------------------------------------------------------------ steps of a callback

  /** The phase in which a callback takes an action. */
  predicate Leaves(p: Pusher, a: Action) {
    match a
    case GetNumber(_, _) => p.Idle?
    case CheckCapacity(_) => p.Numbered?
    case Allocate(_) => p.Admitted?
    case FailAllocation(_) => p.Admitted?
    case CountDrop(_) => p.Full?
    case Acquire(_) => p.Typed?
    case Link(_) => p.Locked?
    case BumpCount(_) => p.Linked?
    case Release(_) => p.Bumped?
    case Report(_) => p.Published?
    case _ => false
  }

  predicate Acts(s: State, a: Action) {
    ByPusher(a) && a.i < |s.pushers| && Leaves(s.pushers[a.i], a)
  }

  /** The event that a callback's action is about. */
  function Subject(s: State, a: Action): Event
    requires Acts(s, a)
  {
    if a.GetNumber? then Event(a.i, |s.issued| + 1, a.record) else s.pushers[a.i].e
  }

  /** The phase that an action takes its callback to. */
  function Enters(a: Action, e: Event, count: int): Pusher {
    match a
    case GetNumber(_, _) => Numbered(e)
    case CheckCapacity(_) => if count >= MAX_EVENTS_IN_QUEUE then Full(e) else Admitted(e)
    case Allocate(_) => Typed(e)
    case FailAllocation(_) => Full(e)
    case Acquire(_) => Locked(e)
    case Link(_) => Linked(e)
    case BumpCount(_) => Bumped(e)
    case Release(_) => Published(e)
    case _ => Idle
  }

  function Only<T>(here: bool, x: T): seq<T> {
    if here then [x] else []
  }

  function One(here: bool): nat {
    if here then 1 else 0
  }

  lemma PusherActs(s: State, a: Action)
    requires Enabled(s, a) && ByPusher(a)
    ensures Acts(s, a)
    ensures a.GetNumber? ==> s.open && Stamped(a.record, |s.issued| + 1)
    ensures a.Acquire? ==> s.lock == Nobody
  {
    hide Stamped, HeadFits, AllIdle;
  }

  /** One callback changes its phase; the reader and what it handed over stay. */
  lemma PusherStep(s: State, a: Action)
    requires Enabled(s, a) && Acts(s, a)
    ensures var t := Effect(s, a);
      && t.pushers == s.pushers[a.i := Enters(a, Subject(s, a), s.count)]
      && t.reader == s.reader && t.open == s.open
      && t.handed == s.handed && t.cleaned == s.cleaned && t.delivered == s.delivered
      && t.lock == (if a.Acquire? then Thread(a.i) else if a.Release? then Nobody else s.lock)
  {
    hide Enabled, Increment;
  }

  /** What its step adds to queue, counters and histories. */
  lemma PusherAdds(s: State, a: Action)
    requires Enabled(s, a) && Acts(s, a)
    ensures var t, e := Effect(s, a), Subject(s, a);
      && t.queue == s.queue + Only(a.Link?, e) && t.inserted == s.inserted + Only(a.Link?, e)
      && t.issued == s.issued + Only(a.GetNumber?, e) && t.allocations == s.allocations + Only(a.Allocate?, e)
      && t.lost == s.lost + Only(a.CountDrop?, e)
  {
    hide Enabled, Increment;
  }

  lemma PusherCounts(s: State, a: Action)
    requires Enabled(s, a) && Acts(s, a)
    ensures var t, e := Effect(s, a), Subject(s, a);
      && t.count == s.count + One(a.BumpCount?) && t.generated == s.generated + One(a.Report?)
      && t.dropped == s.dropped + One(a.CountDrop?)
      && t.types == (if a.Allocate? then Increment(s.types, e) else s.types)
  {
    hide Enabled, Increment;
  }

  // ----------------------------------------------------------- steps of the reader

  predicate ReaderLeaves(s: State, a: Action) {
    match a
    case StartDrain(_) => s.reader.Waiting? && s.lock == Nobody
    case MoveOne => s.reader.Moving? && s.queue != []
    case Settle => s.reader.Moving?
    case ReleaseReader => s.reader.Settled?
    case CopyOne => s.reader.Copying? && s.reader.local != []
    case CountOne => s.reader.Copied?
    case Finish => s.reader.Copying? && s.reader.local == []
    case Return => s.reader.Returning?
    case Cleanup => s.reader.Waiting? && s.lock == Nobody
    case _ => false
  }

  function ReaderEnters(s: State, a: Action): Reader
    requires ReaderLeaves(s, a)
  {
    var r := s.reader;
    match a
    case StartDrain(capacity) => Moving(s.queue, [], 0, capacity)
    case MoveOne =>
      r.(local := r.local + [s.queue[0]], total := AddU32(r.total, |s.queue[0].record|))
    case Settle => Settled(r.local)
    case ReleaseReader => Copying(r.local, [], [])
    case CopyOne => Copied(r.local[0], r.local[1..], r.batch, r.out + r.local[0].record)
    case CountOne => Copying(r.local, r.batch + [r.e], r.out)
    case Finish => Returning(r.batch, r.out)
    case _ => Waiting
  }

  lemma ReaderActs(s: State, a: Action)
    requires Enabled(s, a) && !ByPusher(a)
    ensures ReaderLeaves(s, a)
    ensures a.StartDrain? ==> s.open && a.capacity + MAX_EVENT_SIZE < U32_MOD
    ensures a.MoveOne? ==> HeadFits(s)
    ensures a.Cleanup? ==> s.open && AllIdle(s)
  {
    hide Stamped, AllIdle, AddU32;
  }

  /** The reader changes its phase; the callbacks and what they built and counted stay. */
  lemma ReaderStep(s: State, a: Action)
    requires Enabled(s, a) && ReaderLeaves(s, a)
    ensures var t := Effect(s, a);
      && t.reader == ReaderEnters(s, a) && t.pushers == s.pushers
      && t.issued == s.issued && t.allocations == s.allocations && t.inserted == s.inserted && t.lost == s.lost
      && t.types == s.types && t.generated == s.generated && t.dropped == s.dropped
  {
    hide Enabled, AddU32;
  }

  lemma ReaderMoves(s: State, a: Action)
    requires Enabled(s, a) && ReaderLeaves(s, a)
    ensures var t := Effect(s, a);
      && t.lock == (if a.StartDrain? then TheReader else if a.ReleaseReader? then Nobody else s.lock)
      && t.queue == (if a.MoveOne? then s.queue[1..] else if a.Cleanup? then [] else s.queue)
      && t.count == (if a.Settle? then s.count - |s.reader.local| else if a.Cleanup? then 0 else s.count)
      && t.handed == (if a.CountOne? then s.handed + [s.reader.e] else s.handed)
      && t.delivered == s.delivered + One(a.CountOne?)
      && t.cleaned == (if a.Cleanup? then s.queue else s.cleaned) && t.open == (s.open && !a.Cleanup?)
  {
    hide Enabled, AddU32;
  }
}
