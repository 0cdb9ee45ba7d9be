/** Main results about the driver's event queue, for every number of callback threads and every run. */
module DriverTheorems {
  import opened Bytes
  import opened Counting
  import opened DriverProtocol
  import opened DriverSafety
  import opened EventTypes
  import opened Wire

  lemma Reached(threads: nat, actions: seq<Action>)
    ensures Inv(Run(Init(threads), actions))
    ensures |Run(Init(threads), actions).pushers| == threads
  {
    InitInv(threads);
    RunInv(Init(threads), actions);
    ThreadsFixed(Init(threads), actions);
  }

  lemma Parts(s: State)
    requires Inv(s)
    ensures LockInv(s) && CountInv(s) && CapacityInv(s) && OpenInv(s) && FifoInv(s)
    ensures CounterInv(s) && TypeInv(s) && PlaceInv(s) && TicketInv(s) && EntryInv(s)
    ensures OwnInv(s) && BeforeInv(s) && OrderInv(s) && OutInv(s) && MovingInv(s) && SizeInv(s)
  {
    hide LockInv, CountInv, CapacityInv, OpenInv, FifoInv, CounterInv, TypeInv, PlaceInv, TicketInv, EntryInv,
         OwnInv, BeforeInv, OrderInv, OutInv, MovingInv, SizeInv;
  }

  lemma {:induction false} ThreadsFixed(s: State, actions: seq<Action>)
    ensures |Run(s, actions).pushers| == |s.pushers|
    decreases |actions|
  {
    if actions != [] {
      assert |Step(s, actions[0]).pushers| == |s.pushers|;
      ThreadsFixed(Step(s, actions[0]), actions[1..]);
    }
  }

  // ------------------------------------------------------------------ capacity

  /** 1 for a pusher that passed the capacity check and has not inserted its event. */
  function Incoming(p: Pusher): int {
    if p.Admitted? || p.Typed? || p.Locked? then 1 else 0
  }

  function JustLinked(p: Pusher): int {
    if p.Linked? then 1 else 0
  }

  /** The queue, with the events on their way into it, never exceeds 2047 plus the number of callbacks
      that run at once; and the count is the length of the list whenever the lock is free. */
  lemma CapacityBound(threads: nat, actions: seq<Action>)
    ensures var s := Run(Init(threads), actions);
      && |s.queue| + Sum(s.pushers, Incoming) <= MAX_EVENTS_IN_QUEUE - 1 + threads
      && (s.lock == Nobody ==> s.count == |s.queue|)
  {
    hide Inv, Run, LockInv, CountInv, CapacityInv, Sum, Incoming;
    Reached(threads, actions);
    Parts(Run(Init(threads), actions));
    QueueIsBounded(Run(Init(threads), actions));
  }

  lemma QueueIsBounded(s: State)
    requires LockInv(s) && CountInv(s) && CapacityInv(s)
    ensures |s.queue| + Sum(s.pushers, Incoming) <= MAX_EVENTS_IN_QUEUE - 1 + |s.pushers|
    ensures s.lock == Nobody ==> s.count == |s.queue|
  {
    hide Sum;
    SumAdd(s.pushers, Incoming, JustLinked, Admission);
    SumBounds(s.pushers, JustLinked);
    if s.lock.Thread? {
      assert s.pushers[s.lock.i] in s.pushers;
    }
  }

  // -------------------------------------------------------------- conservation

  /** Nothing is lost, duplicated or reordered between insertion and delivery, and the counters say so:
      generated + being reported = delivered + drained but not counted + queued + freed by cleanup. */
  lemma DriverConservation(threads: nat, actions: seq<Action>)
    ensures var s := Run(Init(threads), actions);
      && s.inserted == s.handed + Carried(s.reader) + s.queue + s.cleaned
      && s.generated + Sum(s.pushers, Unreported) == s.delivered + |Carried(s.reader)| + |s.queue| + |s.cleaned|
      && s.delivered == |s.handed|
  {
    Reached(threads, actions);
  }

  /** 1 for a pusher in the middle of a push. */
  function Busy(p: Pusher): int {
    if p.Idle? then 0 else 1
  }

  function Holding(p: Pusher): int {
    if p.Numbered? || p.Full? || p.Admitted? || p.Typed? || p.Locked? then 1 else 0
  }

  /** Every number handed out leads to one push, which ends by counting its event as generated or as
      dropped, never both and never neither. */
  lemma GeneratedOrDropped(threads: nat, actions: seq<Action>)
    ensures var s := Run(Init(threads), actions);
      |s.issued| == s.generated + s.dropped + Sum(s.pushers, Busy)
  {
    hide Inv, Run, Sum, PlaceInv, CounterInv;
    Reached(threads, actions);
    Parts(Run(Init(threads), actions));
    IssuedIsCounted(Run(Init(threads), actions));
  }

  lemma IssuedIsCounted(s: State)
    requires PlaceInv(s) && CounterInv(s)
    ensures |s.issued| == s.generated + s.dropped + Sum(s.pushers, Busy)
  {
    hide Sum, Bag;
    BagSize(s.pushers, InHand, Holding);
    SumAdd(s.pushers, Holding, Unreported, Busy);
    assert |multiset(s.issued)| == |Hands(s)| + |multiset(s.inserted)| + |multiset(s.lost)|;
  }

  // ------------------------------------------------------------- per-type counters

  /** 1 for a pusher that has bumped its per-type counter and not g_TotalGenerated. */
  function PastTyping(p: Pusher): int {
    if p.Typed? || p.Locked? || p.Linked? || p.Bumped? || p.Published? then 1 else 0
  }

  function Ahead(p: Pusher): int {
    if p.Typed? || p.Locked? then 1 else 0
  }

  lemma {:induction false} CountAll(es: seq<Event>)
    requires forall e :: e in es ==> CategoryOfEvent(e) != NotCounted
    ensures CountIn(es, ProcessEvents) + CountIn(es, ImageEvents) + CountIn(es, ThreadEvents)
          + CountIn(es, RegistryEvents) + CountIn(es, FileEvents) + CountIn(es, HandleEvents) == |es|
  {
    hide CategoryOfEvent;
    if es != [] {
      assert es[0] in es;
      CountAll(es[1..]);
    }
  }

  lemma {:induction false} AheadAll(ps: seq<Pusher>)
    requires forall p :: p in ps && Ahead(p) == 1 ==> CategoryOfEvent(p.e) != NotCounted
    ensures Sum(ps, TypedAhead(ProcessEvents)) + Sum(ps, TypedAhead(ImageEvents)) + Sum(ps, TypedAhead(ThreadEvents))
          + Sum(ps, TypedAhead(RegistryEvents)) + Sum(ps, TypedAhead(FileEvents)) + Sum(ps, TypedAhead(HandleEvents))
          == Sum(ps, Ahead)
  {
    hide CategoryOfEvent;
    if ps != [] {
      assert ps[0] in ps;
      AheadAll(ps[1..]);
    }
  }

  lemma StampedIsCounted(record: bytes, ticket: nat, e: Event)
    requires Stamped(record, ticket) && e.record == record
    ensures CategoryOfEvent(e) != NotCounted
  {
  }

  lemma InHandIsIssued(s: State, i: nat)
    requires PlaceInv(s) && i < |s.pushers| && InHand(s.pushers[i]) != multiset{}
    ensures s.pushers[i].e in s.issued
  {
    BagContains(s.pushers, i, InHand);
    assert s.pushers[i].e in InHand(s.pushers[i]);
    assert s.pushers[i].e in multiset(s.issued);
  }

  /** How many events of a list have a type among the given ones. */
  function CountTypes(es: seq<Event>, types: set<int>): nat {
    if es == [] then 0 else (if HasType(es[0], types) then 1 else 0) + CountTypes(es[1..], types)
  }

  predicate HasType(e: Event, types: set<int>) {
    |e.record| >= HEADER_SIZE && EventType(e.record) in types
  }

  /** 1 for a pusher that has counted the type of an event it has not inserted, if the type is among the given ones. */
  function TypesAhead(types: set<int>): Pusher -> int {
    (p: Pusher) => if (p.Typed? || p.Locked?) && HasType(p.e, types) then 1 else 0
  }

  /** The events of the given types that were inserted, and those about to be. */
  function Counted(s: State, types: set<int>): int {
    CountTypes(s.inserted, types) + Sum(s.pushers, TypesAhead(types))
  }

  /** Each per-type counter is the number of events, inserted or on their way in, whose type is one of its codes, and
      together the six make up the generated events and those still to be reported. */
  lemma TypeCountersAddUp(threads: nat, actions: seq<Action>)
    ensures var s := Run(Init(threads), actions);
      && s.types.process == Counted(s, {1, 2})
      && s.types.image == Counted(s, {10})
      && s.types.thread == Counted(s, {20, 21})
      && s.types.registry == Counted(s, {30, 31, 32, 33, 34})
      && s.types.file == Counted(s, {40, 41, 42, 43, 44})
      && s.types.handle == Counted(s, {50, 51})
      && s.types.process + s.types.image + s.types.thread + s.types.registry + s.types.file + s.types.handle ==
         s.generated + Sum(s.pushers, PastTyping)
  {
    hide Inv, Run, PlaceInv, TicketInv, FifoInv, CounterInv, CountIn, Sum, CategoryOf, Counted, TypeInv;
    Reached(threads, actions);
    Parts(Run(Init(threads), actions));
    CategoriesAddUp(Run(Init(threads), actions));
    EachCounter(Run(Init(threads), actions));
  }

  ghost predicate TypesOf(c: Category, types: set<int>) {
    forall eventType: nat :: CategoryOf(eventType) == c <==> eventType in types
  }

  lemma SmallCategories()
    ensures TypesOf(ProcessEvents, {1, 2}) && TypesOf(ImageEvents, {10}) && TypesOf(ThreadEvents, {20, 21})
    ensures TypesOf(HandleEvents, {50, 51})
  {
  }

  lemma LargeCategories()
    ensures TypesOf(RegistryEvents, {30, 31, 32, 33, 34}) && TypesOf(FileEvents, {40, 41, 42, 43, 44})
  {
  }

  lemma {:induction false} CountSame(es: seq<Event>, c: Category, types: set<int>)
    requires TypesOf(c, types) && c != NotCounted
    ensures CountIn(es, c) == CountTypes(es, types)
  {
    if es != [] {
      CountSame(es[1..], c, types);
    }
  }

  lemma CounterOf(s: State, c: Category, types: set<int>)
    requires TypeInv(s) && TypesOf(c, types) && c != NotCounted
    ensures s.types.Of(c) == Counted(s, types)
  {
    hide CountIn, CountTypes, Sum;
    CountSame(s.inserted, c, types);
    SumSame(s.pushers, TypedAhead(c), TypesAhead(types));
  }

  lemma EachCounter(s: State)
    requires TypeInv(s)
    ensures s.types.process == Counted(s, {1, 2}) && s.types.image == Counted(s, {10})
    ensures s.types.thread == Counted(s, {20, 21}) && s.types.registry == Counted(s, {30, 31, 32, 33, 34})
    ensures s.types.file == Counted(s, {40, 41, 42, 43, 44}) && s.types.handle == Counted(s, {50, 51})
  {
    hide TypeInv, TypesOf, Counted;
    SmallCategories();
    LargeCategories();
    CounterOf(s, ProcessEvents, {1, 2});
    CounterOf(s, ImageEvents, {10});
    CounterOf(s, ThreadEvents, {20, 21});
    CounterOf(s, RegistryEvents, {30, 31, 32, 33, 34});
    CounterOf(s, FileEvents, {40, 41, 42, 43, 44});
    CounterOf(s, HandleEvents, {50, 51});
  }

  lemma InsertedAreCounted(s: State)
    requires PlaceInv(s) && TicketInv(s) && FifoInv(s)
    ensures forall e :: e in s.inserted ==> CategoryOfEvent(e) != NotCounted
  {
    hide PlaceInv, TicketInv, FifoInv, Stamped, CategoryOfEvent;
    InsertedStamped(s);
    forall e | e in s.inserted
      ensures CategoryOfEvent(e) != NotCounted
    {
      StampedIsCounted(e.record, e.ticket, e);
    }
  }

  lemma AheadAreCounted(s: State)
    requires PlaceInv(s) && TicketInv(s)
    ensures forall p :: p in s.pushers && Ahead(p) == 1 ==> CategoryOfEvent(p.e) != NotCounted
  {
    hide PlaceInv, TicketInv, Stamped, CategoryOfEvent;
    forall p | p in s.pushers && Ahead(p) == 1
      ensures CategoryOfEvent(p.e) != NotCounted
    {
      var i :| 0 <= i < |s.pushers| && s.pushers[i] == p;
      assert p.e in InHand(p);
      InHandIsIssued(s, i);
      IssuedAtTicket(s, p.e);
      StampedIsCounted(p.e.record, p.e.ticket, p.e);
    }
  }

  lemma CategoriesAddUp(s: State)
    requires TypeInv(s) && CounterInv(s) && PlaceInv(s) && TicketInv(s) && FifoInv(s)
    ensures s.types.Total() == s.generated + Sum(s.pushers, PastTyping)
  {
    hide PlaceInv, TicketInv, FifoInv, TypeInv, CategoryOfEvent, CountIn, Sum;
    InsertedAreCounted(s);
    CountAll(s.inserted);
    AheadAreCounted(s);
    AheadAll(s.pushers);
    SumAdd(s.pushers, Ahead, Unreported, PastTyping);
    SixCounters(s);
  }

  lemma SixCounters(s: State)
    requires TypeInv(s)
    ensures s.types.Total() ==
      (CountIn(s.inserted, ProcessEvents) + CountIn(s.inserted, ImageEvents) + CountIn(s.inserted, ThreadEvents)
       + CountIn(s.inserted, RegistryEvents) + CountIn(s.inserted, FileEvents) + CountIn(s.inserted, HandleEvents))
      + (Sum(s.pushers, TypedAhead(ProcessEvents)) + Sum(s.pushers, TypedAhead(ImageEvents))
         + Sum(s.pushers, TypedAhead(ThreadEvents)) + Sum(s.pushers, TypedAhead(RegistryEvents))
         + Sum(s.pushers, TypedAhead(FileEvents)) + Sum(s.pushers, TypedAhead(HandleEvents)))
  {
  }

  // ------------------------------------------------------------ sequence numbers

  lemma TwiceInSeq<T>(es: seq<T>, j: nat, k: nat)
    requires j < k < |es| && es[j] == es[k]
    ensures multiset(es)[es[j]] >= 2
  {
    assert es == es[..k] + es[k..];
    assert es[j] in es[..k] && es[k] in es[k..];
    assert multiset(es[..k])[es[j]] >= 1 && multiset(es[k..])[es[j]] >= 1;
  }

  lemma {:induction false} OnceInSeq<T>(es: seq<T>, e: T)
    requires forall j, k :: 0 <= j < k < |es| ==> es[j] != es[k]
    ensures multiset(es)[e] <= 1
  {
    if es != [] {
      assert es == [es[0]] + es[1..];
      OnceInSeq(es[1..], e);
      if es[0] == e {
        assert e !in es[1..];
      }
    }
  }

  /** No event is issued twice. */
  lemma IssuedOnce(s: State, e: Event)
    requires TicketInv(s)
    ensures multiset(s.issued)[e] <= 1
  {
    hide Stamped;
    OnceInSeq(s.issued, e);
  }

  lemma TicketsDiffer(s: State, j: nat, k: nat)
    requires TicketInv(s) && PlaceInv(s) && j < k < |s.inserted|
    ensures s.inserted[j].ticket != s.inserted[k].ticket
  {
    hide Stamped;
    var d, e := s.inserted[j], s.inserted[k];
    InsertedIsIssued(s, d);
    InsertedIsIssued(s, e);
    IssuedAtTicket(s, d);
    IssuedAtTicket(s, e);
    IssuedOnce(s, d);
    assert multiset(s.issued)[d] >= multiset(s.inserted)[d];
    if d.ticket == e.ticket {
      TwiceInSeq(s.inserted, j, k);
    }
  }

  /** The number the agent reads in a record. */
  function Number(e: Event): nat {
    if |e.record| >= HEADER_SIZE then SequenceNumber(e.record) else 0
  }

  lemma NumberIsTicket(e: Event)
    requires Stamped(e.record, e.ticket)
    ensures Number(e) == e.ticket % U32_MOD
  {
  }

  /** In delivery order the numbers never repeat within 2^32 events, and those of one thread go up. */
  lemma DeliveredNumbers(threads: nat, actions: seq<Action>, j: nat, k: nat)
    requires var s := Run(Init(threads), actions); j < k < |s.handed| && |s.issued| < U32_MOD
    ensures var s := Run(Init(threads), actions);
      && Number(s.handed[j]) != Number(s.handed[k])
      && (s.handed[j].thread == s.handed[k].thread ==> Number(s.handed[j]) < Number(s.handed[k]))
  {
    hide Stamped, Number;
    var s := Run(Init(threads), actions);
    Reached(threads, actions);
    var d, e := s.handed[j], s.handed[k];
    assert s.inserted[j] == d && s.inserted[k] == e;
    InsertedStamped(s);
    InsertedIsIssued(s, d);
    InsertedIsIssued(s, e);
    IssuedAtTicket(s, d);
    IssuedAtTicket(s, e);
    TicketsDiffer(s, j, k);
    NumberIsTicket(d);
    NumberIsTicket(e);
    SmallModulus(d.ticket);
    SmallModulus(e.ticket);
  }

  /** Every delivered event comes from one of the threads. */
  lemma HandedThread(threads: nat, actions: seq<Action>, k: nat)
    requires k < |Run(Init(threads), actions).handed|
    ensures Run(Init(threads), actions).handed[k].thread < threads
  {
    hide Stamped;
    var s := Run(Init(threads), actions);
    Reached(threads, actions);
    assert s.inserted[k] == s.handed[k];
    InsertedIsIssued(s, s.handed[k]);
    IssuedAtTicket(s, s.handed[k]);
  }

  lemma SmallModulus(n: nat)
    ensures n < U32_MOD ==> n % U32_MOD == n
  {
  }

  /** The numbers are unique for as long as the 32-bit counter has not come round, and no longer. */
  lemma NumbersUniqueIffNoWrap(threads: nat, actions: seq<Action>)
    ensures var s := Run(Init(threads), actions);
      (forall j, k :: 0 <= j < k < |s.issued| ==> Number(s.issued[j]) != Number(s.issued[k])) <==> |s.issued| <= U32_MOD
  {
    hide Inv, Run, TicketInv, Number;
    Reached(threads, actions);
    Parts(Run(Init(threads), actions));
    UniqueIffNoWrap(Run(Init(threads), actions));
  }

  lemma UniqueIffNoWrap(s: State)
    requires TicketInv(s)
    ensures (forall j, k :: 0 <= j < k < |s.issued| ==> Number(s.issued[j]) != Number(s.issued[k]))
            <==> |s.issued| <= U32_MOD
  {
    hide Stamped, Number;
    forall k | 0 <= k < |s.issued|
      ensures Number(s.issued[k]) == (k + 1) % U32_MOD
    {
      NumberIsTicket(s.issued[k]);
    }
    if |s.issued| > U32_MOD {
      WrapsRound(1);
      assert Number(s.issued[0]) == Number(s.issued[U32_MOD]);
    } else {
      forall j, k | 0 <= j < k < |s.issued|
        ensures Number(s.issued[j]) != Number(s.issued[k])
      {
        ModuliDiffer(j + 1, k + 1);
      }
    }
  }

  lemma WrapsRound(n: nat)
    ensures (n + U32_MOD) % U32_MOD == n % U32_MOD
  {
  }

  lemma ModuliDiffer(a: nat, b: nat)
    requires 0 < a < b <= U32_MOD
    ensures a % U32_MOD != b % U32_MOD
  {
  }

  ghost predicate Delivered(s: State, number: nat) {
    exists e :: e in s.handed && Number(e) == number
  }

  /** The numbers handed out that never reached the agent. */
  ghost function Missing(s: State): set<nat> {
    set n: nat | 1 <= n <= |s.issued| && !Delivered(s, n)
  }

  ghost function Tickets(es: seq<Event>): set<nat> {
    set e | e in es :: e.ticket
  }

  lemma {:induction false} TicketCount(es: seq<Event>)
    requires forall j, k :: 0 <= j < k < |es| ==> es[j].ticket != es[k].ticket
    ensures |Tickets(es)| == |es|
  {
    if es == [] {
      assert Tickets(es) == {};
    } else {
      TicketCount(es[1..]);
      assert es == [es[0]] + es[1..];
      assert Tickets(es) == {es[0].ticket} + Tickets(es[1..]);
      assert es[0].ticket !in Tickets(es[1..]);
    }
  }

  lemma LostIsIssued(s: State, e: Event)
    requires PlaceInv(s) && e in s.lost
    ensures e in s.issued
  {
    assert e in multiset(s.lost);
    assert multiset(s.issued)[e] >= multiset(s.lost)[e];
    assert e in multiset(s.issued);
  }

  lemma LostTicketsDiffer(s: State, j: nat, k: nat)
    requires TicketInv(s) && PlaceInv(s) && j < k < |s.lost|
    ensures s.lost[j].ticket != s.lost[k].ticket
  {
    hide Stamped;
    var d, e := s.lost[j], s.lost[k];
    LostIsIssued(s, d);
    LostIsIssued(s, e);
    IssuedAtTicket(s, d);
    IssuedAtTicket(s, e);
    IssuedOnce(s, d);
    assert multiset(s.issued)[d] >= multiset(s.lost)[d];
    if d.ticket == e.ticket {
      TwiceInSeq(s.lost, j, k);
    }
  }

  /** Every callback is idle, the queue is drained and nothing was freed by cleanup. */
  ghost predicate Drained(s: State) {
    AllIdle(s) && s.queue == [] && s.reader.Waiting? && s.cleaned == []
  }

  lemma AllHandsEmpty(s: State)
    requires AllIdle(s)
    ensures Hands(s) == multiset{}
  {
    BagEmpty(s.pushers, InHand);
  }

  lemma DrainedPlaces(s: State)
    requires PlaceInv(s) && FifoInv(s) && Drained(s)
    ensures multiset(s.issued) == multiset(s.handed) + multiset(s.lost) && s.inserted == s.handed
  {
    hide InHand, Bag;
    AllHandsEmpty(s);
  }

  lemma LostIsMissing(s: State, n: nat)
    requires TicketInv(s) && PlaceInv(s) && s.inserted == s.handed && |s.issued| < U32_MOD && 1 <= n <= |s.issued|
    requires multiset(s.issued) == multiset(s.handed) + multiset(s.lost) && n in Tickets(s.lost)
    ensures !Delivered(s, n)
  {
    hide TicketInv, PlaceInv, Number;
    var l :| l in s.lost && l.ticket == n;
    LostIsIssued(s, l);
    IssuedAtTicket(s, l);
    IssuedOnce(s, l);
    assert multiset(s.lost)[l] >= 1 && multiset(s.handed)[l] == 0;
    if Delivered(s, n) {
      var h :| h in s.handed && Number(h) == n;
      HandedIsIssued(s, h, n);
    }
  }

  lemma OtherIsDelivered(s: State, n: nat)
    requires TicketInv(s) && |s.issued| < U32_MOD && 1 <= n <= |s.issued|
    requires multiset(s.issued) == multiset(s.handed) + multiset(s.lost) && n !in Tickets(s.lost)
    ensures Delivered(s, n)
  {
    hide Stamped, Number;
    var e := s.issued[n - 1];
    assert e in multiset(s.issued) && e.ticket == n;
    NumberIsTicket(e);
    SmallModulus(n);
    assert e !in s.lost;
    assert e in multiset(s.handed);
  }

  lemma MissingIsLost(s: State, n: nat)
    requires Inv(s) && Drained(s) && |s.issued| < U32_MOD && 1 <= n <= |s.issued|
    ensures Delivered(s, n) <==> n !in Tickets(s.lost)
  {
    hide Inv, TicketInv, PlaceInv, FifoInv, Delivered;
    Parts(s);
    DrainedPlaces(s);
    if n in Tickets(s.lost) {
      LostIsMissing(s, n);
    } else {
      OtherIsDelivered(s, n);
    }
  }

  lemma HandedIsIssued(s: State, h: Event, n: nat)
    requires TicketInv(s) && PlaceInv(s) && s.inserted == s.handed && |s.issued| < U32_MOD
    requires h in s.handed && Number(h) == n
    ensures 1 <= n <= |s.issued| && h == s.issued[n - 1]
  {
    hide Stamped, Number;
    InsertedIsIssued(s, h);
    IssuedAtTicket(s, h);
    NumberIsTicket(h);
    SmallModulus(h.ticket);
  }

  /** Gaps are drops: once everything is delivered, the missing numbers are as many as g_EventsDropped says. */
  lemma GapsAreDrops(threads: nat, actions: seq<Action>)
    requires var s := Run(Init(threads), actions); Drained(s) && |s.issued| < U32_MOD
    ensures var s := Run(Init(threads), actions); |Missing(s)| == s.dropped
  {
    hide Inv, TicketInv, PlaceInv, Delivered, Number;
    var s := Run(Init(threads), actions);
    Reached(threads, actions);
    Parts(s);
    forall n: nat | 1 <= n <= |s.issued|
      ensures Delivered(s, n) <==> n !in Tickets(s.lost)
    {
      MissingIsLost(s, n);
    }
    forall n | n in Tickets(s.lost)
      ensures 1 <= n <= |s.issued|
    {
      var l :| l in s.lost && l.ticket == n;
      LostIsIssued(s, l);
      IssuedAtTicket(s, l);
    }
    assert Missing(s) == Tickets(s.lost);
    forall j, k | 0 <= j < k < |s.lost|
      ensures s.lost[j].ticket != s.lost[k].ticket
    {
      LostTicketsDiffer(s, j, k);
    }
    TicketCount(s.lost);
  }

  // ---------------------------------------------------------------- pool entries

  lemma {:induction false} BagMonotone<T, E>(xs: seq<T>, v: T -> multiset<E>, w: T -> multiset<E>)
    requires forall x :: x in xs ==> v(x) <= w(x)
    ensures Bag(xs, v) <= Bag(xs, w)
  {
    if xs != [] {
      assert xs[0] in xs;
      BagMonotone(xs[1..], v, w);
    }
  }

  /** The entries freed so far: by the reader after copying, and by cleanup. */
  function Freed(s: State): seq<Event> {
    s.handed + s.cleaned
  }

  lemma EntryPlaces(s: State)
    requires EntryInv(s) && FifoInv(s)
    ensures multiset(s.allocations) ==
      Bag(s.pushers, EntryInHand) + multiset(s.queue) + multiset(Carried(s.reader)) + multiset(Freed(s))
  {
  }

  lemma EntryOnce(s: State, e: Event)
    requires EntryInv(s) && PlaceInv(s) && TicketInv(s)
    ensures multiset(s.allocations)[e] <= 1
  {
    hide Stamped;
    BagMonotone(s.pushers, EntryInHand, InHand);
    assert multiset(s.allocations)[e] <= multiset(s.issued)[e];
    IssuedOnce(s, e);
  }

  lemma NoEntryOutside(s: State)
    requires OpenInv(s) && !s.open
    ensures Bag(s.pushers, EntryInHand) == multiset{} && Carried(s.reader) == [] && s.queue == []
  {
    BagEmpty(s.pushers, EntryInHand);
  }

  /** Every pool entry is in exactly one place: a pusher's hand, the global list, the reader's local list,
      or freed; none is in a place twice, so none is freed twice; and after cleanup all are freed. */
  lemma EntriesFreedOnce(threads: nat, actions: seq<Action>, e: Event)
    ensures var s := Run(Init(threads), actions);
      && multiset(s.allocations) ==
         Bag(s.pushers, EntryInHand) + multiset(s.queue) + multiset(Carried(s.reader)) + multiset(Freed(s))
      && multiset(s.allocations)[e] <= 1
      && (!s.open ==> multiset(s.allocations) == multiset(Freed(s)))
  {
    hide Inv, EntryInv, FifoInv, PlaceInv, TicketInv, OpenInv, Carried, Freed, EntryInHand;
    var s := Run(Init(threads), actions);
    Reached(threads, actions);
    Parts(s);
    EntryPlaces(s);
    EntryOnce(s, e);
    if !s.open {
      NoEntryOutside(s);
    }
  }

  // -------------------------------------------------------------- what a read returns

  /** When phase 1 of a drain ends, it has taken exactly the front part that fits of the queue it found,
      although other callbacks were numbering, checking and allocating all the while. */
  lemma DrainTakesWhatFits(threads: nat, actions: seq<Action>)
    requires Enabled(Run(Init(threads), actions), Settle)
    ensures var s := Run(Init(threads), actions);
      var r := s.reader;
      var k := FitU32(Records(r.start), 0, r.capacity);
      && r.local == r.start[..k] && s.queue == r.start[k..]
      && |Concat(Records(r.local))| <= r.capacity
  {
    hide Inv, Run, MovingInv, Records, FitU32, Concat, HeadFits;
    Reached(threads, actions);
    Parts(Run(Init(threads), actions));
    SettlesWhatFits(Run(Init(threads), actions));
  }

  lemma SettlesWhatFits(s: State)
    requires MovingInv(s) && s.reader.Moving? && !HeadFits(s)
    ensures var r := s.reader;
      var k := FitU32(Records(r.start), 0, r.capacity);
      && r.local == r.start[..k] && s.queue == r.start[k..]
      && |Concat(Records(r.local))| <= r.capacity
  {
    hide Concat, AddU32;
    assert FitU32(Records(s.queue), s.reader.total, s.reader.capacity) == 0;
  }

  /** What DeviceIoControl returns: bytes that the agent can split safely, and that split into exactly
      the records handed over by this drain, in their order in the queue. */
  lemma ReadSplitsBack(threads: nat, actions: seq<Action>)
    requires Run(Init(threads), actions).reader.Returning?
    ensures var s := Run(Init(threads), actions);
      && Parse(s.reader.out) == Records(s.reader.batch)
      && Advances(s.reader.out, 0)
      && Ends(s.handed, s.reader.batch)
  {
    var s := Run(Init(threads), actions);
    Reached(threads, actions);
    ReturnedBytes(s);
  }

  lemma ReturnedBytes(s: State)
    requires Inv(s) && s.reader.Returning?
    ensures Parse(s.reader.out) == Records(s.reader.batch)
    ensures Advances(s.reader.out, 0)
    ensures s.reader.out == Concat(Records(s.reader.batch)) && Ends(s.handed, s.reader.batch)
    ensures AllWellFormed(Records(s.reader.batch)) && |s.reader.out| < U32_MOD
  {
    hide Parse, Advances, Inv;
    Parts(s);
    InsertedStamped(s);
    var rs := Records(s.reader.batch);
    BatchWellFormed(s.inserted, s.handed, s.reader.batch);
    RoundTrip(rs, []);
    assert Concat(rs) + [] == Concat(rs);
    DrainedAdvances([], rs);
    assert [] + Concat(rs) == Concat(rs);
  }

  lemma BatchWellFormed(inserted: seq<Event>, handed: seq<Event>, batch: seq<Event>)
    requires AllStamped(inserted) && handed <= inserted && Ends(handed, batch)
    ensures AllWellFormed(Records(batch))
  {
  }
}
