/** What every step of the driver's queue protocol keeps, and what that gives for every run. */
module DriverSafety {
  import opened Bytes
  import opened Counting
  import opened DriverProtocol
  import opened DriverSteps
  import opened EventTypes
  import opened Wire

  // ------------------------------------------------------------------ the lock

  predicate HoldsLock(p: Pusher) {
    p.Locked? || p.Linked? || p.Bumped?
  }

  ghost predicate LockInv(s: State) {
    && (forall i :: 0 <= i < |s.pushers| ==> (HoldsLock(s.pushers[i]) <==> s.lock == Thread(i)))
    && (s.reader.Moving? || s.reader.Settled? <==> s.lock == TheReader)
    && (s.lock.Thread? ==> s.lock.i < |s.pushers|)
  }

  lemma LockKept(s: State, a: Action)
    requires LockInv(s) && Enabled(s, a)
    ensures LockInv(Effect(s, a))
  {
    hide Effect, Enabled, Stamped, HeadFits, AllIdle, Increment, AddU32;
    if ByPusher(a) {
      PusherActs(s, a);
      PusherStep(s, a);
    } else {
      ReaderActs(s, a);
      ReaderStep(s, a);
      ReaderMoves(s, a);
    }
  }

  // ------------------------------------------------- the count and the capacity

  function Unbumped(s: State): int {
    if s.lock.Thread? && s.lock.i < |s.pushers| && s.pushers[s.lock.i].Linked? then 1 else 0
  }

  function Unsettled(s: State): int {
    if s.reader.Moving? then |s.reader.local| else 0
  }

  /** g_EventCount lags the list only inside a critical section. */
  ghost predicate CountInv(s: State) {
    s.count == |s.queue| + Unsettled(s) - Unbumped(s)
  }

  lemma CountKeptByPusher(s: State, a: Action)
    requires LockInv(s) && CountInv(s) && Enabled(s, a) && Acts(s, a) && LockInv(Effect(s, a))
    ensures CountInv(Effect(s, a))
  {
    hide Effect, Enabled;
    PusherStep(s, a);
    PusherAdds(s, a);
    PusherCounts(s, a);
    assert HoldsLock(s.pushers[a.i]) <==> s.lock == Thread(a.i);
    assert HoldsLock(Effect(s, a).pushers[a.i]) <==> Effect(s, a).lock == Thread(a.i);
  }

  lemma CountKeptByReader(s: State, a: Action)
    requires LockInv(s) && CountInv(s) && Enabled(s, a) && ReaderLeaves(s, a)
    ensures CountInv(Effect(s, a))
  {
    hide Effect, Enabled, AddU32;
    ReaderStep(s, a);
    ReaderMoves(s, a);
  }

  lemma CountKept(s: State, a: Action)
    requires LockInv(s) && CountInv(s) && Enabled(s, a)
    ensures CountInv(Effect(s, a))
  {
    hide Effect, Enabled, LockInv, CountInv, Leaves, ReaderLeaves, Stamped, HeadFits, AllIdle;
    LockKept(s, a);
    if ByPusher(a) {
      PusherActs(s, a);
      CountKeptByPusher(s, a);
    } else {
      ReaderActs(s, a);
      CountKeptByReader(s, a);
    }
  }

  /** 1 for a pusher that passed the capacity check and has not bumped g_EventCount. */
  function Admission(p: Pusher): int {
    if p.Admitted? || p.Typed? || p.Locked? || p.Linked? then 1 else 0
  }

  ghost predicate CapacityInv(s: State) {
    s.count + Sum(s.pushers, Admission) <= MAX_EVENTS_IN_QUEUE - 1 + |s.pushers|
  }

  /** Only the acting callback's phase changes. */
  lemma OneThreadMoves(s: State, a: Action, w: Pusher -> int)
    requires Enabled(s, a)
    ensures |Effect(s, a).pushers| == |s.pushers|
    ensures !ByPusher(a) ==> Sum(Effect(s, a).pushers, w) == Sum(s.pushers, w)
    ensures ByPusher(a) ==> Acts(s, a)
    ensures ByPusher(a) ==>
      Sum(Effect(s, a).pushers, w) ==
      Sum(s.pushers, w) - w(s.pushers[a.i]) + w(Enters(a, Subject(s, a), s.count))
  {
    hide Effect, Enabled, Stamped, HeadFits, AllIdle, Leaves, Enters, ReaderLeaves, ReaderEnters, Sum;
    if ByPusher(a) {
      PusherActs(s, a);
      PusherStep(s, a);
      SumUpdate(s.pushers, a.i, Enters(a, Subject(s, a), s.count), w);
    } else {
      ReaderActs(s, a);
      ReaderStep(s, a);
    }
  }

  /** Only the capacity check lets a callback in, and it counts all that are in. */
  lemma AdmissionStep(s: State, a: Action)
    requires CapacityInv(s) && Acts(s, a)
    ensures s.count + One(a.BumpCount?) +
            (Sum(s.pushers, Admission) - Admission(s.pushers[a.i]) + Admission(Enters(a, Subject(s, a), s.count)))
            <= MAX_EVENTS_IN_QUEUE - 1 + |s.pushers|
  {
    hide Sum, Subject;
    SumBounds(s.pushers, Admission);
    assert s.pushers[a.i] in s.pushers;
  }

  lemma AdmissionBound(s: State)
    ensures Sum(s.pushers, Admission) <= |s.pushers|
  {
    SumBounds(s.pushers, Admission);
  }

  lemma ReaderSettles(s: State, a: Action)
    requires ReaderLeaves(s, a)
    ensures a.Settle? ==> s.reader.Moving?
  {
  }

  lemma CapacityKept(s: State, a: Action)
    requires CapacityInv(s) && Enabled(s, a)
    ensures CapacityInv(Effect(s, a))
  {
    hide Effect, Enabled, Stamped, HeadFits, AllIdle, Leaves, Enters, Subject, ReaderLeaves, ReaderEnters, Admission,
         Sum;
    OneThreadMoves(s, a, Admission);
    if ByPusher(a) {
      AdmissionStep(s, a);
      PusherCounts(s, a);
    } else {
      AdmissionBound(s);
      ReaderActs(s, a);
      ReaderMoves(s, a);
      ReaderSettles(s, a);
    }
  }

  // ------------------------------------------------------------ first in, first out

  /** The events the reader has taken off the queue and not counted as delivered. */
  function Carried(r: Reader): seq<Event> {
    match r
    case Moving(_, local, _, _) => local
    case Settled(local) => local
    case Copying(local, _, _) => local
    case Copied(e, local, _, _) => [e] + local
    case _ => []
  }

  ghost predicate FifoInv(s: State) {
    s.inserted == s.handed + Carried(s.reader) + s.queue + s.cleaned
  }

  /** Cleanup comes after the callbacks are gone: from then on nothing moves. */
  ghost predicate OpenInv(s: State) {
    && (s.open ==> s.cleaned == [])
    && (!s.open ==> AllIdle(s) && s.reader.Waiting? && s.queue == [])
  }

  lemma OpenKept(s: State, a: Action)
    requires OpenInv(s) && Enabled(s, a)
    ensures OpenInv(Effect(s, a))
  {
    hide Effect, Enabled, Stamped, HeadFits, Increment, AddU32;
    if ByPusher(a) {
      PusherActs(s, a);
      PusherStep(s, a);
      PusherAdds(s, a);
    } else {
      ReaderActs(s, a);
      ReaderStep(s, a);
      ReaderMoves(s, a);
    }
  }

  /** The reader only moves events on: from the queue to those it carries, and from there to those handed over. */
  lemma CarriedKept(s: State, a: Action)
    requires Enabled(s, a) && !ByPusher(a)
    ensures var t := Effect(s, a);
      && t.handed + Carried(t.reader) + t.queue == s.handed + Carried(s.reader) + (if a.Cleanup? then [] else s.queue)
      && (a.Cleanup? ==> Carried(s.reader) == [])
  {
    hide Effect, Enabled, Stamped, HeadFits, AllIdle, Increment, AddU32;
    ReaderActs(s, a);
    ReaderStep(s, a);
    ReaderMoves(s, a);
    var t := Effect(s, a);
    if a.MoveOne? {
      assert s.queue == [s.queue[0]] + s.queue[1..];
    } else if a.CopyOne? {
      assert s.reader.local == [s.reader.local[0]] + s.reader.local[1..];
    }
  }

  lemma Appended(a: seq<Event>, b: seq<Event>, x: seq<Event>, c: seq<Event>)
    requires x == [] || c == []
    ensures a + b + c + x == a + (b + x) + c
  {
  }

  /** Nothing is linked after cleanup. */
  lemma OnlyOpenAppends(s: State, a: Action)
    requires OpenInv(s) && Acts(s, a)
    ensures a.Link? ==> s.cleaned == []
  {
  }

  lemma FifoKept(s: State, a: Action)
    requires OpenInv(s) && FifoInv(s) && Enabled(s, a)
    ensures FifoInv(Effect(s, a))
  {
    hide Effect, Enabled, Stamped, HeadFits, AllIdle, Increment, AddU32, Carried;
    if ByPusher(a) {
      PusherActs(s, a);
      PusherStep(s, a);
      PusherAdds(s, a);
      OnlyOpenAppends(s, a);
      Appended(s.handed + Carried(s.reader), s.queue, Only(a.Link?, Subject(s, a)), s.cleaned);
    } else {
      ReaderActs(s, a);
      ReaderStep(s, a);
      ReaderMoves(s, a);
      CarriedKept(s, a);
    }
  }

  // ------------------------------------------------------------------ counters

  /** 1 for a pusher between the insertion and the bump of g_TotalGenerated. */
  function Unreported(p: Pusher): int {
    if p.Linked? || p.Bumped? || p.Published? then 1 else 0
  }

  ghost predicate CounterInv(s: State) {
    && s.generated + Sum(s.pushers, Unreported) == |s.inserted|
    && s.delivered == |s.handed|
    && s.dropped == |s.lost|
  }

  lemma UnreportedStep(s: State, a: Action)
    requires Acts(s, a)
    ensures One(a.Report?) - Unreported(s.pushers[a.i]) + Unreported(Enters(a, Subject(s, a), s.count)) == One(a.Link?)
  {
  }

  lemma CounterKept(s: State, a: Action)
    requires CounterInv(s) && Enabled(s, a)
    ensures CounterInv(Effect(s, a))
  {
    hide Effect, Enabled, Stamped, HeadFits, AllIdle, Increment, AddU32, Sum, Unreported, Leaves, Enters, Subject,
         ReaderLeaves, ReaderEnters;
    OneThreadMoves(s, a, Unreported);
    if ByPusher(a) {
      UnreportedStep(s, a);
      PusherStep(s, a);
      PusherAdds(s, a);
      PusherCounts(s, a);
    } else {
      ReaderActs(s, a);
      ReaderStep(s, a);
      ReaderMoves(s, a);
    }
  }

  // ------------------------------------------------------- per-type counters

  function CategoryOfEvent(e: Event): Category {
    if |e.record| >= HEADER_SIZE then CategoryOf(EventType(e.record)) else NotCounted
  }

  function CountIn(es: seq<Event>, c: Category): nat {
    if es == [] then 0 else (if CategoryOfEvent(es[0]) == c then 1 else 0) + CountIn(es[1..], c)
  }

  lemma {:induction false} CountInSnoc(es: seq<Event>, e: Event, c: Category)
    ensures CountIn(es + [e], c) == CountIn(es, c) + if CategoryOfEvent(e) == c then 1 else 0
  {
    if es == [] {
      assert es + [e] == [e];
      assert CountIn([e][1..], c) == 0;
    } else {
      assert (es + [e])[1..] == es[1..] + [e];
      CountInSnoc(es[1..], e, c);
    }
  }

  /** 1 for a pusher whose event's type is counted while the event is not in the list yet. */
  function TypedAhead(c: Category): Pusher -> int {
    (p: Pusher) => if (p.Typed? || p.Locked?) && CategoryOfEvent(p.e) == c then 1 else 0
  }

  ghost predicate TypeInv(s: State) {
    forall c :: c != NotCounted ==> s.types.Of(c) == CountIn(s.inserted, c) + Sum(s.pushers, TypedAhead(c))
  }

  lemma IncrementsOne(types: TypeCounters, e: Event, c: Category)
    requires c != NotCounted
    ensures Increment(types, e).Of(c) == types.Of(c) + if CategoryOfEvent(e) == c then 1 else 0
  {
  }

  lemma TypeKept(s: State, a: Action)
    requires TypeInv(s) && Enabled(s, a)
    ensures TypeInv(Effect(s, a))
  {
    forall c | c != NotCounted
      ensures Effect(s, a).types.Of(c) == CountIn(Effect(s, a).inserted, c) + Sum(Effect(s, a).pushers, TypedAhead(c))
    {
      TypeKeptFor(s, a, c);
    }
  }

  lemma TypeKeptFor(s: State, a: Action, c: Category)
    requires Enabled(s, a) && c != NotCounted
    requires s.types.Of(c) == CountIn(s.inserted, c) + Sum(s.pushers, TypedAhead(c))
    ensures Effect(s, a).types.Of(c) == CountIn(Effect(s, a).inserted, c) + Sum(Effect(s, a).pushers, TypedAhead(c))
  {
    hide Effect, Enabled, Stamped, HeadFits, AllIdle, Increment, AddU32, CategoryOfEvent, Sum, CountIn, TypeCounters.Of;
    OneThreadMoves(s, a, TypedAhead(c));
    if ByPusher(a) {
      PusherActs(s, a);
      PusherAdds(s, a);
      PusherCounts(s, a);
      if a.Allocate? {
        IncrementsOne(s.types, Subject(s, a), c);
      } else if a.Link? {
        CountInSnoc(s.inserted, Subject(s, a), c);
      }
      assert s.inserted + [] == s.inserted;
    } else {
      ReaderActs(s, a);
      ReaderStep(s, a);
    }
  }

  // ---------------------------------------------------- every event is somewhere

  predicate HasEvent(p: Pusher) {
    p.Numbered? || p.Full? || p.Admitted? || p.Typed? || p.Locked?
  }

  /** The event a pusher holds before it is linked or counted as dropped. */
  function InHand(p: Pusher): multiset<Event> {
    if HasEvent(p) then multiset{p.e} else multiset{}
  }

  ghost function Hands(s: State): multiset<Event> {
    Bag(s.pushers, InHand)
  }

  ghost predicate PlaceInv(s: State) {
    multiset(s.issued) == Hands(s) + multiset(s.inserted) + multiset(s.lost)
  }

  lemma Cancel<T>(x: multiset<T>, y: multiset<T>, a: multiset<T>)
    requires x + a == y + a
    ensures x == y
  {
    assert x == (x + a) - a;
    assert y == (y + a) - a;
  }

  lemma Balance<T>(b': multiset<T>, b: multiset<T>, o: multiset<T>, n: multiset<T>, out: multiset<T>, into: multiset<T>)
    requires b' + o == b + n && ((o == out && n == into) || (o == n && out == into))
    ensures b' + out == b + into
  {
    if o == n {
      Cancel(b', b, o);
    }
  }

  /** What one callback's new phase does to a bag over all of them. */
  lemma BagAfter(ps: seq<Pusher>, i: nat, n: Pusher, w: Pusher -> multiset<Event>,
                 out: multiset<Event>, into: multiset<Event>)
    requires i < |ps|
    requires (w(ps[i]) == out && w(n) == into) || (w(ps[i]) == w(n) && out == into)
    ensures Bag(ps[i := n], w) + out == Bag(ps, w) + into
  {
    hide Bag;
    BagUpdate(ps, i, n, w);
    Balance(Bag(ps[i := n], w), Bag(ps, w), w(ps[i]), w(n), out, into);
  }

  /** The event that a step takes out of a callback's hand, and the one it puts there. */
  function Leaving(s: State, a: Action): multiset<Event>
    requires ByPusher(a) ==> Acts(s, a)
  {
    if a.CountDrop? || a.Link? then multiset{Subject(s, a)} else multiset{}
  }

  function Entering(s: State, a: Action): multiset<Event>
    requires ByPusher(a) ==> Acts(s, a)
  {
    if a.GetNumber? then multiset{Subject(s, a)} else multiset{}
  }

  lemma HandPhases(s: State, a: Action)
    requires Acts(s, a)
    ensures var p, q := s.pushers[a.i], Enters(a, Subject(s, a), s.count);
      if a.GetNumber? then !HasEvent(p) && HasEvent(q) && q.e == Subject(s, a)
      else if a.CountDrop? || a.Link? then HasEvent(p) && p.e == Subject(s, a) && !HasEvent(q)
      else (HasEvent(p) <==> HasEvent(q)) && (HasEvent(p) ==> p.e == q.e)
  {
  }

  lemma HandChanges(s: State, a: Action)
    requires Acts(s, a)
    ensures var o, n := InHand(s.pushers[a.i]), InHand(Enters(a, Subject(s, a), s.count));
      (o == Leaving(s, a) && n == Entering(s, a)) || (o == n && Leaving(s, a) == Entering(s, a))
  {
    hide Acts, Leaves, Enters, Subject, HasEvent;
    HandPhases(s, a);
  }

  lemma ActsIfPusher(s: State, a: Action)
    requires Enabled(s, a)
    ensures ByPusher(a) ==> Acts(s, a)
  {
    hide Enabled, ByPusher, Acts;
    if ByPusher(a) {
      PusherActs(s, a);
    }
  }

  /** A callback's hand fills when it gets a number and empties when it links the event or counts it as dropped. */
  lemma HandsAfter(s: State, a: Action)
    requires Enabled(s, a)
    ensures ByPusher(a) ==> Acts(s, a)
    ensures Hands(Effect(s, a)) + Leaving(s, a) == Hands(s) + Entering(s, a)
  {
    hide InHand, Effect, Enabled, Enters, Leaves, ReaderLeaves, ReaderEnters, Subject, Bag, Stamped;
    if ByPusher(a) {
      PusherActs(s, a);
      PusherStep(s, a);
      HandChanges(s, a);
      BagAfter(s.pushers, a.i, Enters(a, Subject(s, a), s.count), InHand, Leaving(s, a), Entering(s, a));
    } else {
      ReaderActs(s, a);
      ReaderStep(s, a);
    }
  }

  lemma BagOfSnoc(es: seq<Event>, here: bool, e: Event)
    ensures multiset(es + Only(here, e)) == multiset(es) + if here then multiset{e} else multiset{}
  {
    assert here || es + Only(here, e) == es;
  }

  lemma BagOfBoth(n: seq<Event>, l: seq<Event>, here: bool, there: bool, e: Event)
    requires !(here && there)
    ensures multiset(n + Only(here, e)) + multiset(l + Only(there, e)) ==
            multiset(n) + multiset(l) + if here || there then multiset{e} else multiset{}
  {
    hide Only;
    BagOfSnoc(n, here, e);
    BagOfSnoc(l, there, e);
  }

  lemma PlacesAfter(s: State, a: Action)
    requires Enabled(s, a)
    ensures ByPusher(a) ==> Acts(s, a)
    ensures multiset(Effect(s, a).issued) == multiset(s.issued) + Entering(s, a)
    ensures multiset(Effect(s, a).inserted) + multiset(Effect(s, a).lost) ==
            multiset(s.inserted) + multiset(s.lost) + Leaving(s, a)
  {
    hide Effect, Enabled, Leaves, Subject, ReaderLeaves, ReaderEnters, Only;
    ActsIfPusher(s, a);
    if ByPusher(a) {
      PusherAdds(s, a);
      BagOfSnoc(s.issued, a.GetNumber?, Subject(s, a));
      BagOfBoth(s.inserted, s.lost, a.Link?, a.CountDrop?, Subject(s, a));
    } else {
      ReaderActs(s, a);
      ReaderStep(s, a);
    }
  }

  lemma PlaceKept(s: State, a: Action)
    requires PlaceInv(s) && Enabled(s, a)
    ensures PlaceInv(Effect(s, a))
  {
    hide Hands, Leaving, Entering, Effect, Enabled, Acts;
    HandsAfter(s, a);
    PlacesAfter(s, a);
    Reassociate(multiset(s.issued), Hands(s), multiset(s.inserted), multiset(s.lost), Hands(Effect(s, a)),
                multiset(Effect(s, a).inserted), multiset(Effect(s, a).lost), Entering(s, a), Leaving(s, a));
  }

  lemma Reassociate<T>(all: multiset<T>, h: multiset<T>, n: multiset<T>, l: multiset<T>,
                       h': multiset<T>, n': multiset<T>, l': multiset<T>, into: multiset<T>, out: multiset<T>)
    requires all == h + n + l && h' + out == h + into && n' + l' == n + l + out
    ensures all + into == h' + n' + l'
  {
    calc {
      all + into;
      (h + into) + (n + l);
      (h' + out) + (n + l);
      h' + (n + l + out);
      h' + (n' + l');
      h' + n' + l';
    }
  }

  ghost predicate TicketInv(s: State) {
    forall k :: 0 <= k < |s.issued| ==>
      && s.issued[k].ticket == k + 1
      && s.issued[k].thread < |s.pushers|
      && Stamped(s.issued[k].record, k + 1)
  }

  lemma TicketKept(s: State, a: Action)
    requires TicketInv(s) && Enabled(s, a)
    ensures TicketInv(Effect(s, a))
  {
    hide Effect, Enabled, Stamped, HeadFits, AllIdle, Increment, AddU32;
    if ByPusher(a) {
      PusherActs(s, a);
      PusherStep(s, a);
      PusherAdds(s, a);
    } else {
      ReaderActs(s, a);
      ReaderStep(s, a);
    }
  }

  // -------------------------------------------------------- order within a thread

  /** The numbered event of a pusher, if it is in the middle of a push. */
  ghost predicate Before(e: Event, p: Pusher) {
    || p.Idle?
    || e.ticket < p.e.ticket
    || (e.ticket == p.e.ticket && Unreported(p) == 1)
  }

  /** A pusher's event is its own, and was numbered. */
  ghost predicate OwnInv(s: State) {
    forall i :: 0 <= i < |s.pushers| && !s.pushers[i].Idle? ==>
      s.pushers[i].e.thread == i && s.pushers[i].e.ticket <= |s.issued|
  }

  ghost predicate BeforeInv(s: State) {
    forall e :: e in s.inserted ==>
      e.thread < |s.pushers| && e.ticket <= |s.issued| && Before(e, s.pushers[e.thread])
  }

  /** Along the insertion order, the tickets of one thread go up. */
  ghost predicate OrderInv(s: State) {
    forall j, k :: 0 <= j < k < |s.inserted| && s.inserted[j].thread == s.inserted[k].thread ==>
      s.inserted[j].ticket < s.inserted[k].ticket
  }

  lemma OwnKept(s: State, a: Action)
    requires OwnInv(s) && Enabled(s, a)
    ensures OwnInv(Effect(s, a))
  {
    hide Effect, Enabled, Stamped, HeadFits, AllIdle, Increment, AddU32;
    if ByPusher(a) {
      PusherActs(s, a);
      PusherStep(s, a);
      PusherAdds(s, a);
    } else {
      ReaderActs(s, a);
      ReaderStep(s, a);
    }
  }

  lemma BeforeKept(s: State, a: Action)
    requires OwnInv(s) && BeforeInv(s) && Enabled(s, a)
    ensures BeforeInv(Effect(s, a))
  {
    hide Effect, Enabled, Stamped, HeadFits, AllIdle, Increment, AddU32;
    if ByPusher(a) {
      PusherActs(s, a);
      PusherStep(s, a);
      PusherAdds(s, a);
    } else {
      ReaderActs(s, a);
      ReaderStep(s, a);
    }
  }

  lemma OrderKept(s: State, a: Action)
    requires OwnInv(s) && BeforeInv(s) && OrderInv(s) && Enabled(s, a)
    ensures OrderInv(Effect(s, a))
  {
    hide Effect, Enabled, Stamped, HeadFits, AllIdle, Increment, AddU32;
    if ByPusher(a) {
      PusherActs(s, a);
      PusherAdds(s, a);
      if a.Link? {
        var e := s.pushers[a.i].e;
        forall j | 0 <= j < |s.inserted| && s.inserted[j].thread == e.thread
          ensures s.inserted[j].ticket < e.ticket
        {
          assert s.inserted[j] in s.inserted;
        }
      }
    } else {
      ReaderActs(s, a);
      ReaderStep(s, a);
    }
  }

  // ------------------------------------------------------------- pool entries

  predicate HasEntry(p: Pusher) {
    p.Typed? || p.Locked?
  }

  /** The event whose pool entry a pusher holds before it is linked. */
  function EntryInHand(p: Pusher): multiset<Event> {
    if HasEntry(p) then multiset{p.e} else multiset{}
  }

  /** Every pool entry is in one place: a pusher's hand or the list, from where the queue, the reader's
      local list and the freed entries share it (FifoInv). */
  ghost predicate EntryInv(s: State) {
    multiset(s.allocations) == Bag(s.pushers, EntryInHand) + multiset(s.inserted)
  }

  function EntryEnters(s: State, a: Action): multiset<Event>
    requires ByPusher(a) ==> Acts(s, a)
  {
    if a.Allocate? then multiset{Subject(s, a)} else multiset{}
  }

  function EntryLeaves(s: State, a: Action): multiset<Event>
    requires ByPusher(a) ==> Acts(s, a)
  {
    if a.Link? then multiset{Subject(s, a)} else multiset{}
  }

  lemma EntryPhases(s: State, a: Action)
    requires Acts(s, a)
    ensures var p, q := s.pushers[a.i], Enters(a, Subject(s, a), s.count);
      if a.Allocate? then !HasEntry(p) && HasEntry(q) && q.e == Subject(s, a)
      else if a.Link? then HasEntry(p) && p.e == Subject(s, a) && !HasEntry(q)
      else (HasEntry(p) <==> HasEntry(q)) && (HasEntry(p) ==> p.e == q.e)
  {
  }

  lemma EntryChanges(s: State, a: Action)
    requires Acts(s, a)
    ensures var o, n := EntryInHand(s.pushers[a.i]), EntryInHand(Enters(a, Subject(s, a), s.count));
      (o == EntryLeaves(s, a) && n == EntryEnters(s, a)) || (o == n && EntryLeaves(s, a) == EntryEnters(s, a))
  {
    hide Acts, Leaves, Enters, Subject, HasEntry;
    EntryPhases(s, a);
  }

  lemma EntriesAfter(s: State, a: Action)
    requires Enabled(s, a)
    ensures ByPusher(a) ==> Acts(s, a)
    ensures multiset(Effect(s, a).allocations) == multiset(s.allocations) + EntryEnters(s, a)
    ensures multiset(Effect(s, a).inserted) == multiset(s.inserted) + EntryLeaves(s, a)
  {
    hide Effect, Enabled, Leaves, Subject, ReaderLeaves, ReaderEnters, Only;
    ActsIfPusher(s, a);
    if ByPusher(a) {
      PusherAdds(s, a);
      BagOfSnoc(s.allocations, a.Allocate?, Subject(s, a));
      BagOfSnoc(s.inserted, a.Link?, Subject(s, a));
    } else {
      ReaderActs(s, a);
      ReaderStep(s, a);
    }
  }

  lemma EntryBagAfter(s: State, a: Action)
    requires Enabled(s, a)
    ensures ByPusher(a) ==> Acts(s, a)
    ensures Bag(Effect(s, a).pushers, EntryInHand) + EntryLeaves(s, a) ==
            Bag(s.pushers, EntryInHand) + EntryEnters(s, a)
  {
    hide EntryInHand, Effect, Enabled, Enters, Leaves, ReaderLeaves, ReaderEnters, Subject, Bag, Stamped;
    if ByPusher(a) {
      PusherActs(s, a);
      PusherStep(s, a);
      EntryChanges(s, a);
      BagAfter(s.pushers, a.i, Enters(a, Subject(s, a), s.count), EntryInHand, EntryLeaves(s, a), EntryEnters(s, a));
    } else {
      ReaderActs(s, a);
      ReaderStep(s, a);
    }
  }

  lemma EntryKept(s: State, a: Action)
    requires EntryInv(s) && Enabled(s, a)
    ensures EntryInv(Effect(s, a))
  {
    hide EntryEnters, EntryLeaves, Effect, Enabled, Acts, Bag;
    EntriesAfter(s, a);
    EntryBagAfter(s, a);
    Reassociate(multiset(s.allocations), Bag(s.pushers, EntryInHand), multiset(s.inserted), multiset{},
                Bag(Effect(s, a).pushers, EntryInHand), multiset(Effect(s, a).inserted), multiset{},
                EntryEnters(s, a), EntryLeaves(s, a));
  }

  // ----------------------------------------------------------- what the reader holds

  /** A numbered event is found at its ticket. */
  lemma IssuedAtTicket(s: State, e: Event)
    requires TicketInv(s) && e in s.issued
    ensures 1 <= e.ticket <= |s.issued| && s.issued[e.ticket - 1] == e
    ensures e.thread < |s.pushers| && Stamped(e.record, e.ticket)
  {
  }

  lemma InsertedIsIssued(s: State, e: Event)
    requires PlaceInv(s) && e in s.inserted
    ensures e in s.issued
  {
    assert e in multiset(s.inserted);
    assert multiset(s.issued)[e] >= multiset(s.inserted)[e];
    assert e in multiset(s.issued);
  }

  ghost predicate AllStamped(es: seq<Event>) {
    forall e :: e in es ==> Stamped(e.record, e.ticket)
  }

  lemma InsertedStamped(s: State)
    requires TicketInv(s) && PlaceInv(s) && FifoInv(s)
    ensures AllStamped(s.inserted) && AllStamped(s.queue)
  {
    hide Stamped;
    forall e | e in s.inserted
      ensures Stamped(e.record, e.ticket)
    {
      InsertedIsIssued(s, e);
      IssuedAtTicket(s, e);
    }
    assert forall e :: e in s.queue ==> e in s.inserted;
  }

  /** The events of the drain under way: those copied and counted, then those still carried. */
  function Payload(r: Reader): seq<Event> {
    match r
    case Moving(_, local, _, _) => local
    case Settled(local) => local
    case Copying(local, batch, _) => batch + local
    case Copied(e, local, batch, _) => batch + [e] + local
    case Returning(batch, _) => batch
    case Waiting => []
  }

  /** The bytes in the user buffer are the records copied so far, and those are the last ones handed over. */
  ghost predicate OutInv(s: State) {
    match s.reader
    case Copying(_, batch, out) => out == Concat(Records(batch)) && Ends(s.handed, batch)
    case Copied(e, _, batch, out) => out == Concat(Records(batch + [e])) && Ends(s.handed, batch)
    case Returning(batch, out) => out == Concat(Records(batch)) && Ends(s.handed, batch)
    case _ => true
  }

  ghost predicate Ends(es: seq<Event>, tail: seq<Event>) {
    |tail| <= |es| && es[|es| - |tail|..] == tail
  }

  lemma EndsSnoc(es: seq<Event>, tail: seq<Event>, e: Event)
    requires Ends(es, tail)
    ensures Ends(es + [e], tail + [e])
  {
  }

  lemma RecordsSnoc(es: seq<Event>, e: Event)
    ensures Records(es + [e]) == Records(es) + [e.record]
    ensures Concat(Records(es + [e])) == Concat(Records(es)) + e.record
  {
    assert Records(es + [e]) == Records(es) + [e.record];
    ConcatSnoc(Records(es), e.record);
  }

  lemma OutKept(s: State, a: Action)
    requires OutInv(s) && Enabled(s, a)
    ensures OutInv(Effect(s, a))
  {
    hide Effect, Enabled, Stamped, HeadFits, AllIdle, Increment, AddU32, Records, Ends, Concat;
    if ByPusher(a) {
      PusherActs(s, a);
      PusherStep(s, a);
    } else {
      ReaderActs(s, a);
      ReaderStep(s, a);
      ReaderMoves(s, a);
      if a.ReleaseReader? {
        NothingCopied(s.handed);
      } else if a.CopyOne? {
        RecordsSnoc(s.reader.batch, s.reader.local[0]);
      } else if a.CountOne? {
        EndsSnoc(s.handed, s.reader.batch, s.reader.e);
      }
    }
  }

  lemma NothingCopied(es: seq<Event>)
    ensures Concat(Records([])) == [] && Ends(es, [])
  {
  }

  /** Phase 1 is atomic: what it has moved and what is left make up the queue it found, and it moves
      exactly the records that fit, in their order, whatever the pushers do meanwhile. */
  ghost predicate MovingInv(s: State) {
    s.reader.Moving? ==>
      && s.reader.start == s.reader.local + s.queue
      && s.reader.capacity + MAX_EVENT_SIZE < U32_MOD
      && s.reader.total == |Concat(Records(s.reader.local))| <= s.reader.capacity
      && FitU32(Records(s.reader.start), 0, s.reader.capacity) ==
         |s.reader.local| + FitU32(Records(s.queue), s.reader.total, s.reader.capacity)
  }

  /** Under the reader's lock no push reaches the queue. */
  lemma MovingUntouched(s: State, a: Action)
    requires LockInv(s) && Enabled(s, a) && !a.StartDrain? && !a.MoveOne?
    ensures var t := Effect(s, a); t.reader.Moving? ==> t.reader == s.reader && t.queue == s.queue
  {
    hide Effect, Enabled, Stamped, HeadFits, AllIdle, Increment, AddU32;
    if ByPusher(a) {
      PusherActs(s, a);
      PusherStep(s, a);
      PusherAdds(s, a);
      assert s.queue + [] == s.queue;
    } else {
      ReaderActs(s, a);
      ReaderStep(s, a);
    }
  }

  lemma MovingStarts(s: State, a: Action)
    requires Enabled(s, a) && a.StartDrain?
    ensures MovingInv(Effect(s, a))
  {
    hide Effect, Enabled, HeadFits, FitU32, AddU32, AllIdle, Records, Concat, Ends;
    ReaderActs(s, a);
    ReaderStep(s, a);
    ReaderMoves(s, a);
    NothingCopied([]);
    assert [] + s.queue == s.queue;
  }

  lemma MovingKept(s: State, a: Action)
    requires MovingInv(s) && LockInv(s) && AllStamped(s.queue) && Enabled(s, a)
    ensures MovingInv(Effect(s, a))
  {
    hide Effect, Enabled, AllStamped, LockInv, Records, Concat, FitU32;
    if a.StartDrain? {
      MovingStarts(s, a);
    } else if a.MoveOne? {
      MovingKeptByMove(s);
    } else {
      MovingUntouched(s, a);
    }
  }

  lemma RecordsHead(es: seq<Event>)
    requires es != []
    ensures Records(es) != [] && Records(es)[0] == es[0].record && Records(es)[1..] == Records(es[1..])
  {
  }

  lemma MovingKeptByMove(s: State)
    requires MovingInv(s) && AllStamped(s.queue) && Enabled(s, MoveOne)
    ensures MovingInv(Effect(s, MoveOne))
  {
    hide Effect, Enabled, AllIdle, Records, Concat, FitU32, AddU32;
    var r := s.reader;
    ReaderActs(s, MoveOne);
    ReaderStep(s, MoveOne);
    ReaderMoves(s, MoveOne);
    RecordsHead(s.queue);
    RecordsSnoc(r.local, s.queue[0]);
    HeadSum(s);
    FitMoves(Records(s.queue), r.total, r.capacity);
    assert r.local + s.queue == r.local + [s.queue[0]] + s.queue[1..];
  }

  lemma HeadSum(s: State)
    requires s.reader.Moving? && s.reader.capacity + MAX_EVENT_SIZE < U32_MOD && s.reader.total <= s.reader.capacity
    requires AllStamped(s.queue) && HeadFits(s)
    ensures AddU32(s.reader.total, |s.queue[0].record|) == s.reader.total + |s.queue[0].record| <= s.reader.capacity
  {
    assert s.queue[0] in s.queue;
  }

  lemma FitMoves(rs: seq<bytes>, used: nat, capacity: nat)
    requires rs != [] && AddU32(used, |rs[0]|) <= capacity
    ensures FitU32(rs, used, capacity) == 1 + FitU32(rs[1..], AddU32(used, |rs[0]|), capacity)
  {
  }

  /** A drain never holds 2^32 bytes. */
  ghost predicate SizeInv(s: State) {
    !s.reader.Moving? ==> |Concat(Records(Payload(s.reader)))| < U32_MOD
  }

  lemma PayloadKept(s: State, a: Action)
    requires Enabled(s, a) && !a.StartDrain? && !a.MoveOne? && !a.Return?
    ensures Payload(Effect(s, a).reader) == Payload(s.reader)
    ensures Effect(s, a).reader.Moving? ==> s.reader.Moving?
    ensures s.reader.Moving? && !Effect(s, a).reader.Moving? ==> a.Settle?
  {
    hide Effect, Enabled, Stamped, HeadFits, AllIdle, Increment, AddU32;
    if ByPusher(a) {
      PusherActs(s, a);
      PusherStep(s, a);
    } else {
      ReaderActs(s, a);
      ReaderStep(s, a);
      if a.ReleaseReader? {
        assert [] + s.reader.local == s.reader.local;
      } else if a.CopyOne? {
        assert s.reader.batch + s.reader.local == s.reader.batch + [s.reader.local[0]] + s.reader.local[1..];
      } else if a.Finish? {
        assert s.reader.batch + [] == s.reader.batch;
      }
    }
  }

  lemma SizeKept(s: State, a: Action)
    requires MovingInv(s) && SizeInv(s) && Enabled(s, a)
    ensures SizeInv(Effect(s, a))
  {
    hide Effect, Enabled, Records, Concat, FitU32;
    if a.StartDrain? || a.MoveOne? {
      StillMoving(s, a);
    } else if a.Return? {
      NothingCopied([]);
      BackToWaiting(s);
    } else {
      PayloadKept(s, a);
    }
  }

  lemma StillMoving(s: State, a: Action)
    requires Enabled(s, a) && (a.StartDrain? || a.MoveOne?)
    ensures Effect(s, a).reader.Moving?
  {
  }

  lemma BackToWaiting(s: State)
    requires Enabled(s, Return)
    ensures Payload(Effect(s, Return).reader) == []
  {
  }

  // ------------------------------------------------------------------ all together

  ghost predicate Inv(s: State) {
    && LockInv(s) && CountInv(s) && CapacityInv(s)
    && OpenInv(s) && FifoInv(s)
    && CounterInv(s) && TypeInv(s)
    && PlaceInv(s) && TicketInv(s) && EntryInv(s)
    && OwnInv(s) && BeforeInv(s) && OrderInv(s)
    && OutInv(s) && MovingInv(s) && SizeInv(s)
  }

  lemma InitSums(threads: nat)
    ensures var ps := Init(threads).pushers;
      && Sum(ps, Admission) == Sum(ps, Unreported) == 0
      && Bag(ps, InHand) == Bag(ps, EntryInHand) == multiset{}
      && forall c :: Sum(ps, TypedAhead(c)) == 0
  {
    var ps := Init(threads).pushers;
    SumZero(ps, Admission);
    SumZero(ps, Unreported);
    BagEmpty(ps, InHand);
    BagEmpty(ps, EntryInHand);
    forall c
      ensures Sum(ps, TypedAhead(c)) == 0
    {
      SumZero(ps, TypedAhead(c));
    }
  }

  lemma InitInv(threads: nat)
    ensures Inv(Init(threads))
  {
    hide Sum, Bag, Admission, Unreported, InHand, EntryInHand, TypedAhead, Stamped, Before;
    InitSums(threads);
    NothingCopied([]);
  }

  lemma StepInv(s: State, a: Action)
    requires Inv(s)
    ensures Inv(Step(s, a))
  {
    hide LockInv, CountInv, CapacityInv, OpenInv, FifoInv, CounterInv, TypeInv, PlaceInv, TicketInv, EntryInv,
         OwnInv, BeforeInv, OrderInv, OutInv, MovingInv, SizeInv, AllStamped, Enabled, Effect;
    if Enabled(s, a) {
      LockKept(s, a);
      CountKept(s, a);
      CapacityKept(s, a);
      OpenKept(s, a);
      FifoKept(s, a);
      CounterKept(s, a);
      TypeKept(s, a);
      PlaceKept(s, a);
      TicketKept(s, a);
      EntryKept(s, a);
      OwnKept(s, a);
      BeforeKept(s, a);
      OrderKept(s, a);
      OutKept(s, a);
      InsertedStamped(s);
      MovingKept(s, a);
      SizeKept(s, a);
    }
  }

  /** Everything above holds after every run from the start, of any number of threads. */
  lemma {:induction false} RunInv(s: State, actions: seq<Action>)
    requires Inv(s)
    ensures Inv(Run(s, actions))
    decreases |actions|
  {
    hide Inv, Step;
    if actions != [] {
      StepInv(s, actions[0]);
      RunInv(Step(s, actions[0]), actions[1..]);
    }
  }
}
