/** The driver's event queue: one call of PushEvent, DrainEvents or CleanupEventBuffer on the
    linked list, against a first-in first-out queue of byte records. Interleavings of these
    calls are the subject of DriverProtocol. */
module EventBuffers {
  import opened Bytes
  import opened EventTypes
  import opened KernelList
  import opened Options
  import opened Wire

  datatype Status = StatusSuccess | StatusInvalidParameter | StatusBufferOverflow | StatusInsufficientResources

  /** What the buffer means: the queued records in order, and the counters. */
  datatype Queue = Queue(
    records: seq<bytes>, generated: nat, delivered: nat, dropped: nat, types: TypeCounters, open: bool)

  /** EDR_STATISTICS. */
  datatype Statistics = Statistics(
    generated: nat, delivered: nat, dropped: nat, queueDepth: int, types: TypeCounters, uptimeStart: int)

  /** A push that gets past every check, and so is the only one that looks at the caller's memory. */
  predicate Copies(q: Queue, eventData: Option<bytes>, eventSize: nat, poolOk: bool) {
    q.open && eventData.Some? && 0 < eventSize <= MAX_EVENT_SIZE && |q.records| < MAX_EVENTS_IN_QUEUE && poolOk
  }

  /** The memory that EventData points to holds the pushed bytes and, even when fewer are pushed, an event type. */
  predicate Readable(eventData: Option<bytes>, eventSize: nat) {
    eventData.Some? && eventSize <= |eventData.value| && TYPE_AT + 4 <= |eventData.value|
  }

  /** The outcome of one uninterrupted PushEvent; poolOk says whether ExAllocatePool2 succeeds. */
  function Pushed(q: Queue, eventData: Option<bytes>, eventSize: nat, poolOk: bool): (Status, Queue)
    requires Copies(q, eventData, eventSize, poolOk) ==> Readable(eventData, eventSize)
  {
    if !q.open || eventData.None? || eventSize == 0 then (StatusInvalidParameter, q)
    else if eventSize > MAX_EVENT_SIZE then (StatusBufferOverflow, q)
    else if |q.records| >= MAX_EVENTS_IN_QUEUE || !poolOk then
      (StatusInsufficientResources, q.(dropped := q.dropped + 1))
    else
      (StatusSuccess, q.(records := q.records + [eventData.value[..eventSize]], generated := q.generated + 1,
                         types := q.types.Increment(EventType(eventData.value))))
  }

  /** A successful push counts its event's type, by its code and in one counter only; any other push counts none. */
  lemma PushCountsItsType(q: Queue, eventData: Option<bytes>, eventSize: nat, poolOk: bool)
    requires Copies(q, eventData, eventSize, poolOk) ==> Readable(eventData, eventSize)
    ensures var (status, after) := Pushed(q, eventData, eventSize, poolOk);
      && (status == StatusSuccess <==> Copies(q, eventData, eventSize, poolOk))
      && (status == StatusSuccess ==> CountsOne(q.types, after.types, EventType(eventData.value)))
      && (status != StatusSuccess ==> after.types == q.types)
  {
    hide EventType;
  }

  /** Every push with proper arguments is counted exactly once, as generated if its record is now the last of the queue,
      and as dropped if the queue is as it was; one with other arguments changes nothing. */
  lemma PushCountedOnce(q: Queue, eventData: Option<bytes>, eventSize: nat, poolOk: bool)
    requires Copies(q, eventData, eventSize, poolOk) ==> Readable(eventData, eventSize)
    ensures var (status, after) := Pushed(q, eventData, eventSize, poolOk);
      var proper := q.open && eventData.Some? && 0 < eventSize <= MAX_EVENT_SIZE;
      && after.generated + after.dropped == q.generated + q.dropped + (if proper then 1 else 0)
      && (after.generated > q.generated <==> proper && |q.records| < 2048 && poolOk)
      && after.records == q.records + (if after.generated > q.generated then [eventData.value[..eventSize]] else [])
      && after.delivered == q.delivered && after.open == q.open
      && (!proper ==> after == q)
      && (status == StatusSuccess <==> after.generated > q.generated)
      && (status == StatusInsufficientResources <==> after.dropped > q.dropped)
      && (status == StatusBufferOverflow <==> q.open && eventData.Some? && eventSize > MAX_EVENT_SIZE)
  {
    hide EventType, TypeCounters.Increment;
  }

  /** The number of records one DrainEvents call takes from the front. */
  function Taken(q: Queue, bufferSize: nat): (k: nat)
    ensures k <= |q.records|
  {
    if q.open && bufferSize > 0 then FitU32(q.records, 0, bufferSize) else 0
  }

  /** The event bytes of a list of entries. */
  ghost function Records(s: seq<Entry>): (rs: seq<bytes>)
    ensures |rs| == |s|
  {
    seq(|s|, i requires 0 <= i < |s| => s[i].data)
  }

  /** Every entry that is allocated and not freed is in exactly one place: queued, or on a reader's local list. */
  ghost predicate Owns(pool: set<Entry>, queue: seq<Entry>, local: seq<Entry>) {
    && pool == Elements(queue) + Elements(local)
    && Elements(queue) !! Elements(local)
  }

  ghost function Elements(s: seq<Entry>): set<Entry> {
    set e | e in s
  }

  lemma ElementsAppend(s: seq<Entry>, t: seq<Entry>)
    ensures Elements(s + t) == Elements(s) + Elements(t)
  {
  }

  lemma OwnsSplit(pool: set<Entry>, head: Entry, s: seq<Entry>, localHead: Entry, k: nat)
    requires Owns(pool, s, []) && k <= |s| && Apart(head, s[k..], localHead, s[..k])
    ensures Owns(pool, s[k..], s[..k])
  {
  }

  /** The list and the count that g_EventListLock protects. */
  class EventList {
    const head: Entry
    var count: int
    ghost var queue: seq<Entry>
    /** Entries allocated from the pool and not freed yet. */
    ghost var pool: set<Entry>

    ghost predicate Valid(local: seq<Entry>)
      reads this, head, queue
    {
      && Ring(head, queue)
      && Owns(pool, queue, local)
      && head !in pool
      && count == |queue|
    }

    constructor ()
      ensures Valid([]) && fresh(head) && queue == [] && pool == {}
    {
      head := new Entry([]);
      count := 0;
      queue, pool := [], {};
      new;
      InitializeListHead(head);
    }

    /** LIST_ENTRY localHead, initialised. */
    method NewLocalHead() returns (localHead: Entry)
      requires Valid([])
      ensures fresh(localHead) && Valid([]) && Ring(localHead, [])
      ensures localHead != head && localHead !in queue && forall e :: e in queue ==> e in pool
    {
      localHead := new Entry([]);
      InitializeListHead(localHead);
    }

    /** ExAllocatePool2 and the copy of the event bytes into the new entry. */
    method Allocate(data: bytes) returns (entry: Entry)
      requires Valid([])
      ensures fresh(entry) && entry.data == data
      ensures Valid([]) && entry !in pool && entry != head
      ensures head.blink in pool + {head}
    {
      entry := new Entry(data);
    }

    /** The critical section of PushEvent, entered with a filled entry just taken from the pool. */
    method Append(entry: Entry, ghost local: seq<Entry>)
      requires Valid(local) && entry !in pool && entry != head
      modifies this, head`blink, head.blink`flink, entry`flink, entry`blink
      ensures Valid(local)
      ensures queue == old(queue) + [entry]
      ensures pool == old(pool) + {entry}
    {
      InsertTailList(head, entry, queue);
      ElementsAppend(queue, [entry]);
      count := count + 1;
      queue, pool := queue + [entry], pool + {entry};
    }

    /** Phase 1 of DrainEvents, under the lock: the entries that fit move to a local list. */
    method DetachFitting(localHead: Entry, bufferSize: nat) returns (ghost k: nat)
      requires Valid([]) && Ring(localHead, []) && localHead != head && localHead !in queue
      requires bufferSize < U32_MOD
      modifies this`count, this`queue, head, localHead, queue
      ensures k == FitU32(Records(old(queue)), 0, bufferSize) <= |old(queue)|
      ensures queue == old(queue)[k..]
      ensures Valid(old(queue)[..k]) && Ring(localHead, old(queue)[..k])
      ensures Apart(head, queue, localHead, old(queue)[..k])
    {
      hide Apart, Records, FitU32, SplitAt;
      StartSplit(head, queue, localHead);
      var drainCount := MoveWhileFits(head, queue, localHead, bufferSize, Elements(queue) + {head, localHead});
      Subtract(drainCount, localHead);
      k := drainCount;
    }

    /** Brings the count, and the ghost view, in line with the list before the lock is released. */
    method Subtract(drainCount: nat, ghost localHead: Entry)
      requires drainCount <= |queue| && SplitAt(head, queue, localHead, drainCount)
      requires Owns(pool, queue, []) && head !in pool && count == |queue|
      modifies this`count, this`queue
      ensures queue == old(queue)[drainCount..]
      ensures Valid(old(queue)[..drainCount]) && Ring(localHead, old(queue)[..drainCount])
      ensures Apart(head, queue, localHead, old(queue)[..drainCount])
    {
      OwnsSplit(pool, head, queue, localHead, drainCount);
      count := count - drainCount;
      queue := queue[drainCount..];
    }

    /** Takes the first entry off a local list and frees it, once: it leaves the pool for good. */
    method FreeFirst(localHead: Entry, ghost local: seq<Entry>) returns (entry: Entry)
      requires Valid(local) && Ring(localHead, local) && Apart(head, queue, localHead, local) && local != []
      modifies this`pool, localHead`flink, At(localHead, local, 1)`blink
      ensures entry == local[0] && entry in old(pool) && pool == old(pool) - {entry}
      ensures Valid(local[1..]) && Ring(localHead, local[1..]) && Apart(head, queue, localHead, local[1..])
    {
      OwnsWithoutFirst(pool, queue, local);
      entry := RemoveHeadList(localHead, local);
      pool := pool - {entry};
    }

    /** The freeing loop of CleanupEventBuffer, outside the lock. */
    method FreeAll(localHead: Entry, ghost local: seq<Entry>, ghost nodes: set<Entry>)
      requires Valid(local) && Ring(localHead, local) && Apart(head, queue, localHead, local)
      requires localHead in nodes && forall e :: e in local ==> e in nodes
      modifies this`pool, nodes
      ensures Valid([])
    {
      hide Valid, Ring, Apart;
      ghost var rest := local;
      var empty := IsListEmpty(localHead, rest);
      while !empty
        invariant Valid(rest) && Ring(localHead, rest) && Apart(head, queue, localHead, rest)
        invariant empty <==> rest == []
        invariant forall e :: e in rest ==> e in nodes
        decreases |rest|
      {
        var entry := FreeFirst(localHead, rest);
        rest := rest[1..];
        empty := IsListEmpty(localHead, rest);
      }
    }

    lemma NothingLeft()
      requires Valid([]) && queue == []
      ensures pool == {}
    {
    }

    /** CleanupEventBuffer on the list: splice everything to a local head, then free it. */
    method Clear()
      requires Valid([])
      modifies this, head, pool
      ensures Valid([]) && queue == [] && pool == {}
    {
      hide Valid, Ring, Apart;
      var localHead := NewLocalHead();
      ghost var all := queue;
      ghost var nodes := pool + {localHead};
      TakeAll(localHead);
      FreeAll(localHead, all, nodes);
      NothingLeft();
    }

    /** The splice of CleanupEventBuffer, under the lock. */
    method TakeAll(localHead: Entry)
      requires Valid([]) && Ring(localHead, []) && localHead != head && localHead !in queue
      modifies this`count, this`queue, head, localHead, pool
      ensures queue == [] && pool == old(pool)
      ensures Valid(old(queue)) && Ring(localHead, old(queue)) && Apart(head, queue, localHead, old(queue))
    {
      Splice(head, localHead, queue);
      count := 0;
      queue := [];
    }
  }

  lemma OwnsWithoutFirst(pool: set<Entry>, queue: seq<Entry>, local: seq<Entry>)
    requires Owns(pool, queue, local) && local != [] && local[0] !in local[1..]
    ensures local[0] in pool && Owns(pool - {local[0]}, queue, local[1..])
  {
  }

  lemma StartSplit(head: Entry, s: seq<Entry>, localHead: Entry)
    requires Ring(head, s) && Ring(localHead, []) && head != localHead && localHead !in s
    ensures SplitAt(head, s, localHead, 0)
  {
  }

  /** The first k entries of s are on the local list, the others still on the queue. */
  ghost predicate SplitAt(head: Entry, s: seq<Entry>, localHead: Entry, k: nat)
    reads head, localHead, s
  {
    && k <= |s|
    && Ring(head, s[k..])
    && Ring(localHead, s[..k])
    && Apart(head, s[k..], localHead, s[..k])
  }

  method MoveNext(head: Entry, ghost s: seq<Entry>, localHead: Entry, ghost k: nat, ghost nodes: set<Entry>)
    requires SplitAt(head, s, localHead, k) && k < |s|
    requires head in nodes && localHead in nodes && forall e :: e in s ==> e in nodes
    modifies nodes
    ensures SplitAt(head, s, localHead, k + 1)
  {
    SplitStep(s, k);
    InNodes(s, k, nodes);
    var e := MoveFirst(head, s[k..], localHead, s[..k]);
  }

  /** Reads the size of the queue's first entry, if there is one. */
  method Peek(head: Entry, ghost s: seq<Entry>, ghost localHead: Entry, ghost k: nat) returns (empty: bool, size: nat)
    requires SplitAt(head, s, localHead, k)
    ensures empty <==> k == |s|
    ensures !empty ==> size == |s[k].data|
  {
    empty := IsListEmpty(head, s[k..]);
    size := 0;
    if !empty {
      var entry: Entry := head.flink;
      size := |entry.data|;
    }
  }

  /** The loop of phase 1: it moves entries from the front of s until one does not fit. */
  method MoveWhileFits(head: Entry, ghost s: seq<Entry>, localHead: Entry, bufferSize: nat, ghost nodes: set<Entry>)
      returns (drainCount: nat)
    requires SplitAt(head, s, localHead, 0) && bufferSize < U32_MOD
    requires head in nodes && localHead in nodes && forall e :: e in s ==> e in nodes
    modifies nodes
    ensures drainCount == FitU32(Records(s), 0, bufferSize) <= |s|
    ensures SplitAt(head, s, localHead, drainCount)
  {
    hide SplitAt;
    drainCount := 0;
    var totalSize: nat := 0;
    var empty, size := Peek(head, s, localHead, 0);
    assert s[0..] == s;
    while !empty
      invariant drainCount <= |s| && totalSize < U32_MOD
      invariant SplitAt(head, s, localHead, drainCount)
      invariant empty <==> drainCount == |s|
      invariant !empty ==> size == |s[drainCount].data|
      invariant FitU32(Records(s), 0, bufferSize) ==
                drainCount + FitU32(Records(s[drainCount..]), totalSize, bufferSize)
      decreases |s| - drainCount
    {
      FitStep(s[drainCount..], totalSize, bufferSize);
      SplitStep(s, drainCount);
      var newSize := AddU32(totalSize, size);
      if newSize > bufferSize {
        break;
      }
      MoveNext(head, s, localHead, drainCount, nodes);
      totalSize := newSize;
      drainCount := drainCount + 1;
      empty, size := Peek(head, s, localHead, drainCount);
    }
  }

  lemma SplitStep<T>(s: seq<T>, k: nat)
    requires k < |s|
    ensures s[k..][0] == s[k] && s[k..][1..] == s[k + 1..]
    ensures s[..k] + [s[k]] == s[..k + 1]
  {
  }

  lemma InNodes(s: seq<Entry>, k: nat, nodes: set<Entry>)
    requires k < |s| && forall e :: e in s ==> e in nodes
    ensures s[k] in nodes
    ensures k + 1 < |s| ==> s[k + 1] in nodes
    ensures k > 0 ==> s[k - 1] in nodes
  {
  }

  lemma RecordsHead(s: seq<Entry>)
    requires s != []
    ensures Records(s)[0] == s[0].data && Records(s)[1..] == Records(s[1..])
  {
  }

  lemma FitStep(s: seq<Entry>, used: nat, capacity: nat)
    requires s != []
    ensures FitU32(Records(s), used, capacity) ==
            if AddU32(used, |s[0].data|) > capacity then 0
            else 1 + FitU32(Records(s[1..]), AddU32(used, |s[0].data|), capacity)
  {
    RecordsHead(s);
  }

  ghost function Overwritten(before: bytes, at: nat, data: bytes): (after: bytes)
    requires at + |data| <= |before|
    ensures |after| == |before|
  {
    before[..at] + data + before[at + |data|..]
  }

  /** The user buffer after the first n records have been copied over its old contents. */
  ghost predicate Written(buffer: bytes, before: bytes, rs: seq<bytes>, n: nat, bytesWritten: nat) {
    && n <= |rs| && |Concat(rs)| <= |before|
    && bytesWritten == |Concat(rs[..n])| <= |before|
    && buffer == Concat(rs[..n]) + before[bytesWritten..]
  }

  lemma WrittenStep(buffer: bytes, before: bytes, rs: seq<bytes>, n: nat, bytesWritten: nat)
    requires Written(buffer, before, rs, n, bytesWritten) && n < |rs|
    ensures bytesWritten + |rs[n]| <= |buffer|
    ensures Written(Overwritten(buffer, bytesWritten, rs[n]), before, rs, n + 1, bytesWritten + |rs[n]|)
  {
    assert rs[..n + 1] == rs[..n] + [rs[n]];
    ConcatSnoc(rs[..n], rs[n]);
    assert rs == rs[..n + 1] + rs[n + 1..];
    ConcatAppend(rs[..n + 1], rs[n + 1..]);
    assert buffer[..bytesWritten] == Concat(rs[..n]);
    assert buffer[bytesWritten + |rs[n]|..] == before[bytesWritten + |rs[n]|..];
  }

  /** RtlCopyMemory of a whole record into the user buffer. */
  method CopyMemory(buffer: array<byte>, at: nat, data: bytes)
    requires at + |data| <= buffer.Length
    modifies buffer
    ensures buffer[..] == Overwritten(old(buffer[..]), at, data)
  {
    forall i | 0 <= i < |data| {
      buffer[at + i] := data[i];
    }
  }

  /** The counters around the list, and the calls the callbacks and the IOCTL handler make. */
  class EventBuffer {
    const list: EventList
    var totalGenerated: nat
    var totalDelivered: nat
    var eventsDropped: nat
    var types: TypeCounters
    const uptimeStart: int
    var initialized: bool

    ghost predicate Valid()
      reads this, list, list.head, list.queue
    {
      && list.Valid([])
      && Bounded(Records(list.queue))
      && (!initialized ==> list.queue == [])
    }

    ghost function View(): Queue
      reads this, list
    {
      Queue(Records(list.queue), totalGenerated, totalDelivered, eventsDropped, types, initialized)
    }

    /** InitializeEventBuffer, at a given time. */
    constructor (now: int)
      ensures uptimeStart == now
      ensures Valid() && fresh(list) && fresh(list.head) && list.pool == {}
      ensures View() == Queue([], 0, 0, 0, ZERO_COUNTERS, true)
    {
      list := new EventList();
      totalGenerated, totalDelivered, eventsDropped := 0, 0, 0;
      types := ZERO_COUNTERS;
      uptimeStart := now;
      initialized := true;
    }

    lemma CountIsLength()
      requires Valid()
      ensures list.count == |Records(list.queue)|
    {
    }

    method PushEvent(eventData: Option<bytes>, eventSize: nat, poolOk: bool) returns (status: Status)
      requires Valid()
      requires Copies(View(), eventData, eventSize, poolOk) ==> Readable(eventData, eventSize)
      modifies this, list, list.head, list.pool
      ensures Valid()
      ensures (status, View()) == Pushed(old(View()), eventData, eventSize, poolOk)
      ensures if status == StatusSuccess then CountsOne(old(types), types, EventType(eventData.value))
              else types == old(types)
    {
      hide Valid, EventType;
      CountIsLength();
      PushCountsItsType(View(), eventData, eventSize, poolOk);
      if !initialized || eventData.None? || eventSize == 0 {
        return StatusInvalidParameter;
      }
      if eventSize > MAX_EVENT_SIZE {
        return StatusBufferOverflow;
      }
      if list.count >= MAX_EVENTS_IN_QUEUE || !poolOk {
        CountDrop();
        return StatusInsufficientResources;
      }
      Accept(eventData.value, eventSize);
      return StatusSuccess;
    }

    /** InterlockedIncrement of g_EventsDropped. */
    method CountDrop()
      requires Valid()
      modifies this`eventsDropped
      ensures Valid() && View() == old(View()).(dropped := old(eventsDropped) + 1)
    {
      eventsDropped := eventsDropped + 1;
    }

    /** The part of PushEvent behind its checks: fill an entry, count its type, append it, count it. */
    method Accept(eventData: bytes, eventSize: nat)
      requires Valid() && initialized && |Records(list.queue)| < MAX_EVENTS_IN_QUEUE
      requires eventSize <= MAX_EVENT_SIZE && Readable(Some(eventData), eventSize)
      modifies this`types, this`totalGenerated, list, list.head, list.pool
      ensures Valid()
      ensures Records(list.queue) == Records(old(list.queue)) + [eventData[..eventSize]]
      ensures totalGenerated == old(totalGenerated) + 1
      ensures types == old(types).Increment(EventType(eventData))
      ensures CountsOne(old(types), types, EventType(eventData))
    {
      hide Bounded, Records, EventList.Valid, EventType, TypeCounters.Increment, CountsOne;
      IncrementCountsOne(types, EventType(eventData));
      var entry := list.Allocate(eventData[..eventSize]);
      types := types.Increment(EventType(eventData));
      BoundedSnoc(Records(list.queue), entry.data);
      RecordsSnoc(list.queue, entry);
      list.Append(entry, []);
      totalGenerated := totalGenerated + 1;
    }

    /** Phase 2 of DrainEvents with n of the detached entries copied and freed; nodes has every list node. */
    ghost predicate Copied(nodes: set<Entry>, localHead: Entry, local: seq<Entry>, n: nat, now: bytes, before: bytes,
                           bytesWritten: nat)
      reads list, nodes
    {
      && list.head in nodes && localHead in nodes
      && (forall e :: e in list.queue ==> e in nodes)
      && (forall e :: e in local ==> e in nodes)
      && n <= |local|
      && list.Valid(local[n..])
      && Ring(localHead, local[n..])
      && Apart(list.head, list.queue, localHead, local[n..])
      && Written(now, before, Records(local), n, bytesWritten)
    }

    /** One turn of phase 2. */
    method CopyFirst(localHead: Entry, ghost local: seq<Entry>, ghost n: nat, userBuffer: array<byte>,
                     ghost before: bytes, bytesWritten: nat, ghost nodes: set<Entry>)
        returns (bytesWritten': nat)
      requires Copied(nodes, localHead, local, n, userBuffer[..], before, bytesWritten) && n < |local|
      modifies list`pool, nodes, userBuffer
      ensures Copied(nodes, localHead, local, n + 1, userBuffer[..], before, bytesWritten')
      ensures list.queue == old(list.queue)
    {
      hide EventList.Valid, Ring, Apart, Written, Overwritten, Records, Concat;
      SplitStep(local, n);
      RecordsAt(local, n);
      InNodes(local, n, nodes);
      WrittenStep(userBuffer[..], before, Records(local), n, bytesWritten);
      var entry := list.FreeFirst(localHead, local[n..]);
      CopyMemory(userBuffer, bytesWritten, entry.data);
      bytesWritten' := bytesWritten + |entry.data|;
    }

    /** InterlockedIncrement of g_TotalDelivered. */
    method CountDelivered(ghost localHead: Entry, ghost local: seq<Entry>, ghost n: nat, ghost now: bytes,
                          ghost before: bytes, ghost bytesWritten: nat, ghost nodes: set<Entry>)
      requires Copied(nodes, localHead, local, n, now, before, bytesWritten)
      modifies this`totalDelivered
      ensures Copied(nodes, localHead, local, n, now, before, bytesWritten)
      ensures totalDelivered == old(totalDelivered) + 1
    {
      hide Copied;
      totalDelivered := totalDelivered + 1;
    }

    method LocalEmpty(localHead: Entry, ghost local: seq<Entry>, ghost n: nat, ghost now: bytes, ghost before: bytes,
                      ghost bytesWritten: nat, ghost nodes: set<Entry>)
        returns (empty: bool)
      requires Copied(nodes, localHead, local, n, now, before, bytesWritten)
      ensures empty <==> n == |local|
    {
      empty := IsListEmpty(localHead, local[n..]);
    }

    /** Phase 2 of DrainEvents, outside the lock: copy out, count and free the detached entries. */
    method CopyOut(localHead: Entry, ghost local: seq<Entry>, userBuffer: array<byte>, ghost nodes: set<Entry>)
        returns (bytesWritten: nat)
      requires Copied(nodes, localHead, local, 0, userBuffer[..], userBuffer[..], 0)
      modifies this`totalDelivered, list`pool, nodes, userBuffer
      ensures Copied(nodes, localHead, local, |local|, userBuffer[..], old(userBuffer[..]), bytesWritten)
      ensures list.queue == old(list.queue)
      ensures totalDelivered == old(totalDelivered) + |local|
    {
      hide Copied;
      bytesWritten := 0;
      ghost var n := 0;
      var empty := LocalEmpty(localHead, local, 0, userBuffer[..], userBuffer[..], 0, nodes);
      while !empty
        invariant n <= |local| && (empty <==> n == |local|)
        invariant Copied(nodes, localHead, local, n, userBuffer[..], old(userBuffer[..]), bytesWritten)
        invariant totalDelivered == old(totalDelivered) + n && list.queue == old(list.queue)
        decreases |local| - n
      {
        bytesWritten := CopyFirst(localHead, local, n, userBuffer, old(userBuffer[..]), bytesWritten, nodes);
        CountDelivered(localHead, local, n + 1, userBuffer[..], old(userBuffer[..]), bytesWritten, nodes);
        n := n + 1;
        empty := LocalEmpty(localHead, local, n, userBuffer[..], old(userBuffer[..]), bytesWritten, nodes);
      }
    }

    lemma StartCopy(nodes: set<Entry>, localHead: Entry, local: seq<Entry>, buffer: bytes)
      requires list.head in nodes && localHead in nodes && list.pool <= nodes
      requires list.Valid(local) && Ring(localHead, local) && Apart(list.head, list.queue, localHead, local)
      requires |Concat(Records(local))| <= |buffer|
      ensures Copied(nodes, localHead, local, 0, buffer, buffer, 0)
    {
    }

    lemma FinishCopy(nodes: set<Entry>, localHead: Entry, local: seq<Entry>, now: bytes, before: bytes,
                     bytesWritten: nat)
      requires Copied(nodes, localHead, local, |local|, now, before, bytesWritten)
      ensures list.Valid([])
      ensures Written(now, before, Records(local), |local|, bytesWritten)
    {
    }

    /** DrainEvents into a user buffer of BufferSize bytes; a null or empty one is left alone. */
    method DrainEvents(userBuffer: array?<byte>) returns (bytesWritten: nat)
      requires Valid()
      requires userBuffer != null ==> userBuffer.Length < U32_MOD
      modifies this, list, list.head, list.pool, userBuffer
      ensures Valid()
      ensures userBuffer == null ==> bytesWritten == 0 && View() == old(View())
      ensures userBuffer != null ==>
        var q := old(View());
        var k := Taken(q, userBuffer.Length);
        && View() == q.(records := q.records[k..], delivered := q.delivered + k)
        && Written(userBuffer[..], old(userBuffer[..]), q.records[..k], k, bytesWritten)
    {
      if !initialized || userBuffer == null || userBuffer.Length == 0 {
        bytesWritten := 0;
        if userBuffer != null {
          NothingTaken(View(), userBuffer[..]);
        }
        return;
      }
      bytesWritten := Drain(userBuffer);
    }

    method Drain(userBuffer: array<byte>) returns (bytesWritten: nat)
      requires Valid() && initialized && 0 < userBuffer.Length < U32_MOD
      modifies this`totalDelivered, list, list.head, list.pool, userBuffer
      ensures Valid()
      ensures var k := Taken(old(View()), userBuffer.Length);
        && Records(list.queue) == old(View()).records[k..]
        && totalDelivered == old(totalDelivered) + k
        && Written(userBuffer[..], old(userBuffer[..]), old(View()).records[..k], k, bytesWritten)
    {
      hide Bounded, Records, EventList.Valid, Ring, Apart, Written, Copied, FitU32;
      var localHead := list.NewLocalHead();
      ghost var all := list.queue;
      ghost var nodes := list.pool + {localHead, list.head};
      DrainFits(Records(all), userBuffer.Length);
      ghost var k := list.DetachFitting(localHead, userBuffer.Length);
      RecordsSplit(all, k);
      StartCopy(nodes, localHead, all[..k], userBuffer[..]);
      bytesWritten := CopyOut(localHead, all[..k], userBuffer, nodes);
      FinishCopy(nodes, localHead, all[..k], userBuffer[..], old(userBuffer[..]), bytesWritten);
    }

    /** GetEventStatistics: counters and start time, and as queue depth the true length of the list. */
    method GetEventStatistics() returns (stats: Statistics)
      requires Valid()
      ensures var q := View();
        stats == Statistics(q.generated, q.delivered, q.dropped, |q.records|, q.types, uptimeStart)
    {
      CountIsLength();
      stats := Statistics(totalGenerated, totalDelivered, eventsDropped, list.count, types, uptimeStart);
    }

    /** CleanupEventBuffer, with no push under way: everything still queued is freed, once. */
    method CleanupEventBuffer()
      requires Valid()
      modifies this`initialized, list, list.head, list.pool
      ensures Valid() && list.pool == {}
      ensures View() == old(View()).(records := [], open := false)
    {
      if !initialized {
        return;
      }
      list.Clear();
      initialized := false;
    }
  }

  lemma NothingTaken(q: Queue, buffer: bytes)
    requires !q.open || buffer == []
    requires !q.open ==> q.records == []
    ensures var k := Taken(q, |buffer|);
      && q == q.(records := q.records[k..], delivered := q.delivered + k)
      && Written(buffer, buffer, q.records[..k], k, 0)
  {
  }

  /** A queue within its bounds never makes the drain's size sum wrap, so what is taken fits. */
  lemma DrainFits(records: seq<bytes>, bufferSize: nat)
    requires Bounded(records) && bufferSize < U32_MOD
    ensures |Concat(records[..FitU32(records, 0, bufferSize)])| <= bufferSize
  {
    ConcatBound(records, MAX_EVENT_SIZE);
    DrainIsMaximal(records, 0, bufferSize, MAX_EVENT_SIZE);
  }

  lemma RecordsSplit(s: seq<Entry>, k: nat)
    requires k <= |s|
    ensures Records(s[..k]) == Records(s)[..k] && Records(s[k..]) == Records(s)[k..]
    ensures Bounded(Records(s)) ==> Bounded(Records(s[k..]))
  {
  }

  ghost predicate Bounded(records: seq<bytes>) {
    |records| <= MAX_EVENTS_IN_QUEUE && AtMost(records, MAX_EVENT_SIZE)
  }

  lemma BoundedSnoc(records: seq<bytes>, r: bytes)
    requires Bounded(records) && |records| < MAX_EVENTS_IN_QUEUE && |r| <= MAX_EVENT_SIZE
    ensures Bounded(records + [r])
  {
  }

  lemma RecordsAt(s: seq<Entry>, i: nat)
    requires i < |s|
    ensures Records(s)[i] == s[i].data
  {
  }

  lemma RecordsSnoc(s: seq<Entry>, e: Entry)
    ensures Records(s + [e]) == Records(s) + [e.data]
  {
  }
}
