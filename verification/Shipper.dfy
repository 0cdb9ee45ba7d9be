/** The telemetry shipper's transit buffer: the calls that work on it under its mutex. */
module Shipper {
  import opened Ndjson

  /** What ShipEvent leaves in the buffer: a full buffer loses its oldest event to make room. */
  function Offered<T>(buffer: seq<T>, x: T, maxBufferSize: nat): seq<T>
    requires maxBufferSize >= 1
  {
    (if |buffer| >= maxBufferSize then buffer[1..] else buffer) + [x]
  }

  /** How many events a flush takes. */
  function BatchLength(buffered: nat, batchSize: nat): nat {
    if buffered < batchSize then buffered else batchSize
  }

  /** What a failed POST leaves in the buffer: the batch goes back to the front, and what is over
      the limit is cut off at the back. */
  function Requeued<T>(batch: seq<T>, buffer: seq<T>, maxBufferSize: nat): seq<T> {
    var all := batch + buffer;
    if |all| > maxBufferSize then all[..maxBufferSize] else all
  }

  class TelemetryShipper {
    const batchSize: nat
    const maxBufferSize: nat
    var buffer: seq<string>
    var running: bool
    var flushSignalled: bool
    var eventsBuffered: nat
    var eventsShipped: nat
    var eventsDropped: nat
    var batchesSent: nat
    var batchesFailed: nat
    var backendReachable: bool

    ghost predicate Valid()
      reads this
    {
      batchSize >= 1 && maxBufferSize >= 1 && |buffer| <= maxBufferSize
    }

    constructor (batchSize: nat, maxBufferSize: nat)
      requires batchSize >= 1 && maxBufferSize >= 1
      ensures Valid() && running && buffer == [] && !flushSignalled
      ensures this.batchSize == batchSize && this.maxBufferSize == maxBufferSize
      ensures eventsBuffered == eventsShipped == eventsDropped == batchesSent == batchesFailed == 0
    {
      this.batchSize, this.maxBufferSize := batchSize, maxBufferSize;
      buffer, running, flushSignalled := [], true, false;
      eventsBuffered, eventsShipped, eventsDropped, batchesSent, batchesFailed := 0, 0, 0, 0, 0;
      backendReachable := false;
    }

    /** ShipEvent with an event already serialised; without a header, or when stopped, it does nothing. */
    method ShipEvent(hasHeader: bool, json: string)
      requires Valid()
      modifies this`buffer, this`eventsBuffered, this`eventsDropped, this`flushSignalled
      ensures Valid()
      ensures !running || !hasHeader ==>
        buffer == old(buffer) && eventsBuffered == old(eventsBuffered) && eventsDropped == old(eventsDropped)
        && flushSignalled == old(flushSignalled)
      ensures running && hasHeader ==>
        && buffer == Offered(old(buffer), json, maxBufferSize)
        && eventsBuffered == old(eventsBuffered) + 1
        && |buffer| + eventsDropped == |old(buffer)| + 1 + old(eventsDropped)
        && flushSignalled == (old(flushSignalled) || |buffer| >= batchSize)
      ensures running && hasHeader && |old(buffer)| == maxBufferSize ==>
        buffer == old(buffer)[1..] + [json] && eventsDropped == old(eventsDropped) + 1
      ensures running && hasHeader && |old(buffer)| < maxBufferSize ==>
        buffer == old(buffer) + [json] && eventsDropped == old(eventsDropped)
    {
      if !running || !hasHeader {
        return;
      }
      if |buffer| >= maxBufferSize {
        buffer := buffer[1..];
        eventsDropped := eventsDropped + 1;
      }
      buffer := buffer + [json];
      eventsBuffered := eventsBuffered + 1;
      if |buffer| >= batchSize {
        flushSignalled := true;
      }
    }

    /** The drain of ShipperLoop, under the mutex. */
    method TakeBatch() returns (batch: seq<string>)
      requires Valid()
      modifies this`buffer
      ensures Valid()
      ensures batch + buffer == old(buffer) && |batch| == BatchLength(|old(buffer)|, batchSize)
      ensures |batch| <= batchSize && (|batch| < batchSize ==> buffer == [])
    {
      var count := if |buffer| < batchSize then |buffer| else batchSize;
      batch := [];
      for i := 0 to count
        invariant |batch| == i && batch + buffer == old(buffer)
        invariant Valid()
      {
        batch := batch + [buffer[0]];
        buffer := buffer[1..];
      }
    }

    /** ShipperLoop after a POST that the backend acknowledged. */
    method RecordSuccess(batch: seq<string>)
      requires Valid()
      modifies this`eventsShipped, this`batchesSent, this`backendReachable
      ensures Valid()
      ensures eventsShipped == old(eventsShipped) + |batch| && batchesSent == old(batchesSent) + 1 && backendReachable
    {
      eventsShipped := eventsShipped + |batch|;
      batchesSent := batchesSent + 1;
      backendReachable := true;
    }

    /** ShipperLoop after a POST that failed: push the batch back one by one from its end, then trim. */
    method Requeue(batch: seq<string>)
      requires Valid()
      modifies this`buffer, this`eventsDropped, this`batchesFailed, this`backendReachable
      ensures Valid()
      ensures buffer == Requeued(batch, old(buffer), maxBufferSize)
      ensures buffer <= batch + old(buffer)
      ensures |buffer| == if |batch| + |old(buffer)| > maxBufferSize then maxBufferSize else |batch| + |old(buffer)|
      ensures |buffer| + eventsDropped == |batch| + |old(buffer)| + old(eventsDropped)
      ensures batchesFailed == old(batchesFailed) + 1 && !backendReachable
    {
      ghost var all := batch + buffer;
      var i := |batch|;
      while i > 0
        invariant 0 <= i <= |batch|
        invariant buffer == batch[i..] + old(buffer)
        invariant eventsDropped == old(eventsDropped) && batchesFailed == old(batchesFailed)
      {
        i := i - 1;
        buffer := [batch[i]] + buffer;
      }
      assert buffer == all;
      while |buffer| > maxBufferSize
        invariant |buffer| <= |all| && buffer == all[..|buffer|]
        invariant |all| > maxBufferSize ==> |buffer| >= maxBufferSize
        invariant |all| <= maxBufferSize ==> buffer == all
        invariant |buffer| + eventsDropped == |all| + old(eventsDropped)
        invariant batchesFailed == old(batchesFailed)
        decreases |buffer|
      {
        buffer := buffer[..|buffer| - 1];
        eventsDropped := eventsDropped + 1;
      }
      batchesFailed := batchesFailed + 1;
      backendReachable := false;
    }

    /** One turn of ShipperLoop with no ShipEvent in between: the body holds the oldest events in order; they are
        gone if the POST succeeds, and if it fails the buffer is as it was and nothing is dropped. */
    method Flush(endpoint: Endpoint, postSucceeds: bool) returns (body: string)
      requires Valid()
      modifies this
      ensures Valid() && running == old(running)
      ensures var n := if running then BatchLength(|old(buffer)|, batchSize) else 0;
        && body == Joined(Lines(old(buffer)[..n], endpoint))
        && buffer == (if postSucceeds then old(buffer)[n..] else old(buffer))
        && eventsShipped == old(eventsShipped) + (if postSucceeds then n else 0)
        && eventsDropped == old(eventsDropped) && eventsBuffered == old(eventsBuffered)
    {
      body := "";
      if !running {
        return;
      }
      var batch := TakeBatch();
      if batch == [] {
        return;
      }
      body := BuildBody(batch, endpoint);
      if postSucceeds {
        RecordSuccess(batch);
      } else {
        Requeue(batch);
      }
    }

    /** GetShipperStats reports the current depth, not the number of accepted events. */
    method EventsBufferedStat() returns (n: nat)
      ensures n == |buffer|
    {
      n := |buffer|;
    }
  }
}
