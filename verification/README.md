# Vettaiyan EDR: verified model of the telemetry path and the automatic response

Vettaiyan is an endpoint detection and response product. A kernel driver queues events, a file-system filter
reports file operations, and an agent reads both, ships every event to a backend as NDJSON, keeps a process tree,
runs behavioural rules and kills processes on critical detections. This project models the stateful core of that
and proves what it keeps, with Dafny 4.11. `dafny verify dfyconfig.toml` checks everything.

| files | part of the system |
|---|---|
| `Bytes`, `Wire`, `EventTypes`, `Options`, `Counting` | bytes and ULONG arithmetic, the record stream between driver and agent, event types, sums over threads |
| `KernelList`, `EventBuffer` | the driver's circular doubly-linked list and queue, on real links, one call at a time |
| `DriverProtocol`, `DriverSteps`, `DriverSafety`, `DriverTheorems`, `DriverRuns` | the same queue with any number of callbacks and one reader, step by step |
| `Shipper`, `ShipperProtocol` | the transit buffer, one call at a time and over whole lifecycles |
| `Json`, `EventFields`, `EventLookup`, `EventJson`, `Ndjson`, `Bodies` | escaping, the fields of an event and what a reader finds under each name, serialisation and POST bodies, against an RFC 8259 reader |
| `Tracker`, `TrackerHistory` | the process tree and what it means in terms of the calls made |
| `Behavior`, `BehaviorRules`, `BehaviorSteps`, `BehaviorHistory` | the dispatch of kernel events, rules and kill guard; what they look for, what one event does, and trees, detections, scores and kills over whole runs |
| `ScanQueue`, `NameRefs` | the scan queue's wake-up protocol, and name references between pre-op and post-op |
| `Pipeline`, `PipelineOrder`, `PipelineBodies` | driver, reader, filter messages and shipper together, end to end |

How it is written. Code that updates state is a class whose methods are proved against specification functions
(`Pushed` and `Taken`, `Offered` and `Requeued`, `Apply`, `Handled`, `Escape`, `Render`), and what these functions do
is then said without them: by literal type codes and names, by what a reader finds in the bytes, and by the list of
events alone. Concurrency is a state machine: an action is one atomic step of one thread (an interlocked operation, a critical section, a lock operation
or a test), a run is a list of actions, and an action that is not enabled changes nothing, so a statement over all
lists of actions is a statement over all interleavings. A POST outcome, a failed pool allocation, the converted
UTF-8 text and what the file system answers are free choices of the run. History fields of a state (such as
`inserted` or `lost`) record what happened and influence nothing.

What the code does where its comments say something else; the model follows the code:

- `g_TotalGenerated` is described as including drops (`VettaiyanDriver/EventBuffer.c:24`), but only a successful
  push counts (line 220). `DriverTheorems.GeneratedOrDropped` states the balance that does hold.
- The queue is announced as holding at most 2048 events (line 62). The check is outside the lock, so the exact bound
  is 2047 plus the number of callbacks at work (`DriverTheorems.CapacityBound`, reached by `DriverRuns.BoundIsReached`).
- Sequence numbers are to give "the exact order of operations" (lines 108-110). They follow the delivery order in every
  run if and only if at most one thread runs callbacks (`DriverRuns.OrderIsExactIffOneThread`); within a thread they
  always do, and they are unique exactly until the 32-bit counter comes round
  (`DriverTheorems.NumbersUniqueIffNoWrap`).
- The agent's splitting loop tests its bounds with a 32-bit sum. `Wire.InBoundsIffAdvances` says for which bytes it stays
  in its buffer, `Wire.WrapLeavesTheBuffer` gives bytes on which it does not, and `Wire.DrainedAdvances` shows that the
  driver never returns such bytes.
- `TelemetryShipper.h:12-13` says that the oldest events are dropped when the buffer fills up. A re-queue after a failed
  POST drops the newest (`VettaiyanAgent/TelemetryShipper.cpp:342-346`); `ShipperProtocol.RequeueDropsNewest` says
  exactly when the two policies agree.
- The service's stop event does not wake a scan worker that waits for the queue event;
  `ScanQueue.StopEndsUnlessWaiting` says exactly when a stopped worker ends by itself.
- The hash and the index name go into JSON text without escaping. `EventFields.EventRoundTrip`, `Ndjson.BodyRecovered`
  and `Ndjson.IndexNameRead` give the exact conditions under which a backend still reads them. For the hash the
  condition always holds in the agent, which passes hex digits (`EventFields.AgentEventRoundTrip`).

## Model

| member | source | states |
|---|---|---|
| KernelList.InsertTailList | VettaiyanDriver/EventBuffer.c:216 | on a circle of links with `blink` inverse to `flink`, appends the entry at the tail, writing four links only |
| KernelList.RemoveEntryList | VettaiyanDriver/EventBuffer.c:269 | unlinks the entry at any position, through its own two links; the rest stays a circle in the same order |
| KernelList.RemoveHeadList | VettaiyanDriver/EventBuffer.c:282 | returns the first entry and leaves a circle of the others |
| KernelList.Splice | VettaiyanDriver/EventBuffer.c:83-89 | moves a whole circle to a local head in constant time and leaves the global head empty |
| KernelList.MoveFirst | VettaiyanDriver/EventBuffer.c:260-270 | the first entry goes from the global circle to the tail of the local one; both stay circles that share no node |
| EventBuffers.MoveWhileFits | VettaiyanDriver/EventBuffer.c:259-273 | the phase 1 loop moves exactly the prefix that fits by the 32-bit size sum |
| EventBuffers.EventList.Append | VettaiyanDriver/EventBuffer.c:215-218 | the queue is the old one with the entry at its end, the count is its length, and the entry joins the pool's live entries |
| EventBuffers.EventList.DetachFitting | VettaiyanDriver/EventBuffer.c:253-277 | queue and local list are the two halves of the old queue, entries are in exactly one of them, and the count is the queue's length again |
| EventBuffers.EventList.FreeFirst | VettaiyanDriver/EventBuffer.c:282-290 | takes the first local entry, which was live, out of the pool, once |
| EventBuffers.EventList.Clear | VettaiyanDriver/EventBuffer.c:77-101 | splices and frees: the queue is empty, the count 0, and no pool entry is left |
| EventBuffers.EventBuffer.constructor | VettaiyanDriver/EventBuffer.c:42-64 | an open, empty queue with all counters 0, no pool entry, and the start time recorded |
| EventBuffers.EventBuffer.PushEvent | VettaiyanDriver/EventBuffer.c:166-223 | the status and the whole new queue and counters, for every pushed size and a pool that may fail; a successful push raises by one the counter that its type's code belongs to and no other; only a push that gets past all checks needs its memory to be readable |
| EventBuffers.PushCountsItsType | VettaiyanDriver/EventBuffer.c:119-154 | by their codes: 1 and 2 count as process, 10 as image, 20 and 21 as thread, 30 to 34 as registry, 40 to 44 as file, 50 and 51 as handle events, each in that counter alone, any other type in none, and only when the push succeeds |
| EventBuffers.PushCountedOnce | VettaiyanDriver/EventBuffer.c:166-223 | a push with proper arguments is counted once: generated if its record is now last in the queue, dropped if the queue is as it was; any other push changes nothing |
| EventBuffers.EventBuffer.Accept | VettaiyanDriver/EventBuffer.c:203-220 | a push behind its checks appends the bytes, counts the type in the one counter of its code and the event, and keeps list and pool consistent |
| EventBuffers.EventBuffer.CopyOut | VettaiyanDriver/EventBuffer.c:281-291 | copies every detached record to the user buffer in order, counts each as delivered and frees each once |
| EventBuffers.EventBuffer.DrainEvents | VettaiyanDriver/EventBuffer.c:237-294 | removes the maximal prefix that fits, counts it delivered, and leaves its concatenation at the front of an otherwise unchanged buffer; a closed queue or null or empty buffer changes nothing |
| EventBuffers.EventBuffer.GetEventStatistics | VettaiyanDriver/EventBuffer.c:300-318 | reports the counters and the start time, and as queue depth the true length of the list |
| EventBuffers.EventBuffer.CleanupEventBuffer | VettaiyanDriver/EventBuffer.c:70-105 | empties and closes the queue, frees every entry, and leaves the counters alone |
| Bytes.U32AtBytes | EdrCommon/EdrEvents.h:117-124 | a ULONG field is the one number below 2^32 whose k-th byte, its quotient by 256^k modulo 256, is stored k bytes further on |
| Wire.HeaderLayout | EdrCommon/EdrEvents.h:117-124 | event type, size and sequence number are the bytes 0 to 3, 24 to 27 and 28 to 31 of a header |
| Wire.SplitBuffer | VettaiyanAgent/EventReceiver.cpp:95-106 | the agent's splitting loop ends and dispatches what `Parse` gives, under the exact condition on which it stays in its buffer |
| Wire.InBoundsIffAdvances | VettaiyanAgent/EventReceiver.cpp:97-105 | for arbitrary bytes, no chunk that the loop ever dispatches leaves the buffer if and only if no header it gets to wraps the 32-bit sum and passes the bounds test |
| Wire.SplitIsParse | VettaiyanAgent/EventReceiver.cpp:97-105 | under that condition the loop ends after at most one turn a byte, with the records of `Parse` |
| Wire.WrapLeavesTheBuffer | VettaiyanAgent/EventReceiver.cpp:102-105 | 64 bytes on which the loop dispatches a chunk far past the buffer, goes back to offset 0 and never ends |
| Wire.RoundTrip | VettaiyanAgent/EventReceiver.cpp:95-106 | splitting the concatenation of any well-formed records gives exactly those records in order, also with stray bytes behind them |
| Wire.DrainedAdvances | VettaiyanAgent/EventReceiver.cpp:102-105 | a drained buffer never makes the 32-bit offset wrap |
| Wire.ForwardIffNoWrap | VettaiyanAgent/EventReceiver.cpp:102-105 | a header that passes the bounds test moves the offset forward if and only if the 32-bit sum did not wrap |
| Wire.ParseStaysInBounds | VettaiyanAgent/EventReceiver.cpp:95-106 | for arbitrary bytes, the records that a split with unbounded sums gives are a run of non-empty slices from the start of the buffer; by `SplitIsParse` these are the dispatched ones unless a sum wraps |
| Wire.ConcatInjective | VettaiyanDriver/EventBuffer.c:281-293 | two different lists of records are never drained to the same bytes |
| Wire.DrainIsMaximal | VettaiyanDriver/EventBuffer.c:257-277 | the drained records fit, and the next one would not; the size sum does not wrap if buffer size plus record size, or the whole queue, is below 2^32 |
| Wire.DrainMakesProgress | VettaiyanDriver/EventBuffer.c:257-277 | one drain removes at least min(queue length, capacity / record size) records |
| Wire.DrainsEmptyTheQueue | VettaiyanDriver/EventBuffer.c:234-276 | repeated drains without pushes empty the queue within a computed number of calls |
| Wire.FullQueueTakes34Reads | VettaiyanAgent/EventReceiver.cpp:27 | with the 256 KiB buffer 34 reads empty a full queue of 2048 events of the largest size |
| DriverSafety.RunInv | VettaiyanDriver/EventBuffer.c:111-294 | all invariants of the queue protocol (lock, count, capacity, order, counters, entries, tickets, bytes copied) hold after every run |
| DriverTheorems.CapacityBound | VettaiyanDriver/EventBuffer.c:186-218 | queue length plus pushers past the check but not inserted is at most 2047 plus the number of callbacks; the count is the list's length whenever the lock is free |
| DriverTheorems.DriverConservation | VettaiyanDriver/EventBuffer.c:215-291 | inserted = handed over ++ carried by the reader ++ queue ++ freed by cleanup, in order; and the counters balance accordingly at every step |
| DriverTheorems.GeneratedOrDropped | VettaiyanDriver/EventBuffer.c:184-220 | numbers handed out = generated + dropped + pushes under way: every push counts exactly once |
| DriverTheorems.TypeCountersAddUp | VettaiyanDriver/EventBuffer.c:119-154 | each of the six counters, by name, is the number of events, inserted or past typing, whose type is one of its literal codes, and together they are the generated events plus those still to be reported |
| DriverTheorems.DeliveredNumbers | VettaiyanDriver/EventBuffer.c:108-114 | below 2^32 events no two delivered numbers are equal, and those of one thread increase in delivery order |
| DriverTheorems.NumbersUniqueIffNoWrap | VettaiyanDriver/EventBuffer.c:111-114 | the numbers are pairwise distinct if and only if at most 2^32 have been handed out |
| DriverTheorems.GapsAreDrops | VettaiyanDriver/EventBuffer.c:108-187 | with all callbacks idle and the queue drained, the numbers that never arrived are exactly as many as g_EventsDropped |
| DriverTheorems.EntriesFreedOnce | VettaiyanDriver/EventBuffer.c:77-101 | every pool entry is in exactly one of: a pusher's hand, the queue, the reader's list, freed; none twice; after cleanup all are freed |
| DriverTheorems.DrainTakesWhatFits | VettaiyanDriver/EventBuffer.c:257-277 | whatever callbacks do meanwhile, phase 1 takes exactly the fitting prefix of the queue it found |
| DriverTheorems.ReadSplitsBack | VettaiyanDriver/EventBuffer.c:281-293 | the bytes an IOCTL returns split, without wrap, into exactly the records this drain handed over, in queue order |
| DriverRuns.UninterruptedPush | VettaiyanDriver/EventBuffer.c:166-223 | the steps of a push run without interference have exactly the effect of the PushEvent call |
| DriverRuns.UninterruptedDrain | VettaiyanDriver/EventBuffer.c:237-294 | the steps of a drain run without interference have exactly the effect of the DrainEvents call, and return the concatenation of the records taken |
| DriverRuns.BoundIsReached | VettaiyanDriver/EventBuffer.c:186-218 | for every number of callbacks there is a run that fills the queue to the bound |
| DriverRuns.OrderIsExactIffOneThread | VettaiyanDriver/EventBuffer.c:108-114 | the delivered numbers go up in every run (below 2^32 events) if and only if at most one thread runs callbacks |
| DriverRuns.NumbersMayBeOvertaken | VettaiyanDriver/EventBuffer.c:108-114 | for any two or more threads, a run that delivers number 2 before number 1 |
| Shipper.TelemetryShipper.ShipEvent | VettaiyanAgent/TelemetryShipper.cpp:411-432 | a full buffer becomes its tail and the new event, with one drop counted, any other the old buffer and the new event; accepted count and flush signal; nothing when stopped or without a header |
| Shipper.TelemetryShipper.TakeBatch | VettaiyanAgent/TelemetryShipper.cpp:284-294 | batch ++ buffer is the old buffer, the batch has at most BatchSize events, and fewer only if the buffer is now empty |
| Shipper.TelemetryShipper.RecordSuccess | VettaiyanAgent/TelemetryShipper.cpp:330-333 | counts the batch as shipped and sent, and the backend as reachable |
| Shipper.TelemetryShipper.Requeue | VettaiyanAgent/TelemetryShipper.cpp:334-349 | leaves the first MaxBufferSize of batch ++ buffer and counts the rest as dropped |
| Shipper.TelemetryShipper.Flush | VettaiyanAgent/TelemetryShipper.cpp:278-355 | an uninterrupted cycle: the body holds the oldest events; success removes them, failure leaves the buffer as it was and drops nothing |
| Shipper.TelemetryShipper.EventsBufferedStat | VettaiyanAgent/TelemetryShipper.cpp:435-441 | the reported figure is the buffer's depth |
| ShipperProtocol.ShipperConservation | VettaiyanAgent/TelemetryShipper.cpp:278-432 | accepted = shipped + dropped + buffered + in flight in every reachable state |
| ShipperProtocol.OrderOfAcceptance | VettaiyanAgent/TelemetryShipper.cpp:284-426 | shipped ++ in flight ++ buffered is strictly increasing in order of acceptance; every accepted event is there or dropped, never both |
| ShipperProtocol.ShipperBounds | VettaiyanAgent/TelemetryShipper.cpp:284-426 | the limits of buffer and batch; a batch is in flight exactly during a POST; after exit the counters and the buffer balance |
| ShipperProtocol.RetryKeepsBatch | VettaiyanAgent/TelemetryShipper.cpp:334-347 | a failed POST puts its whole batch back at the front, and drops only the newest buffered events, only past the limit |
| ShipperProtocol.RequeueDropsNewest | VettaiyanAgent/TelemetryShipper.cpp:342-346 | a re-queue agrees with dropping the oldest if and only if nothing overflows; otherwise the oldest stays and the newest goes |
| ShipperProtocol.NoLoss | VettaiyanAgent/TelemetryShipper.cpp:284-426 | if accepted but unacknowledged events never exceed MaxBufferSize, nothing is dropped and shipped ++ in flight ++ buffered is the whole accepted history |
| ShipperProtocol.NoLossIsSharp | VettaiyanAgent/TelemetryShipper.cpp:419-423 | for every configuration, one event more than that can lose exactly one |
| ShipperProtocol.CyclesShip | VettaiyanAgent/TelemetryShipper.cpp:278-333 | n successful cycles ship exactly the first n * BatchSize buffered events, in order |
| ShipperProtocol.ProgressOnceBackendAnswers | VettaiyanAgent/TelemetryShipper.cpp:278-333 | from any reachable sleeping state, n cycles empty the buffer if and only if n * BatchSize is at least its length |
| Json.JsonEscape | VettaiyanAgent/TelemetryShipper.cpp:73-95 | the appending loop computes `Escape`, byte by byte |
| Json.EscapeRoundTrip | VettaiyanAgent/TelemetryShipper.cpp:73-95 | for all byte strings s and t, a reader of strings after RFC 8259 section 7 (all escapes, surrogate pairs, UTF-8) applied to escaped s, quote, t gives s and stops at t |
| Json.EscapeInjective | VettaiyanAgent/TelemetryShipper.cpp:73-95 | different byte strings are never escaped to the same text |
| Json.EscapeClean | VettaiyanAgent/TelemetryShipper.cpp:84-91 | no raw control byte is left |
| Json.RawIffPlain | VettaiyanAgent/TelemetryShipper.cpp:222-223 | text put between quotes unescaped is read back as itself if and only if it has no quote, backslash or control byte |
| Json.NumberRoundTrip | VettaiyanAgent/TelemetryShipper.cpp:155 | every integer is read back from its decimal text, which has no superfluous zero |
| Json.ObjectRoundTrip | VettaiyanAgent/TelemetryShipper.cpp:148-240 | a written object is read back as exactly its fields in order, if and only if its last field needs no escape it did not get |
| EventJson.JsonWriter.WriteHeader | VettaiyanAgent/TelemetryShipper.cpp:148-156 | the six common fields, in order, host name escaped; looked up by name each tells its datum of the header |
| EventJson.JsonWriter.WriteBody | VettaiyanAgent/TelemetryShipper.cpp:158-237 | the fields of the event's type, in order, with the optional ones only when present; nothing for an unknown type |
| EventJson.SerializeEvent | VettaiyanAgent/TelemetryShipper.cpp:134-241 | the text is the object of the event's fields, and if the hash is plain a reader that looks names up in it finds the event (`Tells`): each header field and each field of the type's body gives its datum, optional fields are there exactly when given, and there is no other name |
| EventLookup.EventTold | VettaiyanAgent/TelemetryShipper.cpp:148-237 | for every type: ids as decimal and addresses, rights and options as hex digits that amount to the number, texts and numbers as they are, under their names; any other name is absent |
| EventLookup.LineTells | VettaiyanAgent/TelemetryShipper.cpp:134-241 | a reader of a line gets one whole object that tells the event, if the hash needs no escape |
| EventLookup.AgentLineTells | VettaiyanAgent/Agent.cpp:135-138 | with the hash that the agent passes, without any condition |
| EventLookup.TypeNamed | VettaiyanAgent/TelemetryShipper.cpp:49-71 | the name of each of the 17 types by its code, and Unknown for every other |
| EventLookup.TimeShown | VettaiyanAgent/TelemetryShipper.cpp:137-145 | at fixed places counted from the end, the digits of year, month, day, hour, minute, second and milliseconds amount to them, for every time with fields as wide as SYSTEMTIME's, also for years of more than four digits |
| EventLookup.HashDigits | VettaiyanAgent/Agent.cpp:135-136 | the hash text has two hex digits a byte, which amount to the byte |
| EventFields.EventRoundTrip | VettaiyanAgent/TelemetryShipper.cpp:134-241 | a line is read back as exactly the event's fields, whatever its text, if and only if the hash, when written, is plain |
| EventFields.EventIsOneLine | VettaiyanAgent/TelemetryShipper.cpp:100 | then no control byte is in it: it is one line |
| EventFields.AgentEventRoundTrip | VettaiyanAgent/Agent.cpp:139-146 | with the hash the agent passes, two hex digits a byte or none, every event's line reads back as its fields and is one line, without any condition |
| Ndjson.BuildBody | VettaiyanAgent/TelemetryShipper.cpp:303-311 | the body is the lines of the batch, each with its newline, preceded by the action line for a _bulk endpoint |
| Ndjson.LinesRecovered | VettaiyanAgent/TelemetryShipper.cpp:307-311 | cutting at newlines gives back any list of joined lines if and only if none of them has a newline |
| Ndjson.LinePositions | VettaiyanAgent/TelemetryShipper.cpp:298-311 | document i is line i, or line 2i + 1 behind its action line in _bulk mode |
| Ndjson.BodyRecovered | VettaiyanAgent/TelemetryShipper.cpp:261-311 | the lines are recovered if and only if no document has a newline and, in _bulk mode with a non-empty batch, the configured index name has none |
| Ndjson.IndexNameRead | VettaiyanAgent/TelemetryShipper.cpp:266-267 | the action line is read as the nested object of the index action, with the configured or else the default name under _index, if and only if that name needs no escape |
| Bodies.BodyReadsBack | VettaiyanAgent/TelemetryShipper.cpp:303-311 | cutting a body and reading each document line gives an object that tells the event, for every event of the batch, in order |
| PipelineBodies.AcknowledgedDocument | VettaiyanAgent/TelemetryShipper.cpp:415-425 | whatever decodes a record: an acknowledged driver event was sent as a document that a backend reads as exactly the fields of the record inserted into the kernel queue at its place, and that tells that event by name |
| PipelineBodies.PostedBodyReadsBack | VettaiyanAgent/TelemetryShipper.cpp:298-328 | and in the body of a POST under way its document line reads back as those fields |
| Tracker.FileNameIsEnding | VettaiyanAgent/ProcessTracker.cpp:16-20 | the file name is the longest ending of the path without a backslash or slash |
| Tracker.ProcessTracker.EvictTerminated | VettaiyanAgent/ProcessTracker.cpp:47-53 | erasing while iterating, in any order, leaves exactly the live nodes |
| Tracker.ProcessTracker.OnProcessCreate | VettaiyanAgent/ProcessTracker.cpp:39-75 | the map after eviction, overwrite and child registration, also when the process names itself as parent; below 50000 nodes nobody is forgotten, from there on exactly the dead are (`Created`) |
| Tracker.CreateCreates | VettaiyanAgent/ProcessTracker.cpp:45-74 | after a create, with any limit: which PIDs are there, the new node field by field, the parent with one more child, and every other node unchanged |
| Tracker.ProcessTracker.OnProcessTerminate | VettaiyanAgent/ProcessTracker.cpp:78-89 | marks the node dead with its exit time; an unknown PID changes nothing |
| Tracker.ProcessTracker.OnImageLoad | VettaiyanAgent/ProcessTracker.cpp:92-105 | appends the file name while fewer than 200 are kept |
| Tracker.ProcessTracker.OnThreadEvent | VettaiyanAgent/ProcessTracker.cpp:108-122 | counts threads up, and down but not below 0 |
| Tracker.ProcessTracker.AddProcessAlert | VettaiyanAgent/ProcessTracker.cpp:210-217 | appends the alert of a tracked PID |
| Tracker.ProcessTracker.IncrementSuspicionScore | VettaiyanAgent/ProcessTracker.cpp:220-227 | adds to the score of a tracked PID |
| Tracker.ProcessTracker.GetProcessLineage | VettaiyanAgent/ProcessTracker.cpp:144-159 | the loop gives the lineage to depth 32 |
| Tracker.ProcessTracker.GetAllActiveProcesses | VettaiyanAgent/ProcessTracker.cpp:175-185 | every live node and nothing else, each once |
| TrackerHistory.EvictionInvisible | VettaiyanAgent/ProcessTracker.cpp:39-89 | for every log of calls and every limit, the evicting tracker and one without eviction have the same live PIDs with the same nodes |
| TrackerHistory.SizeAfterCreate | VettaiyanAgent/ProcessTracker.cpp:45-68 | after a create the map is within the limit or every node is alive |
| TrackerHistory.CreateBelowLimit | VettaiyanAgent/ProcessTracker.cpp:45-74 | a create that finds fewer nodes than the limit keeps every PID, dead or alive, and changes only its own node and its parent's |
| TrackerHistory.NoEvictionBelowLimit | VettaiyanAgent/ProcessTracker.cpp:45-54 | over a log in which no create finds a full map, the tracker is the one that never evicts |
| TrackerHistory.TrackedUnlessDropped | VettaiyanAgent/ProcessTracker.cpp:45-68 | for every log and limit, a PID is tracked if and only if it was created and no create since its latest one found the map full and the PID dead |
| TrackerHistory.NodeIsItsHistory | VettaiyanAgent/ProcessTracker.cpp:56-122 | a PID is tracked if and only if it was created, and its node (children, images, threads, exit, score, alerts) is a stated function of the log since its latest create |
| TrackerHistory.TrackedNode | VettaiyanAgent/ProcessTracker.cpp:39-122 | the same for every PID that an evicting tracker still has |
| TrackerHistory.AliveIffCreated | VettaiyanAgent/ProcessTracker.cpp:64-87 | with any limit a PID is alive if and only if its latest lifecycle call is a create, and then parent, session and image are that create's |
| TrackerHistory.LineageIsChain | VettaiyanAgent/ProcessTracker.cpp:144-159 | entry k is the k-th ancestor and not 0; a walk shorter than the limit stopped where the chain ends, in any map |
| TrackerHistory.LineageWithoutCycle | VettaiyanAgent/ProcessTracker.cpp:149-156 | if the chain ends where the walk ends all entries are distinct; a repeated entry means the depth limit was reached |
| Behavior.Agent.IsKnownSystemProcess | VettaiyanAgent/BehaviorEngine.cpp:524-550 | PID, image table, session and parent decide, in this order; by `ExemptIffKnown` the image in any case of its letters |
| Behavior.Agent.IsSafeToKill | VettaiyanAgent/Agent.cpp:322-351 | the mutable flag ends up true exactly when no guard objects; by `SparedIff` the protected images in any case |
| Behavior.LowerIffSame | VettaiyanAgent/BehaviorEngine.cpp:70-77 | comparing lowered text is equality character by character up to the case of ASCII letters |
| Behavior.ContainsUpToCase | VettaiyanAgent/BehaviorEngine.cpp:70-77 | the case-insensitive search succeeds exactly if the needle stands somewhere in the text in some case |
| BehaviorRules.SparedIff | VettaiyanAgent/Agent.cpp:329-337 | the two image tables together spare exactly the 28 named system images and system, each in any case |
| BehaviorRules.ExemptIffKnown | VettaiyanAgent/BehaviorEngine.cpp:524-550 | the system test, said with literal names in any case, PID, session and parent |
| BehaviorRules.StoreIff | VettaiyanAgent/BehaviorEngine.cpp:294-305 | the credential test succeeds exactly if one of the four literal paths stands in the path in some case |
| BehaviorRules.RightsIffMask | VettaiyanAgent/BehaviorEngine.cpp:606-607 | the mask test succeeds exactly if all three rights are there, bit by bit |
| Behavior.Agent.OnBehaviorDetection | VettaiyanAgent/Agent.cpp:306-362 | kills the detection's PID if it is critical and the guard allows it, and does nothing else |
| Behavior.Agent.EmitDetection | VettaiyanAgent/BehaviorEngine.cpp:112-138 | bounded list, kill decision, then score and alert, in this order |
| Behavior.Agent.CheckCredentialAccess | VettaiyanAgent/BehaviorEngine.cpp:280-307 | one critical detection for a create or write on a credential path by a process that is not a system process |
| Behavior.Agent.AnalyzeHandleEvent | VettaiyanAgent/BehaviorEngine.cpp:594-621 | one critical detection for the full access mask on another process, not for the agent or a system process |
| Behavior.Agent.AnalyzeThreadEvent | VettaiyanAgent/BehaviorEngine.cpp:553-576 | one detection for a remote thread, not for the agent or a system process |
| Behavior.Agent.OnKernelEvent | VettaiyanAgent/Agent.cpp:169-299 | every event is offered to the shipper, tracker and rules give the specified state, and exactly the closed files with a priority extension are queued for a scan; `HandledAdvances` and `TreeIsItsEvents` say what that state is |
| Behavior.Agent.Analyze | VettaiyanAgent/Agent.cpp:190-298 | tracker first, then the rules of the event's type |
| Behavior.Agent.IsPriorityFile | VettaiyanAgent/Agent.cpp:272-282 | the loop over the extension table decides by what follows the last dot |
| BehaviorRules.ScanIff | VettaiyanAgent/Agent.cpp:262-282 | queued are exactly the events of type 44 whose path is longer than two and has, after its last dot, one of the 15 literal extensions in some case |
| BehaviorSteps.HandledAdvances | VettaiyanAgent/Agent.cpp:190-298 | one event: the tree changes as its type says, nodes are marked with the detections raised, and the list has the newest 10000, the rule's detection before the minor ones |
| BehaviorSteps.HandledKills | VettaiyanAgent/Agent.cpp:306-362 | one event: it kills its own PID exactly if it triggers a critical rule, is not exempt and not guarded |
| Behavior.Agent.GetRecentDetections | VettaiyanAgent/BehaviorEngine.cpp:624-635 | the newest first, at most limit of them |
| BehaviorHistory.KillsAreExpected | VettaiyanAgent/Agent.cpp:306-362 | over every run the kills are exactly those a condition on the event log alone calls for, in order: no influence of eviction or of the order of checks |
| BehaviorHistory.KillSafety | VettaiyanAgent/Agent.cpp:322-356 | every killed PID is above 4 and not the agent, and some event of it set off a critical rule while it was running, as no session-0 child of PID 4 or below, from an image that is in no case system or one of the 28 literal names |
| BehaviorHistory.KillsIgnoreCase | VettaiyanAgent/Agent.cpp:337 | two runs whose events differ only in the case of image and file paths kill the same PIDs in the same order |
| BehaviorRules.GuardBeyondRules | VettaiyanAgent/Agent.cpp:325-351 | behind a critical rule the guard is decided by three things: tracked and alive, not named system in any case, not the agent |
| BehaviorHistory.RemoteThreadDetected | VettaiyanAgent/BehaviorEngine.cpp:553-576 | for a process that runs by the events the detection is raised if and only if conditions on its create event hold |
| BehaviorHistory.ExemptByEvents | VettaiyanAgent/BehaviorEngine.cpp:524-550 | for such a process the system test depends on its PID and its create event alone |
| BehaviorHistory.TreeIsItsEvents | VettaiyanAgent/Agent.cpp:190-230 | after any run of kernel events a PID is tracked if and only if it was created and no later create found the tree full and the PID not running; and its node is field by field what the events since say: threads started less ended and never below 0, the first 200 images, the children, exit, score and alerts |
| BehaviorHistory.DetectionsAreNewest | VettaiyanAgent/BehaviorEngine.cpp:114-120 | the list is the newest 10000 of the detections that the events raise, event by event the fired rule's and then the minor ones, in order |
| BehaviorHistory.ScoreIsWeights | VettaiyanAgent/BehaviorEngine.cpp:127-137 | a tracked node's score is 1, 10, 25, 50 and 100 times the number of Info, Low, Medium, High and Critical detections naming it since its latest create, and its alerts are their texts in order |
| ScanQueue.PathQueue.EnqueuePath | VettaiyanAgent/Agent.cpp:34-39 | appends the path and sets the event |
| ScanQueue.PathQueue.DequeuePath | VettaiyanAgent/Agent.cpp:66-76 | takes the first path, or reports an empty queue and changes nothing |
| ScanQueue.NoLostWakeup | VettaiyanAgent/Agent.cpp:34-39 | whenever the worker waits and the queue is not empty, the event is set or a producer is about to set it |
| ScanQueue.ScannedInOrder | VettaiyanAgent/Agent.cpp:385-412 | enqueued = scanned ++ being scanned ++ queued: first in, first out, each once |
| ScanQueue.EverythingIsScanned | VettaiyanAgent/Agent.cpp:388-410 | once producers are done, a worker that is not stopped scans everything in at most 2n + 6 steps and waits again |
| ScanQueue.StopEndsUnlessWaiting | VettaiyanAgent/Agent.cpp:388-389 | after a stop the worker ends by itself if and only if it is not waiting for an event that is not set |
| NameRefs.FileNames.PreCallback | VettaiyanFilter/FsCreate.c:21-57 | the only reference left is the completion context's, and post-op is asked for exactly if there is one |
| NameRefs.FileNames.PostCallback | VettaiyanFilter/FsCreate.c:69-110 | releases the context's reference once whatever the outcome; sends exactly if the create succeeded and the filter is not draining |
| NameRefs.BalanceOutsideCallbacks | VettaiyanFilter/FsCreate.c:41-51 | outside callbacks the outstanding references are exactly the contexts of the creates pending between pre-op and post-op |
| NameRefs.NoLeak | VettaiyanFilter/FsCreate.c:80-107 | once all creates have completed, drained or never been watched, no reference is left |
| NameRefs.NeverOverReleased | VettaiyanFilter/FsCreate.c:50-107 | in every interleaving a create's name is referenced at least as often as it relies on; no release without a reference |
| NameRefs.ReportedOnce | VettaiyanFilter/FsCreate.c:86-105 | for every single create: it has sent exactly one event, about its own name, once its send is past or it ended as reported, and none otherwise |
| PipelineOrder.DispatchedIsInserted | VettaiyanAgent/EventReceiver.cpp:95-106 | the dispatched records are a prefix of the records in insertion order: none lost, repeated, reordered, cut or merged between queue and ShipEvent |
| PipelineOrder.AcknowledgedInOrder | VettaiyanAgent/TelemetryShipper.cpp:284-347 | for every interleaving of callbacks, reader, filter messages and shipper, the acknowledged driver events are an in-order subsequence of the kernel queue's insertion order without repetition |
| PipelineOrder.NothingMissing | VettaiyanAgent/TelemetryShipper.cpp:411-426 | while the shipper runs and drops nothing, acknowledged ++ in flight ++ buffered has every dispatched driver event, without gap |
| PipelineOrder.LosslessEndToEnd | VettaiyanAgent/TelemetryShipper.cpp:278-432 | when all has settled and nothing was dropped, the backend has acknowledged exactly the records inserted into the kernel queue, in order, however many POSTs failed |

The state machines themselves carry no contract; they are read beside the source: `DriverProtocol.Effect`
(`VettaiyanDriver/EventBuffer.c:111-294`), `ShipperProtocol.Effect` (`VettaiyanAgent/TelemetryShipper.cpp:245-432`),
`ScanQueue.Effect` (`VettaiyanAgent/Agent.cpp:34-76` and `385-413`), `NameRefs.Next` (`VettaiyanFilter/FsCreate.c:21-110`)
and `Pipeline.Effect` (`VettaiyanAgent/EventReceiver.cpp:31-165`).

## Left out

- PushEvent: a push past all its checks must find its bytes, and the four bytes of an event type, in the caller's memory; the code reads both without a test.
- SplitBuffer: where the loop leaves its buffer (by `InBoundsIffAdvances` exactly where its precondition fails) the code reads memory that is not part of this model.
- Driver protocol: callbacks push only what the five callbacks build (a counted type, EventSize equal to the pushed size, their own number), and a drain's buffer leaves room for one more record below 2^32. Single calls with any argument are in `EventBuffers`.
- A push that races CleanupEventBuffer, use of the scan queue before its lock is initialised, and ShipEvent while the buffer is cleared at shutdown: steady state and quiescent shutdown only.
- The 32-bit wrap of counters other than the sequence number, of the score and of thread counts: these are mathematical integers.
- The rules for parent-child pairs, download cradles, persistence, masquerading and file writes: string tables that lead to detections below critical, which enter as arbitrary minor detections.
- `_wcsicmp` and `towlower` fold ASCII letters only here, and text is not normalised.
- WideToUtf8: the bytes it gives are arbitrary, and so is the time that a FILETIME converts to.
- The HTTP client, its headers and the parsing of the endpoint URL: a POST succeeds or fails.
- The web server, dashboard, SQLite storage, logging, notifications, YARA, SHA-256, ETW and the command pipe: calls into code that is not part of this model.
- Quarantine and restore: they are built on file-system calls.
- The data gathering of the kernel callbacks and of the filter's other operations.
