/** What the backend reads of the driver's events: the documents that travel through the pipeline, tied to the
    records that were inserted into the kernel queue. */
module PipelineBodies {
  import opened Bodies
  import opened Bytes
  import opened Json
  import opened Ndjson
  import opened Pipeline
  import opened PipelineOrder
  import D = DriverProtocol
  import S = ShipperProtocol

  /** How the agent sees the bytes of a record, and the messages of the filter: any functions will do. */
  datatype Decoding = Decoding(hostname: string, ofRecord: bytes -> ValidEvent, ofFilter: nat -> ValidEvent)

  predicate IsDriverEvent(s: State, x: nat) {
    x < |s.sources| && s.sources[x].FromDriver? && 0 <= s.sources[x].at < |s.dispatched|
  }

  /** What ShipEvent was given for the x-th accepted event. */
  function EventOf(s: State, d: Decoding, x: nat): ValidEvent {
    if IsDriverEvent(s, x) then d.ofRecord(s.dispatched[s.sources[x].at]) else d.ofFilter(x)
  }

  function EventsOf(s: State, d: Decoding, xs: seq<nat>): seq<ValidEvent> {
    seq(|xs|, i requires 0 <= i < |xs| => EventOf(s, d, xs[i]))
  }

  /** The documents of accepted events, as they stand in the shipper's buffer. */
  function DocumentsOf(s: State, d: Decoding, xs: seq<nat>): seq<string> {
    Documents(d.hostname, EventsOf(s, d, xs))
  }

  /** The fields of the event that the driver inserted at place p. */
  function InsertedFields(s: State, d: Decoding, p: int): seq<Field>
    requires 0 <= p < |s.driver.inserted|
  {
    FieldsOf(d.hostname, d.ofRecord(s.driver.inserted[p].record))
  }

  /** An accepted driver event is the one inserted at its place. */
  lemma SourceIsInserted(c: S.Config, threads: nat, actions: seq<Action>, s: State, d: Decoding, x: nat)
    requires c.Valid() && s == Run(c, Init(threads), actions)
    requires x < |s.sources| && s.sources[x].FromDriver?
    ensures var p := s.sources[x].at;
      && 0 <= p < |s.driver.inserted|
      && EventOf(s, d, x) == d.ofRecord(s.driver.inserted[p].record)
  {
    hide Inv, Run;
    InitInv(c, threads);
    RunInv(c, Init(threads), actions);
    Unpack(c, s);
    RecordAt(s.driver.inserted, s.dispatched);
  }

  /** The k-th acknowledged event, if the driver's, was sent as a document that a backend reads as exactly the fields
      of the event inserted at its place; by AcknowledgedInOrder those places go up without repetition. */
  lemma AcknowledgedDocument(c: S.Config, threads: nat, actions: seq<Action>, s: State, d: Decoding, k: nat)
    requires c.Valid() && s == Run(c, Init(threads), actions)
    requires k < |s.shipper.shipped|
    requires s.shipper.shipped[k] < |s.sources| && s.sources[s.shipper.shipped[k]].FromDriver?
    ensures var p := s.sources[s.shipper.shipped[k]].at;
      && p in Places(s.sources, s.shipper.shipped) && 0 <= p < |s.driver.inserted|
      && DocumentsOf(s, d, s.shipper.shipped)[k] == Render(InsertedFields(s, d, p))
      && ParseObject(DocumentsOf(s, d, s.shipper.shipped)[k]) == Got(Meanings(InsertedFields(s, d, p)), "")
      && ReadAs(ParseObject(DocumentsOf(s, d, s.shipper.shipped)[k]), d.hostname,
                d.ofRecord(s.driver.inserted[p].record))
  {
    hide Run, Render, ParseObject, Meanings, Places, ReadAs;
    var x := s.shipper.shipped[k];
    SourceIsInserted(c, threads, actions, s, d, x);
    PlaceIsListed(s.sources, s.shipper.shipped, k);
    DocumentReadsBack(d.hostname, EventOf(s, d, x));
  }

  lemma {:induction false} PlaceIsListed(sources: seq<Source>, events: seq<nat>, k: nat)
    requires k < |events| && events[k] < |sources| && sources[events[k]].FromDriver?
    ensures sources[events[k]].at in Places(sources, events)
  {
    if k < |events| - 1 {
      PlaceIsListed(sources, events[..|events| - 1], k);
    }
  }

  /** The body of a POST under way: its i-th document line, if it is of a driver event, is read as exactly the fields
      of the event inserted at that event's place. */
  lemma PostedBodyReadsBack(c: S.Config, threads: nat, actions: seq<Action>, s: State, d: Decoding,
                            endpoint: Endpoint, i: nat)
    requires c.Valid() && s == Run(c, Init(threads), actions)
    requires endpoint.Bulk? ==> IsLine(endpoint.indexOrToken)
    requires i < |s.shipper.batch| && s.shipper.batch[i] < |s.sources| && s.sources[s.shipper.batch[i]].FromDriver?
    ensures var p := s.sources[s.shipper.batch[i]].at;
      var lines := SplitLines(Joined(Lines(DocumentsOf(s, d, s.shipper.batch), endpoint)));
      && 0 <= p < |s.driver.inserted| && LineOf(endpoint, i) < |lines|
      && ParseObject(lines[LineOf(endpoint, i)]) == Got(Meanings(InsertedFields(s, d, p)), "")
      && ReadAs(ParseObject(lines[LineOf(endpoint, i)]), d.hostname, d.ofRecord(s.driver.inserted[p].record))
  {
    hide Run, Render, ParseObject, Meanings, SplitLines, Joined, Lines, IsLine, ReadAs;
    SourceIsInserted(c, threads, actions, s, d, s.shipper.batch[i]);
    BodyReadsBack(d.hostname, EventsOf(s, d, s.shipper.batch), endpoint, i);
  }
}
