/** A POST body as the backend reads it: events in, the same events out. */
module Bodies {
  import opened EventFields
  import opened EventLookup
  import opened Json
  import opened Ndjson
  import opened Options

  /** What one ShipEvent call is given. */
  datatype Event = Event(header: Header, body: Body, sha256: Option<string>) {
    predicate Valid() {
      Fits(header.eventType, body) && HashPlain(header.eventType, sha256)
    }
  }

  type ValidEvent = e: Event | e.Valid()
    witness Event(Header(0, SystemTime(0, 0, 0, 0, 0, 0, 0), 0, 0, 0), NoBody, None)

  function FieldsOf(hostname: string, e: Event): (fs: seq<Field>)
    requires e.Valid()
    ensures fs != []
  {
    Fields(hostname, e.header, e.body, e.sha256)
  }

  /** A reader got one whole object, and it tells the event. */
  ghost predicate ReadAs(r: Scanned<seq<Field>>, hostname: string, e: Event) {
    r.Got? && r.rest == "" && Tells(r.value, hostname, e.header, e.body, e.sha256)
  }

  function Documents(hostname: string, events: seq<Event>): seq<string>
    requires forall e :: e in events ==> e.Valid()
  {
    seq(|events|, i requires 0 <= i < |events| => Render(FieldsOf(hostname, events[i])))
  }

  /** The line of a body that holds the i-th document. */
  function LineOf(endpoint: Endpoint, i: nat): nat {
    if endpoint.Bulk? then 2 * i + 1 else i
  }

  lemma DocumentsAreLines(hostname: string, events: seq<Event>)
    requires forall e :: e in events ==> e.Valid()
    ensures forall doc :: doc in Documents(hostname, events) ==> IsLine(doc)
  {
    hide Render, Fields, HashPlain, Fits;
    forall doc | doc in Documents(hostname, events)
      ensures IsLine(doc)
    {
      var i :| 0 <= i < |events| && doc == Render(FieldsOf(hostname, events[i]));
      assert events[i] in events;
      EventIsOneLine(hostname, events[i].header, events[i].body, events[i].sha256);
    }
  }

  lemma DocumentReadsBack(hostname: string, e: Event)
    requires e.Valid()
    ensures ParseObject(Render(FieldsOf(hostname, e))) == Got(Meanings(FieldsOf(hostname, e)), "")
    ensures ReadAs(ParseObject(Render(FieldsOf(hostname, e))), hostname, e)
  {
    hide Render, Fields, ParseObject, Meanings, HashPlain, Fits, Tells;
    EventTold(hostname, e.header, e.body, e.sha256);
    EventRoundTrip(hostname, e.header, e.body, e.sha256);
  }

  /** A backend that cuts a body at its newlines and reads each document line gets the fields of every event of the
      batch, in order; with a _bulk endpoint, if the configured index name is a line. */
  lemma BodyReadsBack(hostname: string, events: seq<Event>, endpoint: Endpoint, i: nat)
    requires (forall e :: e in events ==> e.Valid()) && i < |events|
    requires endpoint.Bulk? ==> IsLine(endpoint.indexOrToken)
    ensures var lines := SplitLines(Joined(Lines(Documents(hostname, events), endpoint)));
      && |lines| == (if endpoint.Bulk? then 2 * |events| else |events|)
      && LineOf(endpoint, i) < |lines|
      && ParseObject(lines[LineOf(endpoint, i)]) == Got(Meanings(FieldsOf(hostname, events[i])), "")
      && ReadAs(ParseObject(lines[LineOf(endpoint, i)]), hostname, events[i])
  {
    hide Render, Fields, HashPlain, Fits, Lines, Joined, SplitLines, IsLine, ParseObject, Meanings, ActionLine, ReadAs,
      FieldsOf;
    var docs := Documents(hostname, events);
    DocumentsAreLines(hostname, events);
    BodyRecovered(docs, endpoint);
    LinePositions(docs, endpoint, i);
    assert events[i] in events;
    DocumentReadsBack(hostname, events[i]);
  }
}
