/** The body of a POST: one document a line, or action and document lines in turn for a _bulk endpoint. */
module Ndjson {
  import opened Json

  predicate IsLine(s: string) {
    '\n' !in s
  }

  function Joined(lines: seq<string>): string {
    if lines == [] then "" else lines[0] + "\n" + Joined(lines[1..])
  }

  function LineEnd(s: string): (k: nat)
    ensures k <= |s| && IsLine(s[..k]) && (k < |s| ==> s[k] == '\n')
  {
    if s == "" || s[0] == '\n' then 0
    else
      var k := LineEnd(s[1..]);
      assert s[..k + 1] == [s[0]] + s[1..][..k];
      k + 1
  }

  /** How a backend cuts a body into lines. */
  function SplitLines(body: string): seq<string>
    decreases |body|
  {
    if body == "" then []
    else
      var k := LineEnd(body);
      if k == |body| then [body] else [body[..k]] + SplitLines(body[k + 1..])
  }

  lemma {:induction false} LineEndIs(line: string, t: string)
    requires IsLine(line)
    ensures LineEnd(line + "\n" + t) == |line|
  {
    var s := line + "\n" + t;
    if line == "" {
      assert s[0] == '\n';
    } else {
      assert line[0] in line;
      assert s[1..] == line[1..] + "\n" + t;
      LineEndIs(line[1..], t);
    }
  }

  lemma {:induction false} SplitGivesLines(body: string)
    ensures forall line :: line in SplitLines(body) ==> IsLine(line)
    decreases |body|
  {
    if body != "" && LineEnd(body) < |body| {
      SplitGivesLines(body[LineEnd(body) + 1..]);
    }
  }

  lemma SplitFirst(line: string, t: string)
    requires IsLine(line)
    ensures SplitLines(line + "\n" + t) == [line] + SplitLines(t)
  {
    hide LineEnd, IsLine;
    var body := line + "\n" + t;
    LineEndIs(line, t);
    assert body[..|line|] == line && body[|line| + 1..] == t;
  }

  lemma {:induction false} SplitJoined(lines: seq<string>)
    requires forall line :: line in lines ==> IsLine(line)
    ensures SplitLines(Joined(lines)) == lines
  {
    hide SplitLines, IsLine;
    if lines == [] {
      NoLines();
    } else {
      assert lines[0] in lines;
      SplitFirst(lines[0], Joined(lines[1..]));
      SplitJoined(lines[1..]);
      assert lines == [lines[0]] + lines[1..];
    }
  }

  lemma NoLines()
    ensures SplitLines("") == []
  {
  }

  /** Cutting a body at its newlines gives back what was joined, exactly when nothing joined has a newline. */
  lemma LinesRecovered(lines: seq<string>)
    ensures SplitLines(Joined(lines)) == lines <==> forall line :: line in lines ==> IsLine(line)
  {
    SplitGivesLines(Joined(lines));
    if forall line :: line in lines ==> IsLine(line) {
      SplitJoined(lines);
    }
  }

  lemma {:induction false} JoinedAppend(a: seq<string>, b: seq<string>)
    ensures Joined(a + b) == Joined(a) + Joined(b)
  {
    if a == [] {
      assert a + b == b;
    } else {
      assert (a + b)[0] == a[0] && (a + b)[1..] == a[1..] + b;
      JoinedAppend(a[1..], b);
    }
  }

  // ------------------------------------------------------------------- the body

  datatype Endpoint = Collector | Bulk(indexOrToken: string)

  const ACTION_OPEN := "{\"index\":{\"_index\":\""
  const ACTION_CLOSE := "\"}}"

  function IndexName(indexOrToken: string): string {
    if indexOrToken == "" then "vettaiyan-events" else indexOrToken
  }

  /** The action metadata line; the index name is put in as it is configured. */
  function ActionLine(indexOrToken: string): string {
    ACTION_OPEN + IndexName(indexOrToken) + ACTION_CLOSE
  }

  /** The lines of a body, in order. */
  function Lines(batch: seq<string>, endpoint: Endpoint): seq<string> {
    if batch == [] then []
    else
      (if endpoint.Bulk? then [ActionLine(endpoint.indexOrToken), batch[0]] else [batch[0]]) +
      Lines(batch[1..], endpoint)
  }

  lemma {:induction false} LinesSnoc(batch: seq<string>, line: string, endpoint: Endpoint)
    ensures Lines(batch + [line], endpoint) == Lines(batch, endpoint) + Lines([line], endpoint)
  {
    hide ActionLine;
    if batch == [] {
      assert batch + [line] == [line];
    } else {
      assert (batch + [line])[0] == batch[0] && (batch + [line])[1..] == batch[1..] + [line];
      LinesSnoc(batch[1..], line, endpoint);
    }
  }

  lemma OneLine(line: string, endpoint: Endpoint)
    ensures Joined(Lines([line], endpoint)) ==
            (if endpoint.Bulk? then ActionLine(endpoint.indexOrToken) + "\n" else "") + line + "\n"
  {
    hide ActionLine;
    assert [line][1..] == [];
    assert Joined([line]) == line + "\n" + Joined([]) == line + "\n";
    if endpoint.Bulk? {
      var action := ActionLine(endpoint.indexOrToken);
      assert [action, line][1..] == [line];
      assert Joined([action, line]) == action + "\n" + Joined([line]);
      assert Lines([line], endpoint) == [action, line];
    } else {
      assert Lines([line], endpoint) == [line];
    }
  }

  lemma NoBody(endpoint: Endpoint)
    ensures Joined(Lines([], endpoint)) == ""
  {
  }

  /** The loop of ShipperLoop that builds the body. */
  method BuildBody(batch: seq<string>, endpoint: Endpoint) returns (body: string)
    ensures body == Joined(Lines(batch, endpoint))
  {
    hide Joined, Lines, ActionLine;
    NoBody(endpoint);
    var bulkActionLine := "";
    if endpoint.Bulk? {
      bulkActionLine := ActionLine(endpoint.indexOrToken) + "\n";
    }
    body := "";
    for i := 0 to |batch|
      invariant body == Joined(Lines(batch[..i], endpoint))
    {
      assert batch[..i + 1] == batch[..i] + [batch[i]];
      LinesSnoc(batch[..i], batch[i], endpoint);
      JoinedAppend(Lines(batch[..i], endpoint), Lines([batch[i]], endpoint));
      OneLine(batch[i], endpoint);
      if endpoint.Bulk? {
        body := body + bulkActionLine;
      }
      body := body + batch[i];
      body := body + "\n";
    }
    assert batch[..|batch|] == batch;
  }

  /** With a plain endpoint line i is document i; with _bulk the lines are action, document, action, document. */
  lemma {:induction false} LinePositions(batch: seq<string>, endpoint: Endpoint, i: nat)
    requires i < |batch|
    ensures var lines := Lines(batch, endpoint);
      if endpoint.Bulk? then
        |lines| == 2 * |batch| && lines[2 * i] == ActionLine(endpoint.indexOrToken) && lines[2 * i + 1] == batch[i]
      else
        |lines| == |batch| && lines[i] == batch[i]
  {
    hide ActionLine;
    if |batch| == 1 {
      assert Lines(batch[1..], endpoint) == [];
    } else {
      LinePositions(batch[1..], endpoint, if i == 0 then 0 else i - 1);
    }
  }

  lemma ActionIsLine(indexOrToken: string)
    ensures IsLine(ActionLine(indexOrToken)) <==> IsLine(indexOrToken)
  {
  }

  lemma {:induction false} LineKinds(batch: seq<string>, endpoint: Endpoint)
    ensures (forall line :: line in Lines(batch, endpoint) ==> IsLine(line)) <==>
            (forall doc :: doc in batch ==> IsLine(doc)) &&
            (batch != [] && endpoint.Bulk? ==> IsLine(ActionLine(endpoint.indexOrToken)))
  {
    hide ActionLine, IsLine;
    if batch != [] {
      LineKinds(batch[1..], endpoint);
      assert forall doc :: doc in batch <==> doc == batch[0] || doc in batch[1..];
      var first := if endpoint.Bulk? then [ActionLine(endpoint.indexOrToken), batch[0]] else [batch[0]];
      assert Lines(batch, endpoint) == first + Lines(batch[1..], endpoint);
      assert first[|first| - 1] in first && first[0] in first;
    }
  }

  /** The backend gets every document of the batch, in order and each on its own line, exactly when no document
      has a newline and, for a _bulk endpoint, the configured index name has none either. */
  lemma BodyRecovered(batch: seq<string>, endpoint: Endpoint)
    ensures SplitLines(Joined(Lines(batch, endpoint))) == Lines(batch, endpoint) <==>
            (forall doc :: doc in batch ==> IsLine(doc)) &&
            (batch != [] && endpoint.Bulk? ==> IsLine(endpoint.indexOrToken))
  {
    LinesRecovered(Lines(batch, endpoint));
    LineKinds(batch, endpoint);
    if endpoint.Bulk? {
      ActionIsLine(endpoint.indexOrToken);
    }
  }

  /** How a backend reads an action: one object with one name, whose value is an object in its turn. */
  datatype BulkAction = BulkAction(name: string, fields: seq<Field>)

  function ReadAction(s: string): Scanned<BulkAction> {
    if |s| < 2 || s[0] != '{' || s[1] != '"' then Bad
    else
      var name := ScanString(s[2..]);
      if name.Bad? || name.rest == "" || name.rest[0] != ':' then Bad
      else
        var inner := ParseObject(name.rest[1..]);
        if inner.Bad? || inner.rest == "" || inner.rest[0] != '}' then Bad
        else Got(BulkAction(name.value, inner.value), inner.rest[1..])
  }

  /** The index name is not escaped: a backend reads the action line as the index action, with the configured name or
      else the default one under _index, exactly when that name needs no escape. */
  lemma IndexNameRead(indexOrToken: string)
    ensures var name := if indexOrToken == "" then "vettaiyan-events" else indexOrToken;
      ReadAction(ActionLine(indexOrToken)) == Got(BulkAction("index", [Field("_index", Text(name))]), "") <==>
      Plain(name)
  {
    hide ScanString, ParseObject, Plain, InnerText, ActionLine;
    var name := IndexName(indexOrToken);
    var inner := InnerText(name) + "}";
    ActionText(indexOrToken);
    KeyIsPlain();
    RawIffPlain("index", ":" + inner);
    assert (":" + inner)[1..] == inner;
    InnerObject(name);
  }

  lemma ActionText(indexOrToken: string)
    ensures var line := ActionLine(indexOrToken);
      && |line| >= 2 && line[0] == '{' && line[1] == '"'
      && line[2..] == "index" + "\"" + (":" + (InnerText(IndexName(indexOrToken)) + "}"))
  {
    hide IndexName;
  }

  function InnerText(name: string): string {
    "{\"_index\":\"" + name + "\"}"
  }

  lemma KeyIsPlain()
    ensures Plain("index") && Plain("_index")
  {
  }

  lemma InnerObject(name: string)
    ensures ParseObject(InnerText(name) + "}") == Got([Field("_index", Text(name))], "}") <==> Plain(name)
  {
    hide ScanFields, Plain, RenderTail, InnerText;
    var f := Field("_index", Raw(name));
    KeyIsPlain();
    InnerIsRendered(name);
    assert (InnerText(name) + "}")[1..] == RenderTail([f]) + "}";
    LastFieldDecides([f], "}");
    assert Meanings([f]) == [Field("_index", Text(name))];
  }

  lemma InnerIsRendered(name: string)
    ensures InnerText(name) == Render([Field("_index", Raw(name))])
  {
  }
}
