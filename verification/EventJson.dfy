/** SerializeEvent: one event as one line of JSON. */
module EventJson {
  import opened EventFields
  import opened EventLookup
  import opened EventTypes
  import opened Json
  import opened Options

  /** What has been written once the fields fs are out and the closing brace is not. */
  function Written(fs: seq<Field>): string {
    if fs == [] then "{"
    else if |fs| == 1 then "{" + RenderField(fs[0])
    else Written(fs[..|fs| - 1]) + "," + RenderField(fs[|fs| - 1])
  }

  lemma WrittenSnoc(fs: seq<Field>, f: Field)
    ensures Written(fs + [f]) == Written(fs) + (if fs == [] then "" else ",") + RenderField(f)
  {
  }

  lemma {:induction false} WrittenTail(done: seq<Field>, fs: seq<Field>)
    requires fs != []
    ensures Written(done + fs) + "}" == Written(done) + (if done == [] then "" else ",") + RenderTail(fs)
    decreases |fs|
  {
    hide RenderField;
    WrittenSnoc(done, fs[0]);
    if |fs| == 1 {
      assert fs == [fs[0]];
    } else {
      assert done + fs == (done + [fs[0]]) + fs[1..];
      WrittenTail(done + [fs[0]], fs[1..]);
      assert RenderTail(fs) == RenderField(fs[0]) + "," + RenderTail(fs[1..]);
    }
  }

  lemma WrittenWhole(fs: seq<Field>)
    requires fs != []
    ensures Written(fs) + "}" == Render(fs)
  {
    hide RenderTail, RenderField;
    WrittenTail([], fs);
    assert [] + fs == fs;
  }

  /** The stream that SerializeEvent writes its line to. */
  class JsonWriter {
    var js: string
    ghost var fields: seq<Field>

    ghost predicate Valid()
      reads this
    {
      js == Written(fields)
    }

    constructor ()
      ensures Valid() && fields == []
    {
      js, fields := "{", [];
    }

    /** The first field: its quoted name, a colon and its text. */
    method AppendFirst(name: string, text: string, ghost value: Value)
      requires Valid() && fields == [] && text == RenderValue(value)
      modifies this
      ensures Valid() && fields == [Field(name, value)]
    {
      WrittenSnoc(fields, Field(name, value));
      js := js + ("\"" + name + "\":" + text);
      fields := fields + [Field(name, value)];
    }

    /** A further field, after a comma. */
    method Append(name: string, text: string, ghost value: Value)
      requires Valid() && fields != [] && text == RenderValue(value)
      modifies this
      ensures Valid() && fields == old(fields) + [Field(name, value)]
    {
      WrittenSnoc(fields, Field(name, value));
      js := js + "," + ("\"" + name + "\":" + text);
      fields := fields + [Field(name, value)];
    }

    /** A string field whose text is escaped. */
    method AppendText(name: string, s: string)
      requires Valid() && fields != []
      modifies this
      ensures Valid() && fields == old(fields) + [Field(name, Text(s))]
    {
      var escaped := JsonEscape(s);
      Append(name, "\"" + escaped + "\"", Text(s));
    }

    /** A string field whose text goes out as it is. */
    method AppendRaw(name: string, s: string)
      requires Valid() && fields != []
      modifies this
      ensures Valid() && fields == old(fields) + [Field(name, Raw(s))]
    {
      Append(name, "\"" + s + "\"", Raw(s));
    }

    method AppendNumber(name: string, n: int)
      requires Valid() && fields != []
      modifies this
      ensures Valid() && fields == old(fields) + [Field(name, Number(n))]
    {
      Append(name, Decimal(n), Number(n));
    }

    method AppendFlag(name: string, b: bool)
      requires Valid() && fields != []
      modifies this
      ensures Valid() && fields == old(fields) + [Field(name, Flag(b))]
    {
      Append(name, if b then "true" else "false", Flag(b));
    }

    method WriteHeader(hostname: string, h: Header)
      requires Valid() && fields == []
      modifies this
      ensures Valid() && fields == HeaderFields(hostname, h)
      ensures TellsHeader(Meanings(fields), hostname, h)
    {
      hide Written, EventTypeToString, Decimal, TimeText, TellsHeader, Meanings;
      HeaderTold(hostname, h, []);
      assert HeaderFields(hostname, h) + [] == HeaderFields(hostname, h);
      var escaped := JsonEscape(hostname);
      AppendFirst("computerName", "\"" + escaped + "\"", Text(hostname));
      AppendRaw("eventType", EventTypeToString(h.eventType));
      AppendRaw("processId", Decimal(h.processId));
      AppendRaw("threadId", Decimal(h.threadId));
      AppendNumber("sequenceNumber", h.sequenceNumber);
      AppendRaw("timestamp", TimeText(h.timestamp));
    }

    method WritePaths(b: Body)
      requires Valid() && fields != [] && b.FileBody?
      modifies this
      ensures Valid() && fields == old(fields) + PathFields(b)
    {
      hide Written;
      AppendText("filePath", b.filePath);
      if b.newFilePath.Some? {
        AppendText("newFilePath", b.newFilePath.value);
      }
      if b.processImagePath.Some? {
        AppendText("processImagePath", b.processImagePath.value);
      }
      AppendNumber("fileSize", b.fileSize);
      AppendNumber("fileAttributes", b.fileAttributes);
    }

    method WriteAccess(eventType: nat, b: Body)
      requires Valid() && fields != [] && b.FileBody?
      modifies this
      ensures Valid() && fields == old(fields) + AccessFields(eventType, b)
    {
      hide Written, HexText;
      if eventType == 40 {
        AppendNumber("createDisposition", b.createDisposition);
        AppendRaw("desiredAccess", HexText(b.desiredAccess));
        AppendRaw("shareAccess", HexText(b.shareAccess));
        AppendRaw("createOptions", HexText(b.createOptions));
      }
      if eventType == 41 {
        AppendNumber("writeOffset", b.writeOffset);
        AppendNumber("writeLength", b.writeLength);
      }
    }

    method WriteFile(eventType: nat, b: Body, sha256: Option<string>)
      requires Valid() && fields != [] && b.FileBody?
      modifies this
      ensures Valid() && fields == old(fields) + FileFields(eventType, b, sha256)
    {
      hide Written, PathFields, AccessFields;
      WritePaths(b);
      WriteAccess(eventType, b);
      if sha256.Some? && sha256.value != "" {
        AppendRaw("sha256", sha256.value);
      }
    }

    /** The switch over the event type; a type outside it adds nothing. */
    method WriteBody(eventType: nat, b: Body, sha256: Option<string>)
      requires Valid() && fields != [] && Fits(eventType, b)
      modifies this
      ensures Valid() && fields == old(fields) + BodyFields(eventType, b, sha256)
    {
      hide Written, Decimal, HexText, FileFields, CategoryOf;
      match CategoryOf(eventType)
      case ProcessEvents =>
        AppendRaw("parentProcessId", Decimal(b.parentProcessId));
        AppendNumber("sessionId", b.sessionId);
        AppendText("imagePath", b.imagePath);
        AppendText("commandLine", b.commandLine);
      case ImageEvents =>
        AppendText("imagePath", b.imagePath);
        AppendRaw("imageBase", HexText(b.imageBase));
        AppendNumber("imageSize", b.imageSize);
      case ThreadEvents =>
        AppendRaw("targetProcessId", Decimal(b.targetProcessId));
        AppendRaw("targetThreadId", Decimal(b.targetThreadId));
        AppendFlag("isRemoteThread", b.isRemoteThread);
      case RegistryEvents =>
        AppendText("keyPath", b.keyPath);
        AppendText("valueName", b.valueName);
      case FileEvents =>
        WriteFile(eventType, b, sha256);
      case HandleEvents =>
        AppendRaw("targetProcessId", Decimal(b.targetProcessId));
        AppendRaw("targetThreadId", Decimal(b.targetThreadId));
        AppendRaw("desiredAccess", HexText(b.desiredAccess));
      case NotCounted =>
    }
  }

  /** SerializeEvent: header fields, the fields of the type, closing brace. */
  method SerializeEvent(hostname: string, h: Header, b: Body, sha256: Option<string>) returns (js: string)
    requires Fits(h.eventType, b)
    ensures js == Render(Fields(hostname, h, b, sha256))
    ensures HashPlain(h.eventType, sha256) ==>
      var r := ParseObject(js); r.Got? && r.rest == "" && Tells(r.value, hostname, h, b, sha256)
  {
    hide Written, Render, HeaderFields, BodyFields, ParseObject, HashPlain, Tells;
    var writer := new JsonWriter();
    writer.WriteHeader(hostname, h);
    HeaderNotEmpty(hostname, h);
    writer.WriteBody(h.eventType, b, sha256);
    WrittenWhole(writer.fields);
    js := writer.js + "}";
    if HashPlain(h.eventType, sha256) {
      LineTells(hostname, h, b, sha256);
    }
  }
}
