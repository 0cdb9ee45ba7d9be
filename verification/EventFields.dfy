/** The fields of an event as JSON, and how they are read back. Text from the event is already UTF-8 bytes here. */
module EventFields {
  import opened Bytes
  import opened EventTypes
  import opened Json
  import opened Options

  /** The SYSTEMTIME that the header's timestamp converts to. */
  datatype SystemTime = SystemTime(
    year: nat, month: nat, day: nat, hour: nat, minute: nat, second: nat, milliseconds: nat)

  datatype Header = Header(eventType: nat, timestamp: SystemTime, processId: nat, threadId: nat, sequenceNumber: nat)

  /** What eventData points to. A path that the code leaves out when its first character is null is None then. */
  datatype Body =
    | ProcessBody(parentProcessId: nat, sessionId: nat, imagePath: string, commandLine: string)
    | ImageBody(imagePath: string, imageBase: nat, imageSize: nat)
    | ThreadBody(targetProcessId: nat, targetThreadId: nat, isRemoteThread: bool)
    | RegistryBody(keyPath: string, valueName: string)
    | FileBody(filePath: string, newFilePath: Option<string>, processImagePath: Option<string>, fileSize: int,
               fileAttributes: nat, createDisposition: nat, desiredAccess: nat, shareAccess: nat, createOptions: nat,
               writeOffset: int, writeLength: nat)
    | HandleBody(targetProcessId: nat, targetThreadId: nat, desiredAccess: nat)
    | NoBody

  /** The body has the layout that the code reads for the header's type. */
  predicate Fits(eventType: nat, body: Body) {
    match CategoryOf(eventType)
    case ProcessEvents => body.ProcessBody?
    case ImageEvents => body.ImageBody?
    case ThreadEvents => body.ThreadBody?
    case RegistryEvents => body.RegistryBody?
    case FileEvents => body.FileBody?
    case HandleEvents => body.HandleBody?
    case NotCounted => true
  }

  function EventTypeToString(eventType: nat): string {
    if eventType == 1 then "ProcessCreate"
    else if eventType == 2 then "ProcessTerminate"
    else if eventType == 10 then "ImageLoad"
    else if eventType == 20 then "ThreadCreate"
    else if eventType == 21 then "ThreadTerminate"
    else if eventType == 30 then "RegistrySetValue"
    else if eventType == 31 then "RegistryDeleteValue"
    else if eventType == 32 then "RegistryDeleteKey"
    else if eventType == 33 then "RegistryRenameKey"
    else if eventType == 34 then "RegistryCreateKey"
    else if eventType == 40 then "FileCreate"
    else if eventType == 41 then "FileWrite"
    else if eventType == 42 then "FileDelete"
    else if eventType == 43 then "FileRename"
    else if eventType == 44 then "FileClose"
    else if eventType == 50 then "HandleCreate"
    else if eventType == 51 then "HandleDuplicate"
    else "Unknown"
  }

  /** A decimal number with leading zeros up to a minimum width. */
  function Padded(n: nat, width: nat): string {
    var ds := Digits(n, 10);
    if |ds| >= width then ds else seq(width - |ds|, _ => '0') + ds
  }

  function TimeText(t: SystemTime): string {
    Padded(t.year, 4) + "-" + Padded(t.month, 2) + "-" + Padded(t.day, 2) + "T" +
    Padded(t.hour, 2) + ":" + Padded(t.minute, 2) + ":" + Padded(t.second, 2) + "." + Padded(t.milliseconds, 3) + "Z"
  }

  function HexText(n: nat): string {
    "0x" + Digits(n, 16)
  }

  // -------------------------------------------------------- the fields of an event

  function HeaderFields(hostname: string, h: Header): seq<Field> {
    [Field("computerName", Text(hostname)),
     Field("eventType", Raw(EventTypeToString(h.eventType))),
     Field("processId", Raw(Decimal(h.processId))),
     Field("threadId", Raw(Decimal(h.threadId))),
     Field("sequenceNumber", Number(h.sequenceNumber)),
     Field("timestamp", Raw(TimeText(h.timestamp)))]
  }

  function OptionalText(name: string, s: Option<string>): seq<Field> {
    if s.Some? then [Field(name, Text(s.value))] else []
  }

  function PathFields(b: Body): seq<Field>
    requires b.FileBody?
  {
    [Field("filePath", Text(b.filePath))] +
    OptionalText("newFilePath", b.newFilePath) +
    OptionalText("processImagePath", b.processImagePath) +
    [Field("fileSize", Number(b.fileSize)), Field("fileAttributes", Number(b.fileAttributes))]
  }

  /** Only a FileCreate tells how the file was opened, only a FileWrite what was written. */
  function AccessFields(eventType: nat, b: Body): seq<Field>
    requires b.FileBody?
  {
    if eventType == 40 then
      [Field("createDisposition", Number(b.createDisposition)), Field("desiredAccess", Raw(HexText(b.desiredAccess))),
       Field("shareAccess", Raw(HexText(b.shareAccess))), Field("createOptions", Raw(HexText(b.createOptions)))]
    else if eventType == 41 then
      [Field("writeOffset", Number(b.writeOffset)), Field("writeLength", Number(b.writeLength))]
    else []
  }

  function HashFields(sha256: Option<string>): seq<Field> {
    if sha256.Some? && sha256.value != "" then [Field("sha256", Raw(sha256.value))] else []
  }

  function FileFields(eventType: nat, b: Body, sha256: Option<string>): seq<Field>
    requires b.FileBody?
  {
    PathFields(b) + AccessFields(eventType, b) + HashFields(sha256)
  }

  function BodyFields(eventType: nat, b: Body, sha256: Option<string>): seq<Field>
    requires Fits(eventType, b)
  {
    match CategoryOf(eventType)
    case ProcessEvents =>
      [Field("parentProcessId", Raw(Decimal(b.parentProcessId))), Field("sessionId", Number(b.sessionId)),
       Field("imagePath", Text(b.imagePath)), Field("commandLine", Text(b.commandLine))]
    case ImageEvents =>
      [Field("imagePath", Text(b.imagePath)), Field("imageBase", Raw(HexText(b.imageBase))),
       Field("imageSize", Number(b.imageSize))]
    case ThreadEvents =>
      [Field("targetProcessId", Raw(Decimal(b.targetProcessId))),
       Field("targetThreadId", Raw(Decimal(b.targetThreadId))),
       Field("isRemoteThread", Flag(b.isRemoteThread))]
    case RegistryEvents => [Field("keyPath", Text(b.keyPath)), Field("valueName", Text(b.valueName))]
    case FileEvents => FileFields(eventType, b, sha256)
    case HandleEvents =>
      [Field("targetProcessId", Raw(Decimal(b.targetProcessId))),
       Field("targetThreadId", Raw(Decimal(b.targetThreadId))),
       Field("desiredAccess", Raw(HexText(b.desiredAccess)))]
    case NotCounted => []
  }

  function Fields(hostname: string, h: Header, b: Body, sha256: Option<string>): (fs: seq<Field>)
    requires Fits(h.eventType, b)
    ensures fs != []
  {
    HeaderFields(hostname, h) + BodyFields(h.eventType, b, sha256)
  }

  lemma HeaderNotEmpty(hostname: string, h: Header)
    ensures HeaderFields(hostname, h) != []
  {
  }

  // ------------------------------------------------------------- reading them back

  ghost predicate AllReadable(fs: seq<Field>) {
    forall f :: f in fs ==> Readable(f)
  }

  lemma DigitsPlain(n: nat, base: nat)
    requires base == 10 || base == 16
    ensures Plain(Digits(n, base))
  {
    var ds := Digits(n, base);
    forall i | 0 <= i < |ds|
      ensures IsPlainChar(ds[i])
    {
      assert ds[i] in ds;
    }
  }

  lemma DecimalPlain(n: int)
    ensures Plain(Decimal(n))
  {
    hide Digits;
    DigitsPlain(if n < 0 then -n else n, 10);
  }

  lemma HexPlain(n: nat)
    ensures Plain(HexText(n))
  {
    hide Digits;
    DigitsPlain(n, 16);
  }

  lemma PaddedPlain(n: nat, width: nat)
    ensures Plain(Padded(n, width))
  {
    hide Digits;
    DigitsPlain(n, 10);
  }

  lemma PlainJoin(s: string, separator: string, n: nat, width: nat)
    requires Plain(s) && Plain(separator)
    ensures Plain(s + separator + Padded(n, width))
  {
    hide Plain, Padded;
    PaddedPlain(n, width);
    PlainAppend(s, separator);
    PlainAppend(s + separator, Padded(n, width));
  }

  lemma SeparatorsPlain()
    ensures Plain("-") && Plain("T") && Plain(":") && Plain(".") && Plain("Z")
  {
  }

  lemma TimePlain(t: SystemTime)
    ensures Plain(TimeText(t))
  {
    hide Plain, Padded;
    SeparatorsPlain();
    PaddedPlain(t.year, 4);
    var date := Padded(t.year, 4) + "-" + Padded(t.month, 2) + "-" + Padded(t.day, 2);
    PlainJoin(Padded(t.year, 4), "-", t.month, 2);
    PlainJoin(Padded(t.year, 4) + "-" + Padded(t.month, 2), "-", t.day, 2);
    var hours := date + "T" + Padded(t.hour, 2);
    PlainJoin(date, "T", t.hour, 2);
    PlainJoin(hours, ":", t.minute, 2);
    PlainJoin(hours + ":" + Padded(t.minute, 2), ":", t.second, 2);
    var seconds := hours + ":" + Padded(t.minute, 2) + ":" + Padded(t.second, 2);
    PlainJoin(seconds, ".", t.milliseconds, 3);
    PlainAppend(seconds + "." + Padded(t.milliseconds, 3), "Z");
  }

  lemma ProcessNamesPlain()
    ensures Plain("ProcessCreate") && Plain("ProcessTerminate") && Plain("ImageLoad") && Plain("ThreadCreate")
    ensures Plain("ThreadTerminate") && Plain("Unknown")
  {
  }

  lemma RegistryNamesPlain()
    ensures Plain("RegistrySetValue") && Plain("RegistryDeleteValue") && Plain("RegistryDeleteKey")
  {
  }

  lemma RegistryKeyNamesPlain()
    ensures Plain("RegistryRenameKey") && Plain("RegistryCreateKey")
  {
  }

  lemma FileNamesPlain()
    ensures Plain("FileCreate") && Plain("FileWrite") && Plain("FileDelete") && Plain("FileRename")
    ensures Plain("FileClose") && Plain("HandleCreate") && Plain("HandleDuplicate")
  {
  }

  lemma TypeNamePlain(eventType: nat)
    ensures Plain(EventTypeToString(eventType))
  {
    hide Plain;
    ProcessNamesPlain();
    RegistryNamesPlain();
    RegistryKeyNamesPlain();
    FileNamesPlain();
  }

  lemma FieldReadable(name: string, value: Value)
    requires Plain(name) && (value.Raw? ==> Plain(value.s))
    ensures Readable(Field(name, value))
  {
  }

  lemma HeaderKeysPlain()
    ensures Plain("computerName") && Plain("eventType") && Plain("processId") && Plain("threadId")
    ensures Plain("sequenceNumber") && Plain("timestamp")
  {
  }

  lemma HeaderReadable(hostname: string, h: Header)
    ensures AllReadable(HeaderFields(hostname, h))
  {
    hide EventTypeToString, Decimal, TimeText, Plain, Readable;
    HeaderKeysPlain();
    TypeNamePlain(h.eventType);
    DecimalPlain(h.processId);
    DecimalPlain(h.threadId);
    TimePlain(h.timestamp);
    FieldReadable("computerName", Text(hostname));
    FieldReadable("eventType", Raw(EventTypeToString(h.eventType)));
    FieldReadable("processId", Raw(Decimal(h.processId)));
    FieldReadable("threadId", Raw(Decimal(h.threadId)));
    FieldReadable("sequenceNumber", Number(h.sequenceNumber));
    FieldReadable("timestamp", Raw(TimeText(h.timestamp)));
  }

  lemma PathKeysPlain()
    ensures Plain("filePath") && Plain("newFilePath") && Plain("processImagePath")
    ensures Plain("fileSize") && Plain("fileAttributes") && Plain("sha256")
  {
  }

  lemma OptionalReadable(name: string, s: Option<string>)
    requires Plain(name)
    ensures AllReadable(OptionalText(name, s))
  {
  }

  lemma PathsReadable(b: Body)
    requires b.FileBody?
    ensures AllReadable(PathFields(b))
  {
    hide Plain, Readable, OptionalText;
    PathKeysPlain();
    FieldReadable("filePath", Text(b.filePath));
    OptionalReadable("newFilePath", b.newFilePath);
    OptionalReadable("processImagePath", b.processImagePath);
    FieldReadable("fileSize", Number(b.fileSize));
    FieldReadable("fileAttributes", Number(b.fileAttributes));
  }

  lemma AccessKeysPlain()
    ensures Plain("createDisposition") && Plain("desiredAccess") && Plain("shareAccess") && Plain("createOptions")
    ensures Plain("writeOffset") && Plain("writeLength")
  {
  }

  lemma AccessReadable(eventType: nat, b: Body)
    requires b.FileBody?
    ensures AllReadable(AccessFields(eventType, b))
  {
    hide HexText, Plain, Readable;
    AccessKeysPlain();
    HexPlain(b.desiredAccess);
    HexPlain(b.shareAccess);
    HexPlain(b.createOptions);
    FieldReadable("createDisposition", Number(b.createDisposition));
    FieldReadable("desiredAccess", Raw(HexText(b.desiredAccess)));
    FieldReadable("shareAccess", Raw(HexText(b.shareAccess)));
    FieldReadable("createOptions", Raw(HexText(b.createOptions)));
    FieldReadable("writeOffset", Number(b.writeOffset));
    FieldReadable("writeLength", Number(b.writeLength));
  }

  lemma FileReadable(eventType: nat, b: Body)
    requires b.FileBody?
    ensures AllReadable(FileFields(eventType, b, None))
  {
    hide PathFields, AccessFields, Readable;
    PathsReadable(b);
    AccessReadable(eventType, b);
  }

  lemma ProcessKeysPlain()
    ensures Plain("parentProcessId") && Plain("sessionId") && Plain("imagePath") && Plain("commandLine")
    ensures Plain("imageBase") && Plain("imageSize")
  {
  }

  lemma TargetKeysPlain()
    ensures Plain("targetProcessId") && Plain("targetThreadId") && Plain("isRemoteThread") && Plain("desiredAccess")
    ensures Plain("keyPath") && Plain("valueName")
  {
  }

  lemma ProcessReadable(eventType: nat, b: Body)
    requires Fits(eventType, b) && (CategoryOf(eventType).ProcessEvents? || CategoryOf(eventType).ImageEvents?)
    ensures AllReadable(BodyFields(eventType, b, None))
  {
    hide Decimal, HexText, FileFields, CategoryOf, Plain, Readable;
    ProcessKeysPlain();
    FieldReadable("imagePath", Text(b.imagePath));
    if b.ProcessBody? {
      DecimalPlain(b.parentProcessId);
      FieldReadable("parentProcessId", Raw(Decimal(b.parentProcessId)));
      FieldReadable("sessionId", Number(b.sessionId));
      FieldReadable("commandLine", Text(b.commandLine));
    } else {
      HexPlain(b.imageBase);
      FieldReadable("imageBase", Raw(HexText(b.imageBase)));
      FieldReadable("imageSize", Number(b.imageSize));
    }
  }

  lemma TargetReadable(eventType: nat, b: Body)
    requires Fits(eventType, b) && (CategoryOf(eventType).ThreadEvents? || CategoryOf(eventType).HandleEvents?)
    ensures AllReadable(BodyFields(eventType, b, None))
  {
    hide Decimal, HexText, FileFields, CategoryOf, Plain, Readable;
    TargetKeysPlain();
    DecimalPlain(b.targetProcessId);
    DecimalPlain(b.targetThreadId);
    FieldReadable("targetProcessId", Raw(Decimal(b.targetProcessId)));
    FieldReadable("targetThreadId", Raw(Decimal(b.targetThreadId)));
    if b.ThreadBody? {
      FieldReadable("isRemoteThread", Flag(b.isRemoteThread));
    } else {
      HexPlain(b.desiredAccess);
      FieldReadable("desiredAccess", Raw(HexText(b.desiredAccess)));
    }
  }

  lemma RegistryReadable(eventType: nat, b: Body)
    requires Fits(eventType, b) && CategoryOf(eventType).RegistryEvents?
    ensures AllReadable(BodyFields(eventType, b, None))
  {
    hide CategoryOf, Plain, Readable, FileFields;
    TargetKeysPlain();
    FieldReadable("keyPath", Text(b.keyPath));
    FieldReadable("valueName", Text(b.valueName));
  }

  /** Every field but the hash reads back, whatever the event holds. */
  lemma BodyReadable(eventType: nat, b: Body)
    requires Fits(eventType, b)
    ensures AllReadable(BodyFields(eventType, b, None))
  {
    hide FileFields, CategoryOf, AllReadable;
    match CategoryOf(eventType)
    case RegistryEvents => RegistryReadable(eventType, b);
    case FileEvents => FileReadable(eventType, b);
    case ThreadEvents => TargetReadable(eventType, b);
    case HandleEvents => TargetReadable(eventType, b);
    case NotCounted => NoneReadable();
    case _ => ProcessReadable(eventType, b);
  }

  lemma NoneReadable()
    ensures AllReadable([])
  {
  }

  /** The hash is not written, or needs no escape. */
  predicate HashPlain(eventType: nat, sha256: Option<string>) {
    CategoryOf(eventType) == FileEvents && sha256.Some? ==> Plain(sha256.value)
  }

  predicate HashWritten(eventType: nat, sha256: Option<string>) {
    CategoryOf(eventType) == FileEvents && sha256.Some? && sha256.value != ""
  }

  lemma HashIsLast(hostname: string, h: Header, b: Body, sha256: Option<string>)
    requires Fits(h.eventType, b)
    ensures Fields(hostname, h, b, sha256) == Fields(hostname, h, b, None) +
            (if HashWritten(h.eventType, sha256) then [Field("sha256", Raw(sha256.value))] else [])
  {
  }

  lemma FieldsReadable(hostname: string, h: Header, b: Body)
    requires Fits(h.eventType, b)
    ensures Fields(hostname, h, b, None) != [] && AllReadable(Fields(hostname, h, b, None))
  {
    hide HeaderFields, BodyFields, Readable;
    HeaderReadable(hostname, h);
    BodyReadable(h.eventType, b);
    HeaderNotEmpty(hostname, h);
  }

  lemma LastIsReadable(fs: seq<Field>)
    requires fs != [] && AllReadable(fs)
    ensures Readable(fs[|fs| - 1]) && Plain(fs[|fs| - 1].name)
    ensures forall f :: f in fs[..|fs| - 1] ==> Readable(f)
  {
  }

  /** A backend reads a line back as exactly the event's fields, in order, whatever bytes the event's text
      holds, if and only if the one text that comes from outside and is not escaped, the hash, needs no escape. */
  lemma EventRoundTrip(hostname: string, h: Header, b: Body, sha256: Option<string>)
    requires Fits(h.eventType, b)
    ensures var fs := Fields(hostname, h, b, sha256);
      ParseObject(Render(fs)) == Got(Meanings(fs), "") <==> HashPlain(h.eventType, sha256)
  {
    hide Fields, Render, ParseObject, Readable, Meanings, Plain, CategoryOf;
    var fs := Fields(hostname, h, b, None);
    FieldsReadable(hostname, h, b);
    HashIsLast(hostname, h, b, sha256);
    if HashWritten(h.eventType, sha256) {
      var all := fs + [Field("sha256", Raw(sha256.value))];
      assert all[..|all| - 1] == fs;
      PathKeysPlain();
      HashReadable(sha256.value);
      ObjectRoundTrip(all);
    } else {
      assert fs + [] == fs;
      LastIsReadable(fs);
      ObjectRoundTrip(fs);
      EmptyPlain();
    }
  }

  lemma HashReadable(s: string)
    requires Plain("sha256")
    ensures Readable(Field("sha256", Raw(s))) <==> Plain(s)
  {
  }

  lemma EmptyPlain()
    ensures Plain("")
  {
  }

  /** What ComputeFileSha256 writes for a digest: two lower-case hex digits a byte. */
  function HashText(digest: bytes): string {
    if digest == [] then "" else [HexDigit(digest[0] / 16), HexDigit(digest[0] % 16)] + HashText(digest[1..])
  }

  lemma {:induction false} HashTextPlain(digest: bytes)
    ensures Plain(HashText(digest)) && |HashText(digest)| == 2 * |digest|
  {
    hide Plain;
    if digest == [] {
      EmptyPlain();
    } else {
      HashTextPlain(digest[1..]);
      TwoHexPlain(digest[0] / 16, digest[0] % 16);
      PlainAppend([HexDigit(digest[0] / 16), HexDigit(digest[0] % 16)], HashText(digest[1..]));
    }
  }

  lemma TwoHexPlain(high: nat, low: nat)
    requires high < 16 && low < 16
    ensures Plain([HexDigit(high), HexDigit(low)])
  {
    HexDigitBack(high);
    HexDigitBack(low);
  }

  /** The hash that the agent passes for an event: that of the digest, or none. */
  function AgentHash(digest: Option<bytes>): Option<string> {
    if digest.Some? then Some(HashText(digest.value)) else None
  }

  lemma AgentHashPlain(eventType: nat, digest: Option<bytes>)
    ensures HashPlain(eventType, AgentHash(digest))
  {
    if digest.Some? {
      HashTextPlain(digest.value);
    }
  }

  /** So every line that the agent ships is one line, and is read back as exactly the event's fields, with no
      condition on the event. */
  lemma AgentEventRoundTrip(hostname: string, h: Header, b: Body, digest: Option<bytes>)
    requires Fits(h.eventType, b)
    ensures var fs := Fields(hostname, h, b, AgentHash(digest));
      ParseObject(Render(fs)) == Got(Meanings(fs), "") && NoControl(Render(fs))
  {
    hide Fields, Render, ParseObject, Meanings, HashPlain, AgentHash;
    AgentHashPlain(h.eventType, digest);
    EventRoundTrip(hostname, h, b, AgentHash(digest));
    EventIsOneLine(hostname, h, b, AgentHash(digest));
  }

  /** And then the line is one line: no control byte of the event's text is in it. */
  lemma EventIsOneLine(hostname: string, h: Header, b: Body, sha256: Option<string>)
    requires Fits(h.eventType, b) && HashPlain(h.eventType, sha256)
    ensures NoControl(Render(Fields(hostname, h, b, sha256)))
  {
    hide Fields, Render, Readable, Plain, CategoryOf;
    var fs := Fields(hostname, h, b, None);
    FieldsReadable(hostname, h, b);
    HashIsLast(hostname, h, b, sha256);
    if HashWritten(h.eventType, sha256) {
      PathKeysPlain();
      HashReadable(sha256.value);
    }
    ReadableClean(Fields(hostname, h, b, sha256));
    RenderClean(Fields(hostname, h, b, sha256));
  }

  lemma ReadableClean(fs: seq<Field>)
    requires AllReadable(fs)
    ensures forall f :: f in fs ==> NoControl(f.name) && (f.value.Raw? ==> NoControl(f.value.s))
  {
  }
}
