/** An event's line as a backend uses it: names are looked up in what it reads, and each gives a datum of the event. */
module EventLookup {
  import opened Bytes
  import opened EventFields
  import opened Json
  import opened Options

  /** The value of the first field of a name. */
  function Lookup(fs: seq<Field>, name: string): Option<Value> {
    if fs == [] then None else if fs[0].name == name then Some(fs[0].value) else Lookup(fs[1..], name)
  }

  // ------------------------------------------------------- what the texts say

  /** Digits that amount to n. */
  predicate IsAmount(ds: string, base: nat, n: nat) {
    ds != "" && (forall d :: d in ds ==> IsHex(d) && HexValue(d) < base) && Amount(ds, base) == n
  }

  /** A text of decimal digits that amount to n. */
  predicate IsDecimalOf(v: Option<Value>, n: nat) {
    v.Some? && v.value.Text? && IsAmount(v.value.s, 10, n)
  }

  /** A text of 0x and hex digits that amount to n. */
  predicate IsHexOf(v: Option<Value>, n: nat) {
    v.Some? && v.value.Text? && |v.value.s| > 2 && v.value.s[..2] == "0x" && IsAmount(v.value.s[2..], 16, n)
  }

  predicate IsText(v: Option<Value>, s: string) {
    v == Some(Text(s))
  }

  predicate IsNumber(v: Option<Value>, n: int) {
    v == Some(Number(n))
  }

  /** The text if there is one, and otherwise no such field. */
  predicate IsOptional(v: Option<Value>, s: Option<string>) {
    v == if s.Some? then Some(Text(s.value)) else None
  }

  /** Year, month, day, hour, minute, second and milliseconds, each in its place counted from the end. */
  predicate ShowsTime(s: string, t: SystemTime) {
    && |s| >= 24
    && var y := |s| - 20;
      && IsAmount(s[..y], 10, t.year) && s[y] == '-'
      && IsAmount(s[y + 1..y + 3], 10, t.month) && s[y + 3] == '-'
      && IsAmount(s[y + 4..y + 6], 10, t.day) && s[y + 6] == 'T'
      && IsAmount(s[y + 7..y + 9], 10, t.hour) && s[y + 9] == ':'
      && IsAmount(s[y + 10..y + 12], 10, t.minute) && s[y + 12] == ':'
      && IsAmount(s[y + 13..y + 15], 10, t.second) && s[y + 15] == '.'
      && IsAmount(s[y + 16..y + 19], 10, t.milliseconds) && s[y + 19] == 'Z'
  }

  /** The fields have the widths that SYSTEMTIME gives them. */
  predicate InRange(t: SystemTime) {
    t.month < 100 && t.day < 100 && t.hour < 100 && t.minute < 100 && t.second < 100 && t.milliseconds < 1000
  }

  predicate IsTimeOf(v: Option<Value>, t: SystemTime) {
    v.Some? && v.value.Text? && (InRange(t) ==> ShowsTime(v.value.s, t))
  }

  /** The name that a type goes by. */
  predicate NamesType(s: string, eventType: nat) {
    && (eventType == 1 ==> s == "ProcessCreate") && (eventType == 2 ==> s == "ProcessTerminate")
    && (eventType == 10 ==> s == "ImageLoad")
    && (eventType == 20 ==> s == "ThreadCreate") && (eventType == 21 ==> s == "ThreadTerminate")
    && (eventType == 30 ==> s == "RegistrySetValue") && (eventType == 31 ==> s == "RegistryDeleteValue")
    && (eventType == 32 ==> s == "RegistryDeleteKey") && (eventType == 33 ==> s == "RegistryRenameKey")
    && (eventType == 34 ==> s == "RegistryCreateKey")
    && (eventType == 40 ==> s == "FileCreate") && (eventType == 41 ==> s == "FileWrite")
    && (eventType == 42 ==> s == "FileDelete") && (eventType == 43 ==> s == "FileRename")
    && (eventType == 44 ==> s == "FileClose")
    && (eventType == 50 ==> s == "HandleCreate") && (eventType == 51 ==> s == "HandleDuplicate")
    && (eventType !in {1, 2, 10, 20, 21, 30, 31, 32, 33, 34, 40, 41, 42, 43, 44, 50, 51} ==> s == "Unknown")
  }

  // --------------------------------------------------- what a line tells of its event

  function HeaderNames(): seq<string> {
    ["computerName", "eventType", "processId", "threadId", "sequenceNumber", "timestamp"]
  }

  /** There is no field but those of the header and the given ones. */
  ghost predicate OnlyNames(fs: seq<Field>, names: seq<string>) {
    forall name :: Lookup(fs, name).Some? ==> name in HeaderNames() || name in names
  }

  predicate TellsHeader(fs: seq<Field>, hostname: string, h: Header) {
    && IsText(Lookup(fs, "computerName"), hostname)
    && IsDecimalOf(Lookup(fs, "processId"), h.processId)
    && IsDecimalOf(Lookup(fs, "threadId"), h.threadId)
    && IsNumber(Lookup(fs, "sequenceNumber"), h.sequenceNumber)
    && IsTimeOf(Lookup(fs, "timestamp"), h.timestamp)
    && Lookup(fs, "eventType").Some? && Lookup(fs, "eventType").value.Text?
    && NamesType(Lookup(fs, "eventType").value.s, h.eventType)
  }

  ghost predicate TellsProcess(fs: seq<Field>, b: Body) {
    && b.ProcessBody?
    && IsDecimalOf(Lookup(fs, "parentProcessId"), b.parentProcessId)
    && IsNumber(Lookup(fs, "sessionId"), b.sessionId)
    && IsText(Lookup(fs, "imagePath"), b.imagePath)
    && IsText(Lookup(fs, "commandLine"), b.commandLine)
    && OnlyNames(fs, ["parentProcessId", "sessionId", "imagePath", "commandLine"])
  }

  ghost predicate TellsImage(fs: seq<Field>, b: Body) {
    && b.ImageBody?
    && IsText(Lookup(fs, "imagePath"), b.imagePath)
    && IsHexOf(Lookup(fs, "imageBase"), b.imageBase)
    && IsNumber(Lookup(fs, "imageSize"), b.imageSize)
    && OnlyNames(fs, ["imagePath", "imageBase", "imageSize"])
  }

  ghost predicate TellsThread(fs: seq<Field>, b: Body) {
    && b.ThreadBody?
    && IsDecimalOf(Lookup(fs, "targetProcessId"), b.targetProcessId)
    && IsDecimalOf(Lookup(fs, "targetThreadId"), b.targetThreadId)
    && Lookup(fs, "isRemoteThread") == Some(Flag(b.isRemoteThread))
    && OnlyNames(fs, ["targetProcessId", "targetThreadId", "isRemoteThread"])
  }

  ghost predicate TellsRegistry(fs: seq<Field>, b: Body) {
    && b.RegistryBody?
    && IsText(Lookup(fs, "keyPath"), b.keyPath)
    && IsText(Lookup(fs, "valueName"), b.valueName)
    && OnlyNames(fs, ["keyPath", "valueName"])
  }

  ghost predicate TellsHandle(fs: seq<Field>, b: Body) {
    && b.HandleBody?
    && IsDecimalOf(Lookup(fs, "targetProcessId"), b.targetProcessId)
    && IsDecimalOf(Lookup(fs, "targetThreadId"), b.targetThreadId)
    && IsHexOf(Lookup(fs, "desiredAccess"), b.desiredAccess)
    && OnlyNames(fs, ["targetProcessId", "targetThreadId", "desiredAccess"])
  }

  /** What every file event tells. */
  predicate TellsPaths(fs: seq<Field>, b: Body, sha256: Option<string>) {
    && b.FileBody?
    && IsText(Lookup(fs, "filePath"), b.filePath)
    && IsOptional(Lookup(fs, "newFilePath"), b.newFilePath)
    && IsOptional(Lookup(fs, "processImagePath"), b.processImagePath)
    && IsNumber(Lookup(fs, "fileSize"), b.fileSize)
    && IsNumber(Lookup(fs, "fileAttributes"), b.fileAttributes)
    && IsOptional(Lookup(fs, "sha256"), if sha256 == Some("") then None else sha256)
  }

  function PathNames(): seq<string> {
    ["filePath", "newFilePath", "processImagePath", "fileSize", "fileAttributes", "sha256"]
  }

  /** What a file event of its type tells besides. */
  ghost predicate TellsAccess(fs: seq<Field>, eventType: nat, b: Body)
    requires b.FileBody?
  {
    if eventType == 40 then
      && IsNumber(Lookup(fs, "createDisposition"), b.createDisposition)
      && IsHexOf(Lookup(fs, "desiredAccess"), b.desiredAccess)
      && IsHexOf(Lookup(fs, "shareAccess"), b.shareAccess)
      && IsHexOf(Lookup(fs, "createOptions"), b.createOptions)
      && OnlyNames(fs, PathNames() + ["createDisposition", "desiredAccess", "shareAccess", "createOptions"])
    else if eventType == 41 then
      && IsNumber(Lookup(fs, "writeOffset"), b.writeOffset)
      && IsNumber(Lookup(fs, "writeLength"), b.writeLength)
      && OnlyNames(fs, PathNames() + ["writeOffset", "writeLength"])
    else
      OnlyNames(fs, PathNames())
  }

  ghost predicate TellsBody(fs: seq<Field>, eventType: nat, b: Body, sha256: Option<string>) {
    if eventType in {1, 2} then TellsProcess(fs, b)
    else if eventType == 10 then TellsImage(fs, b)
    else if eventType in {20, 21} then TellsThread(fs, b)
    else if eventType in {30, 31, 32, 33, 34} then TellsRegistry(fs, b)
    else if eventType in {40, 41, 42, 43, 44} then TellsPaths(fs, b, sha256) && TellsAccess(fs, eventType, b)
    else if eventType in {50, 51} then TellsHandle(fs, b)
    else OnlyNames(fs, [])
  }

  // ------------------------------------------------------------------- lookups

  lemma {:induction false} LookupAppend(a: seq<Field>, b: seq<Field>, name: string)
    ensures Lookup(a + b, name) == if Lookup(a, name).Some? then Lookup(a, name) else Lookup(b, name)
  {
    if a == [] {
      assert a + b == b;
    } else {
      assert (a + b)[0] == a[0] && (a + b)[1..] == a[1..] + b;
      LookupAppend(a[1..], b, name);
    }
  }

  lemma {:induction false} LookupAt(fs: seq<Field>, i: nat)
    requires i < |fs| && forall j :: 0 <= j < i ==> fs[j].name != fs[i].name
    ensures Lookup(fs, fs[i].name) == Some(fs[i].value)
  {
    if i > 0 {
      LookupAt(fs[1..], i - 1);
    }
  }

  lemma {:induction false} LookupNone(fs: seq<Field>, name: string)
    ensures Lookup(fs, name) == None <==> forall j :: 0 <= j < |fs| ==> fs[j].name != name
  {
    if fs != [] {
      LookupNone(fs[1..], name);
      if Lookup(fs, name) == None {
        forall j | 0 <= j < |fs|
          ensures fs[j].name != name
        {
          assert j > 0 ==> fs[j] == fs[1..][j - 1];
        }
      } else if Lookup(fs[1..], name).Some? {
        var j :| 0 <= j < |fs| - 1 && fs[1..][j].name == name;
        assert fs[j + 1].name == name;
      }
    }
  }

  function Meant(v: Option<Value>): Option<Value> {
    if v.Some? then Some(Meaning(v.value)) else None
  }

  lemma {:induction false} LookupMeant(fs: seq<Field>, name: string)
    ensures Lookup(Meanings(fs), name) == Meant(Lookup(fs, name))
  {
    if fs != [] {
      assert Meanings(fs)[1..] == Meanings(fs[1..]);
      LookupMeant(fs[1..], name);
    }
  }

  // ------------------------------------------------------- the names are distinct

  /** Equal names have equal marks. */
  function Mark(name: string): int {
    if |name| < 6 then 0 else 1_000_000 * |name| + 1000 * (name[0] as int) + name[5] as int
  }

  lemma HeaderMarks()
    ensures Mark("computerName") == 12_099_116 && Mark("eventType") == 9_101_084 && Mark("processId") == 9_112_115
    ensures Mark("threadId") == 8_116_100 && Mark("sequenceNumber") == 14_115_110 && Mark("timestamp") == 9_116_116
  {
  }

  lemma ProcessMarks()
    ensures Mark("parentProcessId") == 15_112_116 && Mark("sessionId") == 9_115_111 && Mark("imagePath") == 9_105_080
    ensures Mark("commandLine") == 11_099_110 && Mark("imageBase") == 9_105_066 && Mark("imageSize") == 9_105_083
  {
  }

  lemma TargetMarks()
    ensures Mark("targetProcessId") == 15_116_116 && Mark("targetThreadId") == 14_116_116
    ensures Mark("isRemoteThread") == 14_105_111
    ensures Mark("desiredAccess") == 13_100_101 && Mark("keyPath") == 7_107_116 && Mark("valueName") == 9_118_078
  {
  }

  lemma PathMarks()
    ensures Mark("filePath") == 8_102_097 && Mark("newFilePath") == 11_110_108 && Mark("processImagePath") == 16_112_115
    ensures Mark("fileSize") == 8_102_105 && Mark("fileAttributes") == 14_102_116 && Mark("sha256") == 6_115_054
  {
  }

  lemma AccessMarks()
    ensures Mark("createDisposition") == 17_099_101 && Mark("shareAccess") == 11_115_065
    ensures Mark("createOptions") == 13_099_101
    ensures Mark("writeOffset") == 11_119_079 && Mark("writeLength") == 11_119_076
    ensures Mark("desiredAccess") == 13_100_101
  {
  }

  // ------------------------------------------------------------ texts and numbers

  lemma DigitsAmount(n: nat, base: nat)
    requires base == 10 || base == 16
    ensures IsAmount(Digits(n, base), base, n)
  {
    DigitsBack(n, base);
  }

  lemma HexAmount(n: nat)
    ensures IsHexOf(Some(Text(HexText(n))), n)
  {
    hide Digits, IsAmount;
    DigitsAmount(n, 16);
    assert HexText(n)[..2] == "0x" && HexText(n)[2..] == Digits(n, 16);
    assert Digits(n, 16) != "";
  }

  lemma DecimalAmount(n: nat)
    ensures IsDecimalOf(Some(Text(Decimal(n))), n)
  {
    hide Digits, IsAmount;
    DigitsAmount(n, 10);
  }

  lemma {:induction false} ZerosAmount(k: nat, ds: string)
    requires forall d :: d in ds ==> IsHex(d)
    ensures forall d :: d in seq(k, _ => '0') + ds ==> IsHex(d)
    ensures Amount(seq(k, _ => '0') + ds, 10) == Amount(ds, 10)
    decreases k + |ds|
  {
    var zeros := seq(k, _ => '0');
    var all := zeros + ds;
    if ds != "" {
      assert all[..|all| - 1] == zeros + ds[..|ds| - 1];
      ZerosAmount(k, ds[..|ds| - 1]);
    } else if k > 0 {
      assert all[..|all| - 1] == seq(k - 1, _ => '0') + "";
      ZerosAmount(k - 1, "");
    }
  }

  lemma PaddedAmount(n: nat, width: nat)
    ensures IsAmount(Padded(n, width), 10, n)
    ensures |Padded(n, width)| >= width && (|Digits(n, 10)| <= width ==> |Padded(n, width)| == width)
  {
    hide Digits, Amount;
    DigitsAmount(n, 10);
    var ds := Digits(n, 10);
    if |ds| < width {
      ZerosAmount(width - |ds|, ds);
      assert forall d :: d in Padded(n, width) ==> d == '0' || d in ds;
    }
  }

  lemma FewDigits(n: nat)
    ensures n < 10 ==> |Digits(n, 10)| == 1
    ensures n < 100 ==> |Digits(n, 10)| <= 2
    ensures n < 1000 ==> |Digits(n, 10)| <= 3
  {
    assert n >= 10 ==> |Digits(n, 10)| == |Digits(n / 10, 10)| + 1;
    assert n >= 100 ==> |Digits(n / 10, 10)| == |Digits(n / 100, 10)| + 1;
  }

  /** A part of fixed width. */
  lemma TimePart(n: nat, width: nat)
    requires (width == 2 && n < 100) || (width == 3 && n < 1000)
    ensures |Padded(n, width)| == width && IsAmount(Padded(n, width), 10, n)
  {
    hide Padded, Digits, IsAmount;
    PaddedAmount(n, width);
    FewDigits(n);
  }

  lemma TimeShown(t: SystemTime)
    requires InRange(t)
    ensures ShowsTime(TimeText(t), t)
  {
    hide Padded, IsAmount;
    PaddedAmount(t.year, 4);
    TimePart(t.month, 2);
    TimePart(t.day, 2);
    TimePart(t.hour, 2);
    TimePart(t.minute, 2);
    TimePart(t.second, 2);
    TimePart(t.milliseconds, 3);
    TimeSlices(Padded(t.year, 4), Padded(t.month, 2), Padded(t.day, 2), Padded(t.hour, 2), Padded(t.minute, 2),
               Padded(t.second, 2), Padded(t.milliseconds, 3));
  }

  lemma TimeSlices(y: string, mo: string, d: string, h: string, mi: string, s: string, ms: string)
    requires |mo| == |d| == |h| == |mi| == |s| == 2 && |ms| == 3
    ensures var t, n := y + "-" + mo + "-" + d + "T" + h + ":" + mi + ":" + s + "." + ms + "Z", |y|;
      && |t| == n + 20
      && t[..n] == y && t[n] == '-' && t[n + 1..n + 3] == mo && t[n + 3] == '-' && t[n + 4..n + 6] == d
      && t[n + 6] == 'T' && t[n + 7..n + 9] == h && t[n + 9] == ':' && t[n + 10..n + 12] == mi && t[n + 12] == ':'
      && t[n + 13..n + 15] == s && t[n + 15] == '.' && t[n + 16..n + 19] == ms && t[n + 19] == 'Z'
  {
  }

  lemma TypeNamed(eventType: nat)
    ensures NamesType(EventTypeToString(eventType), eventType)
  {
  }

  // ------------------------------------------------------- the lookups, part by part

  /** The i-th field is found by its name if no earlier one has its mark. */
  lemma Find(fs: seq<Field>, i: nat)
    requires i < |fs| && forall j :: 0 <= j < i ==> Mark(fs[j].name) != Mark(fs[i].name)
    ensures Lookup(fs, fs[i].name) == Some(fs[i].value)
  {
    hide Mark;
    LookupAt(fs, i);
  }

  /** A name is not found among fields with other marks. */
  lemma Absent(fs: seq<Field>, name: string)
    requires forall j :: 0 <= j < |fs| ==> Mark(fs[j].name) != Mark(name)
    ensures Lookup(fs, name) == None
  {
    hide Mark;
    LookupNone(fs, name);
  }

  lemma HeaderLookups(hostname: string, h: Header)
    ensures var fs := HeaderFields(hostname, h);
      && Lookup(fs, "computerName") == Some(Text(hostname))
      && Lookup(fs, "eventType") == Some(Raw(EventTypeToString(h.eventType)))
      && Lookup(fs, "processId") == Some(Raw(Decimal(h.processId)))
      && Lookup(fs, "threadId") == Some(Raw(Decimal(h.threadId)))
      && Lookup(fs, "sequenceNumber") == Some(Number(h.sequenceNumber))
      && Lookup(fs, "timestamp") == Some(Raw(TimeText(h.timestamp)))
  {
    hide Mark, Lookup, EventTypeToString, Decimal, TimeText;
    var fs := HeaderFields(hostname, h);
    HeaderMarks();
    Find(fs, 0);
    Find(fs, 1);
    Find(fs, 2);
    Find(fs, 3);
    Find(fs, 4);
    Find(fs, 5);
  }

  predicate HeaderMark(m: int) {
    m in {12_099_116, 9_101_084, 9_112_115, 8_116_100, 14_115_110, 9_116_116}
  }

  lemma NotInHeader(hostname: string, h: Header, name: string)
    requires !HeaderMark(Mark(name))
    ensures Lookup(HeaderFields(hostname, h), name) == None
  {
    hide Mark, Lookup, EventTypeToString, Decimal, TimeText;
    HeaderMarks();
    Absent(HeaderFields(hostname, h), name);
  }

  /** What a reader finds in a line: a header field in the header, any other in the body. */
  lemma Found(hostname: string, h: Header, body: seq<Field>, name: string)
    ensures var fs := Meanings(HeaderFields(hostname, h) + body);
      && (Lookup(HeaderFields(hostname, h), name).Some? ==>
            Lookup(fs, name) == Meant(Lookup(HeaderFields(hostname, h), name)))
      && (!HeaderMark(Mark(name)) ==> Lookup(fs, name) == Meant(Lookup(body, name)))
  {
    hide Mark, Lookup, HeaderFields, HeaderMark, Meanings;
    LookupMeant(HeaderFields(hostname, h) + body, name);
    LookupAppend(HeaderFields(hostname, h), body, name);
    if !HeaderMark(Mark(name)) {
      NotInHeader(hostname, h, name);
    }
  }

  lemma HeaderTold(hostname: string, h: Header, body: seq<Field>)
    ensures TellsHeader(Meanings(HeaderFields(hostname, h) + body), hostname, h)
  {
    hide Mark, Lookup, HeaderFields, HeaderMark, EventTypeToString, Decimal, TimeText, IsAmount, ShowsTime, NamesType,
      InRange, Meanings;
    HeaderLookups(hostname, h);
    Found(hostname, h, body, "computerName");
    Found(hostname, h, body, "eventType");
    Found(hostname, h, body, "processId");
    Found(hostname, h, body, "threadId");
    Found(hostname, h, body, "sequenceNumber");
    Found(hostname, h, body, "timestamp");
    TypeNamed(h.eventType);
    DecimalAmount(h.processId);
    DecimalAmount(h.threadId);
    if InRange(h.timestamp) {
      TimeShown(h.timestamp);
    }
  }

  // ------------------------------------------------------------------ names

  /** Every field has one of the names. */
  ghost predicate NamedAmong(fs: seq<Field>, names: seq<string>) {
    forall j :: 0 <= j < |fs| ==> fs[j].name in names
  }

  lemma HeaderNamed(hostname: string, h: Header)
    ensures NamedAmong(HeaderFields(hostname, h), HeaderNames())
  {
    hide EventTypeToString, Decimal, TimeText;
  }

  lemma OnlyThese(hostname: string, h: Header, body: seq<Field>, names: seq<string>)
    requires NamedAmong(body, names)
    ensures OnlyNames(Meanings(HeaderFields(hostname, h) + body), names)
  {
    hide Lookup, HeaderFields, HeaderNames;
    var fs := HeaderFields(hostname, h) + body;
    HeaderNamed(hostname, h);
    forall name | Lookup(Meanings(fs), name).Some?
      ensures name in HeaderNames() || name in names
    {
      LookupMeant(fs, name);
      LookupNone(fs, name);
      var j :| 0 <= j < |fs| && fs[j].name == name;
    }
  }

  // ------------------------------------------------------------------ bodies

  lemma ProcessLookups(eventType: nat, b: Body)
    requires eventType in {1, 2} && b.ProcessBody?
    ensures var fs := BodyFields(eventType, b, None);
      && Lookup(fs, "parentProcessId") == Some(Raw(Decimal(b.parentProcessId)))
      && Lookup(fs, "sessionId") == Some(Number(b.sessionId))
      && Lookup(fs, "imagePath") == Some(Text(b.imagePath))
      && Lookup(fs, "commandLine") == Some(Text(b.commandLine))
      && NamedAmong(fs, ["parentProcessId", "sessionId", "imagePath", "commandLine"])
  {
    hide Mark, Lookup, Decimal, HexText, FileFields;
    var fs := BodyFields(eventType, b, None);
    ProcessMarks();
    Find(fs, 0);
    Find(fs, 1);
    Find(fs, 2);
    Find(fs, 3);
  }

  lemma ProcessTold(hostname: string, h: Header, b: Body)
    requires h.eventType in {1, 2} && b.ProcessBody?
    ensures TellsProcess(Meanings(HeaderFields(hostname, h) + BodyFields(h.eventType, b, None)), b)
  {
    hide Mark, Lookup, HeaderFields, BodyFields, Decimal, HexText, IsAmount, OnlyNames, NamedAmong;
    var body := BodyFields(h.eventType, b, None);
    ProcessMarks();
    ProcessLookups(h.eventType, b);
    Found(hostname, h, body, "parentProcessId");
    Found(hostname, h, body, "sessionId");
    Found(hostname, h, body, "imagePath");
    Found(hostname, h, body, "commandLine");
    DecimalAmount(b.parentProcessId);
    OnlyThese(hostname, h, body, ["parentProcessId", "sessionId", "imagePath", "commandLine"]);
  }

  lemma ImageLookups(eventType: nat, b: Body)
    requires eventType in {10} && b.ImageBody?
    ensures var fs := BodyFields(eventType, b, None);
      && Lookup(fs, "imagePath") == Some(Text(b.imagePath))
      && Lookup(fs, "imageBase") == Some(Raw(HexText(b.imageBase)))
      && Lookup(fs, "imageSize") == Some(Number(b.imageSize))
      && NamedAmong(fs, ["imagePath", "imageBase", "imageSize"])
  {
    hide Mark, Lookup, Decimal, HexText, FileFields;
    var fs := BodyFields(eventType, b, None);
    ProcessMarks();
    Find(fs, 0);
    Find(fs, 1);
    Find(fs, 2);
  }

  lemma ImageTold(hostname: string, h: Header, b: Body)
    requires h.eventType in {10} && b.ImageBody?
    ensures TellsImage(Meanings(HeaderFields(hostname, h) + BodyFields(h.eventType, b, None)), b)
  {
    hide Mark, Lookup, HeaderFields, BodyFields, Decimal, HexText, IsAmount, OnlyNames, NamedAmong;
    var body := BodyFields(h.eventType, b, None);
    ProcessMarks();
    ImageLookups(h.eventType, b);
    Found(hostname, h, body, "imagePath");
    Found(hostname, h, body, "imageBase");
    Found(hostname, h, body, "imageSize");
    HexAmount(b.imageBase);
    OnlyThese(hostname, h, body, ["imagePath", "imageBase", "imageSize"]);
  }

  lemma ThreadLookups(eventType: nat, b: Body)
    requires eventType in {20, 21} && b.ThreadBody?
    ensures var fs := BodyFields(eventType, b, None);
      && Lookup(fs, "targetProcessId") == Some(Raw(Decimal(b.targetProcessId)))
      && Lookup(fs, "targetThreadId") == Some(Raw(Decimal(b.targetThreadId)))
      && Lookup(fs, "isRemoteThread") == Some(Flag(b.isRemoteThread))
      && NamedAmong(fs, ["targetProcessId", "targetThreadId", "isRemoteThread"])
  {
    hide Mark, Lookup, Decimal, HexText, FileFields;
    var fs := BodyFields(eventType, b, None);
    TargetMarks();
    Find(fs, 0);
    Find(fs, 1);
    Find(fs, 2);
  }

  lemma ThreadTold(hostname: string, h: Header, b: Body)
    requires h.eventType in {20, 21} && b.ThreadBody?
    ensures TellsThread(Meanings(HeaderFields(hostname, h) + BodyFields(h.eventType, b, None)), b)
  {
    hide Mark, Lookup, HeaderFields, BodyFields, Decimal, HexText, IsAmount, OnlyNames, NamedAmong;
    var body := BodyFields(h.eventType, b, None);
    TargetMarks();
    ThreadLookups(h.eventType, b);
    Found(hostname, h, body, "targetProcessId");
    Found(hostname, h, body, "targetThreadId");
    Found(hostname, h, body, "isRemoteThread");
    DecimalAmount(b.targetProcessId);
    DecimalAmount(b.targetThreadId);
    OnlyThese(hostname, h, body, ["targetProcessId", "targetThreadId", "isRemoteThread"]);
  }

  lemma RegistryLookups(eventType: nat, b: Body)
    requires eventType in {30, 31, 32, 33, 34} && b.RegistryBody?
    ensures var fs := BodyFields(eventType, b, None);
      && Lookup(fs, "keyPath") == Some(Text(b.keyPath))
      && Lookup(fs, "valueName") == Some(Text(b.valueName))
      && NamedAmong(fs, ["keyPath", "valueName"])
  {
    hide Mark, Lookup, Decimal, HexText, FileFields;
    var fs := BodyFields(eventType, b, None);
    TargetMarks();
    Find(fs, 0);
    Find(fs, 1);
  }

  lemma RegistryTold(hostname: string, h: Header, b: Body)
    requires h.eventType in {30, 31, 32, 33, 34} && b.RegistryBody?
    ensures TellsRegistry(Meanings(HeaderFields(hostname, h) + BodyFields(h.eventType, b, None)), b)
  {
    hide Mark, Lookup, HeaderFields, BodyFields, Decimal, HexText, IsAmount, OnlyNames, NamedAmong;
    var body := BodyFields(h.eventType, b, None);
    TargetMarks();
    RegistryLookups(h.eventType, b);
    Found(hostname, h, body, "keyPath");
    Found(hostname, h, body, "valueName");
    OnlyThese(hostname, h, body, ["keyPath", "valueName"]);
  }

  lemma HandleLookups(eventType: nat, b: Body)
    requires eventType in {50, 51} && b.HandleBody?
    ensures var fs := BodyFields(eventType, b, None);
      && Lookup(fs, "targetProcessId") == Some(Raw(Decimal(b.targetProcessId)))
      && Lookup(fs, "targetThreadId") == Some(Raw(Decimal(b.targetThreadId)))
      && Lookup(fs, "desiredAccess") == Some(Raw(HexText(b.desiredAccess)))
      && NamedAmong(fs, ["targetProcessId", "targetThreadId", "desiredAccess"])
  {
    hide Mark, Lookup, Decimal, HexText, FileFields;
    var fs := BodyFields(eventType, b, None);
    TargetMarks();
    Find(fs, 0);
    Find(fs, 1);
    Find(fs, 2);
  }

  lemma HandleTold(hostname: string, h: Header, b: Body)
    requires h.eventType in {50, 51} && b.HandleBody?
    ensures TellsHandle(Meanings(HeaderFields(hostname, h) + BodyFields(h.eventType, b, None)), b)
  {
    hide Mark, Lookup, HeaderFields, BodyFields, Decimal, HexText, IsAmount, OnlyNames, NamedAmong;
    var body := BodyFields(h.eventType, b, None);
    TargetMarks();
    HandleLookups(h.eventType, b);
    Found(hostname, h, body, "targetProcessId");
    Found(hostname, h, body, "targetThreadId");
    Found(hostname, h, body, "desiredAccess");
    DecimalAmount(b.targetProcessId);
    DecimalAmount(b.targetThreadId);
    HexAmount(b.desiredAccess);
    OnlyThese(hostname, h, body, ["targetProcessId", "targetThreadId", "desiredAccess"]);
  }

  // ------------------------------------------------------------------ files

  lemma OptionalLookup(name: string, s: Option<string>, asked: string)
    ensures Lookup(OptionalText(name, s), asked) == if asked == name && s.Some? then Some(Text(s.value)) else None
  {
  }

  lemma ThreeParts(a: seq<Field>, b: seq<Field>, c: seq<Field>, name: string)
    ensures Lookup(a + b + c, name) ==
            if Lookup(a, name).Some? then Lookup(a, name)
            else if Lookup(b, name).Some? then Lookup(b, name)
            else Lookup(c, name)
  {
    hide Lookup;
    LookupAppend(a + b, c, name);
    LookupAppend(a, b, name);
  }

  lemma PathLookup(b: Body, name: string)
    requires b.FileBody?
    ensures Lookup(PathFields(b), name) ==
            if name == "filePath" then Some(Text(b.filePath))
            else if name == "newFilePath" && b.newFilePath.Some? then Some(Text(b.newFilePath.value))
            else if name == "processImagePath" && b.processImagePath.Some? then Some(Text(b.processImagePath.value))
            else if name == "fileSize" then Some(Number(b.fileSize))
            else if name == "fileAttributes" then Some(Number(b.fileAttributes))
            else None
  {
    hide OptionalText, Lookup;
    var first := [Field("filePath", Text(b.filePath))];
    var newPath, image := OptionalText("newFilePath", b.newFilePath),
                          OptionalText("processImagePath", b.processImagePath);
    var last := [Field("fileSize", Number(b.fileSize)), Field("fileAttributes", Number(b.fileAttributes))];
    ThreeParts(first, newPath, image, name);
    LookupAppend(first + newPath + image, last, name);
    OptionalLookup("newFilePath", b.newFilePath, name);
    OptionalLookup("processImagePath", b.processImagePath, name);
    LookupFirst(first, name);
    LookupFirst(last, name);
    LookupFirst(last[1..], name);
    LookupNone([], name);
    assert first[1..] == [] && last[1..][1..] == [];
  }

  lemma LookupFirst(fs: seq<Field>, name: string)
    requires fs != []
    ensures Lookup(fs, name) == if fs[0].name == name then Some(fs[0].value) else Lookup(fs[1..], name)
  {
  }

  lemma AccessLookup(eventType: nat, b: Body, name: string)
    requires b.FileBody?
    ensures Lookup(AccessFields(eventType, b), name) ==
            if eventType == 40 then
              if name == "createDisposition" then Some(Number(b.createDisposition))
              else if name == "desiredAccess" then Some(Raw(HexText(b.desiredAccess)))
              else if name == "shareAccess" then Some(Raw(HexText(b.shareAccess)))
              else if name == "createOptions" then Some(Raw(HexText(b.createOptions)))
              else None
            else if eventType == 41 then
              if name == "writeOffset" then Some(Number(b.writeOffset))
              else if name == "writeLength" then Some(Number(b.writeLength))
              else None
            else None
  {
    hide Mark, Lookup, HexText;
    var fs := AccessFields(eventType, b);
    LookupNone(fs, name);
    AccessMarks();
    if eventType == 40 {
      Find(fs, 0);
      Find(fs, 1);
      Find(fs, 2);
      Find(fs, 3);
    } else if eventType == 41 {
      Find(fs, 0);
      Find(fs, 1);
    }
  }

  lemma HashLookup(sha256: Option<string>, name: string)
    ensures Lookup(HashFields(sha256), name) ==
            if name == "sha256" && sha256.Some? && sha256.value != "" then Some(Raw(sha256.value)) else None
  {
  }

  lemma FileLookup(eventType: nat, b: Body, sha256: Option<string>, name: string)
    requires b.FileBody?
    ensures Lookup(FileFields(eventType, b, sha256), name) ==
            if Lookup(PathFields(b), name).Some? then Lookup(PathFields(b), name)
            else if Lookup(AccessFields(eventType, b), name).Some? then Lookup(AccessFields(eventType, b), name)
            else Lookup(HashFields(sha256), name)
  {
    hide Lookup, PathFields, AccessFields, HashFields;
    ThreeParts(PathFields(b), AccessFields(eventType, b), HashFields(sha256), name);
  }

  lemma IsFile(eventType: nat, b: Body, sha256: Option<string>)
    requires eventType in {40, 41, 42, 43, 44} && b.FileBody?
    ensures Fits(eventType, b) && BodyFields(eventType, b, sha256) == FileFields(eventType, b, sha256)
  {
    hide FileFields;
  }

  /** A name that no type has alone. */
  lemma PathFound(hostname: string, h: Header, b: Body, sha256: Option<string>, name: string)
    requires b.FileBody? && name in PathNames()
    ensures Lookup(Meanings(HeaderFields(hostname, h) + FileFields(h.eventType, b, sha256)), name) ==
            if name == "sha256" then Meant(Lookup(HashFields(sha256), name)) else Meant(Lookup(PathFields(b), name))
  {
    hide Mark, Lookup, HeaderFields, FileFields, PathFields, HashFields, AccessFields, HexText;
    PathMarks();
    AccessMarks();
    Found(hostname, h, FileFields(h.eventType, b, sha256), name);
    FileLookup(h.eventType, b, sha256, name);
    PathLookup(b, name);
    AccessLookup(h.eventType, b, name);
    HashLookup(sha256, name);
  }

  lemma PathsTold(hostname: string, h: Header, b: Body, sha256: Option<string>)
    requires b.FileBody?
    ensures TellsPaths(Meanings(HeaderFields(hostname, h) + FileFields(h.eventType, b, sha256)), b, sha256)
  {
    hide Mark, Lookup, HeaderFields, FileFields, PathFields, HashFields, Meanings;
    PathMarks();
    PathFound(hostname, h, b, sha256, "filePath");
    PathFound(hostname, h, b, sha256, "newFilePath");
    PathFound(hostname, h, b, sha256, "processImagePath");
    PathFound(hostname, h, b, sha256, "fileSize");
    PathFound(hostname, h, b, sha256, "fileAttributes");
    PathFound(hostname, h, b, sha256, "sha256");
    PathLookup(b, "filePath");
    PathLookup(b, "newFilePath");
    PathLookup(b, "processImagePath");
    PathLookup(b, "fileSize");
    PathLookup(b, "fileAttributes");
    HashLookup(sha256, "sha256");
  }

  /** A name that only one type has. */
  lemma AccessFound(hostname: string, h: Header, b: Body, sha256: Option<string>, name: string)
    requires b.FileBody? && name !in PathNames() && !HeaderMark(Mark(name))
    ensures Lookup(Meanings(HeaderFields(hostname, h) + FileFields(h.eventType, b, sha256)), name) ==
            Meant(Lookup(AccessFields(h.eventType, b), name))
  {
    hide Mark, Lookup, HeaderFields, FileFields, PathFields, HashFields, AccessFields, HeaderMark;
    Found(hostname, h, FileFields(h.eventType, b, sha256), name);
    FileLookup(h.eventType, b, sha256, name);
    PathLookup(b, name);
    HashLookup(sha256, name);
    assert PathNames()[0] == "filePath";
  }

  function CreateNames(): seq<string> {
    ["createDisposition", "desiredAccess", "shareAccess", "createOptions"]
  }

  function WriteNames(): seq<string> {
    ["writeOffset", "writeLength"]
  }

  lemma AccessNotPaths(name: string)
    requires name in CreateNames() || name in WriteNames()
    ensures name !in PathNames() && !HeaderMark(Mark(name))
  {
    hide Mark;
    AccessMarks();
    PathMarks();
  }

  lemma PathsNamed(b: Body)
    requires b.FileBody?
    ensures NamedAmong(PathFields(b), PathNames())
  {
  }

  lemma HashNamed(sha256: Option<string>)
    ensures NamedAmong(HashFields(sha256), PathNames())
  {
  }

  lemma AccessNamed(eventType: nat, b: Body)
    requires b.FileBody?
    ensures eventType == 40 ==> NamedAmong(AccessFields(eventType, b), CreateNames())
    ensures eventType == 41 ==> NamedAmong(AccessFields(eventType, b), WriteNames())
    ensures eventType != 40 && eventType != 41 ==> AccessFields(eventType, b) == []
  {
    hide HexText;
  }

  lemma FileNamed(eventType: nat, b: Body, sha256: Option<string>, names: seq<string>)
    requires b.FileBody? && NamedAmong(AccessFields(eventType, b), names)
    ensures NamedAmong(FileFields(eventType, b, sha256), PathNames() + names)
  {
    hide PathFields, AccessFields, HashFields, PathNames;
    PathsNamed(b);
    HashNamed(sha256);
  }

  lemma CreateTold(hostname: string, h: Header, b: Body, sha256: Option<string>)
    requires h.eventType == 40 && b.FileBody?
    ensures TellsAccess(Meanings(HeaderFields(hostname, h) + FileFields(h.eventType, b, sha256)), h.eventType, b)
  {
    hide Mark, Lookup, HeaderFields, FileFields, AccessFields, HexText, IsAmount, OnlyNames, NamedAmong, Meanings,
      PathNames, HeaderMark;
    forall name | name in CreateNames()
      ensures Lookup(Meanings(HeaderFields(hostname, h) + FileFields(h.eventType, b, sha256)), name) ==
              Meant(Lookup(AccessFields(h.eventType, b), name))
    {
      AccessNotPaths(name);
      AccessFound(hostname, h, b, sha256, name);
    }
    assert CreateNames()[0] == "createDisposition" && CreateNames()[1] == "desiredAccess";
    assert CreateNames()[2] == "shareAccess" && CreateNames()[3] == "createOptions";
    CreateLookups(b);
    HexAmount(b.desiredAccess);
    HexAmount(b.shareAccess);
    HexAmount(b.createOptions);
    AccessNamed(h.eventType, b);
    FileNamed(h.eventType, b, sha256, CreateNames());
    OnlyThese(hostname, h, FileFields(h.eventType, b, sha256), PathNames() + CreateNames());
  }

  lemma CreateLookups(b: Body)
    requires b.FileBody?
    ensures var fs := AccessFields(40, b);
      && Lookup(fs, "createDisposition") == Some(Number(b.createDisposition))
      && Lookup(fs, "desiredAccess") == Some(Raw(HexText(b.desiredAccess)))
      && Lookup(fs, "shareAccess") == Some(Raw(HexText(b.shareAccess)))
      && Lookup(fs, "createOptions") == Some(Raw(HexText(b.createOptions)))
  {
    hide Mark, Lookup, HexText, AccessFields;
    AccessMarks();
    AccessLookup(40, b, "createDisposition");
    AccessLookup(40, b, "desiredAccess");
    AccessLookup(40, b, "shareAccess");
    AccessLookup(40, b, "createOptions");
  }

  lemma WriteTold(hostname: string, h: Header, b: Body, sha256: Option<string>)
    requires h.eventType == 41 && b.FileBody?
    ensures TellsAccess(Meanings(HeaderFields(hostname, h) + FileFields(h.eventType, b, sha256)), h.eventType, b)
  {
    hide Mark, Lookup, HeaderFields, FileFields, AccessFields, OnlyNames, NamedAmong, Meanings, PathNames, HeaderMark;
    forall name | name in WriteNames()
      ensures Lookup(Meanings(HeaderFields(hostname, h) + FileFields(h.eventType, b, sha256)), name) ==
              Meant(Lookup(AccessFields(h.eventType, b), name))
    {
      AccessNotPaths(name);
      AccessFound(hostname, h, b, sha256, name);
    }
    assert WriteNames()[0] == "writeOffset" && WriteNames()[1] == "writeLength";
    WriteLookups(b);
    AccessNamed(h.eventType, b);
    FileNamed(h.eventType, b, sha256, WriteNames());
    OnlyThese(hostname, h, FileFields(h.eventType, b, sha256), PathNames() + WriteNames());
  }

  lemma WriteLookups(b: Body)
    requires b.FileBody?
    ensures var fs := AccessFields(41, b);
      && Lookup(fs, "writeOffset") == Some(Number(b.writeOffset))
      && Lookup(fs, "writeLength") == Some(Number(b.writeLength))
  {
    hide Mark, Lookup, AccessFields;
    AccessMarks();
    AccessLookup(41, b, "writeOffset");
    AccessLookup(41, b, "writeLength");
  }

  lemma OtherFileTold(hostname: string, h: Header, b: Body, sha256: Option<string>)
    requires h.eventType != 40 && h.eventType != 41 && b.FileBody?
    ensures TellsAccess(Meanings(HeaderFields(hostname, h) + FileFields(h.eventType, b, sha256)), h.eventType, b)
  {
    hide HeaderFields, FileFields, AccessFields, OnlyNames, Meanings, PathNames;
    AccessNamed(h.eventType, b);
    FileNamed(h.eventType, b, sha256, []);
    assert PathNames() + [] == PathNames();
    OnlyThese(hostname, h, FileFields(h.eventType, b, sha256), PathNames());
  }

  // ---------------------------------------------------------------- main result

  /** What a backend reads of an event tells the event: looked up by name, every field of the header and of the body of
      its type gives its datum, an optional one is there exactly when it was given, and there is no other name. */
  ghost predicate Tells(fs: seq<Field>, hostname: string, h: Header, b: Body, sha256: Option<string>) {
    TellsHeader(fs, hostname, h) && TellsBody(fs, h.eventType, b, sha256)
  }

  lemma HashOnlyInFiles(eventType: nat, b: Body, sha256: Option<string>)
    requires Fits(eventType, b) && eventType !in {40, 41, 42, 43, 44}
    ensures BodyFields(eventType, b, sha256) == BodyFields(eventType, b, None)
    ensures eventType !in {1, 2, 10, 20, 21, 30, 31, 32, 33, 34, 50, 51} ==> BodyFields(eventType, b, None) == []
  {
    hide Decimal, HexText, FileFields;
  }

  lemma BodyTold(hostname: string, h: Header, b: Body, sha256: Option<string>)
    requires Fits(h.eventType, b)
    ensures TellsBody(Meanings(HeaderFields(hostname, h) + BodyFields(h.eventType, b, sha256)), h.eventType, b, sha256)
  {
    hide BodyFields, HeaderFields, FileFields, TellsProcess, TellsImage, TellsThread, TellsRegistry, TellsHandle,
      TellsPaths, TellsAccess, OnlyNames, Meanings;
    if h.eventType in {40, 41, 42, 43, 44} {
      IsFile(h.eventType, b, sha256);
      PathsTold(hostname, h, b, sha256);
      if h.eventType == 40 {
        CreateTold(hostname, h, b, sha256);
      } else if h.eventType == 41 {
        WriteTold(hostname, h, b, sha256);
      } else {
        OtherFileTold(hostname, h, b, sha256);
      }
    } else {
      HashOnlyInFiles(h.eventType, b, sha256);
      if h.eventType in {1, 2} {
        ProcessTold(hostname, h, b);
      } else if h.eventType == 10 {
        ImageTold(hostname, h, b);
      } else if h.eventType in {20, 21} {
        ThreadTold(hostname, h, b);
      } else if h.eventType in {30, 31, 32, 33, 34} {
        RegistryTold(hostname, h, b);
      } else if h.eventType in {50, 51} {
        HandleTold(hostname, h, b);
      } else {
        OnlyThese(hostname, h, [], []);
      }
    }
  }

  lemma EventTold(hostname: string, h: Header, b: Body, sha256: Option<string>)
    requires Fits(h.eventType, b)
    ensures Tells(Meanings(Fields(hostname, h, b, sha256)), hostname, h, b, sha256)
  {
    hide BodyFields, HeaderFields, TellsHeader, TellsBody, Meanings;
    HeaderTold(hostname, h, BodyFields(h.eventType, b, sha256));
    BodyTold(hostname, h, b, sha256);
  }

  /** A reader of the line gets an object that tells the event, if the hash needs no escape. */
  lemma LineTells(hostname: string, h: Header, b: Body, sha256: Option<string>)
    requires Fits(h.eventType, b) && HashPlain(h.eventType, sha256)
    ensures var r := ParseObject(Render(Fields(hostname, h, b, sha256)));
      r.Got? && r.rest == "" && Tells(r.value, hostname, h, b, sha256)
  {
    hide Fields, Render, ParseObject, Meanings, HashPlain, Tells;
    EventRoundTrip(hostname, h, b, sha256);
    EventTold(hostname, h, b, sha256);
  }

  /** With the hash that the agent passes there is no condition. */
  lemma AgentLineTells(hostname: string, h: Header, b: Body, digest: Option<bytes>)
    requires Fits(h.eventType, b)
    ensures var r := ParseObject(Render(Fields(hostname, h, b, AgentHash(digest))));
      r.Got? && r.rest == "" && Tells(r.value, hostname, h, b, AgentHash(digest))
  {
    hide Fields, Render, ParseObject, HashPlain, Tells, AgentHash;
    AgentHashPlain(h.eventType, digest);
    LineTells(hostname, h, b, AgentHash(digest));
  }

  /** And that hash has the digest's bytes, each as two hex digits. */
  lemma {:induction false} HashDigits(digest: bytes, i: nat)
    requires i < |digest|
    ensures var s := HashText(digest);
      |s| == 2 * |digest| && IsAmount(s[2 * i..2 * i + 2], 16, digest[i])
  {
    hide IsAmount;
    var first := [HexDigit(digest[0] / 16), HexDigit(digest[0] % 16)];
    HashTextPlain(digest);
    if i == 0 {
      assert HashText(digest)[..2] == first;
      TwoDigits(digest[0]);
    } else {
      HashDigits(digest[1..], i - 1);
      assert HashText(digest)[2 * i..2 * i + 2] == HashText(digest[1..])[2 * (i - 1)..2 * (i - 1) + 2];
    }
  }

  lemma TwoDigits(b: byte)
    ensures IsAmount([HexDigit(b / 16), HexDigit(b % 16)], 16, b)
  {
    HexDigitBack(b / 16);
    HexDigitBack(b % 16);
    var ds := [HexDigit(b / 16), HexDigit(b % 16)];
    assert ds[..1] == [ds[0]] && ds[..1][..0] == "";
    assert Amount(ds[..1], 16) == HexValue(ds[0]);
  }
}
