/** The behaviour engine's two critical rules and its remote-thread rule, and the automatic kill they can lead
    to, over kernel events that arrive one at a time. */
module Behavior {
  import opened Json
  import opened Tracker
  import Queue = ScanQueue
  import Shipper

  const MAX_DETECTIONS := 10000

  datatype Severity = Info | Low | Medium | High | Critical

  datatype Detection = Detection(ruleName: string, description: string, severity: Severity, pid: Pid)

  /** A detection by one of the rules that are not modelled one by one: none of them is critical. */
  type MinorDetection = d: Detection | !d.severity.Critical? witness Detection("", "", Info, 0)

  /** A kernel event, as far as the tracker and the rules look at it; others are the minor detections it leads to. */
  datatype KernelEvent =
    | ProcessCreated(pid: Pid, parentPid: Pid, sessionId: nat, imagePath: string, commandLine: string, time: int,
                     others: seq<MinorDetection>)
    | ProcessTerminated(pid: Pid, time: int, others: seq<MinorDetection>)
    | ImageLoaded(pid: Pid, imagePath: string)
    | ThreadChanged(pid: Pid, target: Pid, isCreate: bool, isRemote: bool)
    | RegistryChanged(pid: Pid, others: seq<MinorDetection>)
    | FileTouched(pid: Pid, eventType: nat, path: string, others: seq<MinorDetection>)
    | HandleOpened(pid: Pid, target: Pid, access: bv32)

  // -------------------------------------------------------------------- strings

  function LowerChar(c: char): char {
    if 'A' <= c <= 'Z' then (c as int + 32) as char else c
  }

  function Lower(s: string): string {
    seq(|s|, i requires 0 <= i < |s| => LowerChar(s[i]))
  }

  /** The same character, or the two cases of one ASCII letter. */
  predicate SameLetter(c: char, d: char) {
    || c == d
    || ('A' <= c <= 'Z' && d as int == c as int + 32)
    || ('A' <= d <= 'Z' && c as int == d as int + 32)
  }

  /** Equal up to the case of ASCII letters. */
  predicate SameUpToCase(s: string, t: string) {
    |s| == |t| && forall i :: 0 <= i < |s| ==> SameLetter(s[i], t[i])
  }

  /** Equal up to case to one of the names. */
  predicate Named(s: string, names: seq<string>) {
    exists k :: 0 <= k < |names| && SameUpToCase(s, names[k])
  }

  /** Comparing what Lower gives is comparing up to case. */
  lemma LowerIffSame(s: string, t: string)
    ensures Lower(s) == Lower(t) <==> SameUpToCase(s, t)
  {
    if Lower(s) == Lower(t) {
      forall i | 0 <= i < |s|
        ensures SameLetter(s[i], t[i])
      {
        assert Lower(s)[i] == Lower(t)[i];
      }
    }
  }

  /** The needle stands in the haystack, up to case, at index i. */
  predicate StandsAt(haystack: string, needle: string, i: nat) {
    i + |needle| <= |haystack| && SameUpToCase(haystack[i..i + |needle|], needle)
  }

  /** A search that ignores case finds the needle wherever it stands in some case. */
  lemma ContainsUpToCase(haystack: string, needle: string)
    ensures ContainsInsensitive(haystack, needle) <==>
            exists i :: 0 <= i <= |haystack| && StandsAt(haystack, needle, i)
  {
    hide SameUpToCase, Lower;
    LowerLength(haystack);
    LowerLength(needle);
    forall i: nat | i <= |haystack|
      ensures OccursAt(Lower(haystack), Lower(needle), i) <==> StandsAt(haystack, needle, i)
    {
      if i + |needle| <= |haystack| {
        LowerSlice(haystack, i, i + |needle|);
        LowerIffSame(haystack[i..i + |needle|], needle);
      }
    }
  }

  lemma LowerLength(s: string)
    ensures |Lower(s)| == |s|
  {
  }

  lemma LowerSlice(s: string, i: nat, j: nat)
    requires i <= j <= |s|
    ensures |Lower(s)| == |s| && Lower(s[i..j]) == Lower(s)[i..j]
  {
  }

  predicate OccursAt(haystack: string, needle: string, i: nat) {
    i + |needle| <= |haystack| && haystack[i..i + |needle|] == needle
  }

  predicate ContainsInsensitive(haystack: string, needle: string) {
    exists i :: 0 <= i <= |haystack| && OccursAt(Lower(haystack), Lower(needle), i)
  }

  // --------------------------------------------------------------------- tables

  function SystemImages(): seq<string> {
    ["smss.exe", "csrss.exe", "wininit.exe", "services.exe", "lsass.exe", "winlogon.exe", "svchost.exe", "dwm.exe",
     "fontdrvhost.exe", "lsaiso.exe", "spoolsv.exe", "searchindexer.exe", "sihost.exe", "taskhostw.exe",
     "runtimebroker.exe", "dllhost.exe", "conhost.exe", "msdtc.exe", "wuauserv.exe", "trustedinstaller.exe",
     "tiworker.exe", "audiodg.exe", "wmiprvse.exe", "explorer.exe", "ctfmon.exe", "dashost.exe",
     "securityhealthservice.exe", "sgrmbroker.exe"]
  }

  function ProtectedImages(): seq<string> {
    ["system", "smss.exe", "csrss.exe", "wininit.exe", "services.exe", "lsass.exe", "winlogon.exe", "svchost.exe",
     "dwm.exe", "fontdrvhost.exe", "msdtc.exe", "spoolsv.exe"]
  }

  function CredentialPaths(): seq<string> {
    ["\\windows\\system32\\config\\sam", "\\windows\\system32\\config\\security",
     "\\windows\\system32\\config\\system", "\\windows\\ntds\\ntds.dit"]
  }

  function ScanExtensions(): seq<string> {
    ["exe", "dll", "sys", "bat", "cmd", "ps1", "vbs", "js", "msi", "scr", "hta", "wsf", "py", "docm", "xlsm"]
  }

  /** PROCESS_VM_WRITE | PROCESS_VM_OPERATION | PROCESS_CREATE_THREAD */
  const SUSPICIOUS_MASK: bv32 := 0x002A

  // ---------------------------------------------------------------------- rules

  /** Where the last dot of a path is, or its length if there is none. */
  function LastDot(path: string): (k: nat)
    ensures k <= |path| && (k < |path| ==> path[k] == '.' && '.' !in path[k + 1..])
    ensures k == |path| <==> '.' !in path
  {
    if path == "" then 0
    else if path[|path| - 1] == '.' then |path| - 1
    else
      var k := LastDot(path[..|path| - 1]);
      if k == |path| - 1 then |path| else k
  }

  predicate HasScanExtension(path: string) {
    |path| > 2 && LastDot(path) < |path| && Lower(path[LastDot(path) + 1..]) in ScanExtensions()
  }

  /** A file that was closed and is to be scanned. */
  predicate QueuesScan(e: KernelEvent) {
    e.FileTouched? && e.eventType == 44 && HasScanExtension(e.path)
  }

  /** Session 0, and a parent that is the idle or system process. */
  predicate IsSystemService(sessionId: nat, parentPid: Pid) {
    sessionId == 0 && parentPid <= 4
  }

  predicate KnownSystem(nodes: Nodes, pid: Pid) {
    || pid <= 4
    || (pid in nodes && (Lower(nodes[pid].imageName) in SystemImages()
                         || IsSystemService(nodes[pid].sessionId, nodes[pid].parentPid)))
  }

  predicate TouchesCredentials(path: string) {
    exists k :: 0 <= k < |CredentialPaths()| && ContainsInsensitive(path, CredentialPaths()[k])
  }

  function Weight(severity: Severity): int {
    match severity
    case Low => 10
    case Medium => 25
    case High => 50
    case Critical => 100
    case Info => 1
  }

  function AlertText(d: Detection): string {
    d.ruleName + ": " + d.description
  }

  function CredentialDetection(pid: Pid, path: string): Detection {
    Detection("CredentialAccess_HiveRead", "Access to credential store: " + path, Critical, pid)
  }

  function RemoteThreadDetection(pid: Pid, target: Pid): Detection {
    Detection("ProcessInjection_RemoteThread", "Remote thread created in PID " + Decimal(target), High, pid)
  }

  function HandleDetection(pid: Pid, target: Pid): Detection {
    Detection("ProcessInjection_SuspiciousHandle",
              "Suspicious handle access to PID " + Decimal(target) + " (VM_WRITE + VM_OPERATION + CREATE_THREAD)",
              Critical, pid)
  }

  predicate CredentialRule(nodes: Nodes, e: KernelEvent)
    requires e.FileTouched?
  {
    !KnownSystem(nodes, e.pid) && (e.eventType == 40 || e.eventType == 41) && TouchesCredentials(e.path)
  }

  predicate HandleRule(nodes: Nodes, agent: Pid, e: KernelEvent)
    requires e.HandleOpened?
  {
    e.pid != agent && !KnownSystem(nodes, e.pid) && e.access & SUSPICIOUS_MASK == SUSPICIOUS_MASK && e.target != e.pid
  }

  predicate RemoteThreadRule(nodes: Nodes, agent: Pid, e: KernelEvent)
    requires e.ThreadChanged?
  {
    e.pid != agent && e.isCreate && e.isRemote && !KnownSystem(nodes, e.pid)
  }

  /** The guard of OnBehaviorDetection. */
  predicate KillGuard(nodes: Nodes, agent: Pid, d: Detection) {
    && d.severity.Critical?
    && d.pid in nodes && nodes[d.pid].alive
    && Lower(nodes[d.pid].imageName) !in ProtectedImages()
    && d.pid > 4
    && !IsSystemService(nodes[d.pid].sessionId, nodes[d.pid].parentPid)
    && d.pid != agent
  }

  // ------------------------------------------------------------- state and step

  /** The tracker's map, the bounded list of detections, and the PIDs passed to KillProcess. */
  datatype State = State(nodes: Nodes, detections: seq<Detection>, kills: seq<Pid>)

  const INIT := State(map[], [], [])

  const LIMIT := Limit(MAX_TRACKED_PROCESSES)

  function Called(s: State, op: Op): State {
    s.(nodes := Apply(s.nodes, LIMIT, op))
  }

  function Latest(detections: seq<Detection>): seq<Detection> {
    if |detections| > MAX_DETECTIONS then detections[1..] else detections
  }

  function KillsOf(nodes: Nodes, agent: Pid, d: Detection): seq<Pid> {
    if KillGuard(nodes, agent, d) then [d.pid] else []
  }

  function Scored(nodes: Nodes, d: Detection): Nodes {
    Apply(Apply(nodes, LIMIT, AddScore(d.pid, Weight(d.severity))), LIMIT, AddAlert(d.pid, AlertText(d)))
  }

  function Emitted(s: State, agent: Pid, d: Detection): State {
    State(Scored(s.nodes, d), Latest(s.detections + [d]), s.kills + KillsOf(s.nodes, agent, d))
  }

  function EmittedIf(s: State, agent: Pid, fires: bool, d: Detection): State {
    if fires then Emitted(s, agent, d) else s
  }

  function EmittedAll(s: State, agent: Pid, ds: seq<MinorDetection>): State
    decreases |ds|
  {
    if ds == [] then s else EmittedAll(Emitted(s, agent, ds[0]), agent, ds[1..])
  }

  /** The state after OnKernelEvent: the tracker first, then the rules. */
  function Handled(s: State, agent: Pid, e: KernelEvent): State {
    match e
    case ProcessCreated(pid, parentPid, sessionId, imagePath, commandLine, time, others) =>
      EmittedAll(Called(s, Create(pid, parentPid, sessionId, imagePath, commandLine, time)), agent, others)
    case ProcessTerminated(pid, time, others) =>
      EmittedAll(Called(s, Terminate(pid, time)), agent, others)
    case ImageLoaded(pid, imagePath) =>
      Called(s, LoadImage(pid, imagePath))
    case ThreadChanged(pid, target, isCreate, isRemote) =>
      var t := Called(s, if isCreate then StartThread(target) else EndThread(target));
      EmittedIf(t, agent, RemoteThreadRule(t.nodes, agent, e), RemoteThreadDetection(pid, target))
    case RegistryChanged(pid, others) =>
      EmittedAll(s, agent, others)
    case FileTouched(pid, eventType, path, others) =>
      EmittedAll(EmittedIf(s, agent, CredentialRule(s.nodes, e), CredentialDetection(pid, path)), agent, others)
    case HandleOpened(pid, target, access) =>
      EmittedIf(s, agent, HandleRule(s.nodes, agent, e), HandleDetection(pid, target))
  }

  // ------------------------------------------------------------------ the agent

  class Agent {
    const tracker: ProcessTracker
    const shipper: Shipper.TelemetryShipper
    const scanQueue: Queue.PathQueue
    const self: Pid
    var detections: seq<Detection>
    var kills: seq<Pid>

    ghost function View(): State
      reads this, tracker
    {
      State(tracker.nodes, detections, kills)
    }

    constructor (self: Pid, shipper: Shipper.TelemetryShipper, scanQueue: Queue.PathQueue)
      ensures View() == INIT && this.self == self && fresh(tracker)
      ensures this.shipper == shipper && this.scanQueue == scanQueue
    {
      this.self, this.shipper, this.scanQueue := self, shipper, scanQueue;
      tracker := new ProcessTracker();
      detections, kills := [], [];
    }

    /** IsKnownSystemProcess: the PID, then the image table, then session and parent. */
    method IsKnownSystemProcess(pid: Pid) returns (known: bool)
      ensures known == KnownSystem(tracker.nodes, pid)
    {
      hide Lower, SystemImages;
      if pid <= 4 {
        return true;
      }
      if pid !in tracker.nodes {
        return false;
      }
      var node := tracker.nodes[pid];
      var images := SystemImages();
      for i := 0 to |images|
        invariant Lower(node.imageName) !in images[..i]
      {
        if Lower(node.imageName) == images[i] {
          return true;
        }
      }
      assert images[..|images|] == images;
      known := node.sessionId == 0 && node.parentPid <= 4;
    }

    /** The kill guard of OnBehaviorDetection. */
    method IsSafeToKill(d: Detection) returns (safe: bool)
      requires d.severity.Critical?
      ensures safe == KillGuard(tracker.nodes, self, d)
    {
      hide Lower, ProtectedImages;
      safe := true;
      if d.pid !in tracker.nodes || !tracker.nodes[d.pid].alive {
        safe := false;
      } else {
        var proc := tracker.nodes[d.pid];
        var images := ProtectedImages();
        for i := 0 to |images|
          invariant safe && Lower(proc.imageName) !in images[..i]
        {
          if Lower(proc.imageName) == images[i] {
            safe := false;
            assert Lower(proc.imageName) in images;
            break;
          }
        }
        assert images[..|images|] == images;
        if d.pid <= 4 {
          safe := false;
        }
        if proc.sessionId == 0 && proc.parentPid <= 4 {
          safe := false;
        }
      }
      if safe && d.pid == self {
        safe := false;
      }
    }

    /** OnBehaviorDetection: a critical detection kills, if the guard lets it. */
    method OnBehaviorDetection(d: Detection)
      modifies this`kills
      ensures kills == old(kills) + KillsOf(tracker.nodes, self, d)
    {
      hide KillGuard;
      var safe := false;
      if d.severity.Critical? {
        safe := IsSafeToKill(d);
      } else {
        MinorNeverKills(tracker.nodes, self, d);
      }
      if safe {
        kills := kills + [d.pid];
      } else {
        assert kills + [] == kills;
      }
    }

    /** EmitDetection: the bounded deque, the callback, then score and alert. */
    method EmitDetection(d: Detection)
      modifies this, tracker
      ensures View() == Emitted(old(View()), self, d)
    {
      hide KillsOf, Weight, AlertText, Apply;
      detections := detections + [d];
      if |detections| > MAX_DETECTIONS {
        detections := detections[1..];
      }
      OnBehaviorDetection(d);
      tracker.IncrementSuspicionScore(d.pid, Weight(d.severity));
      tracker.AddProcessAlert(d.pid, AlertText(d));
    }

    method EmitAll(ds: seq<MinorDetection>)
      modifies this, tracker
      ensures View() == EmittedAll(old(View()), self, ds)
    {
      hide Emitted;
      var i := 0;
      assert ds[0..] == ds;
      while i < |ds|
        invariant 0 <= i <= |ds|
        invariant EmittedAll(View(), self, ds[i..]) == EmittedAll(old(View()), self, ds)
      {
        assert ds[i..][0] == ds[i] && ds[i..][1..] == ds[i + 1..];
        EmitDetection(ds[i]);
        i := i + 1;
      }
    }

    /** CheckCredentialAccess: at most one detection an event, for the first path that matches. */
    method CheckCredentialAccess(e: KernelEvent)
      requires e.FileTouched?
      modifies this, tracker
      ensures View() ==
        EmittedIf(old(View()), self, CredentialRule(old(View()).nodes, e), CredentialDetection(e.pid, e.path))
    {
      hide KnownSystem, CredentialPaths, ContainsInsensitive, Emitted, CredentialDetection;
      var known := IsKnownSystemProcess(e.pid);
      if known {
        return;
      }
      if e.eventType != 40 && e.eventType != 41 {
        return;
      }
      var paths := CredentialPaths();
      for k := 0 to |paths|
        invariant View() == old(View())
        invariant forall j :: 0 <= j < k ==> !ContainsInsensitive(e.path, paths[j])
      {
        if ContainsInsensitive(e.path, paths[k]) {
          EmitDetection(CredentialDetection(e.pid, e.path));
          return;
        }
      }
    }

    method AnalyzeHandleEvent(e: KernelEvent)
      requires e.HandleOpened?
      modifies this, tracker
      ensures View() ==
        EmittedIf(old(View()), self, HandleRule(old(View()).nodes, self, e), HandleDetection(e.pid, e.target))
    {
      hide KnownSystem, Emitted, HandleDetection;
      if e.pid == self {
        return;
      }
      var known := IsKnownSystemProcess(e.pid);
      if known {
        return;
      }
      if e.access & SUSPICIOUS_MASK == SUSPICIOUS_MASK {
        if e.target != e.pid {
          EmitDetection(HandleDetection(e.pid, e.target));
        }
      }
    }

    method AnalyzeThreadEvent(e: KernelEvent)
      requires e.ThreadChanged?
      modifies this, tracker
      ensures View() ==
        EmittedIf(old(View()), self, RemoteThreadRule(old(View()).nodes, self, e),
                  RemoteThreadDetection(e.pid, e.target))
    {
      hide KnownSystem, Emitted, RemoteThreadDetection;
      if e.pid == self {
        return;
      }
      if e.isCreate && e.isRemote {
        var known := IsKnownSystemProcess(e.pid);
        if known {
          return;
        }
        EmitDetection(RemoteThreadDetection(e.pid, e.target));
      }
    }

    /** OnKernelEventInner: every event is shipped first, as the line json that it is serialised to, and then goes to
        the tracker and the rules of its type; a closed file with a priority extension is queued for a scan. */
    method OnKernelEvent(e: KernelEvent, json: string)
      requires shipper.Valid()
      modifies this, tracker, shipper, scanQueue
      ensures View() == Handled(old(View()), self, e)
      ensures shipper.Valid() && shipper.running == old(shipper.running)
      ensures shipper.buffer ==
        if shipper.running then Shipper.Offered(old(shipper.buffer), json, shipper.maxBufferSize)
        else old(shipper.buffer)
      ensures |shipper.buffer| + shipper.eventsDropped ==
              |old(shipper.buffer)| + old(shipper.eventsDropped) + if shipper.running then 1 else 0
      ensures shipper.eventsBuffered == old(shipper.eventsBuffered) + if shipper.running then 1 else 0
      ensures scanQueue.queue == old(scanQueue.queue) + if QueuesScan(e) then [e.path] else []
      ensures scanQueue.signalled == (old(scanQueue.signalled) || QueuesScan(e))
    {
      hide Handled, HasScanExtension;
      shipper.ShipEvent(true, json);
      Analyze(e);
      if e.FileTouched? && e.eventType == 44 {
        var priority := IsPriorityFile(e.path);
        if priority {
          scanQueue.EnqueuePath(e.path);
        }
      }
    }

    /** The loop over the extension table. */
    method IsPriorityFile(path: string) returns (priority: bool)
      ensures priority == HasScanExtension(path)
    {
      hide Lower, ScanExtensions, LastDot;
      if |path| > 2 {
        var dot := LastDot(path);
        if dot != |path| {
          var extension := path[dot + 1..];
          var extensions := ScanExtensions();
          for i := 0 to |extensions|
            invariant Lower(extension) !in extensions[..i]
          {
            if Lower(extension) == extensions[i] {
              return true;
            }
          }
          assert extensions[..|extensions|] == extensions;
        }
      }
      priority := false;
    }

    /** The dispatch by type: the tracker first, then the rules. */
    method Analyze(e: KernelEvent)
      modifies this, tracker
      ensures View() == Handled(old(View()), self, e)
    {
      hide Apply, EmittedAll, EmittedIf, CredentialRule, HandleRule, RemoteThreadRule;
      match e
      case ProcessCreated(pid, parentPid, sessionId, imagePath, commandLine, time, others) =>
        tracker.OnProcessCreate(pid, parentPid, sessionId, imagePath, commandLine, time);
        EmitAll(others);
      case ProcessTerminated(pid, time, others) =>
        tracker.OnProcessTerminate(pid, time);
        EmitAll(others);
      case ImageLoaded(pid, imagePath) =>
        tracker.OnImageLoad(pid, imagePath);
      case ThreadChanged(pid, target, isCreate, isRemote) =>
        tracker.OnThreadEvent(target, isCreate);
        AnalyzeThreadEvent(e);
      case RegistryChanged(pid, others) =>
        EmitAll(others);
      case FileTouched(pid, eventType, path, others) =>
        CheckCredentialAccess(e);
        EmitAll(others);
      case HandleOpened(pid, target, access) =>
        AnalyzeHandleEvent(e);
    }

    /** GetRecentDetections: the newest first, at most limit of them. */
    method GetRecentDetections(limit: int) returns (result: seq<Detection>)
      ensures |result| == if limit < 0 then 0 else if limit < |detections| then limit else |detections|
      ensures forall i :: 0 <= i < |result| ==> result[i] == detections[|detections| - 1 - i]
    {
      result := [];
      var count := 0;
      while count < |detections| && count < limit
        invariant 0 <= count <= |detections| && (count <= limit || count == 0)
        invariant |result| == count
        invariant forall i :: 0 <= i < count ==> result[i] == detections[|detections| - 1 - i]
      {
        result := result + [detections[|detections| - 1 - count]];
        count := count + 1;
      }
    }
  }

  lemma MinorNeverKills(nodes: Nodes, agent: Pid, d: Detection)
    requires !d.severity.Critical?
    ensures !KillGuard(nodes, agent, d)
  {
  }
}
