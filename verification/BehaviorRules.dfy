/** What the behaviour engine's rules and the kill guard look for, said independently of how they compare: names equal
    up to case, rights by their bits, and the detections that each event raises. */
module BehaviorRules {
  import opened Behavior
  import opened Json
  import opened Tracker

  /** The images of system processes. */
  function SystemNames(): seq<string> {
    ["smss.exe", "csrss.exe", "wininit.exe", "services.exe", "lsass.exe", "winlogon.exe", "svchost.exe", "dwm.exe",
     "fontdrvhost.exe", "lsaiso.exe", "spoolsv.exe", "searchindexer.exe", "sihost.exe", "taskhostw.exe",
     "runtimebroker.exe", "dllhost.exe", "conhost.exe", "msdtc.exe", "wuauserv.exe", "trustedinstaller.exe",
     "tiworker.exe", "audiodg.exe", "wmiprvse.exe", "explorer.exe", "ctfmon.exe", "dashost.exe",
     "securityhealthservice.exe", "sgrmbroker.exe"]
  }

  /** The files that credentials are kept in. */
  function CredentialStores(): seq<string> {
    ["\\windows\\system32\\config\\sam", "\\windows\\system32\\config\\security",
     "\\windows\\system32\\config\\system", "\\windows\\ntds\\ntds.dit"]
  }

  /** What follows the last dot of a file that is worth a scan. */
  function Extensions(): seq<string> {
    ["exe", "dll", "sys", "bat", "cmd", "ps1", "vbs", "js", "msi", "scr", "hta", "wsf", "py", "docm", "xlsm"]
  }

  predicate Mentions(path: string, name: string) {
    exists i :: 0 <= i <= |path| && StandsAt(path, name, i)
  }

  predicate MentionsStore(path: string) {
    exists k :: 0 <= k < |CredentialStores()| && Mentions(path, CredentialStores()[k])
  }

  /** The rights to write memory, to operate on it and to create threads, all three. */
  predicate AllThreeRights(access: bv32) {
    access & 0x20 != 0 && access & 0x08 != 0 && access & 0x02 != 0
  }

  predicate Exempt(nodes: Nodes, pid: Pid) {
    || pid <= 4
    || (pid in nodes && (Named(nodes[pid].imageName, SystemNames())
                         || (nodes[pid].sessionId == 0 && nodes[pid].parentPid <= 4)))
  }

  /** An image that is left alone: a system image in any case, or one named system. */
  predicate Spared(image: string) {
    Named(image, SystemNames()) || SameUpToCase(image, "system")
  }

  /** The event is one that a critical rule looks for, whoever caused it. */
  predicate Triggers(e: KernelEvent) {
    || (e.FileTouched? && (e.eventType == 40 || e.eventType == 41) && MentionsStore(e.path))
    || (e.HandleOpened? && AllThreeRights(e.access) && e.target != e.pid)
  }

  // ------------------------------------------------------------- the rules find just that

  predicate InLowerCase(s: string) {
    forall i :: 0 <= i < |s| ==> !('A' <= s[i] <= 'Z')
  }

  lemma LowerOfLower(s: string)
    requires InLowerCase(s)
    ensures Lower(s) == s
  {
  }

  lemma LowerInIffNamed(s: string, names: seq<string>)
    requires forall k :: 0 <= k < |names| ==> InLowerCase(names[k])
    ensures Lower(s) in names <==> Named(s, names)
  {
    hide InLowerCase, SameUpToCase, Lower;
    forall k | 0 <= k < |names|
      ensures Lower(s) == names[k] <==> SameUpToCase(s, names[k])
    {
      LowerOfLower(names[k]);
      LowerIffSame(s, names[k]);
    }
  }

  lemma SystemNamesLower1()
    ensures forall k :: 0 <= k < 7 ==> InLowerCase(SystemNames()[k])
  {
  }

  lemma SystemNamesLower2()
    ensures forall k :: 7 <= k < 14 ==> InLowerCase(SystemNames()[k])
  {
  }

  lemma SystemNamesLower3()
    ensures forall k :: 14 <= k < 21 ==> InLowerCase(SystemNames()[k])
  {
  }

  lemma SystemNamesLower4()
    ensures forall k :: 21 <= k < 26 ==> InLowerCase(SystemNames()[k])
  {
  }

  lemma SystemNamesLower5()
    ensures forall k :: 26 <= k < 28 ==> InLowerCase(SystemNames()[k])
  {
  }

  lemma SameTables()
    ensures SystemImages() == SystemNames() && |SystemNames()| == 28
    ensures CredentialPaths() == CredentialStores() && |CredentialStores()| == 4
    ensures ScanExtensions() == Extensions()
  {
  }

  /** The system table holds an image, whatever its case. */
  lemma SystemImageIff(image: string)
    ensures Lower(image) in SystemImages() <==> Named(image, SystemNames())
  {
    hide Lower, InLowerCase, SystemImages, SystemNames, CredentialPaths, CredentialStores, ScanExtensions, Extensions,
      Named;
    SameTables();
    SystemNamesLower1();
    SystemNamesLower2();
    SystemNamesLower3();
    SystemNamesLower4();
    SystemNamesLower5();
    LowerInIffNamed(image, SystemNames());
  }

  lemma ProtectedIff(image: string)
    ensures Lower(image) in SystemImages() || Lower(image) in ProtectedImages() <==>
            Lower(image) in SystemImages() || Lower(image) == "system"
  {
    hide Lower;
  }

  /** The two tables together spare the system images and the image named system. */
  lemma SparedIff(image: string)
    ensures Lower(image) in SystemImages() || Lower(image) in ProtectedImages() <==>
            Named(image, SystemNames()) || SameUpToCase(image, "system")
  {
    hide Lower, SystemImages, ProtectedImages, SystemNames, Named, SameUpToCase;
    SystemImageIff(image);
    ProtectedIff(image);
    LowerOfLower("system");
    LowerIffSame(image, "system");
  }

  lemma ExemptIffKnown(nodes: Nodes, pid: Pid)
    ensures KnownSystem(nodes, pid) <==> Exempt(nodes, pid)
  {
    hide Lower, SystemImages, SystemNames, Named;
    if pid in nodes {
      SystemImageIff(nodes[pid].imageName);
    }
  }

  lemma StoreIff(path: string)
    ensures TouchesCredentials(path) <==> MentionsStore(path)
  {
    hide CredentialPaths, CredentialStores, SystemImages, SystemNames, ScanExtensions, Extensions, ContainsInsensitive,
      Mentions;
    SameTables();
    forall k | 0 <= k < |CredentialStores()|
      ensures ContainsInsensitive(path, CredentialPaths()[k]) <==> Mentions(path, CredentialStores()[k])
    {
      MentionsIff(path, CredentialPaths()[k]);
    }
  }

  lemma MentionsIff(path: string, name: string)
    ensures ContainsInsensitive(path, name) <==> Mentions(path, name)
  {
    hide StandsAt;
    ContainsUpToCase(path, name);
  }

  lemma RightsIffMask(access: bv32)
    ensures access & SUSPICIOUS_MASK == SUSPICIOUS_MASK <==> AllThreeRights(access)
  {
  }

  lemma ExtensionsLower()
    ensures forall k :: 0 <= k < |Extensions()| ==> InLowerCase(Extensions()[k])
  {
  }

  lemma NoDotAfter(path: string, k: nat)
    requires k < |path|
    ensures '.' !in path[k + 1..] <==> forall i :: k < i < |path| ==> path[i] != '.'
  {
    assert forall i :: k < i < |path| ==> path[i] == path[k + 1..][i - k - 1];
  }

  /** A path is worth a scan if, longer than two characters, it has a dot and what follows the last one is in some case
      one of the listed extensions. */
  lemma ScanExtensionIff(path: string)
    ensures HasScanExtension(path) <==>
            |path| > 2 && exists k :: 0 <= k < |path| && path[k] == '.' && '.' !in path[k + 1..]
                                      && Named(path[k + 1..], Extensions())
  {
    hide Lower, Extensions, ScanExtensions, InLowerCase, Named, SystemImages, SystemNames, CredentialPaths,
      CredentialStores;
    SameTables();
    ExtensionsLower();
    var dot := LastDot(path);
    if dot < |path| {
      LowerInIffNamed(path[dot + 1..], Extensions());
    } else {
      assert forall k :: 0 <= k < |path| ==> path[k] != '.';
    }
    forall k | 0 <= k < |path| && path[k] == '.' && '.' !in path[k + 1..]
      ensures k == dot
    {
      NoDotAfter(path, k);
      NoDotAfter(path, dot);
    }
  }

  /** Exactly the files closed (type 44) that are worth a scan are queued for one. */
  lemma ScanIff(e: KernelEvent)
    ensures QueuesScan(e) <==>
            e.FileTouched? && e.eventType == 44 && |e.path| > 2
            && exists k :: 0 <= k < |e.path| && e.path[k] == '.' && '.' !in e.path[k + 1..]
                           && Named(e.path[k + 1..], Extensions())
  {
    hide HasScanExtension, Named, Extensions;
    if e.FileTouched? {
      ScanExtensionIff(e.path);
    }
  }

  // ----------------------------------------------------------------- what an event raises

  /** The minor detections that an event leads to. */
  function Others(e: KernelEvent): seq<Detection> {
    match e
    case ProcessCreated(_, _, _, _, _, _, others) => others
    case ProcessTerminated(_, _, others) => others
    case RegistryChanged(_, others) => others
    case FileTouched(_, _, _, others) => others
    case _ => []
  }

  /** The detection of the rule that an event sets off, if any. */
  function Fired(nodes: Nodes, agent: Pid, e: KernelEvent): seq<Detection> {
    match e
    case ThreadChanged(pid, target, isCreate, isRemote) =>
      if isCreate && isRemote && pid != agent && !Exempt(nodes, pid) then
        [Detection("ProcessInjection_RemoteThread", "Remote thread created in PID " + Decimal(target), High, pid)]
      else []
    case FileTouched(pid, eventType, path, _) =>
      if (eventType == 40 || eventType == 41) && MentionsStore(path) && !Exempt(nodes, pid) then
        [Detection("CredentialAccess_HiveRead", "Access to credential store: " + path, Critical, pid)]
      else []
    case HandleOpened(pid, target, access) =>
      if AllThreeRights(access) && target != pid && pid != agent && !Exempt(nodes, pid) then
        [Detection("ProcessInjection_SuspiciousHandle",
                   "Suspicious handle access to PID " + Decimal(target) +
                   " (VM_WRITE + VM_OPERATION + CREATE_THREAD)", Critical, pid)]
      else []
    case _ => []
  }

  /** Everything that an event raises: its rule's detection, then its minor ones. */
  function Raised(nodes: Nodes, agent: Pid, e: KernelEvent): seq<Detection> {
    Fired(nodes, agent, e) + Others(e)
  }

  lemma ThreadRuleFires(nodes: Nodes, agent: Pid, e: KernelEvent)
    requires e.ThreadChanged?
    ensures Fired(nodes, agent, e) ==
            if RemoteThreadRule(nodes, agent, e) then [RemoteThreadDetection(e.pid, e.target)] else []
  {
    hide Exempt, KnownSystem, MentionsStore, AllThreeRights, Decimal;
    ExemptIffKnown(nodes, e.pid);
  }

  lemma CredentialRuleFires(nodes: Nodes, agent: Pid, e: KernelEvent)
    requires e.FileTouched?
    ensures Fired(nodes, agent, e) == if CredentialRule(nodes, e) then [CredentialDetection(e.pid, e.path)] else []
  {
    hide Exempt, KnownSystem, MentionsStore, TouchesCredentials, AllThreeRights, Decimal;
    ExemptIffKnown(nodes, e.pid);
    StoreIff(e.path);
  }

  lemma HandleRuleFires(nodes: Nodes, agent: Pid, e: KernelEvent)
    requires e.HandleOpened?
    ensures Fired(nodes, agent, e) == if HandleRule(nodes, agent, e) then [HandleDetection(e.pid, e.target)] else []
  {
    hide Exempt, KnownSystem, MentionsStore, AllThreeRights, Decimal;
    ExemptIffKnown(nodes, e.pid);
    RightsIffMask(e.access);
  }

  lemma NoRule(nodes: Nodes, agent: Pid, e: KernelEvent)
    requires !e.ThreadChanged? && !e.FileTouched? && !e.HandleOpened?
    ensures Raised(nodes, agent, e) == Others(e)
  {
  }

  lemma SameRule(before: Nodes, after: Nodes, agent: Pid, e: KernelEvent)
    requires e.ThreadChanged? && forall pid :: Exempt(after, pid) <==> Exempt(before, pid)
    ensures Fired(after, agent, e) == Fired(before, agent, e)
  {
    hide Exempt, Decimal;
  }

  // ----------------------------------------------------------------------- the kill guard

  /** A critical detection of pid gets past the guard before the kill. */
  predicate Unguarded(nodes: Nodes, agent: Pid, pid: Pid) {
    KillGuard(nodes, agent, Detection("", "", Critical, pid))
  }

  lemma KillsOfFile(nodes: Nodes, agent: Pid, e: KernelEvent)
    requires e.FileTouched?
    ensures (if CredentialRule(nodes, e) then KillsOf(nodes, agent, CredentialDetection(e.pid, e.path)) else []) ==
            if Triggers(e) && !Exempt(nodes, e.pid) && Unguarded(nodes, agent, e.pid) then [e.pid] else []
  {
    hide KnownSystem, Exempt, TouchesCredentials, MentionsStore, Lower, ProtectedImages;
    ExemptIffKnown(nodes, e.pid);
    StoreIff(e.path);
  }

  lemma KillsOfHandle(nodes: Nodes, agent: Pid, e: KernelEvent)
    requires e.HandleOpened?
    ensures (if HandleRule(nodes, agent, e) then KillsOf(nodes, agent, HandleDetection(e.pid, e.target)) else []) ==
            if Triggers(e) && !Exempt(nodes, e.pid) && Unguarded(nodes, agent, e.pid) then [e.pid] else []
  {
    hide KnownSystem, Exempt, AllThreeRights, Lower, ProtectedImages, Decimal;
    ExemptIffKnown(nodes, e.pid);
    RightsIffMask(e.access);
  }

  lemma MinorKillsNone(nodes: Nodes, agent: Pid, d: Detection)
    requires !d.severity.Critical?
    ensures KillsOf(nodes, agent, d) == []
  {
    MinorNeverKills(nodes, agent, d);
  }

  /** After a critical rule has passed its system test, the guard before the kill decides by three things only. */
  lemma GuardBeyondRules(nodes: Nodes, agent: Pid, d: Detection)
    requires d.severity.Critical? && !KnownSystem(nodes, d.pid)
    ensures KillGuard(nodes, agent, d) <==>
            d.pid in nodes && nodes[d.pid].alive && !SameUpToCase(nodes[d.pid].imageName, "system") && d.pid != agent
  {
    hide Lower, SameUpToCase, SystemImages, ProtectedImages;
    if d.pid in nodes {
      ProtectedIff(nodes[d.pid].imageName);
      LowerOfLower("system");
      LowerIffSame(nodes[d.pid].imageName, "system");
    }
  }

  // ------------------------------------------------------------- case makes no difference

  lemma NamedAnyCase(s: string, t: string, name: string)
    requires SameUpToCase(s, t)
    ensures SameUpToCase(s, name) <==> SameUpToCase(t, name)
  {
  }

  lemma SparedAnyCase(s: string, t: string)
    requires SameUpToCase(s, t)
    ensures Spared(s) <==> Spared(t)
  {
    hide SameUpToCase, SystemNames;
    NamedAnyCase(s, t, "system");
    forall k | 0 <= k < |SystemNames()|
      ensures SameUpToCase(s, SystemNames()[k]) <==> SameUpToCase(t, SystemNames()[k])
    {
      NamedAnyCase(s, t, SystemNames()[k]);
    }
  }

  lemma MentionsAnyCase(s: string, t: string, name: string)
    requires SameUpToCase(s, t)
    ensures Mentions(s, name) <==> Mentions(t, name)
  {
    forall i: nat | i + |name| <= |s|
      ensures StandsAt(s, name, i) <==> StandsAt(t, name, i)
    {
      NamedAnyCase(s[i..i + |name|], t[i..i + |name|], name);
    }
  }

  lemma StoreAnyCase(s: string, t: string)
    requires SameUpToCase(s, t)
    ensures MentionsStore(s) <==> MentionsStore(t)
  {
    hide SameUpToCase, CredentialStores, Mentions;
    forall k | 0 <= k < |CredentialStores()|
      ensures Mentions(s, CredentialStores()[k]) <==> Mentions(t, CredentialStores()[k])
    {
      MentionsAnyCase(s, t, CredentialStores()[k]);
    }
  }

  lemma {:induction false} FileNameAnyCase(s: string, t: string)
    requires SameUpToCase(s, t)
    ensures SameUpToCase(ExtractFileName(s), ExtractFileName(t))
  {
    if s != "" {
      var n := |s| - 1;
      assert SameLetter(s[n], t[n]);
      FileNameAnyCase(s[..n], t[..n]);
    }
  }
}
