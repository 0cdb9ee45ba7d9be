/** The process tree, detections, scores and automatic kills over whole runs, in terms of the kernel events alone: for
    every agent PID and every list of events. */
module BehaviorHistory {
  import opened Behavior
  import opened BehaviorRules
  import opened BehaviorSteps
  import opened Json
  import opened Tracker

  function Run(agent: Pid, events: seq<KernelEvent>): State
    decreases |events|
  {
    if events == [] then INIT else Handled(Run(agent, events[..|events| - 1]), agent, events[|events| - 1])
  }

  /** The index of the latest create of pid, or -1. */
  function LatestCreate(events: seq<KernelEvent>, pid: Pid): (k: int)
    ensures -1 <= k < |events|
    ensures k >= 0 ==> Creates(events[k], pid)
    ensures forall i :: k < i < |events| ==> !Creates(events[i], pid)
  {
    if events == [] then -1
    else if Creates(events[|events| - 1], pid) then |events| - 1
    else LatestCreate(events[..|events| - 1], pid)
  }

  /** pid has ended after event k. */
  predicate Ended(events: seq<KernelEvent>, k: int, pid: Pid) {
    exists i :: 0 <= i < |events| && k < i && Ends(events[i], pid)
  }

  /** The time of the latest end of pid after event k, or 0. */
  function ExitTime(events: seq<KernelEvent>, k: int, pid: Pid): int {
    if |events| <= k + 1 || events == [] then 0
    else if Ends(events[|events| - 1], pid) then events[|events| - 1].time
    else ExitTime(events[..|events| - 1], k, pid)
  }

  /** One thread to begin with; then those that start in pid after event k, less those that end, never below zero. */
  function Threads(events: seq<KernelEvent>, k: int, pid: Pid): nat {
    if |events| <= k + 1 || events == [] then 1
    else
      var n, e := Threads(events[..|events| - 1], k, pid), events[|events| - 1];
      if !e.ThreadChanged? || e.target != pid then n else if e.isCreate then n + 1 else if n > 0 then n - 1 else 0
  }

  /** The file names of the images that pid loads after event k. */
  function Images(events: seq<KernelEvent>, k: int, pid: Pid): seq<string> {
    if |events| <= k + 1 || events == [] then []
    else
      var e := events[|events| - 1];
      Images(events[..|events| - 1], k, pid) +
      if e.ImageLoaded? && e.pid == pid then [ExtractFileName(e.imagePath)] else []
  }

  /** The PIDs created with pid as their parent from event k on. */
  function Children(events: seq<KernelEvent>, k: int, pid: Pid): seq<Pid> {
    if |events| <= k || events == [] then []
    else
      var e := events[|events| - 1];
      Children(events[..|events| - 1], k, pid) + if e.ProcessCreated? && e.parentPid == pid then [e.pid] else []
  }

  /** The detections raised from event k on: event by event, the rule's and then the minor ones. */
  function RaisedFrom(agent: Pid, events: seq<KernelEvent>, k: int): seq<Detection> {
    if |events| <= k || events == [] then []
    else
      var before := events[..|events| - 1];
      RaisedFrom(agent, before, k) + Raised(Run(agent, before).nodes, agent, events[|events| - 1])
  }

  function FirstImages(images: seq<string>): seq<string> {
    if |images| <= 200 then images else images[..200]
  }

  /** What the events say of pid, created last by event k. */
  function NodeFrom(agent: Pid, events: seq<KernelEvent>, k: nat, pid: Pid): Node
    requires k < |events| && Creates(events[k], pid)
  {
    var c := events[k];
    Node(pid, c.parentPid, c.sessionId, c.imagePath, ExtractFileName(c.imagePath), c.commandLine, c.time,
         ExitTime(events, k, pid), !Ended(events, k, pid), Threads(events, k, pid),
         Children(events, k, pid), FirstImages(Images(events, k, pid)),
         ScoreOf(RaisedFrom(agent, events, k), pid), AlertsOf(RaisedFrom(agent, events, k), pid))
  }

  lemma EndedSnoc(events: seq<KernelEvent>, e: KernelEvent, k: nat, pid: Pid)
    requires k < |events|
    ensures Ended(events + [e], k, pid) <==> Ended(events, k, pid) || Ends(e, pid)
  {
    var all := events + [e];
    assert all[|events|] == e;
    if Ended(events, k, pid) {
      var i :| 0 <= i < |events| && k < i && Ends(events[i], pid);
      assert all[i] == events[i];
    }
    if Ended(all, k, pid) {
      var i :| 0 <= i < |all| && k < i && Ends(all[i], pid);
      assert i < |events| ==> events[i] == all[i];
    }
  }

  lemma HistorySnoc(events: seq<KernelEvent>, e: KernelEvent, k: nat, pid: Pid)
    requires k < |events|
    ensures ExitTime(events + [e], k, pid) == if Ends(e, pid) then e.time else ExitTime(events, k, pid)
    ensures Images(events + [e], k, pid) ==
            Images(events, k, pid) + if e.ImageLoaded? && e.pid == pid then [ExtractFileName(e.imagePath)] else []
    ensures Children(events + [e], k, pid) ==
            Children(events, k, pid) + if e.ProcessCreated? && e.parentPid == pid then [e.pid] else []
  {
    assert (events + [e])[..|events|] == events;
  }

  lemma ThreadsSnoc(events: seq<KernelEvent>, e: KernelEvent, k: nat, pid: Pid)
    requires k < |events|
    ensures var n := Threads(events, k, pid);
      Threads(events + [e], k, pid) ==
      if !e.ThreadChanged? || e.target != pid then n else if e.isCreate then n + 1 else if n > 0 then n - 1 else 0
  {
    assert (events + [e])[..|events|] == events;
  }

  lemma RaisedSnoc(agent: Pid, events: seq<KernelEvent>, e: KernelEvent, k: int)
    requires k <= |events|
    ensures RaisedFrom(agent, events + [e], k) ==
            RaisedFrom(agent, events, k) + Raised(Run(agent, events).nodes, agent, e)
  {
    hide Raised, Run;
    assert (events + [e])[..|events|] == events;
  }

  lemma NodeSnoc(agent: Pid, events: seq<KernelEvent>, e: KernelEvent, k: nat, pid: Pid)
    requires k < |events| && Creates(events[k], pid) && !Creates(e, pid)
    ensures NodeFrom(agent, events + [e], k, pid) ==
            Marked(AfterEvent(NodeFrom(agent, events, k, pid), e, pid), Raised(Run(agent, events).nodes, agent, e), pid)
  {
    hide ExitTime, Ended, Threads, Children, Images, RaisedFrom, ScoreOf, AlertsOf, Raised, Run, ExtractFileName;
    EndedSnoc(events, e, k, pid);
    HistorySnoc(events, e, k, pid);
    ThreadsSnoc(events, e, k, pid);
    RaisedSnoc(agent, events, e, k);
    ScoreAppend(RaisedFrom(agent, events, k), Raised(Run(agent, events).nodes, agent, e), pid);
    AlertsAppend(RaisedFrom(agent, events, k), Raised(Run(agent, events).nodes, agent, e), pid);
    assert (events + [e])[k] == events[k];
  }

  lemma NodeNew(agent: Pid, events: seq<KernelEvent>, e: KernelEvent)
    requires e.ProcessCreated?
    ensures NodeFrom(agent, events + [e], |events|, e.pid) ==
            Marked(FirstNode(e), Raised(Run(agent, events).nodes, agent, e), e.pid)
  {
    hide ScoreOf, AlertsOf, Raised, Run, ExtractFileName;
    RaisedSnoc(agent, events, e, |events|);
    assert RaisedFrom(agent, events, |events|) == [];
    assert (events + [e])[..|events|] == events;
    assert Children(events, |events|, e.pid) == [];
    assert [] + Raised(Run(agent, events).nodes, agent, e) == Raised(Run(agent, events).nodes, agent, e);
    assert [] + AlertsOf(Raised(Run(agent, events).nodes, agent, e), e.pid) ==
           AlertsOf(Raised(Run(agent, events).nodes, agent, e), e.pid);
  }

  /** pid was created, and has not ended since. */
  predicate Running(events: seq<KernelEvent>, pid: Pid) {
    LatestCreate(events, pid) >= 0 && !Ended(events, LatestCreate(events, pid), pid)
  }

  /** Event i is a create of another process that finds the tree full when pid is not running. */
  ghost predicate Drops(agent: Pid, events: seq<KernelEvent>, pid: Pid, i: nat)
    requires i < |events|
  {
    Evicts(Run(agent, events[..i]).nodes, events[i]) && events[i].pid != pid && !Running(events[..i], pid)
  }

  /** pid was created, and no later event has dropped it. */
  ghost predicate Kept(agent: Pid, events: seq<KernelEvent>, pid: Pid) {
    var k := LatestCreate(events, pid);
    k >= 0 && forall i :: k < i < |events| ==> !Drops(agent, events, pid, i)
  }

  /** The detections kept are the newest 10000 of those that the events raise, event by event and in order. */
  lemma {:induction false} DetectionsAreNewest(agent: Pid, events: seq<KernelEvent>)
    ensures Run(agent, events).detections == Newest(RaisedFrom(agent, events, 0))
    decreases |events|
  {
    hide Handled, Raised, Tracks, MarksAll, Newest;
    if events == [] {
      NoneNewest();
    } else {
      var before, e := events[..|events| - 1], events[|events| - 1];
      DetectionsAreNewest(agent, before);
      HandledAdvances(Run(agent, before), agent, RaisedFrom(agent, before, 0), e);
    }
  }

  lemma NoneNewest()
    ensures Newest([]) == []
  {
  }

  lemma RunSnoc(agent: Pid, events: seq<KernelEvent>, e: KernelEvent) returns (nodes: Nodes)
    ensures var s, t := Run(agent, events), Run(agent, events + [e]);
      Tracks(s.nodes, nodes, e) && MarksAll(nodes, t.nodes, Raised(s.nodes, agent, e))
  {
    hide Handled, Raised, Tracks, MarksAll, Newest;
    assert (events + [e])[..|events|] == events;
    DetectionsAreNewest(agent, events);
    HandledAdvances(Run(agent, events), agent, RaisedFrom(agent, events, 0), e);
    nodes :| Tracks(Run(agent, events).nodes, nodes, e) &&
             MarksAll(nodes, Run(agent, events + [e]).nodes, Raised(Run(agent, events).nodes, agent, e));
  }

  lemma LatestSnoc(events: seq<KernelEvent>, e: KernelEvent, pid: Pid)
    ensures LatestCreate(events + [e], pid) == if Creates(e, pid) then |events| else LatestCreate(events, pid)
  {
    assert (events + [e])[..|events|] == events;
  }

  lemma DropsLast(agent: Pid, events: seq<KernelEvent>, e: KernelEvent, pid: Pid)
    requires !Creates(e, pid)
    ensures Drops(agent, events + [e], pid, |events|) <==>
            Evicts(Run(agent, events).nodes, e) && !Running(events, pid)
  {
    hide Run, Running;
    assert (events + [e])[..|events|] == events;
  }

  lemma KeptSnoc(agent: Pid, events: seq<KernelEvent>, e: KernelEvent, pid: Pid)
    ensures Kept(agent, events + [e], pid) <==>
            Creates(e, pid) ||
            (Kept(agent, events, pid) && (Running(events, pid) || !Evicts(Run(agent, events).nodes, e)))
  {
    hide Run, Running, Evicts, LatestCreate;
    var all := events + [e];
    LatestSnoc(events, e, pid);
    assert all[..|events|] == events;
    forall i: nat | i < |events|
      ensures Drops(agent, all, pid, i) <==> Drops(agent, events, pid, i)
    {
      assert all[..i] == events[..i];
    }
    if !Creates(e, pid) {
      DropsLast(agent, events, e, pid);
    }
  }

  /** The process tree after any run. A PID is tracked if and only if it was created and no create since found the tree
      full and the PID not running; and its node, field by field, is what the events from its latest create on say. */
  lemma {:induction false} TreeIsItsEvents(agent: Pid, events: seq<KernelEvent>, pid: Pid)
    ensures var nodes, k := Run(agent, events).nodes, LatestCreate(events, pid);
      && (pid in nodes <==> Kept(agent, events, pid))
      && (pid in nodes ==> nodes[pid] == NodeFrom(agent, events, k, pid))
    decreases |events|
  {
    hide Handled, Raised, NodeFrom, AfterEvent, Marked, Kept, Evicts, FirstNode, LatestCreate, Ended;
    if events == [] {
      NothingKept(agent, pid);
    } else {
      var before, e := events[..|events| - 1], events[|events| - 1];
      assert events == before + [e];
      TreeIsItsEvents(agent, before, pid);
      var nodes := RunSnoc(agent, before, e);
      LatestSnoc(before, e, pid);
      KeptSnoc(agent, before, e, pid);
      if Creates(e, pid) {
        NodeNew(agent, before, e);
      } else if pid in Run(agent, before).nodes {
        var k := LatestCreate(before, pid);
        KeptIsCreated(agent, before, pid);
        NodeSnoc(agent, before, e, k, pid);
        AliveIsRunning(agent, before, pid);
      }
    }
  }

  lemma NothingKept(agent: Pid, pid: Pid)
    ensures !Kept(agent, [], pid)
  {
  }

  lemma KeptIsCreated(agent: Pid, events: seq<KernelEvent>, pid: Pid)
    requires Kept(agent, events, pid)
    ensures LatestCreate(events, pid) >= 0
  {
  }

  lemma AliveIsRunning(agent: Pid, events: seq<KernelEvent>, pid: Pid)
    requires LatestCreate(events, pid) >= 0
    ensures NodeFrom(agent, events, LatestCreate(events, pid), pid).alive <==> Running(events, pid)
  {
    hide Ended, Threads, Children, Images, RaisedFrom, ScoreOf, AlertsOf, ExtractFileName, ExitTime;
  }

  /** The score of a tracked process is 1, 10, 25, 50 and 100 times the number of detections of each severity that name
      it since its latest create, and its alerts are their texts in order. */
  lemma ScoreIsWeights(agent: Pid, events: seq<KernelEvent>, pid: Pid)
    requires pid in Run(agent, events).nodes
    ensures var node, ds := Run(agent, events).nodes[pid], RaisedFrom(agent, events, LatestCreate(events, pid));
      && node.score == Count(ds, pid, Info) + 10 * Count(ds, pid, Low) + 25 * Count(ds, pid, Medium) +
                       50 * Count(ds, pid, High) + 100 * Count(ds, pid, Critical)
      && node.alerts == AlertsOf(ds, pid)
  {
    hide Run, RaisedFrom, Count, AlertsOf, Kept;
    TreeIsItsEvents(agent, events, pid);
    KeptIsCreated(agent, events, pid);
  }

  // -------------------------------------------------------------------------------- kills

  /** By the events, pid is running and neither it nor its image is off limits. */
  predicate Killable(events: seq<KernelEvent>, agent: Pid, pid: Pid) {
    && pid > 4 && pid != agent
    && Running(events, pid)
    && var c := events[LatestCreate(events, pid)];
      !(c.sessionId == 0 && c.parentPid <= 4) && !Spared(ExtractFileName(c.imagePath))
  }

  /** The PIDs to be killed, by the events alone: no tracker, no eviction. */
  function ExpectedKills(agent: Pid, events: seq<KernelEvent>): seq<Pid>
    decreases |events|
  {
    if events == [] then []
    else
      var before, e := events[..|events| - 1], events[|events| - 1];
      ExpectedKills(agent, before) + if Triggers(e) && Killable(before, agent, e.pid) then [e.pid] else []
  }

  lemma {:induction false} LatestOfPrefix(events: seq<KernelEvent>, pid: Pid, i: nat)
    requires LatestCreate(events, pid) < i <= |events|
    ensures LatestCreate(events[..i], pid) == LatestCreate(events, pid)
  {
    var j, k := LatestCreate(events[..i], pid), LatestCreate(events, pid);
    assert j >= 0 ==> Creates(events[j], pid);
    assert k >= 0 ==> Creates(events[..i][k], pid);
  }

  lemma RunningIsCreated(events: seq<KernelEvent>, pid: Pid)
    requires Running(events, pid)
    ensures var k := LatestCreate(events, pid); 0 <= k < |events| && events[k].ProcessCreated?
  {
  }

  /** A running process is tracked: it is never dropped. */
  lemma RunningIsKept(agent: Pid, events: seq<KernelEvent>, pid: Pid)
    requires Running(events, pid)
    ensures Kept(agent, events, pid)
  {
    hide LatestCreate, Run, Evicts;
    var k := LatestCreate(events, pid);
    forall i | k < i < |events|
      ensures Running(events[..i], pid)
    {
      LatestOfPrefix(events, pid, i);
      assert forall j :: 0 <= j < i ==> events[..i][j] == events[j];
    }
  }

  /** Behind a critical rule's system test, the guard before the kill amounts to a condition on the events. */
  lemma GuardIsKillable(agent: Pid, events: seq<KernelEvent>, pid: Pid)
    ensures var nodes := Run(agent, events).nodes;
      !Exempt(nodes, pid) && Unguarded(nodes, agent, pid) <==> Killable(events, agent, pid)
  {
    hide Run, LatestCreate, Kept, Ended, ExtractFileName, Lower, SystemNames, SystemImages, ProtectedImages, Named,
      SameUpToCase, Threads, Children, Images, RaisedFrom, ScoreOf, AlertsOf, ExitTime;
    TreeIsItsEvents(agent, events, pid);
    if Running(events, pid) {
      RunningIsKept(agent, events, pid);
    }
    var nodes := Run(agent, events).nodes;
    if pid in nodes {
      KeptIsCreated(agent, events, pid);
      SparedIff(nodes[pid].imageName);
      SystemImageIff(nodes[pid].imageName);
    }
  }

  /** Over every run the automatic kills are exactly those that the events call for: one for each credential or handle
      event whose process is killable by the events so far. Eviction, PID reuse and the order of the checks in two
      files make no difference. */
  lemma {:induction false} KillsAreExpected(agent: Pid, events: seq<KernelEvent>)
    ensures Run(agent, events).kills == ExpectedKills(agent, events)
    decreases |events|
  {
    hide Handled, Exempt, Unguarded, Triggers, Killable;
    if events != [] {
      var before, e := events[..|events| - 1], events[|events| - 1];
      KillsAreExpected(agent, before);
      DetectionsAreNewest(agent, before);
      HandledKills(Run(agent, before), agent, RaisedFrom(agent, before, 0), e);
      GuardIsKillable(agent, before, e.pid);
    }
  }

  lemma {:induction false} ExpectedKillsJustified(agent: Pid, events: seq<KernelEvent>, pid: Pid)
    requires pid in ExpectedKills(agent, events)
    ensures exists n ::
      0 <= n < |events| && Triggers(events[n]) && events[n].pid == pid && Killable(events[..n], agent, pid)
    decreases |events|
  {
    hide Triggers, Killable;
    var before, e := events[..|events| - 1], events[|events| - 1];
    if pid in ExpectedKills(agent, before) {
      ExpectedKillsJustified(agent, before, pid);
      var n :| 0 <= n < |before| && Triggers(before[n]) && before[n].pid == pid && Killable(before[..n], agent, pid);
      assert before[..n] == events[..n] && before[n] == events[n];
    } else {
      assert events[|events| - 1].pid == pid && Killable(events[..|events| - 1], agent, pid);
    }
  }

  /** Event n sets off a critical rule at a moment when its process runs, as no session-0 child of PID 4 or below, and
      from a file whose name is in no case one of the spared ones. */
  predicate FairlyTriggered(events: seq<KernelEvent>, n: nat)
    requires n < |events|
  {
    var pid := events[n].pid;
    && Triggers(events[n])
    && Running(events[..n], pid)
    && var c := events[..n][LatestCreate(events[..n], pid)];
      && !(c.sessionId == 0 && c.parentPid <= 4)
      && !SameUpToCase(ExtractFileName(c.imagePath), "system")
      && forall k :: 0 <= k < |SystemNames()| ==> !SameUpToCase(ExtractFileName(c.imagePath), SystemNames()[k])
  }

  lemma KillableIsFair(agent: Pid, events: seq<KernelEvent>, n: nat)
    requires n < |events| && Triggers(events[n]) && Killable(events[..n], agent, events[n].pid)
    ensures FairlyTriggered(events, n)
  {
    hide Triggers, Running, LatestCreate, SystemNames, SameUpToCase, ExtractFileName;
    var k := LatestCreate(events[..n], events[n].pid);
  }

  /** Whatever is killed is above PID 4 and not the agent, and was fairly triggered. */
  lemma KillSafety(agent: Pid, events: seq<KernelEvent>, pid: Pid)
    requires pid in Run(agent, events).kills
    ensures pid > 4 && pid != agent
    ensures exists n :: 0 <= n < |events| && events[n].pid == pid && FairlyTriggered(events, n)
  {
    hide Triggers, Running, LatestCreate, Spared, FairlyTriggered;
    KillsAreExpected(agent, events);
    ExpectedKillsJustified(agent, events, pid);
    var n :| 0 <= n < |events| && Triggers(events[n]) && events[n].pid == pid && Killable(events[..n], agent, pid);
    KillableIsFair(agent, events, n);
  }

  /** By its create event, a process that is left alone: a system image, or a system service. */
  predicate CreatedAsSystem(c: KernelEvent)
    requires c.ProcessCreated?
  {
    Named(ExtractFileName(c.imagePath), SystemNames()) || (c.sessionId == 0 && c.parentPid <= 4)
  }

  /** The system test, for a process that runs by the events, looks at its PID and its create event only. */
  lemma ExemptByEvents(agent: Pid, events: seq<KernelEvent>, pid: Pid)
    requires Running(events, pid)
    ensures Exempt(Run(agent, events).nodes, pid) <==>
            pid <= 4 || CreatedAsSystem(events[LatestCreate(events, pid)])
  {
    hide Run, LatestCreate, Ended, Kept, ExtractFileName, Named, SystemNames, Threads, Children, Images, RaisedFrom,
      ScoreOf, AlertsOf, ExitTime;
    TreeIsItsEvents(agent, events, pid);
    RunningIsKept(agent, events, pid);
  }

  /** A thread event of a process that runs by the events raises the remote-thread detection exactly if the process made
      a thread in another process, is not the agent, and was not created as a system process. */
  lemma RemoteThreadDetected(agent: Pid, events: seq<KernelEvent>, e: KernelEvent)
    requires e.ThreadChanged? && Running(events, e.pid)
    ensures RaisedFrom(agent, events + [e], 0) == RaisedFrom(agent, events, 0) +
      if e.isCreate && e.isRemote && e.pid != agent && e.pid > 4
         && !CreatedAsSystem(events[LatestCreate(events, e.pid)])
      then [Detection("ProcessInjection_RemoteThread", "Remote thread created in PID " + Decimal(e.target), High,
                      e.pid)]
      else []
  {
    hide Run, RaisedFrom, Running, LatestCreate, Exempt, CreatedAsSystem, Decimal;
    RaisedSnoc(agent, events, e, 0);
    ExemptByEvents(agent, events, e.pid);
  }

  // --------------------------------------------------------------------------------- case

  /** The same event, but for the case of the letters in its path. */
  predicate SameButForCase(e: KernelEvent, f: KernelEvent) {
    match e
    case ProcessCreated(_, _, _, path, _, _, _) =>
      f.ProcessCreated? && SameUpToCase(path, f.imagePath) && f == e.(imagePath := f.imagePath)
    case ImageLoaded(_, path) =>
      f.ImageLoaded? && SameUpToCase(path, f.imagePath) && f == e.(imagePath := f.imagePath)
    case FileTouched(_, _, path, _) =>
      f.FileTouched? && SameUpToCase(path, f.path) && f == e.(path := f.path)
    case _ => e == f
  }

  predicate AllSameButForCase(es: seq<KernelEvent>, fs: seq<KernelEvent>) {
    |es| == |fs| && forall i :: 0 <= i < |es| ==> SameButForCase(es[i], fs[i])
  }

  lemma {:induction false} LatestAnyCase(es: seq<KernelEvent>, fs: seq<KernelEvent>, pid: Pid)
    requires AllSameButForCase(es, fs)
    ensures LatestCreate(es, pid) == LatestCreate(fs, pid)
    ensures Running(es, pid) <==> Running(fs, pid)
  {
    hide SameUpToCase;
    assert forall i :: 0 <= i < |es| ==> (Creates(es[i], pid) <==> Creates(fs[i], pid));
    assert forall i :: 0 <= i < |es| ==> (Ends(es[i], pid) <==> Ends(fs[i], pid));
  }

  lemma KillableAnyCase(agent: Pid, es: seq<KernelEvent>, fs: seq<KernelEvent>, pid: Pid)
    requires AllSameButForCase(es, fs)
    ensures Killable(es, agent, pid) <==> Killable(fs, agent, pid)
  {
    hide SameUpToCase, Spared, Running, LatestCreate, ExtractFileName, Ended;
    LatestAnyCase(es, fs, pid);
    if Running(es, pid) {
      var k := LatestCreate(es, pid);
      RunningIsCreated(es, pid);
      FileNameAnyCase(es[k].imagePath, fs[k].imagePath);
      SparedAnyCase(ExtractFileName(es[k].imagePath), ExtractFileName(fs[k].imagePath));
    }
  }

  lemma TriggersAnyCase(e: KernelEvent, f: KernelEvent)
    requires SameButForCase(e, f)
    ensures Triggers(e) <==> Triggers(f)
    ensures e.pid == f.pid
  {
    hide SameUpToCase, MentionsStore, AllThreeRights;
    if e.FileTouched? {
      StoreAnyCase(e.path, f.path);
    }
  }

  /** The case of image and file paths has no influence on what is killed. */
  lemma {:induction false} KillsIgnoreCase(agent: Pid, es: seq<KernelEvent>, fs: seq<KernelEvent>)
    requires AllSameButForCase(es, fs)
    ensures ExpectedKills(agent, es) == ExpectedKills(agent, fs)
    ensures Run(agent, es).kills == Run(agent, fs).kills
    decreases |es|
  {
    hide Run, Triggers, Killable, SameButForCase;
    KillsAreExpected(agent, es);
    KillsAreExpected(agent, fs);
    if es != [] {
      var n := |es| - 1;
      KillsIgnoreCase(agent, es[..n], fs[..n]);
      TriggersAnyCase(es[n], fs[n]);
      KillableAnyCase(agent, es[..n], fs[..n], es[n].pid);
    }
  }
}
