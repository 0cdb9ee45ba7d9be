/** What one kernel event does to the process tree, to the detections with their scores and alerts, and to the kills. */
module BehaviorSteps {
  import opened Behavior
  import opened BehaviorRules
  import opened Tracker

  // --------------------------------------------------------------------------- detections

  function Count(ds: seq<Detection>, pid: Pid, severity: Severity): nat {
    if ds == [] then 0
    else (if ds[0].pid == pid && ds[0].severity == severity then 1 else 0) + Count(ds[1..], pid, severity)
  }

  /** What detections add to the score of pid. */
  function ScoreOf(ds: seq<Detection>, pid: Pid): int {
    Count(ds, pid, Info) + 10 * Count(ds, pid, Low) + 25 * Count(ds, pid, Medium) + 50 * Count(ds, pid, High) +
    100 * Count(ds, pid, Critical)
  }

  /** The alerts that detections leave with pid. */
  function AlertsOf(ds: seq<Detection>, pid: Pid): seq<string> {
    if ds == [] then []
    else (if ds[0].pid == pid then [ds[0].ruleName + ": " + ds[0].description] else []) + AlertsOf(ds[1..], pid)
  }

  lemma {:induction false} CountAppend(a: seq<Detection>, b: seq<Detection>, pid: Pid, severity: Severity)
    ensures Count(a + b, pid, severity) == Count(a, pid, severity) + Count(b, pid, severity)
  {
    if a == [] {
      assert a + b == b;
    } else {
      assert (a + b)[0] == a[0] && (a + b)[1..] == a[1..] + b;
      CountAppend(a[1..], b, pid, severity);
    }
  }

  lemma {:induction false} AlertsAppend(a: seq<Detection>, b: seq<Detection>, pid: Pid)
    ensures AlertsOf(a + b, pid) == AlertsOf(a, pid) + AlertsOf(b, pid)
  {
    if a == [] {
      assert a + b == b;
    } else {
      assert (a + b)[0] == a[0] && (a + b)[1..] == a[1..] + b;
      AlertsAppend(a[1..], b, pid);
    }
  }

  lemma ScoreAppend(a: seq<Detection>, b: seq<Detection>, pid: Pid)
    ensures ScoreOf(a + b, pid) == ScoreOf(a, pid) + ScoreOf(b, pid)
  {
    hide Count;
    CountAppend(a, b, pid, Info);
    CountAppend(a, b, pid, Low);
    CountAppend(a, b, pid, Medium);
    CountAppend(a, b, pid, High);
    CountAppend(a, b, pid, Critical);
  }

  lemma CountOne(d: Detection, pid: Pid, severity: Severity)
    ensures Count([d], pid, severity) == if d.pid == pid && d.severity == severity then 1 else 0
  {
    assert [d][1..] == [];
  }

  lemma OneScore(d: Detection, pid: Pid)
    ensures ScoreOf([d], pid) == if d.pid == pid then Weight(d.severity) else 0
    ensures AlertsOf([d], pid) == if d.pid == pid then [AlertText(d)] else []
  {
    hide Count;
    CountOne(d, pid, Info);
    CountOne(d, pid, Low);
    CountOne(d, pid, Medium);
    CountOne(d, pid, High);
    CountOne(d, pid, Critical);
    assert [d][1..] == [];
  }

  /** A node with detections added. */
  function Marked(node: Node, ds: seq<Detection>, pid: Pid): Node {
    node.(score := node.score + ScoreOf(ds, pid), alerts := node.alerts + AlertsOf(ds, pid))
  }

  lemma MarkedTwice(node: Node, a: seq<Detection>, b: seq<Detection>, pid: Pid)
    ensures Marked(Marked(node, a, pid), b, pid) == Marked(node, a + b, pid)
  {
    hide ScoreOf, AlertsOf;
    ScoreAppend(a, b, pid);
    AlertsAppend(a, b, pid);
  }

  lemma MarkedNot(node: Node, pid: Pid)
    ensures Marked(node, [], pid) == node
  {
  }

  /** The map after detections. */
  ghost predicate MarksAll(before: Nodes, after: Nodes, ds: seq<Detection>) {
    && after.Keys == before.Keys
    && forall pid :: pid in before ==> after[pid] == Marked(before[pid], ds, pid)
  }

  lemma EmittedMarks(s: State, agent: Pid, d: Detection)
    ensures MarksAll(s.nodes, Emitted(s, agent, d).nodes, [d])
  {
    hide ScoreOf, AlertsOf, Weight, AlertText, KillsOf, Latest, Scored;
    ScoredKeys(s.nodes, d);
    forall pid | pid in s.nodes
      ensures Emitted(s, agent, d).nodes[pid] == Marked(s.nodes[pid], [d], pid)
    {
      OneScore(d, pid);
      ScoredAt(s.nodes, d, pid);
    }
  }

  lemma ScoredKeys(nodes: Nodes, d: Detection)
    ensures Scored(nodes, d).Keys == nodes.Keys
  {
    hide Weight, AlertText;
  }

  lemma ScoredAt(nodes: Nodes, d: Detection, pid: Pid)
    requires pid in nodes && pid in Scored(nodes, d)
    ensures var node := nodes[pid];
      Scored(nodes, d)[pid] ==
      if d.pid == pid then node.(score := node.score + Weight(d.severity), alerts := node.alerts + [AlertText(d)])
      else node
  {
    hide Weight, AlertText;
  }

  lemma MarksTwice(a: Nodes, b: Nodes, c: Nodes, ds: seq<Detection>, es: seq<Detection>)
    requires MarksAll(a, b, ds) && MarksAll(b, c, es)
    ensures MarksAll(a, c, ds + es)
  {
    hide Marked;
    forall pid | pid in a
      ensures c[pid] == Marked(a[pid], ds + es, pid)
    {
      MarkedTwice(a[pid], ds, es, pid);
    }
  }

  lemma MarksNone(nodes: Nodes)
    ensures MarksAll(nodes, nodes, [])
  {
    hide Marked;
    forall pid | pid in nodes
      ensures Marked(nodes[pid], [], pid) == nodes[pid]
    {
      MarkedNot(nodes[pid], pid);
    }
  }

  function Newest(ds: seq<Detection>): seq<Detection> {
    if |ds| > 10000 then ds[|ds| - 10000..] else ds
  }

  lemma NewestSnoc(all: seq<Detection>, d: Detection)
    ensures Latest(Newest(all) + [d]) == Newest(all + [d])
  {
  }

  /** From s to t the detections ds were emitted, after those in all. */
  ghost predicate Emits(s: State, t: State, all: seq<Detection>, ds: seq<Detection>) {
    MarksAll(s.nodes, t.nodes, ds) && t.detections == Newest(all + ds)
  }

  lemma EmittedEmits(s: State, agent: Pid, all: seq<Detection>, d: Detection)
    requires s.detections == Newest(all)
    ensures Emits(s, Emitted(s, agent, d), all, [d])
  {
    hide MarksAll, Newest, Latest, Scored, KillsOf;
    EmittedMarks(s, agent, d);
    NewestSnoc(all, d);
  }

  lemma {:induction false} EmittedAllEmits(s: State, agent: Pid, all: seq<Detection>, ds: seq<MinorDetection>)
    requires s.detections == Newest(all)
    ensures Emits(s, EmittedAll(s, agent, ds), all, ds) && EmittedAll(s, agent, ds).kills == s.kills
    decreases |ds|
  {
    hide MarksAll, Newest, Scored, Latest, KillGuard;
    MarksNone(s.nodes);
    if ds == [] {
      assert all + ds == all;
    } else {
      var t := Emitted(s, agent, ds[0]);
      EmittedEmits(s, agent, all, ds[0]);
      MinorNeverKills(s.nodes, agent, ds[0]);
      EmittedAllEmits(t, agent, all + [ds[0]], ds[1..]);
      MarksTwice(s.nodes, t.nodes, EmittedAll(s, agent, ds).nodes, [ds[0]], ds[1..]);
      assert [ds[0]] + ds[1..] == ds && all + [ds[0]] + ds[1..] == all + ds;
    }
  }

  lemma EmittedIfEmits(s: State, agent: Pid, all: seq<Detection>, fires: bool, d: Detection)
    requires s.detections == Newest(all)
    ensures Emits(s, EmittedIf(s, agent, fires, d), all, if fires then [d] else [])
    ensures EmittedIf(s, agent, fires, d).kills == s.kills + if fires then KillsOf(s.nodes, agent, d) else []
  {
    hide MarksAll, Newest, KillsOf, Scored, Latest;
    EmittedEmits(s, agent, all, d);
    MarksNone(s.nodes);
    assert all + [] == all && s.kills + [] == s.kills;
  }

  // ---------------------------------------------------------------------------- one event

  predicate Creates(e: KernelEvent, pid: Pid) {
    e.ProcessCreated? && e.pid == pid
  }

  predicate Ends(e: KernelEvent, pid: Pid) {
    e.ProcessTerminated? && e.pid == pid
  }

  /** What the tracker call of an event does to a node that it does not create. */
  function AfterEvent(node: Node, e: KernelEvent, pid: Pid): Node
    requires !Creates(e, pid)
  {
    match e
    case ProcessCreated(child, parentPid, _, _, _, _, _) =>
      if parentPid == pid then node.(childPids := node.childPids + [child]) else node
    case ProcessTerminated(ended, time, _) =>
      if ended == pid then node.(alive := false, exitTime := time) else node
    case ImageLoaded(loader, imagePath) =>
      if loader == pid && |node.loadedImages| < MAX_LOADED_IMAGES
      then node.(loadedImages := node.loadedImages + [ExtractFileName(imagePath)]) else node
    case ThreadChanged(_, target, isCreate, _) =>
      if target != pid then node
      else if isCreate then node.(threadCount := node.threadCount + 1)
      else if node.threadCount > 0 then node.(threadCount := node.threadCount - 1)
      else node
    case _ => node
  }

  /** The node of a process at its creation. */
  function FirstNode(c: KernelEvent): Node
    requires c.ProcessCreated?
  {
    Node(c.pid, c.parentPid, c.sessionId, c.imagePath, ExtractFileName(c.imagePath), c.commandLine, c.time, 0, true, 1,
         if c.parentPid == c.pid then [c.pid] else [], [], 0, [])
  }

  /** The event is a create that finds 50000 nodes or more. */
  predicate Evicts(nodes: Nodes, e: KernelEvent) {
    e.ProcessCreated? && |nodes| >= 50000
  }

  /** What the tracker call of an event does to the map. */
  ghost predicate Tracks(before: Nodes, after: Nodes, e: KernelEvent) {
    && (forall pid :: pid in after <==> Creates(e, pid) || (pid in before && (before[pid].alive || !Evicts(before, e))))
    && (forall pid :: Creates(e, pid) ==> after[pid] == FirstNode(e))
    && (forall pid :: pid in after && !Creates(e, pid) ==> after[pid] == AfterEvent(before[pid], e, pid))
  }

  lemma CreateTracks(nodes: Nodes, e: KernelEvent)
    requires e.ProcessCreated?
    ensures Tracks(nodes, Apply(nodes, LIMIT, ToOp(e)), e)
  {
    hide Apply, ExtractFileName;
    CreateCreates(nodes, MAX_TRACKED_PROCESSES, ToOp(e));
  }

  function ToOp(e: KernelEvent): Op
    requires e.ProcessCreated?
  {
    Create(e.pid, e.parentPid, e.sessionId, e.imagePath, e.commandLine, e.time)
  }

  lemma EndTracks(nodes: Nodes, e: KernelEvent)
    requires e.ProcessTerminated?
    ensures Tracks(nodes, Apply(nodes, LIMIT, Terminate(e.pid, e.time)), e)
  {
  }

  lemma ImageTracks(nodes: Nodes, e: KernelEvent)
    requires e.ImageLoaded?
    ensures Tracks(nodes, Apply(nodes, LIMIT, LoadImage(e.pid, e.imagePath)), e)
  {
    hide ExtractFileName;
  }

  lemma ThreadTracks(nodes: Nodes, e: KernelEvent)
    requires e.ThreadChanged?
    ensures Tracks(nodes, Apply(nodes, LIMIT, if e.isCreate then StartThread(e.target) else EndThread(e.target)), e)
  {
  }

  lemma TrackedAlike(before: Nodes, after: Nodes, e: KernelEvent)
    requires e.ThreadChanged? && Tracks(before, after, e)
    ensures forall pid :: Exempt(after, pid) <==> Exempt(before, pid)
  {
    hide Named;
  }

  lemma NothingTracks(nodes: Nodes, e: KernelEvent)
    requires e.RegistryChanged? || e.FileTouched? || e.HandleOpened?
    ensures Tracks(nodes, nodes, e)
  {
  }

  /** One event: the tracker call of its type, then the detections it raises. */
  ghost predicate Advances(s: State, t: State, agent: Pid, all: seq<Detection>, e: KernelEvent) {
    && (exists nodes: Nodes :: Tracks(s.nodes, nodes, e) && MarksAll(nodes, t.nodes, Raised(s.nodes, agent, e)))
    && t.detections == Newest(all + Raised(s.nodes, agent, e))
  }

  lemma HandledAdvances(s: State, agent: Pid, all: seq<Detection>, e: KernelEvent)
    requires s.detections == Newest(all)
    ensures Advances(s, Handled(s, agent, e), agent, all, e)
  {
    hide Apply, Tracks, MarksAll, Newest, EmittedAll, EmittedIf, Fired, RemoteThreadRule, CredentialRule, HandleRule,
      RemoteThreadDetection, CredentialDetection, HandleDetection, Exempt;
    match e
    case ProcessCreated(_, _, _, _, _, _, others) =>
      CreateTracks(s.nodes, e);
      EmittedAllEmits(Called(s, ToOp(e)), agent, all, others);
      NoRule(s.nodes, agent, e);
    case ProcessTerminated(pid, time, others) =>
      EndTracks(s.nodes, e);
      EmittedAllEmits(Called(s, Terminate(pid, time)), agent, all, others);
      NoRule(s.nodes, agent, e);
    case ImageLoaded(pid, imagePath) =>
      ImageTracks(s.nodes, e);
      MarksNone(Handled(s, agent, e).nodes);
      NoRule(s.nodes, agent, e);
      assert all + [] == all;
    case ThreadChanged(pid, target, isCreate, _) =>
      ThreadTracks(s.nodes, e);
      var t := Called(s, if isCreate then StartThread(target) else EndThread(target));
      ThreadRuleFires(t.nodes, agent, e);
      EmittedIfEmits(t, agent, all, RemoteThreadRule(t.nodes, agent, e), RemoteThreadDetection(pid, target));
      TrackedAlike(s.nodes, t.nodes, e);
      SameRule(s.nodes, t.nodes, agent, e);
      assert Raised(s.nodes, agent, e) == Fired(s.nodes, agent, e);
    case RegistryChanged(_, others) =>
      NothingTracks(s.nodes, e);
      EmittedAllEmits(s, agent, all, others);
      NoRule(s.nodes, agent, e);
    case FileTouched(pid, _, path, others) =>
      NothingTracks(s.nodes, e);
      CredentialRuleFires(s.nodes, agent, e);
      var d := CredentialDetection(pid, path);
      var t := EmittedIf(s, agent, CredentialRule(s.nodes, e), d);
      var fired := Fired(s.nodes, agent, e);
      EmittedIfEmits(s, agent, all, CredentialRule(s.nodes, e), d);
      EmittedAllEmits(t, agent, all + fired, others);
      MarksTwice(s.nodes, t.nodes, EmittedAll(t, agent, others).nodes, fired, others);
      assert all + fired + others == all + (fired + others);
    case HandleOpened(pid, target, _) =>
      NothingTracks(s.nodes, e);
      HandleRuleFires(s.nodes, agent, e);
      EmittedIfEmits(s, agent, all, HandleRule(s.nodes, agent, e), HandleDetection(pid, target));
      assert Raised(s.nodes, agent, e) == Fired(s.nodes, agent, e);
  }

  function Fires(nodes: Nodes, e: KernelEvent, d: Detection): seq<Detection>
    requires e.FileTouched?
  {
    if CredentialRule(nodes, e) then [d] else []
  }

  lemma HandledKills(s: State, agent: Pid, all: seq<Detection>, e: KernelEvent)
    requires s.detections == Newest(all)
    ensures Handled(s, agent, e).kills == s.kills +
            if Triggers(e) && !Exempt(s.nodes, e.pid) && Unguarded(s.nodes, agent, e.pid) then [e.pid] else []
  {
    hide Apply, MarksAll, Newest, EmittedAll, EmittedIf, RemoteThreadRule, CredentialRule, HandleRule, KillsOf,
      CredentialDetection, HandleDetection, Exempt, Unguarded, MentionsStore, AllThreeRights;
    match e
    case ProcessCreated(_, _, _, _, _, _, others) =>
      EmittedAllEmits(Called(s, ToOp(e)), agent, all, others);
    case ProcessTerminated(pid, time, others) =>
      EmittedAllEmits(Called(s, Terminate(pid, time)), agent, all, others);
    case ImageLoaded(_, _) =>
    case ThreadChanged(pid, target, isCreate, _) =>
      var t := Called(s, if isCreate then StartThread(target) else EndThread(target));
      EmittedIfEmits(t, agent, all, RemoteThreadRule(t.nodes, agent, e), RemoteThreadDetection(pid, target));
      MinorKillsNone(t.nodes, agent, RemoteThreadDetection(pid, target));
    case RegistryChanged(_, others) =>
      EmittedAllEmits(s, agent, all, others);
    case FileTouched(pid, _, path, others) =>
      var d := CredentialDetection(pid, path);
      EmittedIfEmits(s, agent, all, CredentialRule(s.nodes, e), d);
      EmittedAllEmits(EmittedIf(s, agent, CredentialRule(s.nodes, e), d), agent, all + Fires(s.nodes, e, d), others);
      KillsOfFile(s.nodes, agent, e);
    case HandleOpened(pid, target, _) =>
      EmittedIfEmits(s, agent, all, HandleRule(s.nodes, agent, e), HandleDetection(pid, target));
      KillsOfHandle(s.nodes, agent, e);
  }
}
