/** What the process tree means in terms of the calls made: for every log of calls, every map and every PID. */
module TrackerHistory {
  import opened Options
  import opened Tracker

  /** The map after a log of calls. */
  function Replay(limit: Limit, log: seq<Op>): Nodes
    decreases |log|
  {
    if log == [] then map[] else Apply(Replay(limit, log[..|log| - 1]), limit, log[|log| - 1])
  }

  // ------------------------------------------------------------------- eviction

  /** What a tracker that evicts has is what one that does not evict has, and it lacks only the dead. */
  ghost predicate Agree(capped: Nodes, full: Nodes) {
    && (forall pid :: pid in capped ==> pid in full && capped[pid] == full[pid])
    && (forall pid :: pid in full && full[pid].alive ==> pid in capped)
  }

  lemma AgreeCreate(capped: Nodes, full: Nodes, limit: Limit, op: Op)
    requires Agree(capped, full) && op.Create?
    ensures Agree(Apply(capped, limit, op), Apply(full, NoLimit, op))
  {
    hide NewNode;
    var c, f := Evicted(capped, limit), full;
    assert Agree(c, f);
    var node := NewNode(op);
    assert Agree(c[op.pid := node], f[op.pid := node]);
    AgreeChild(c[op.pid := node], f[op.pid := node], op.parentPid, op.pid);
  }

  lemma AgreeChild(capped: Nodes, full: Nodes, parent: Pid, child: Pid)
    requires Agree(capped, full)
    ensures Agree(WithChild(capped, parent, child), WithChild(full, parent, child))
  {
  }

  lemma AgreeUpdate(capped: Nodes, full: Nodes, limit: Limit, op: Op)
    requires Agree(capped, full) && !op.Create?
    ensures Agree(Apply(capped, limit, op), Apply(full, NoLimit, op))
  {
  }

  /** Eviction never touches a live process: with any limit, the nodes of live PIDs are the same in every field
      as without one, and the same PIDs are live. */
  lemma {:induction false} EvictionInvisible(limit: Limit, log: seq<Op>)
    ensures Agree(Replay(limit, log), Replay(NoLimit, log))
    decreases |log|
  {
    hide Apply, Agree;
    if log == [] {
      AgreeEmpty();
    } else {
      var before, op := log[..|log| - 1], log[|log| - 1];
      EvictionInvisible(limit, before);
      if op.Create? {
        AgreeCreate(Replay(limit, before), Replay(NoLimit, before), limit, op);
      } else {
        AgreeUpdate(Replay(limit, before), Replay(NoLimit, before), limit, op);
      }
    }
  }

  lemma AgreeEmpty()
    ensures Agree(map[], map[])
  {
  }

  /** After a create the map is within its limit, or there was nothing more to evict. */
  lemma SizeAfterCreate(nodes: Nodes, size: nat, op: Op)
    requires op.Create?
    ensures var after := Apply(nodes, Limit(size), op);
      |after| <= size || forall pid :: pid in after ==> after[pid].alive
  {
  }

  /** A create that finds fewer nodes than the limit forgets nobody, dead or alive, and changes no node but that of the
      created PID and the child list of its parent. */
  lemma CreateBelowLimit(nodes: Nodes, size: nat, op: Op)
    requires op.Create? && |nodes| < size
    ensures var after := Apply(nodes, Limit(size), op);
      && after.Keys == nodes.Keys + {op.pid}
      && forall pid :: pid in nodes && pid != op.pid && pid != op.parentPid ==> after[pid] == nodes[pid]
  {
    hide Apply, ExtractFileName;
    CreateCreates(nodes, size, op);
  }

  /** Over a log in which no create finds size or more nodes, the tracker is the one that never evicts. */
  lemma {:induction false} NoEvictionBelowLimit(size: nat, log: seq<Op>)
    requires forall i :: 0 <= i < |log| && log[i].Create? ==> |Replay(Limit(size), log[..i])| < size
    ensures Replay(Limit(size), log) == Replay(NoLimit, log)
    decreases |log|
  {
    hide NewNode, WithChild, Updated, Living;
    if log != [] {
      var before := log[..|log| - 1];
      assert forall i :: 0 <= i < |before| ==> before[..i] == log[..i];
      NoEvictionBelowLimit(size, before);
    }
  }

  // ------------------------------------------------------- a node and its history

  predicate Creates(op: Op, pid: Pid) {
    op.Create? && op.pid == pid
  }

  /** The index of the latest create of pid, or -1. */
  function LatestCreate(log: seq<Op>, pid: Pid): (k: int)
    ensures -1 <= k < |log|
    ensures k >= 0 ==> Creates(log[k], pid)
    ensures forall i :: k < i < |log| ==> !Creates(log[i], pid)
  {
    if log == [] then -1
    else if Creates(log[|log| - 1], pid) then |log| - 1
    else LatestCreate(log[..|log| - 1], pid)
  }

  /** The calls from the latest create of pid on, that one included. */
  function Since(log: seq<Op>, pid: Pid): seq<Op> {
    var k := LatestCreate(log, pid);
    if k < 0 then [] else log[k..]
  }

  /** The PIDs created with pid as their parent, in order. */
  function ChildrenOf(s: seq<Op>, pid: Pid): seq<Pid> {
    if s == [] then []
    else
      var op := s[|s| - 1];
      ChildrenOf(s[..|s| - 1], pid) + if op.Create? && op.parentPid == pid then [op.pid] else []
  }

  function ImagesOf(s: seq<Op>, pid: Pid): seq<string> {
    if s == [] then []
    else
      var op := s[|s| - 1];
      ImagesOf(s[..|s| - 1], pid) + if op.LoadImage? && op.pid == pid then [ExtractFileName(op.imagePath)] else []
  }

  function AlertsOf(s: seq<Op>, pid: Pid): seq<string> {
    if s == [] then []
    else
      var op := s[|s| - 1];
      AlertsOf(s[..|s| - 1], pid) + if op.AddAlert? && op.pid == pid then [op.alert] else []
  }

  function ScoreOf(s: seq<Op>, pid: Pid): int {
    if s == [] then 0
    else
      var op := s[|s| - 1];
      ScoreOf(s[..|s| - 1], pid) + if op.AddScore? && op.pid == pid then op.amount else 0
  }

  /** One thread to begin with, then starts less ends, never below zero. */
  function ThreadsOf(s: seq<Op>, pid: Pid): nat {
    if |s| <= 1 then 1
    else
      var op := s[|s| - 1];
      var n := ThreadsOf(s[..|s| - 1], pid);
      if op == StartThread(pid) then n + 1
      else if op == EndThread(pid) && n > 0 then n - 1
      else n
  }

  predicate Terminates(op: Op, pid: Pid) {
    op.Terminate? && op.pid == pid
  }

  /** The time of the last terminate of pid, or 0. */
  function ExitTimeOf(s: seq<Op>, pid: Pid): int {
    if s == [] then 0
    else if Terminates(s[|s| - 1], pid) then s[|s| - 1].time
    else ExitTimeOf(s[..|s| - 1], pid)
  }

  predicate Terminated(s: seq<Op>, pid: Pid) {
    exists i :: 0 <= i < |s| && Terminates(s[i], pid)
  }

  function FirstImages(images: seq<string>): seq<string> {
    if |images| <= MAX_LOADED_IMAGES then images else images[..MAX_LOADED_IMAGES]
  }

  /** The node that the calls since the latest create of pid add up to. */
  function NodeOf(s: seq<Op>, pid: Pid): Node
    requires s != [] && Creates(s[0], pid)
  {
    var c := s[0];
    Node(pid, c.parentPid, c.sessionId, c.imagePath, ExtractFileName(c.imagePath), c.commandLine, c.time,
         ExitTimeOf(s, pid), !Terminated(s, pid), ThreadsOf(s, pid),
         ChildrenOf(s, pid), FirstImages(ImagesOf(s, pid)), ScoreOf(s, pid), AlertsOf(s, pid))
  }

  /** What one more call does to the node of pid. */
  function After(node: Node, op: Op, pid: Pid): Node
    requires !Creates(op, pid)
  {
    if op.Create? then
      if op.parentPid == pid then node.(childPids := node.childPids + [op.pid]) else node
    else if op.pid == pid then Updated(node, op)
    else node
  }

  lemma NodeOfNew(op: Op)
    requires op.Create?
    ensures NodeOf([op], op.pid) ==
      if op.parentPid == op.pid then NewNode(op).(childPids := [op.pid]) else NewNode(op)
  {
    assert [op][..0] == [];
    assert ChildrenOf([op], op.pid) == ChildrenOf([], op.pid) + if op.parentPid == op.pid then [op.pid] else [];
    assert ImagesOf([op], op.pid) == ImagesOf([], op.pid) + [];
    assert AlertsOf([op], op.pid) == AlertsOf([], op.pid) + [];
    assert ScoreOf([op], op.pid) == ScoreOf([], op.pid) + 0;
    assert ExitTimeOf([op], op.pid) == ExitTimeOf([], op.pid);
  }

  lemma TerminatedSnoc(s: seq<Op>, op: Op, pid: Pid)
    ensures Terminated(s + [op], pid) <==> Terminated(s, pid) || Terminates(op, pid)
  {
    var t := s + [op];
    assert t[|s|] == op;
    if Terminated(s, pid) {
      var i :| 0 <= i < |s| && Terminates(s[i], pid);
      assert t[i] == s[i];
    }
    if Terminated(t, pid) {
      var i :| 0 <= i < |t| && Terminates(t[i], pid);
      assert i < |s| ==> s[i] == t[i];
    }
  }

  lemma ListsSnoc(s: seq<Op>, op: Op, pid: Pid)
    ensures ChildrenOf(s + [op], pid) == ChildrenOf(s, pid) + if op.Create? && op.parentPid == pid then [op.pid] else []
    ensures ImagesOf(s + [op], pid) ==
            ImagesOf(s, pid) + if op.LoadImage? && op.pid == pid then [ExtractFileName(op.imagePath)] else []
    ensures AlertsOf(s + [op], pid) == AlertsOf(s, pid) + if op.AddAlert? && op.pid == pid then [op.alert] else []
    ensures ScoreOf(s + [op], pid) == ScoreOf(s, pid) + if op.AddScore? && op.pid == pid then op.amount else 0
    ensures ExitTimeOf(s + [op], pid) == if Terminates(op, pid) then op.time else ExitTimeOf(s, pid)
  {
  }

  lemma ThreadsSnoc(s: seq<Op>, op: Op, pid: Pid)
    requires s != []
    ensures var n := ThreadsOf(s, pid);
      ThreadsOf(s + [op], pid) ==
      if op == StartThread(pid) then n + 1 else if op == EndThread(pid) && n > 0 then n - 1 else n
  {
  }

  lemma NodeOfSnoc(s: seq<Op>, op: Op, pid: Pid)
    requires s != [] && Creates(s[0], pid) && !Creates(op, pid)
    ensures NodeOf(s + [op], pid) == After(NodeOf(s, pid), op, pid)
  {
    hide ChildrenOf, ImagesOf, AlertsOf, ScoreOf, ExitTimeOf, ThreadsOf, Terminated, ExtractFileName;
    ListsSnoc(s, op, pid);
    ThreadsSnoc(s, op, pid);
    TerminatedSnoc(s, op, pid);
    assert (s + [op])[0] == s[0];
  }

  lemma SinceSnoc(log: seq<Op>, op: Op, pid: Pid)
    ensures Since(log + [op], pid) ==
      if Creates(op, pid) then [op] else if Since(log, pid) == [] then [] else Since(log, pid) + [op]
    ensures Since(log, pid) != [] ==> Creates(Since(log, pid)[0], pid)
  {
  }

  lemma ApplyAt(nodes: Nodes, op: Op, pid: Pid)
    ensures pid in Apply(nodes, NoLimit, op) <==> pid in nodes || Creates(op, pid)
    ensures pid in nodes && !Creates(op, pid) ==> Apply(nodes, NoLimit, op)[pid] == After(nodes[pid], op, pid)
    ensures Creates(op, pid) ==>
      Apply(nodes, NoLimit, op)[pid] == (if op.parentPid == pid then NewNode(op).(childPids := [pid]) else NewNode(op))
  {
  }

  /** A PID is tracked exactly if it was ever created, and its node is a function of the log from its latest
      create on: children, images, threads, score, alerts, and whether and when it ended. */
  lemma {:induction false} NodeIsItsHistory(log: seq<Op>, pid: Pid)
    ensures var nodes := Replay(NoLimit, log);
      var s := Since(log, pid);
      && (pid in nodes <==> s != [])
      && (pid in nodes ==> Creates(s[0], pid) && nodes[pid] == NodeOf(s, pid))
    decreases |log|
  {
    hide Apply, NodeOf, After, Since, NewNode;
    if log == [] {
      NothingSince(pid);
    } else {
      var before, op := log[..|log| - 1], log[|log| - 1];
      assert log == before + [op];
      NodeIsItsHistory(before, pid);
      SinceSnoc(before, op, pid);
      ApplyAt(Replay(NoLimit, before), op, pid);
      if Creates(op, pid) {
        NodeOfNew(op);
      } else if Since(before, pid) != [] {
        NodeOfSnoc(Since(before, pid), op, pid);
      }
    }
  }

  lemma NothingSince(pid: Pid)
    ensures Since([], pid) == []
  {
  }

  /** With eviction the same holds of every PID the tracker still has. */
  lemma TrackedNode(limit: Limit, log: seq<Op>, pid: Pid)
    requires pid in Replay(limit, log)
    ensures var s := Since(log, pid);
      s != [] && Creates(s[0], pid) && Replay(limit, log)[pid] == NodeOf(s, pid)
  {
    hide NodeOf, Since;
    EvictionInvisible(limit, log);
    NodeIsItsHistory(log, pid);
  }

  // -------------------------------------------------------------------- liveness

  /** The latest create or terminate of pid. */
  function LatestLifecycle(log: seq<Op>, pid: Pid): Option<Op> {
    if log == [] then None
    else if Creates(log[|log| - 1], pid) || Terminates(log[|log| - 1], pid) then Some(log[|log| - 1])
    else LatestLifecycle(log[..|log| - 1], pid)
  }

  ghost predicate Alive(nodes: Nodes, pid: Pid) {
    pid in nodes && nodes[pid].alive
  }

  lemma ApplyAlive(nodes: Nodes, op: Op, pid: Pid)
    ensures Alive(Apply(nodes, NoLimit, op), pid) <==> Creates(op, pid) || (Alive(nodes, pid) && !Terminates(op, pid))
  {
  }

  lemma {:induction false} AliveUncapped(log: seq<Op>, pid: Pid)
    ensures Alive(Replay(NoLimit, log), pid) <==>
            LatestLifecycle(log, pid).Some? && LatestLifecycle(log, pid).value.Create?
    decreases |log|
  {
    hide Apply, Alive;
    if log == [] {
      NobodyAlive(pid);
    } else {
      ApplyAlive(Replay(NoLimit, log[..|log| - 1]), log[|log| - 1], pid);
      AliveUncapped(log[..|log| - 1], pid);
    }
  }

  /** Call i is a create of another PID that finds the map full and pid dead, by the log so far. */
  ghost predicate Drops(size: nat, log: seq<Op>, pid: Pid, i: nat)
    requires i < |log|
  {
    && log[i].Create? && log[i].pid != pid
    && |Replay(Limit(size), log[..i])| >= size
    && !CreatedLast(log[..i], pid)
  }

  predicate CreatedLast(log: seq<Op>, pid: Pid) {
    LatestLifecycle(log, pid).Some? && LatestLifecycle(log, pid).value.Create?
  }

  /** A PID is forgotten then and only then: it is tracked if and only if it was created and no create since its latest
      one found the map full and the PID dead. */
  lemma {:induction false} TrackedUnlessDropped(size: nat, log: seq<Op>, pid: Pid)
    ensures pid in Replay(Limit(size), log) <==>
            var k := LatestCreate(log, pid);
            k >= 0 && forall i :: k < i < |log| ==> !Drops(size, log, pid, i)
    decreases |log|
  {
    hide Apply, LatestLifecycle, ExtractFileName;
    if log != [] {
      var before, op := log[..|log| - 1], log[|log| - 1];
      TrackedUnlessDropped(size, before, pid);
      assert forall i :: 0 <= i < |before| ==> before[..i] == log[..i] && before[i] == log[i];
      assert forall i :: 0 <= i < |before| ==> (Drops(size, before, pid, i) <==> Drops(size, log, pid, i));
      if op.Create? {
        CreateCreates(Replay(Limit(size), before), size, op);
        AliveIffCreated(Limit(size), before, pid);
        assert log[..|before|] == before;
        assert op.pid != pid && pid in Replay(Limit(size), before) ==>
          (pid !in Replay(Limit(size), log) <==> Drops(size, log, pid, |before|));
      } else {
        UpdateKeeps(Replay(Limit(size), before), size, op);
      }
    }
  }

  lemma UpdateKeeps(nodes: Nodes, size: nat, op: Op)
    requires !op.Create?
    ensures Apply(nodes, Limit(size), op).Keys == nodes.Keys
  {
  }

  lemma NobodyAlive(pid: Pid)
    ensures !Alive(map[], pid)
  {
  }

  /** With any limit, a PID is alive in the map exactly when its latest lifecycle event is a create, and then
      its parent, session and image are those of that create. */
  lemma AliveIffCreated(limit: Limit, log: seq<Op>, pid: Pid)
    ensures var l := LatestLifecycle(log, pid);
      && (Alive(Replay(limit, log), pid) <==> l.Some? && l.value.Create?)
      && (Alive(Replay(limit, log), pid) ==>
            var node := Replay(limit, log)[pid];
            Creates(l.value, pid) && node.parentPid == l.value.parentPid && node.sessionId == l.value.sessionId
            && node.imageName == ExtractFileName(l.value.imagePath))
  {
    hide ExtractFileName;
    EvictionInvisible(limit, log);
    AliveUncapped(log, pid);
    if Alive(Replay(limit, log), pid) {
      TrackedNode(limit, log, pid);
      LifecycleIsCreate(log, pid);
    }
  }

  lemma {:induction false} LifecycleIsCreate(log: seq<Op>, pid: Pid)
    requires LatestLifecycle(log, pid).Some? && LatestLifecycle(log, pid).value.Create?
    ensures Since(log, pid) != [] && LatestLifecycle(log, pid).value == Since(log, pid)[0]
    ensures Creates(Since(log, pid)[0], pid)
  {
    var before, op := log[..|log| - 1], log[|log| - 1];
    assert log == before + [op];
    SinceSnoc(before, op, pid);
    if !Creates(op, pid) {
      LifecycleIsCreate(before, pid);
    }
  }

  // -------------------------------------------------------------------- ancestry

  /** The k-th PID up the parent chain, or 0 once the chain has ended. */
  function Ancestor(nodes: Nodes, pid: Pid, k: nat): Pid
    decreases k
  {
    if k == 0 then pid
    else
      var below := Ancestor(nodes, pid, k - 1);
      if below != 0 && below in nodes then nodes[below].parentPid else 0
  }

  lemma {:induction false} AncestorUp(nodes: Nodes, pid: Pid, k: nat)
    requires pid != 0 && pid in nodes
    ensures Ancestor(nodes, pid, k + 1) == Ancestor(nodes, nodes[pid].parentPid, k)
    decreases k
  {
    if k > 0 {
      AncestorUp(nodes, pid, k - 1);
    }
  }

  /** The walk gives the parent chain cut at the depth limit: entry k is the k-th ancestor, none is 0, and a
      walk that stops short of the limit stops where the chain ends. */
  lemma {:induction false} LineageIsChain(nodes: Nodes, pid: Pid, depth: nat)
    ensures var l := Lineage(nodes, pid, depth);
      && |l| <= depth
      && (forall k :: 0 <= k < |l| ==> l[k] == Ancestor(nodes, pid, k) != 0)
      && (|l| < depth ==> Ancestor(nodes, pid, |l|) == 0)
    decreases depth
  {
    var l := Lineage(nodes, pid, depth);
    if pid != 0 && depth > 0 && pid in nodes {
      var parent := nodes[pid].parentPid;
      LineageIsChain(nodes, parent, depth - 1);
      forall k | 0 <= k < |l|
        ensures l[k] == Ancestor(nodes, pid, k) != 0
      {
        if k > 0 {
          AncestorUp(nodes, pid, k - 1);
        }
      }
      AncestorUp(nodes, pid, |l| - 1);
    }
  }

  lemma {:induction false} SameAncestors(nodes: Nodes, pid: Pid, i: nat, j: nat, d: nat)
    requires Ancestor(nodes, pid, i) == Ancestor(nodes, pid, j)
    ensures Ancestor(nodes, pid, i + d) == Ancestor(nodes, pid, j + d)
    decreases d
  {
    if d > 0 {
      SameAncestors(nodes, pid, i, j, d - 1);
    }
  }

  /** If the parent chain ends where the walk ends, the walk met nobody twice. So a parent cycle, which PID reuse
      can make, is always walked to the depth limit. */
  lemma LineageWithoutCycle(nodes: Nodes, pid: Pid, depth: nat)
    ensures var l := Lineage(nodes, pid, depth);
      && (Ancestor(nodes, pid, |l|) == 0 ==> forall i, j :: 0 <= i < j < |l| ==> l[i] != l[j])
      && ((exists i, j :: 0 <= i < j < |l| && l[i] == l[j]) ==> |l| == depth)
  {
    var l := Lineage(nodes, pid, depth);
    LineageIsChain(nodes, pid, depth);
    forall i, j | 0 <= i < j < |l| && l[i] == l[j]
      ensures Ancestor(nodes, pid, |l|) != 0
    {
      assert l[i] == Ancestor(nodes, pid, i) && l[j] == Ancestor(nodes, pid, j);
      SameAncestors(nodes, pid, i, j, |l| - j);
      assert l[i + (|l| - j)] == Ancestor(nodes, pid, i + (|l| - j));
    }
  }
}
