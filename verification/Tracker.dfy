/** The agent's process tree: a map from PID to node, updated by kernel events and by detections. */
module Tracker {

  type Pid = nat

  const MAX_TRACKED_PROCESSES := 50000
  const MAX_LOADED_IMAGES := 200
  const MAX_DEPTH := 32

  datatype Node = Node(
    pid: Pid, parentPid: Pid, sessionId: nat, imagePath: string, imageName: string, commandLine: string,
    createTime: int, exitTime: int, alive: bool, threadCount: nat,
    childPids: seq<Pid>, loadedImages: seq<string>, score: int, alerts: seq<string>)

  /** A call that updates the tracker. */
  datatype Op =
    | Create(pid: Pid, parentPid: Pid, sessionId: nat, imagePath: string, commandLine: string, time: int)
    | Terminate(pid: Pid, time: int)
    | LoadImage(pid: Pid, imagePath: string)
    | StartThread(pid: Pid)
    | EndThread(pid: Pid)
    | AddScore(pid: Pid, amount: int)
    | AddAlert(pid: Pid, alert: string)

  type Nodes = map<Pid, Node>

  /** The size at which a create evicts; NoLimit stands for a tracker that never evicts. */
  datatype Limit = NoLimit | Limit(size: nat)

  predicate IsSeparator(c: char) {
    c == '\\' || c == '/'
  }

  /** What follows the last separator. */
  function ExtractFileName(path: string): string {
    if path == "" || IsSeparator(path[|path| - 1]) then ""
    else ExtractFileName(path[..|path| - 1]) + [path[|path| - 1]]
  }

  /** It is the longest ending of the path without a separator. */
  lemma {:induction false} FileNameIsEnding(path: string)
    ensures var name := ExtractFileName(path);
      && |name| <= |path| && path[|path| - |name|..] == name
      && (forall c :: c in name ==> !IsSeparator(c))
      && (|name| < |path| ==> IsSeparator(path[|path| - |name| - 1]))
  {
    if path != "" && !IsSeparator(path[|path| - 1]) {
      FileNameIsEnding(path[..|path| - 1]);
    }
  }

  function NewNode(op: Op): Node
    requires op.Create?
  {
    Node(op.pid, op.parentPid, op.sessionId, op.imagePath, ExtractFileName(op.imagePath), op.commandLine,
         op.time, 0, true, 1, [], [], 0, [])
  }

  function Living(nodes: Nodes): Nodes {
    map pid | pid in nodes && nodes[pid].alive :: nodes[pid]
  }

  function Evicted(nodes: Nodes, limit: Limit): Nodes {
    if limit.Limit? && |nodes| >= limit.size then Living(nodes) else nodes
  }

  /** A node after a call that finds it in the map. */
  function Updated(node: Node, op: Op): Node
    requires !op.Create?
  {
    match op
    case Terminate(_, time) => node.(alive := false, exitTime := time)
    case LoadImage(_, imagePath) =>
      if |node.loadedImages| < MAX_LOADED_IMAGES
      then node.(loadedImages := node.loadedImages + [ExtractFileName(imagePath)]) else node
    case StartThread(_) => node.(threadCount := node.threadCount + 1)
    case EndThread(_) => if node.threadCount > 0 then node.(threadCount := node.threadCount - 1) else node
    case AddScore(_, amount) => node.(score := node.score + amount)
    case AddAlert(_, alert) => node.(alerts := node.alerts + [alert])
  }

  function WithChild(nodes: Nodes, parent: Pid, child: Pid): Nodes {
    if parent in nodes then nodes[parent := nodes[parent].(childPids := nodes[parent].childPids + [child])] else nodes
  }

  /** The map after a call. */
  function Apply(nodes: Nodes, limit: Limit, op: Op): Nodes {
    if op.Create? then WithChild(Evicted(nodes, limit)[op.pid := NewNode(op)], op.parentPid, op.pid)
    else if op.pid in nodes then nodes[op.pid := Updated(nodes[op.pid], op)]
    else nodes
  }

  /** What a create leaves, at a limit: the created PID with its new node; the other nodes, less the dead if there were
      size of them or more; and of those only the parent is changed. */
  ghost predicate Created(before: Nodes, after: Nodes, size: nat, op: Op)
    requires op.Create?
  {
    && (forall pid :: pid in after <==> pid == op.pid || (pid in before && (|before| < size || before[pid].alive)))
    && (forall pid :: pid in after && pid != op.pid && pid != op.parentPid ==> after[pid] == before[pid])
    && (op.parentPid in after && op.parentPid != op.pid ==>
          after[op.parentPid] ==
          before[op.parentPid].(childPids := before[op.parentPid].childPids + [op.pid]))
    && after[op.pid] ==
       Node(op.pid, op.parentPid, op.sessionId, op.imagePath, ExtractFileName(op.imagePath), op.commandLine, op.time,
            0, true, 1, if op.parentPid == op.pid then [op.pid] else [], [], 0, [])
  }

  lemma CreateCreates(nodes: Nodes, size: nat, op: Op)
    requires op.Create?
    ensures Created(nodes, Apply(nodes, Limit(size), op), size, op)
  {
    hide ExtractFileName;
  }

  // ----------------------------------------------------------------- ancestry

  /** The PIDs from pid up its parent chain, at most depth of them. */
  function Lineage(nodes: Nodes, pid: Pid, depth: nat): seq<Pid>
    decreases depth
  {
    if pid == 0 || depth == 0 then []
    else if pid !in nodes then [pid]
    else [pid] + Lineage(nodes, nodes[pid].parentPid, depth - 1)
  }

  // -------------------------------------------------------------- the tracker

  class ProcessTracker {
    var nodes: Nodes

    constructor ()
      ensures nodes == map[]
    {
      nodes := map[];
    }

    /** The erase-while-iterating loop; the order of the hash map's entries is open. */
    method EvictTerminated()
      modifies this
      ensures nodes == Living(old(nodes))
    {
      var rest := nodes.Keys;
      while rest != {}
        invariant rest <= nodes.Keys <= old(nodes).Keys
        invariant forall pid :: pid in nodes ==> nodes[pid] == old(nodes)[pid]
        invariant forall pid :: pid in old(nodes) && pid !in rest ==> (pid in nodes <==> old(nodes)[pid].alive)
        invariant forall pid :: pid in rest ==> pid in nodes
        decreases rest
      {
        var pid :| pid in rest;
        rest := rest - {pid};
        if !nodes[pid].alive {
          nodes := nodes - {pid};
        }
      }
    }

    method OnProcessCreate(pid: Pid, parentPid: Pid, sessionId: nat, imagePath: string, commandLine: string, time: int)
      modifies this
      ensures nodes == Apply(old(nodes), Limit(MAX_TRACKED_PROCESSES),
                             Create(pid, parentPid, sessionId, imagePath, commandLine, time))
      ensures Created(old(nodes), nodes, MAX_TRACKED_PROCESSES,
                      Create(pid, parentPid, sessionId, imagePath, commandLine, time))
    {
      hide ExtractFileName, Created;
      CreateCreates(nodes, MAX_TRACKED_PROCESSES, Create(pid, parentPid, sessionId, imagePath, commandLine, time));
      if |nodes| >= MAX_TRACKED_PROCESSES {
        EvictTerminated();
      }
      var imageName := ExtractFileName(imagePath);
      var node := Node(pid, parentPid, sessionId, imagePath, imageName, commandLine, time, 0, true, 1, [], [], 0, []);
      nodes := nodes[pid := node];
      if parentPid in nodes {
        var parent := nodes[parentPid];
        nodes := nodes[parentPid := parent.(childPids := parent.childPids + [pid])];
      }
    }

    method OnProcessTerminate(pid: Pid, time: int)
      modifies this
      ensures nodes == Apply(old(nodes), Limit(MAX_TRACKED_PROCESSES), Terminate(pid, time))
    {
      if pid in nodes {
        nodes := nodes[pid := nodes[pid].(alive := false, exitTime := time)];
      }
    }

    method OnImageLoad(pid: Pid, imagePath: string)
      modifies this
      ensures nodes == Apply(old(nodes), Limit(MAX_TRACKED_PROCESSES), LoadImage(pid, imagePath))
    {
      if pid in nodes {
        if |nodes[pid].loadedImages| < MAX_LOADED_IMAGES {
          var imageName := ExtractFileName(imagePath);
          nodes := nodes[pid := nodes[pid].(loadedImages := nodes[pid].loadedImages + [imageName])];
        } else {
          assert nodes[pid := nodes[pid]] == nodes;
        }
      }
    }

    /** OnThreadEvent for a thread start, or else for a thread end, of the target process. */
    method OnThreadEvent(target: Pid, isCreate: bool)
      modifies this
      ensures nodes == Apply(old(nodes), Limit(MAX_TRACKED_PROCESSES),
                             if isCreate then StartThread(target) else EndThread(target))
    {
      if target in nodes {
        if isCreate {
          nodes := nodes[target := nodes[target].(threadCount := nodes[target].threadCount + 1)];
        } else if nodes[target].threadCount > 0 {
          nodes := nodes[target := nodes[target].(threadCount := nodes[target].threadCount - 1)];
        } else {
          assert nodes[target := nodes[target]] == nodes;
        }
      }
    }

    method AddProcessAlert(pid: Pid, alert: string)
      modifies this
      ensures nodes == Apply(old(nodes), Limit(MAX_TRACKED_PROCESSES), AddAlert(pid, alert))
    {
      if pid in nodes {
        nodes := nodes[pid := nodes[pid].(alerts := nodes[pid].alerts + [alert])];
      }
    }

    method IncrementSuspicionScore(pid: Pid, amount: int)
      modifies this
      ensures nodes == Apply(old(nodes), Limit(MAX_TRACKED_PROCESSES), AddScore(pid, amount))
    {
      if pid in nodes {
        nodes := nodes[pid := nodes[pid].(score := nodes[pid].score + amount)];
      }
    }

    method GetProcessLineage(pid: Pid) returns (lineage: seq<Pid>)
      ensures lineage == Lineage(nodes, pid, MAX_DEPTH)
    {
      hide Lineage;
      lineage := WalkUp(pid, MAX_DEPTH);
    }

    /** The loop of GetProcessLineage. */
    method WalkUp(pid: Pid, depth: nat) returns (lineage: seq<Pid>)
      ensures lineage == Lineage(nodes, pid, depth)
    {
      lineage := [];
      var current := pid;
      var maxDepth := depth;
      while current != 0 && maxDepth > 0
        invariant Lineage(nodes, pid, depth) == lineage + Lineage(nodes, current, maxDepth)
        decreases maxDepth
      {
        maxDepth := maxDepth - 1;
        lineage := lineage + [current];
        if current !in nodes {
          return;
        }
        current := nodes[current].parentPid;
      }
    }

    /** Every live node, each once, in an order left open. */
    method GetAllActiveProcesses() returns (result: seq<Node>)
      requires forall pid :: pid in nodes ==> nodes[pid].pid == pid
      ensures forall node :: node in result <==> node.pid in nodes && nodes[node.pid] == node && node.alive
      ensures forall i, j :: 0 <= i < j < |result| ==> result[i].pid != result[j].pid
    {
      result := [];
      var rest := nodes.Keys;
      while rest != {}
        invariant rest <= nodes.Keys
        invariant forall node :: node in result <==>
          node.pid in nodes && node.pid !in rest && nodes[node.pid] == node && node.alive
        invariant forall i, j :: 0 <= i < j < |result| ==> result[i].pid != result[j].pid
        decreases rest
      {
        var pid :| pid in rest;
        rest := rest - {pid};
        if nodes[pid].alive {
          result := result + [nodes[pid]];
        }
      }
    }
  }
}
