/**
 * The behaviour graph of a chain: processes as vertices, spawn edges from parent to child,
 * attach edges from a process to what it did.
 *
 * A node id is the letter p with a pid or the letter e with an event id, so ids of the two
 * forms never collide. What the description of an event says is taken as given.
 */
module BehaviourGraph {
  import opened Wrappers
  import opened Sequences

  datatype Kind =
    | ProcessCreated | Exec | ProcessExited
    | NetworkConnect | FileWrite | PrivilegeEscalation | SocketBind | FileRead
    | Unplaced

  /** A pid can be missing: a connection may have no process that the monitor can tell. */
  type Pid = Option<int>

  /** `note` and `suspicious` are what describing the event gives. */
  datatype Event = Event(
    id: string, kind: Kind, pid: Pid, ppid: Pid, exe: string, time: real, note: string, suspicious: bool)

  datatype NodeId = P(pid: Pid) | E(eventId: string)

  datatype Node = Node(
    id: NodeId, pid: Pid, ppid: Pid, exe: string, kind: Kind, time: real, note: string, suspicious: bool)

  datatype EdgeKind = Attach | Spawn

  datatype Edge = Edge(source: NodeId, target: NodeId, kind: EdgeKind)

  datatype Dag = Dag(nodes: seq<Node>, edges: seq<Edge>, roots: seq<NodeId>)

  predicate IsProcess(k: Kind) {
    k in {ProcessCreated, Exec, ProcessExited}
  }

  predicate IsAttached(k: Kind) {
    k in {NetworkConnect, FileWrite, PrivilegeEscalation, SocketBind, FileRead}
  }

  /* ------------------------------------------------------------- sorting by timestamp */

  function Insert(s: seq<Event>, e: Event): (r: seq<Event>) {
    if s == [] || s[|s| - 1].time <= e.time then s + [e]
    else Insert(s[..|s| - 1], e) + [s[|s| - 1]]
  }

  /** Python's stable `sorted` by timestamp. */
  function ByTime(events: seq<Event>): (r: seq<Event>) {
    if events == [] then []
    else Insert(ByTime(events[..|events| - 1]), events[|events| - 1])
  }

  predicate InTimeOrder(s: seq<Event>) {
    |s| <= 1 || (s[|s| - 2].time <= s[|s| - 1].time && InTimeOrder(s[..|s| - 1]))
  }

  function At(time: real): (p: Event -> bool) {
    (e: Event) => e.time == time
  }

  lemma OrderSnoc(s: seq<Event>, e: Event)
    ensures InTimeOrder(s + [e]) <==> s == [] || (s[|s| - 1].time <= e.time && InTimeOrder(s))
  {
    assert (s + [e])[..|s|] == s;
  }

  lemma {:induction false} InsertOrders(s: seq<Event>, e: Event)
    requires InTimeOrder(s)
    ensures var r := Insert(s, e);
      && InTimeOrder(r) && r != []
      && r[|r| - 1].time == if s == [] || s[|s| - 1].time <= e.time then e.time else s[|s| - 1].time
  {
    if s != [] && s[|s| - 1].time > e.time {
      InsertOrders(s[..|s| - 1], e);
      OrderSnoc(Insert(s[..|s| - 1], e), s[|s| - 1]);
    } else {
      OrderSnoc(s, e);
    }
  }

  lemma MultisetSnoc(s: seq<Event>, e: Event)
    ensures multiset(s + [e]) == multiset(s) + multiset{e}
  {
  }

  lemma MultisetUnsnoc(s: seq<Event>)
    requires s != []
    ensures multiset(s) == multiset(s[..|s| - 1]) + multiset{s[|s| - 1]}
  {
    assert s == s[..|s| - 1] + [s[|s| - 1]];
  }

  lemma {:induction false} InsertAdds(s: seq<Event>, e: Event)
    ensures multiset(Insert(s, e)) == multiset(s) + multiset{e}
  {
    if s != [] && s[|s| - 1].time > e.time {
      InsertAdds(s[..|s| - 1], e);
      MultisetSnoc(Insert(s[..|s| - 1], e), s[|s| - 1]);
      MultisetUnsnoc(s);
    } else {
      MultisetSnoc(s, e);
    }
  }

  /** Inserting keeps the events of each time in their order, the new one last. */
  lemma {:induction false} InsertStable(s: seq<Event>, e: Event, time: real)
    ensures Filter(Insert(s, e), At(time)) == if e.time == time then Filter(s, At(time)) + [e] else Filter(s, At(time))
  {
    if s != [] && s[|s| - 1].time > e.time {
      InsertStable(s[..|s| - 1], e, time);
      FilterSnoc(Insert(s[..|s| - 1], e), s[|s| - 1], At(time));
      FilterUnsnoc(s, At(time));
    } else {
      FilterSnoc(s, e, At(time));
    }
  }

  lemma {:induction false} ByTimeOrders(events: seq<Event>)
    ensures InTimeOrder(ByTime(events))
  {
    if events != [] {
      ByTimeOrders(events[..|events| - 1]);
      InsertOrders(ByTime(events[..|events| - 1]), events[|events| - 1]);
    }
  }

  lemma {:induction false} ByTimeKeeps(events: seq<Event>)
    ensures multiset(ByTime(events)) == multiset(events)
  {
    if events != [] {
      ByTimeKeeps(events[..|events| - 1]);
      InsertAdds(ByTime(events[..|events| - 1]), events[|events| - 1]);
      MultisetUnsnoc(events);
    }
  }

  lemma {:induction false} ByTimeStable(events: seq<Event>, time: real)
    ensures Filter(ByTime(events), At(time)) == Filter(events, At(time))
  {
    if events != [] {
      var init, last := events[..|events| - 1], events[|events| - 1];
      ByTimeStable(init, time);
      InsertStable(ByTime(init), last, time);
      FilterUnsnoc(events, At(time));
    }
  }

  /** The events in order of time, none lost, and those of one time in their given order. */
  lemma ByTimeSorts(events: seq<Event>, time: real)
    ensures InTimeOrder(ByTime(events)) && multiset(ByTime(events)) == multiset(events)
    ensures Filter(ByTime(events), At(time)) == Filter(events, At(time))
  {
    ByTimeOrders(events);
    ByTimeKeeps(events);
    ByTimeStable(events, time);
  }

  /* ------------------------------------------------------------------- the construction */

  /** The pids with a process event. */
  function Processes(es: seq<Event>): (r: set<Pid>) {
    set e | e in es && IsProcess(e.kind) :: e.pid
  }

  /** The pids that occur at all, as a process or as the actor of an attached event. */
  function Known(es: seq<Event>): (r: set<Pid>) {
    set e | e in es && (IsProcess(e.kind) || IsAttached(e.kind)) :: e.pid
  }

  function NodeOf(id: NodeId, e: Event): (n: Node) {
    Node(id, e.pid, e.ppid, e.exe, e.kind, e.time, e.note, e.suspicious)
  }

  /** The node `id` takes over what the later exec `e` ran. */
  function Retold(nodes: seq<Node>, id: NodeId, e: Event): (r: seq<Node>)
    ensures |r| == |nodes|
  {
    if nodes == [] then []
    else if nodes[0].id == id then
      [nodes[0].(exe := e.exe, note := e.note, suspicious := e.suspicious)] + nodes[1..]
    else [nodes[0]] + Retold(nodes[1..], id, e)
  }

  function NodesAfter(nodes: seq<Node>, seen: set<Pid>, e: Event): (r: seq<Node>) {
    if IsProcess(e.kind) then
      if e.pid !in seen then nodes + [NodeOf(P(e.pid), e)]
      else if e.kind == Exec then Retold(nodes, P(e.pid), e)
      else nodes
    else if IsAttached(e.kind) then nodes + [NodeOf(E(e.id), e)]
    else nodes
  }

  function Nodes(es: seq<Event>): (r: seq<Node>) {
    if es == [] then []
    else NodesAfter(Nodes(es[..|es| - 1]), Processes(es[..|es| - 1]), es[|es| - 1])
  }

  function AttachOf(e: Event): (r: seq<Edge>) {
    if IsAttached(e.kind) then [Edge(P(e.pid), E(e.id), Attach)] else []
  }

  function Attaches(es: seq<Event>): (r: seq<Edge>) {
    if es == [] then [] else Attaches(es[..|es| - 1]) + AttachOf(es[|es| - 1])
  }

  /** What the dictionary of parents gives for a node: leaves are not in it. */
  function Lineage(n: Node): (pid: Pid) {
    if n.id.P? then n.ppid else None
  }

  /** With an event without a pid among the events, this links that pid to every leaf. */
  function SpawnOf(n: Node, known: set<Pid>): (r: seq<Edge>) {
    if Lineage(n) in known && P(Lineage(n)) != n.id then [Edge(P(Lineage(n)), n.id, Spawn)] else []
  }

  function Spawns(nodes: seq<Node>, known: set<Pid>): (r: seq<Edge>) {
    if nodes == [] then [] else Spawns(nodes[..|nodes| - 1], known) + SpawnOf(nodes[|nodes| - 1], known)
  }

  predicate RootNode(n: Node, known: set<Pid>) {
    n.kind in {ProcessCreated, Exec} && Lineage(n) !in known
  }

  function RootIn(n: Node, known: set<Pid>): (r: seq<NodeId>) {
    if RootNode(n, known) then [n.id] else []
  }

  function Roots(nodes: seq<Node>, known: set<Pid>): (r: seq<NodeId>) {
    if nodes == [] then []
    else Roots(nodes[..|nodes| - 1], known) + RootIn(nodes[|nodes| - 1], known)
  }

  function Edges(es: seq<Event>): (r: seq<Edge>) {
    Attaches(es) + Spawns(Nodes(es), Known(es))
  }

  function RootsOf(es: seq<Event>): (r: seq<NodeId>) {
    Roots(Nodes(es), Known(es))
  }

  /* -------------------------------------------------------- what the nodes are, by pid */

  lemma PidsSnoc(init: seq<Event>, e: Event)
    ensures Processes(init + [e]) == Processes(init) + if IsProcess(e.kind) then {e.pid} else {}
    ensures Known(init + [e]) == Known(init) + if IsProcess(e.kind) || IsAttached(e.kind) then {e.pid} else {}
  {
    assert forall x :: x in init + [e] <==> x in init || x == e;
  }

  predicate Introduces(e: Event, pid: Pid) {
    IsProcess(e.kind) && e.pid == pid
  }

  /** Where the first process event of `pid` stands. */
  function FirstAt(es: seq<Event>, pid: Pid): (i: nat)
    requires pid in Processes(es)
    ensures i < |es| && Introduces(es[i], pid)
    ensures forall j :: 0 <= j < i ==> !Introduces(es[j], pid)
  {
    var init := es[..|es| - 1];
    assert es == init + [es[|es| - 1]];
    PidsSnoc(init, es[|es| - 1]);
    if pid in Processes(init) then FirstAt(init, pid)
    else
      assert forall j :: 0 <= j < |init| ==> init[j] in init;
      |init|
  }

  /** The parent that the first process event of `pid` names. */
  function ParentOf(es: seq<Event>, pid: Pid): (ppid: Pid)
    requires pid in Processes(es)
  {
    es[FirstAt(es, pid)].ppid
  }

  /** The event the node of `pid` takes its binary and description from: the last exec, or the first event. */
  function ToldBy(es: seq<Event>, pid: Pid): (e: Event)
    requires pid in Processes(es)
  {
    var init, last := es[..|es| - 1], es[|es| - 1];
    assert es == init + [last];
    PidsSnoc(init, last);
    if pid !in Processes(init) || (last.pid == pid && last.kind == Exec) then last else ToldBy(init, pid)
  }

  /** The node of a process: lineage, kind and time from its first event, the rest from `ToldBy`. */
  function ProcessNode(es: seq<Event>, pid: Pid): (n: Node)
    requires pid in Processes(es)
  {
    var first, told := es[FirstAt(es, pid)], ToldBy(es, pid);
    Node(P(pid), pid, first.ppid, told.exe, first.kind, first.time, told.note, told.suspicious)
  }

  function HasId(id: NodeId): (p: Node -> bool) {
    (n: Node) => n.id == id
  }

  lemma {:induction false} RetoldElsewhere(nodes: seq<Node>, id: NodeId, e: Event, x: NodeId)
    ensures Filter(Retold(nodes, id, e), HasId(x))
            == if x == id then Retold(Filter(nodes, HasId(x)), id, e) else Filter(nodes, HasId(x))
  {
    if nodes != [] {
      var n, rest := nodes[0], nodes[1..];
      var told := n.(exe := e.exe, note := e.note, suspicious := e.suspicious);
      RetoldElsewhere(rest, id, e, x);
      if n.id == id {
        FilterCons(told, rest, HasId(x));
        RetoldHead(n, Filter(rest, HasId(x)), id, e);
      } else {
        FilterCons(n, Retold(rest, id, e), HasId(x));
      }
      assert nodes == [n] + rest;
      FilterCons(n, rest, HasId(x));
    }
  }

  lemma FilterCons(n: Node, rest: seq<Node>, p: Node -> bool)
    ensures Filter([n] + rest, p) == if p(n) then [n] + Filter(rest, p) else Filter(rest, p)
  {
    assert ([n] + rest)[1..] == rest;
  }

  lemma RetoldHead(n: Node, rest: seq<Node>, id: NodeId, e: Event)
    ensures n.id == id ==>
      Retold([n] + rest, id, e) == [n.(exe := e.exe, note := e.note, suspicious := e.suspicious)] + rest
  {
    assert ([n] + rest)[1..] == rest;
  }

  /** What one event does to the one node of a pid. */
  lemma ProcessNodeSnoc(init: seq<Event>, e: Event, pid: Pid)
    requires pid in Processes(init)
    ensures pid in Processes(init + [e])
    ensures ProcessNode(init + [e], pid) == if e.pid == pid && e.kind == Exec
      then ProcessNode(init, pid).(exe := e.exe, note := e.note, suspicious := e.suspicious)
      else ProcessNode(init, pid)
  {
    PidsSnoc(init, e);
    var es := init + [e];
    assert es[..|es| - 1] == init && es[|es| - 1] == e;
  }

  lemma ProcessNodeNew(init: seq<Event>, e: Event)
    requires IsProcess(e.kind) && e.pid !in Processes(init)
    ensures e.pid in Processes(init + [e])
    ensures ProcessNode(init + [e], e.pid) == NodeOf(P(e.pid), e)
  {
    PidsSnoc(init, e);
    var es := init + [e];
    assert es[..|es| - 1] == init && es[|es| - 1] == e;
  }

  lemma NodesSnoc(init: seq<Event>, e: Event)
    ensures Nodes(init + [e]) == NodesAfter(Nodes(init), Processes(init), e)
  {
    assert (init + [e])[..|init|] == init;
  }

  function ProcessNodes(es: seq<Event>, pid: Pid): (r: seq<Node>) {
    if pid in Processes(es) then [ProcessNode(es, pid)] else []
  }

  lemma ProcessNodesAfter(init: seq<Event>, e: Event, nodes: seq<Node>, pid: Pid)
    requires Filter(nodes, HasId(P(pid))) == ProcessNodes(init, pid)
    ensures Filter(NodesAfter(nodes, Processes(init), e), HasId(P(pid))) == ProcessNodes(init + [e], pid)
  {
    PidsSnoc(init, e);
    if pid in Processes(init) {
      ProcessNodeSnoc(init, e, pid);
    } else if IsProcess(e.kind) && e.pid == pid {
      ProcessNodeNew(init, e);
    }
    if IsProcess(e.kind) && e.pid !in Processes(init) {
      FilterSnoc(nodes, NodeOf(P(e.pid), e), HasId(P(pid)));
    } else if e.kind == Exec {
      RetoldElsewhere(nodes, P(e.pid), e, P(pid));
    } else if IsAttached(e.kind) {
      FilterSnoc(nodes, NodeOf(E(e.id), e), HasId(P(pid)));
    }
  }

  /**
   * A pid with a process event has exactly one node, and no other pid has any: lineage,
   * kind and time are those of its first event, binary and description those of its last exec.
   */
  lemma {:induction false} NodeOfPid(es: seq<Event>, pid: Pid)
    ensures Filter(Nodes(es), HasId(P(pid))) == ProcessNodes(es, pid)
  {
    if es != [] {
      var init, e := es[..|es| - 1], es[|es| - 1];
      assert es == init + [e];
      NodeOfPid(init, pid);
      NodesSnoc(init, e);
      ProcessNodesAfter(init, e, Nodes(init), pid);
    }
  }

  function AttachedAs(id: string): (p: Event -> bool) {
    (e: Event) => IsAttached(e.kind) && e.id == id
  }

  function Leaves(es: seq<Event>): (r: seq<Node>) {
    seq(|es|, i requires 0 <= i < |es| => NodeOf(E(es[i].id), es[i]))
  }

  lemma LeavesSnoc(es: seq<Event>, e: Event)
    ensures Leaves(es + [e]) == Leaves(es) + [NodeOf(E(e.id), e)]
  {
  }

  lemma LeavesAfter(init: seq<Event>, e: Event, nodes: seq<Node>, id: string)
    requires Filter(nodes, HasId(E(id))) == Leaves(Filter(init, AttachedAs(id)))
    ensures Filter(NodesAfter(nodes, Processes(init), e), HasId(E(id))) == Leaves(Filter(init + [e], AttachedAs(id)))
  {
    FilterSnoc(init, e, AttachedAs(id));
    LeavesSnoc(Filter(init, AttachedAs(id)), e);
    if IsProcess(e.kind) && e.pid !in Processes(init) {
      FilterSnoc(nodes, NodeOf(P(e.pid), e), HasId(E(id)));
    } else if e.kind == Exec {
      RetoldElsewhere(nodes, P(e.pid), e, E(id));
    } else if IsAttached(e.kind) {
      FilterSnoc(nodes, NodeOf(E(e.id), e), HasId(E(id)));
    }
  }

  /** Every attached event has its own leaf. */
  lemma {:induction false} NodesOfEvent(es: seq<Event>, id: string)
    ensures Filter(Nodes(es), HasId(E(id))) == Leaves(Filter(es, AttachedAs(id)))
  {
    if es != [] {
      var init, e := es[..|es| - 1], es[|es| - 1];
      assert es == init + [e];
      NodesOfEvent(init, id);
      NodesSnoc(init, e);
      LeavesAfter(init, e, Nodes(init), id);
    }
  }

  ghost predicate UniqueNodeIds(es: seq<Event>) {
    forall id: NodeId :: |Filter(Nodes(es), HasId(id))| <= 1
  }

  ghost predicate UniqueEventIds(es: seq<Event>) {
    forall id: string :: |Filter(es, AttachedAs(id))| <= 1
  }

  /** Node ids are unique exactly when no two attached events share their event id. */
  lemma NodeIdsUniqueIff(es: seq<Event>)
    ensures UniqueNodeIds(es) <==> UniqueEventIds(es)
  {
    forall id: string ensures |Filter(Nodes(es), HasId(E(id)))| == |Filter(es, AttachedAs(id))| {
      NodesOfEvent(es, id);
    }
    forall pid: Pid ensures |Filter(Nodes(es), HasId(P(pid)))| <= 1 {
      NodeOfPid(es, pid);
    }
    if UniqueEventIds(es) {
      forall id: NodeId ensures |Filter(Nodes(es), HasId(id))| <= 1 {
        match id
        case P(_) =>
        case E(_) =>
      }
    }
    if UniqueNodeIds(es) {
      forall id: string ensures |Filter(es, AttachedAs(id))| <= 1 {
        assert |Filter(Nodes(es), HasId(E(id)))| <= 1;
      }
    }
  }

  predicate HasNode(es: seq<Event>, id: NodeId) {
    exists n :: n in Nodes(es) && n.id == id
  }

  lemma NodeIn(nodes: seq<Node>, id: NodeId)
    ensures (exists n :: n in nodes && n.id == id) <==> Filter(nodes, HasId(id)) != []
  {
    if Filter(nodes, HasId(id)) != [] {
      var n := Filter(nodes, HasId(id))[0];
      assert n in nodes && HasId(id)(n);
    }
    if n :| n in nodes && n.id == id {
      assert HasId(id)(n);
    }
  }

  /** The members of the node list, by form of id. */
  lemma NodeIs(es: seq<Event>, n: Node)
    requires n in Nodes(es)
    ensures n.id.P? ==> n.id.pid in Processes(es) && n == ProcessNode(es, n.id.pid)
    ensures n.id.E? ==> exists e :: e in es && IsAttached(e.kind) && n == NodeOf(E(e.id), e)
  {
    assert HasId(n.id)(n);
    assert n in Filter(Nodes(es), HasId(n.id));
    match n.id
    case P(pid) => NodeOfPid(es, pid);
    case E(id) =>
      NodesOfEvent(es, id);
      var mine := Filter(es, AttachedAs(id));
      var i :| 0 <= i < |mine| && n == Leaves(mine)[i];
      assert mine[i] in es && AttachedAs(id)(mine[i]);
  }

  lemma HasNodeIff(es: seq<Event>, id: NodeId)
    ensures id.P? ==> (HasNode(es, id) <==> id.pid in Processes(es))
    ensures id.E? ==> (HasNode(es, id) <==> exists e :: e in es && IsAttached(e.kind) && e.id == id.eventId)
  {
    NodeIn(Nodes(es), id);
    match id
    case P(pid) => NodeOfPid(es, pid);
    case E(x) =>
      NodesOfEvent(es, x);
      var mine := Filter(es, AttachedAs(x));
      if mine != [] {
        assert mine[0] in es && AttachedAs(x)(mine[0]);
      }
      if e :| e in es && IsAttached(e.kind) && e.id == x {
        assert AttachedAs(x)(e);
      }
  }

  /* ---------------------------------------------------------------------------- edges */

  function Into(id: NodeId): (p: Edge -> bool) {
    (e: Edge) => e.target == id
  }

  /** `pid` gets a spawn edge: its parent occurs in the chain and is another process. */
  predicate HasParent(es: seq<Event>, pid: Pid) {
    pid in Processes(es) && ParentOf(es, pid) in Known(es) && ParentOf(es, pid) != pid
  }

  lemma {:induction false} SpawnsInto(nodes: seq<Node>, known: set<Pid>, id: NodeId)
    ensures Filter(Spawns(nodes, known), Into(id)) == Spawns(Filter(nodes, HasId(id)), known)
  {
    if nodes != [] {
      var init, n := nodes[..|nodes| - 1], nodes[|nodes| - 1];
      SpawnsInto(init, known, id);
      FilterUnsnoc(nodes, HasId(id));
      if SpawnOf(n, known) == [] {
        assert Spawns(nodes, known) == Spawns(init, known);
      } else {
        FilterSnoc(Spawns(init, known), SpawnOf(n, known)[0], Into(id));
        assert Spawns(nodes, known) == Spawns(init, known) + [SpawnOf(n, known)[0]];
      }
      if n.id == id {
        assert Filter(nodes, HasId(id))[..|Filter(init, HasId(id))|] == Filter(init, HasId(id));
      }
    }
  }

  lemma {:induction false} AttachesInto(es: seq<Event>, id: NodeId)
    ensures id.P? ==> Filter(Attaches(es), Into(id)) == []
    ensures id.E? ==> Filter(Attaches(es), Into(id)) == Attaches(Filter(es, AttachedAs(id.eventId)))
  {
    if es != [] {
      var init, e := es[..|es| - 1], es[|es| - 1];
      AttachesInto(init, id);
      if IsAttached(e.kind) {
        FilterSnoc(Attaches(init), Edge(P(e.pid), E(e.id), Attach), Into(id));
        assert Attaches(es) == Attaches(init) + [Edge(P(e.pid), E(e.id), Attach)];
      } else {
        assert Attaches(es) == Attaches(init);
      }
      if id.E? {
        FilterUnsnoc(es, AttachedAs(id.eventId));
        if AttachedAs(id.eventId)(e) {
          assert Filter(es, AttachedAs(id.eventId))[..|Filter(init, AttachedAs(id.eventId))|]
              == Filter(init, AttachedAs(id.eventId));
        }
      }
    }
  }

  lemma SpawnsOfOne(n: Node, known: set<Pid>)
    ensures Spawns([n], known) == SpawnOf(n, known)
  {
    assert [n][..0] == [];
  }

  lemma {:induction false} AttachCount(es: seq<Event>)
    requires forall e :: e in es ==> IsAttached(e.kind)
    ensures |Attaches(es)| == |es|
    ensures forall i :: 0 <= i < |es| ==> Attaches(es)[i] == Edge(P(es[i].pid), E(es[i].id), Attach)
  {
    if es != [] {
      AttachCount(es[..|es| - 1]);
    }
  }

  /** Spawn edges into `n` leaves with one id: none, unless an event has no pid. */
  ghost predicate FromMissing(edges: seq<Edge>, known: set<Pid>, id: string, n: nat) {
    && |edges| == (if None in known then n else 0)
    && forall x :: x in edges ==> x == Edge(P(None), E(id), Spawn)
  }

  lemma FromMissingSnoc(edges: seq<Edge>, known: set<Pid>, id: string, n: nat, leaf: Node)
    requires FromMissing(edges, known, id, n) && leaf.id == E(id)
    ensures FromMissing(edges + SpawnOf(leaf, known), known, id, n + 1)
  {
  }

  lemma LeavesUnsnoc(es: seq<Event>)
    requires es != []
    ensures var n := |es| - 1; Leaves(es) == Leaves(es[..n]) + [NodeOf(E(es[n].id), es[n])]
  {
  }

  lemma {:induction false} SpawnsIntoLeaves(es: seq<Event>, known: set<Pid>, id: string)
    requires forall e :: e in es ==> e.id == id
    ensures FromMissing(Spawns(Leaves(es), known), known, id, |es|)
  {
    if es != [] {
      var n := |es| - 1;
      var leaf := NodeOf(E(es[n].id), es[n]);
      assert es[n] in es && forall e :: e in es[..n] ==> e in es;
      SpawnsIntoLeaves(es[..n], known, id);
      LeavesUnsnoc(es);
      SpawnsSnoc(Leaves(es[..n]), leaf, Leaves(es), known);
      FromMissingSnoc(Spawns(Leaves(es[..n]), known), known, id, n, leaf);
    }
  }

  lemma SpawnsSnoc(init: seq<Node>, n: Node, nodes: seq<Node>, known: set<Pid>)
    requires nodes == init + [n]
    ensures Spawns(nodes, known) == Spawns(init, known) + SpawnOf(n, known)
  {
    assert nodes[..|nodes| - 1] == init;
  }

  /** At most one edge leads into a process: the spawn edge from its parent, if it has one. */
  lemma EdgesIntoProcess(es: seq<Event>, pid: Pid)
    ensures Filter(Edges(es), Into(P(pid)))
            == if HasParent(es, pid) then [Edge(P(ParentOf(es, pid)), P(pid), Spawn)] else []
  {
    FilterAppend(Attaches(es), Spawns(Nodes(es), Known(es)), Into(P(pid)));
    AttachesInto(es, P(pid));
    SpawnsInto(Nodes(es), Known(es), P(pid));
    NodeOfPid(es, pid);
    if pid in Processes(es) {
      SpawnsOfOne(ProcessNode(es, pid), Known(es));
    }
  }

  /**
   * Into a leaf leads one attach edge for each attached event of that id, from its acting
   * process; and, when some event has no pid, as many spawn edges from the missing pid.
   */
  lemma EdgesIntoLeaf(es: seq<Event>, id: string)
    ensures var mine := Filter(es, AttachedAs(id)); var into := Filter(Edges(es), Into(E(id)));
      && |into| == |mine| + (if None in Known(es) then |mine| else 0)
      && (forall i :: 0 <= i < |mine| ==> into[i] == Edge(P(mine[i].pid), E(id), Attach))
      && (forall i :: |mine| <= i < |into| ==> into[i] == Edge(P(None), E(id), Spawn))
  {
    var mine := Filter(es, AttachedAs(id));
    FilterAppend(Attaches(es), Spawns(Nodes(es), Known(es)), Into(E(id)));
    AttachesInto(es, E(id));
    SpawnsInto(Nodes(es), Known(es), E(id));
    NodesOfEvent(es, id);
    forall e | e in mine ensures IsAttached(e.kind) && e.id == id {
      assert AttachedAs(id)(e);
    }
    SpawnsIntoLeaves(mine, Known(es), id);
    AttachCount(mine);
    JoinInto(Attaches(mine), Spawns(Leaves(mine), Known(es)), mine, id);
  }

  lemma JoinInto(attached: seq<Edge>, spawned: seq<Edge>, mine: seq<Event>, id: string)
    requires |attached| == |mine|
    requires forall i :: 0 <= i < |mine| ==> attached[i] == Edge(P(mine[i].pid), E(mine[i].id), Attach)
    requires forall e :: e in mine ==> e.id == id
    requires forall x :: x in spawned ==> x == Edge(P(None), E(id), Spawn)
    ensures var into := attached + spawned;
      && (forall i :: 0 <= i < |mine| ==> into[i] == Edge(P(mine[i].pid), E(id), Attach))
      && (forall i :: |mine| <= i < |into| ==> into[i] == Edge(P(None), E(id), Spawn))
  {
    forall i | |mine| <= i < |attached + spawned| ensures (attached + spawned)[i] in spawned {
      assert (attached + spawned)[i] == spawned[i - |mine|];
    }
  }

  /* ------------------------------------------------------------------- building it */

  /** The dictionary from pids to node ids, after the events `es`. */
  ghost predicate TracksPids(es: seq<Event>, processNode: map<Pid, NodeId>) {
    && (forall pid :: pid in processNode <==> pid in Known(es))
    && (forall pid :: pid in processNode ==> processNode[pid] == P(pid))
  }

  /** The dictionary from process nodes to parent pids, after the events `es`. */
  ghost predicate TracksLineage(es: seq<Event>, childOf: map<NodeId, Pid>) {
    && (forall id :: id in childOf <==> id.P? && id.pid in Processes(es))
    && (forall id :: id in childOf ==> childOf[id] == ParentOf(es, id.pid))
  }

  function ProcessNodeAfter(processNode: map<Pid, NodeId>, e: Event): (r: map<Pid, NodeId>) {
    if IsProcess(e.kind) || IsAttached(e.kind) then processNode[e.pid := P(e.pid)] else processNode
  }

  function ChildOfAfter(childOf: map<NodeId, Pid>, seen: set<Pid>, e: Event): (r: map<NodeId, Pid>) {
    if IsProcess(e.kind) && e.pid !in seen then childOf[P(e.pid) := e.ppid] else childOf
  }

  lemma PidsTracked(init: seq<Event>, e: Event, processNode: map<Pid, NodeId>)
    requires TracksPids(init, processNode)
    ensures TracksPids(init + [e], ProcessNodeAfter(processNode, e))
  {
    PidsSnoc(init, e);
  }

  lemma ParentSnoc(init: seq<Event>, e: Event, pid: Pid)
    requires pid in Processes(init) || (IsProcess(e.kind) && e.pid == pid)
    ensures pid in Processes(init + [e])
    ensures ParentOf(init + [e], pid) == if pid in Processes(init) then ParentOf(init, pid) else e.ppid
  {
    PidsSnoc(init, e);
    var es := init + [e];
    assert es[..|es| - 1] == init && es[|es| - 1] == e;
  }

  lemma LineageTracked(init: seq<Event>, e: Event, childOf: map<NodeId, Pid>)
    requires TracksLineage(init, childOf)
    ensures TracksLineage(init + [e], ChildOfAfter(childOf, Processes(init), e))
  {
    var after := ChildOfAfter(childOf, Processes(init), e);
    forall id ensures id in after <==> id.P? && id.pid in Processes(init + [e]) {
      PidsSnoc(init, e);
    }
    forall id | id in after ensures after[id] == ParentOf(init + [e], id.pid) {
      ParentSnoc(init, e, id.pid);
    }
  }

  /** The first node with the id is the one that is retold. */
  lemma {:induction false} RetoldAt(nodes: seq<Node>, id: NodeId, e: Event, j: nat)
    requires j < |nodes| && nodes[j].id == id && forall k :: 0 <= k < j ==> nodes[k].id != id
    ensures Retold(nodes, id, e) == nodes[j := nodes[j].(exe := e.exe, note := e.note, suspicious := e.suspicious)]
  {
    if j > 0 {
      forall k | 0 <= k < j - 1 ensures nodes[1..][k].id != id {
        assert nodes[1..][k] == nodes[k + 1];
      }
      RetoldAt(nodes[1..], id, e, j - 1);
    }
  }

  lemma NextEvent(es: seq<Event>, i: nat)
    requires i < |es|
    ensures es[..i + 1] == es[..i] + [es[i]]
    ensures Nodes(es[..i + 1]) == NodesAfter(Nodes(es[..i]), Processes(es[..i]), es[i])
    ensures Attaches(es[..i + 1]) == Attaches(es[..i]) + AttachOf(es[i])
  {
    assert es[..i + 1][..i] == es[..i];
  }

  method FindNode(nodes: seq<Node>, id: NodeId) returns (j: nat)
    ensures j <= |nodes| && forall k :: 0 <= k < j ==> nodes[k].id != id
    ensures j < |nodes| ==> nodes[j].id == id
  {
    j := 0;
    while j < |nodes| && nodes[j].id != id
      invariant j <= |nodes| && forall k :: 0 <= k < j ==> nodes[k].id != id
    {
      j := j + 1;
    }
  }

  /** The body of the event loop; `seen` are the pids that have a node. */
  method Place(event: Event, nodes0: seq<Node>, edges0: seq<Edge>, processNode0: map<Pid, NodeId>,
               childOf0: map<NodeId, Pid>, ghost seen: set<Pid>)
    returns (nodes: seq<Node>, edges: seq<Edge>, processNode: map<Pid, NodeId>, childOf: map<NodeId, Pid>)
    requires event.pid in seen <==> exists n :: n in nodes0 && n.id == P(event.pid)
    ensures nodes == NodesAfter(nodes0, seen, event) && edges == edges0 + AttachOf(event)
    ensures processNode == ProcessNodeAfter(processNode0, event)
    ensures childOf == ChildOfAfter(childOf0, seen, event)
  {
    nodes, edges, processNode, childOf := nodes0, edges0, processNode0, childOf0;
    if IsProcess(event.kind) {
      processNode := processNode[event.pid := P(event.pid)];
      var j := FindNode(nodes, P(event.pid));
      assert j < |nodes| ==> nodes[j] in nodes0;
      if j == |nodes| {
        childOf := childOf[P(event.pid) := event.ppid];
        nodes := nodes + [NodeOf(P(event.pid), event)];
      } else if event.kind == Exec {
        RetoldAt(nodes, P(event.pid), event, j);
        nodes := nodes[j := nodes[j].(exe := event.exe, note := event.note, suspicious := event.suspicious)];
      }
    } else if IsAttached(event.kind) {
      processNode := processNode[event.pid := P(event.pid)];
      nodes := nodes + [NodeOf(E(event.id), event)];
      edges := edges + [Edge(processNode[event.pid], E(event.id), Attach)];
    }
  }

  method PlaceEvents(es: seq<Event>)
    returns (nodes: seq<Node>, edges: seq<Edge>, processNode: map<Pid, NodeId>, childOf: map<NodeId, Pid>)
    ensures nodes == Nodes(es) && edges == Attaches(es)
    ensures TracksPids(es, processNode) && TracksLineage(es, childOf)
  {
    nodes, edges, processNode, childOf := [], [], map[], map[];
    var i := 0;
    while i < |es|
      invariant 0 <= i <= |es|
      invariant nodes == Nodes(es[..i]) && edges == Attaches(es[..i])
      invariant TracksPids(es[..i], processNode) && TracksLineage(es[..i], childOf)
    {
      HasNodeIff(es[..i], P(es[i].pid));
      NextEvent(es, i);
      PidsTracked(es[..i], es[i], processNode);
      LineageTracked(es[..i], es[i], childOf);
      nodes, edges, processNode, childOf := Place(es[i], nodes, edges, processNode, childOf, Processes(es[..i]));
      i := i + 1;
    }
    assert es[..i] == es;
  }

  /** The tests made on the dictionaries for a node are those on its own parent pid. */
  ghost predicate LineageKnown(n: Node, known: set<Pid>, processNode: map<Pid, NodeId>, childOf: map<NodeId, Pid>) {
    && Lineage(n) == (if n.id in childOf then childOf[n.id] else None)
    && (Lineage(n) in known <==> Lineage(n) in processNode)
    && (Lineage(n) in known ==> processNode[Lineage(n)] == P(Lineage(n)))
  }

  lemma LineageOfNode(es: seq<Event>, n: Node, processNode: map<Pid, NodeId>, childOf: map<NodeId, Pid>)
    requires TracksPids(es, processNode) && TracksLineage(es, childOf) && n in Nodes(es)
    ensures LineageKnown(n, Known(es), processNode, childOf)
  {
    NodeIs(es, n);
  }

  method SpawnProcesses(nodes: seq<Node>, processNode: map<Pid, NodeId>, childOf: map<NodeId, Pid>,
        ghost known: set<Pid>)
    returns (spawned: seq<Edge>)
    requires forall n :: n in nodes ==> LineageKnown(n, known, processNode, childOf)
    ensures spawned == Spawns(nodes, known)
  {
    spawned := [];
    var i := 0;
    while i < |nodes|
      invariant 0 <= i <= |nodes|
      invariant spawned == Spawns(nodes[..i], known)
    {
      var node := nodes[i];
      assert LineageKnown(node, known, processNode, childOf);
      NextNode(nodes, known, i);
      var parentPid := if node.id in childOf then childOf[node.id] else None;
      if parentPid in processNode && processNode[parentPid] != node.id {
        spawned := spawned + [Edge(processNode[parentPid], node.id, Spawn)];
      }
      i := i + 1;
    }
    assert nodes[..i] == nodes;
  }

  method FindRoots(nodes: seq<Node>, processNode: map<Pid, NodeId>, childOf: map<NodeId, Pid>, ghost known: set<Pid>)
    returns (roots: seq<NodeId>)
    requires forall n :: n in nodes ==> LineageKnown(n, known, processNode, childOf)
    ensures roots == Roots(nodes, known)
  {
    roots := [];
    var i := 0;
    while i < |nodes|
      invariant 0 <= i <= |nodes|
      invariant roots == Roots(nodes[..i], known)
    {
      var node := nodes[i];
      assert LineageKnown(node, known, processNode, childOf);
      NextNode(nodes, known, i);
      var parentPid := if node.id in childOf then childOf[node.id] else None;
      if node.kind in {ProcessCreated, Exec} && parentPid !in processNode {
        roots := roots + [node.id];
      }
      i := i + 1;
    }
    assert nodes[..i] == nodes;
  }

  lemma NextNode(nodes: seq<Node>, known: set<Pid>, i: nat)
    requires i < |nodes|
    ensures Spawns(nodes[..i + 1], known) == Spawns(nodes[..i], known) + SpawnOf(nodes[i], known)
    ensures Roots(nodes[..i + 1], known) == Roots(nodes[..i], known) + RootIn(nodes[i], known)
  {
    assert nodes[..i + 1][..i] == nodes[..i];
  }

  method BuildDag(events: seq<Event>) returns (dag: Dag)
    ensures var es := ByTime(events); dag == Dag(Nodes(es), Edges(es), RootsOf(es))
  {
    var es := ByTime(events);
    var nodes, edges, processNode, childOf := PlaceEvents(es);
    forall n | n in nodes ensures LineageKnown(n, Known(es), processNode, childOf) {
      LineageOfNode(es, n, processNode, childOf);
    }
    var spawned := SpawnProcesses(nodes, processNode, childOf, Known(es));
    var roots := FindRoots(nodes, processNode, childOf, Known(es));
    dag := Dag(nodes, edges + spawned, roots);
  }
}
