/**
 * What shape the behaviour graph has: dangling edges, cycles, roots, and when it is a forest.
 *
 * The construction never checks any of this, so each property comes with the exact
 * condition on the events under which it holds.
 */
module BehaviourForest {
  import opened Wrappers
  import opened Sequences
  import opened BehaviourGraph

  /* --------------------------------------------------------------------- single links */

  predicate Linked(es: seq<Event>, a: NodeId, b: NodeId) {
    exists e :: e in Edges(es) && e.source == a && e.target == b
  }

  /** Every attached event is by a process that has a node. */
  predicate ActorsPresent(es: seq<Event>) {
    forall e :: e in es && IsAttached(e.kind) ==> e.pid in Processes(es)
  }

  lemma EdgeInto(es: seq<Event>, e: Edge)
    ensures e in Edges(es) <==> e in Filter(Edges(es), Into(e.target))
  {
    assert Into(e.target)(e);
  }

  /** An edge into the leaf of `ev`: from its actor, or from the missing pid if there is one. */
  predicate LeafEdge(es: seq<Event>, ev: Event, e: Edge) {
    && ev in es && IsAttached(ev.kind)
    && (e == Edge(P(ev.pid), E(ev.id), Attach) || (None in Known(es) && e == Edge(P(None), E(ev.id), Spawn)))
  }

  lemma LeafEdgeFrom(es: seq<Event>, e: Edge, id: string) returns (ev: Event)
    requires e in Filter(Edges(es), Into(E(id)))
    ensures LeafEdge(es, ev, e)
  {
    EdgesIntoLeaf(es, id);
    var mine, into := Filter(es, AttachedAs(id)), Filter(Edges(es), Into(E(id)));
    var i :| 0 <= i < |into| && into[i] == e;
    ev := mine[if i < |mine| then i else 0];
    assert ev in es && AttachedAs(id)(ev);
  }

  lemma LeafEdgeIn(es: seq<Event>, ev: Event, e: Edge)
    requires LeafEdge(es, ev, e)
    ensures e in Filter(Edges(es), Into(E(ev.id)))
  {
    EdgesIntoLeaf(es, ev.id);
    var mine, into := Filter(es, AttachedAs(ev.id)), Filter(Edges(es), Into(E(ev.id)));
    assert AttachedAs(ev.id)(ev);
    var i :| 0 <= i < |mine| && mine[i] == ev;
    assert e == into[i] || e == into[|mine|];
  }

  /** All edges there are. */
  lemma EdgeIff(es: seq<Event>, e: Edge)
    ensures e.target.P? ==> (e in Edges(es) <==>
      HasParent(es, e.target.pid) && e == Edge(P(ParentOf(es, e.target.pid)), e.target, Spawn))
    ensures e.target.E? ==> (e in Edges(es) <==> exists ev :: LeafEdge(es, ev, e))
  {
    EdgeInto(es, e);
    match e.target
    case P(pid) => EdgesIntoProcess(es, pid);
    case E(id) =>
      if e in Edges(es) {
        var ev := LeafEdgeFrom(es, e, id);
      }
      if ev :| LeafEdge(es, ev, e) {
        LeafEdgeIn(es, ev, e);
      }
  }

  lemma LinkedToProcess(es: seq<Event>, a: NodeId, pid: Pid)
    ensures Linked(es, a, P(pid)) <==> HasParent(es, pid) && a == P(ParentOf(es, pid))
  {
    forall e: Edge | e.source == a && e.target == P(pid)
      ensures e in Edges(es) ==> HasParent(es, pid) && a == P(ParentOf(es, pid))
    {
      EdgeIff(es, e);
    }
    if HasParent(es, pid) && a == P(ParentOf(es, pid)) {
      EdgeIff(es, Edge(a, P(pid), Spawn));
    }
  }

  /** The nodes that the leaf of `ev` hangs on. */
  predicate Holds(es: seq<Event>, a: NodeId, ev: Event) {
    a == P(ev.pid) || (a == P(None) && None in Known(es))
  }

  lemma LinkedToLeaf(es: seq<Event>, a: NodeId, id: string)
    ensures Linked(es, a, E(id)) <==>
      exists ev :: ev in es && IsAttached(ev.kind) && ev.id == id && Holds(es, a, ev)
  {
    if Linked(es, a, E(id)) {
      var e :| e in Edges(es) && e.source == a && e.target == E(id);
      EdgeIff(es, e);
      var ev :| LeafEdge(es, ev, e);
      assert ev in es;
    }
    if ev :| ev in es && IsAttached(ev.kind) && ev.id == id && Holds(es, a, ev) {
      var e := Edge(a, E(id), if a == P(ev.pid) then Attach else Spawn);
      EdgeIff(es, e);
      assert LeafEdge(es, ev, e);
    }
  }

  /** Edges start at processes, so a leaf has none going out. */
  lemma LeavesAreLast(es: seq<Event>, a: NodeId, b: NodeId)
    requires Linked(es, a, b)
    ensures a.P?
  {
    match b
    case P(pid) => LinkedToProcess(es, a, pid);
    case E(id) => LinkedToLeaf(es, a, id);
  }

  lemma KnownIsProcesses(es: seq<Event>)
    ensures Processes(es) <= Known(es)
    ensures ActorsPresent(es) ==> Known(es) == Processes(es)
  {
  }

  /** No edge names a node that was never created, exactly when every actor has a process event. */
  lemma EndpointsExistIff(es: seq<Event>)
    ensures (forall e :: e in Edges(es) ==> HasNode(es, e.source) && HasNode(es, e.target)) <==> ActorsPresent(es)
  {
    if ActorsPresent(es) {
      forall e | e in Edges(es) ensures HasNode(es, e.source) && HasNode(es, e.target) {
        EdgeIff(es, e);
        KnownIsProcesses(es);
        HasNodeIff(es, e.source);
        HasNodeIff(es, e.target);
      }
    } else {
      var ev :| ev in es && IsAttached(ev.kind) && ev.pid !in Processes(es);
      assert LeafEdge(es, ev, Edge(P(ev.pid), E(ev.id), Attach));
      EdgeIff(es, Edge(P(ev.pid), E(ev.id), Attach));
      HasNodeIff(es, P(ev.pid));
    }
  }

  /* ---------------------------------------------------------------------------- roots */

  predicate IsRoot(es: seq<Event>, pid: Pid) {
    && pid in Processes(es)
    && ParentOf(es, pid) !in Known(es)
    && es[FirstAt(es, pid)].kind != ProcessExited
  }

  lemma {:induction false} RootMember(nodes: seq<Node>, known: set<Pid>, id: NodeId)
    ensures id in Roots(nodes, known) <==> exists n :: n in nodes && n.id == id && RootNode(n, known)
  {
    if nodes != [] {
      var init, last := nodes[..|nodes| - 1], nodes[|nodes| - 1];
      RootMember(init, known, id);
      assert nodes == init + [last];
    }
  }

  /** The roots are the processes first seen as created or executed whose parent does not occur. */
  lemma RootIff(es: seq<Event>, id: NodeId)
    ensures id in RootsOf(es) <==> id.P? && IsRoot(es, id.pid)
  {
    RootMember(Nodes(es), Known(es), id);
    if id in RootsOf(es) {
      var n :| n in Nodes(es) && n.id == id && RootNode(n, Known(es));
      NodeIs(es, n);
    }
    if id.P? && IsRoot(es, id.pid) {
      HasNodeIff(es, id);
      var n :| n in Nodes(es) && n.id == id;
      NodeIs(es, n);
    }
  }

  /** A process whose first event names itself as its parent. */
  predicate SelfParented(es: seq<Event>, pid: Pid) {
    pid in Processes(es) && ParentOf(es, pid) == pid
  }

  /** A process first seen exiting, with a parent that does not occur. */
  predicate ExitOrphan(es: seq<Event>, pid: Pid) {
    && pid in Processes(es)
    && ParentOf(es, pid) !in Known(es)
    && es[FirstAt(es, pid)].kind == ProcessExited
  }

  predicate NoStrays(es: seq<Event>) {
    forall pid :: pid in Processes(es) ==> !SelfParented(es, pid) && !ExitOrphan(es, pid)
  }

  function SelfNode(): (p: Node -> bool) {
    (n: Node) => n.id.P? && P(n.ppid) == n.id
  }

  function OrphanNode(known: set<Pid>): (p: Node -> bool) {
    (n: Node) => n.id.P? && n.ppid !in known && n.kind == ProcessExited
  }

  function IsProcessNode(): (p: Node -> bool) {
    (n: Node) => n.id.P?
  }

  /** A leaf that the missing pid is linked to. */
  function ClaimedLeaf(known: set<Pid>): (p: Node -> bool) {
    (n: Node) => n.id.E? && None in known
  }

  /** The kinds and ids that nodes of the construction have. */
  predicate Formed(n: Node, known: set<Pid>) {
    && (n.id.P? ==> IsProcess(n.kind) && n.id.pid in known)
    && (n.id.E? ==> IsAttached(n.kind))
  }

  function One(b: bool): (n: nat) {
    if b then 1 else 0
  }

  lemma CountUnsnoc<T>(s: seq<T>, p: T -> bool)
    requires s != []
    ensures |Filter(s, p)| == |Filter(s[..|s| - 1], p)| + One(p(s[|s| - 1]))
  {
    FilterUnsnoc(s, p);
  }

  /** Each process node is a root, has a spawn edge, or is a stray; one of these and no two. */
  lemma NodeAddsUp(n: Node, known: set<Pid>)
    requires Formed(n, known)
    ensures One(IsProcessNode()(n)) + One(ClaimedLeaf(known)(n)) ==
      |SpawnOf(n, known)| + |RootIn(n, known)| + One(SelfNode()(n)) + One(OrphanNode(known)(n))
  {
  }

  lemma {:induction false} NodesAddUp(nodes: seq<Node>, known: set<Pid>)
    requires forall n :: n in nodes ==> Formed(n, known)
    ensures |Filter(nodes, IsProcessNode())| + |Filter(nodes, ClaimedLeaf(known))| == |Spawns(nodes, known)|
      + |Roots(nodes, known)| + |Filter(nodes, SelfNode())| + |Filter(nodes, OrphanNode(known))|
  {
    if nodes != [] {
      NodesAddUp(nodes[..|nodes| - 1], known);
      NodeAddsUp(nodes[|nodes| - 1], known);
      CountUnsnoc(nodes, IsProcessNode());
      CountUnsnoc(nodes, ClaimedLeaf(known));
      CountUnsnoc(nodes, SelfNode());
      CountUnsnoc(nodes, OrphanNode(known));
    }
  }

  lemma NodesFormed(es: seq<Event>)
    ensures forall n :: n in Nodes(es) ==> Formed(n, Known(es))
  {
    KnownIsProcesses(es);
    forall n | n in Nodes(es) ensures Formed(n, Known(es)) {
      NodeIs(es, n);
    }
  }

  lemma {:induction false} RetoldKeepsCount(nodes: seq<Node>, id: NodeId, e: Event)
    ensures |Filter(Retold(nodes, id, e), IsProcessNode())| == |Filter(nodes, IsProcessNode())|
  {
    if nodes != [] {
      RetoldKeepsCount(nodes[1..], id, e);
    }
  }

  /** One process node for each pid with a process event. */
  lemma {:induction false} ProcessNodeCount(es: seq<Event>)
    ensures |Filter(Nodes(es), IsProcessNode())| == |Processes(es)|
  {
    if es != [] {
      var init, e := es[..|es| - 1], es[|es| - 1];
      assert es == init + [e];
      ProcessNodeCount(init);
      NodesSnoc(init, e);
      PidCount(init, e);
      CountAfter(Nodes(init), Processes(init), e);
    }
  }

  lemma PidCount(init: seq<Event>, e: Event)
    ensures |Processes(init + [e])| == |Processes(init)| + One(IsProcess(e.kind) && e.pid !in Processes(init))
  {
    PidsSnoc(init, e);
    if IsProcess(e.kind) && e.pid in Processes(init) {
      assert Processes(init) + {e.pid} == Processes(init);
    }
  }

  lemma CountAfter(nodes: seq<Node>, seen: set<Pid>, e: Event)
    ensures |Filter(NodesAfter(nodes, seen, e), IsProcessNode())|
            == |Filter(nodes, IsProcessNode())| + One(IsProcess(e.kind) && e.pid !in seen)
  {
    if IsProcess(e.kind) && e.pid !in seen {
      FilterSnoc(nodes, NodeOf(P(e.pid), e), IsProcessNode());
    } else if e.kind == Exec {
      RetoldKeepsCount(nodes, P(e.pid), e);
    } else if IsAttached(e.kind) {
      FilterSnoc(nodes, NodeOf(E(e.id), e), IsProcessNode());
    }
  }

  /**
   * Processes, and the leaves if some event has no pid, are roots plus spawn edges, exactly
   * when there are no strays.
   */
  lemma {:induction false} RootsPlusSpawnsIff(es: seq<Event>)
    ensures |Processes(es)| + |Filter(Nodes(es), ClaimedLeaf(Known(es)))|
            == |RootsOf(es)| + |Spawns(Nodes(es), Known(es))|
            <==> NoStrays(es)
  {
    NodesFormed(es);
    NodesAddUp(Nodes(es), Known(es));
    ProcessNodeCount(es);
    StrayNodes(es);
  }

  lemma {:induction false} FilterNone<T>(s: seq<T>, p: T -> bool)
    requires forall x :: x in s ==> !p(x)
    ensures Filter(s, p) == []
  {
    if s != [] {
      FilterNone(s[1..], p);
    }
  }

  lemma StrayNodes(es: seq<Event>)
    ensures Filter(Nodes(es), SelfNode()) == [] && Filter(Nodes(es), OrphanNode(Known(es))) == [] <==> NoStrays(es)
  {
    if NoStrays(es) {
      forall n | n in Nodes(es) ensures !SelfNode()(n) && !OrphanNode(Known(es))(n) {
        NodeIs(es, n);
      }
      FilterNone(Nodes(es), SelfNode());
      FilterNone(Nodes(es), OrphanNode(Known(es)));
    } else {
      var pid :| pid in Processes(es) && (SelfParented(es, pid) || ExitOrphan(es, pid));
      HasNodeIff(es, P(pid));
      var n :| n in Nodes(es) && n.id == P(pid);
      NodeIs(es, n);
      assert SelfNode()(n) || OrphanNode(Known(es))(n);
    }
  }

  /* ---------------------------------------------------------------- paths and lineages */

  predicate IsPath(es: seq<Event>, s: seq<NodeId>) {
    |s| >= 1 && (|s| == 1 || (Linked(es, s[|s| - 2], s[|s| - 1]) && IsPath(es, s[..|s| - 1])))
  }

  lemma PathSnoc(es: seq<Event>, s: seq<NodeId>, b: NodeId)
    requires IsPath(es, s) && Linked(es, s[|s| - 1], b)
    ensures IsPath(es, s + [b])
  {
    assert (s + [b])[..|s|] == s;
  }

  /** A path of one edge or more that ends where it starts. */
  predicate IsCycle(es: seq<Event>, s: seq<NodeId>) {
    |s| >= 2 && s[0] == s[|s| - 1] && IsPath(es, s)
  }

  ghost predicate Acyclic(es: seq<Event>) {
    forall s: seq<NodeId> :: !IsCycle(es, s)
  }

  /** Climbing from parent to parent comes to an end within `n` steps. */
  predicate Ends(es: seq<Event>, pid: Pid, n: nat)
    decreases n
  {
    !HasParent(es, pid) || (n > 0 && Ends(es, ParentOf(es, pid), n - 1))
  }

  ghost predicate EndsSometime(es: seq<Event>, pid: Pid) {
    exists n: nat :: Ends(es, pid, n)
  }

  /** Climbing from any process ends, and within as many steps as there are processes. */
  predicate Grounded(es: seq<Event>) {
    forall pid :: pid in Processes(es) ==> Ends(es, pid, |Processes(es)|)
  }

  lemma {:induction false} EndsLater(es: seq<Event>, pid: Pid, n: nat, m: nat)
    requires Ends(es, pid, n) && n <= m
    ensures Ends(es, pid, m)
    decreases n
  {
    if HasParent(es, pid) {
      EndsLater(es, ParentOf(es, pid), n - 1, m - 1);
    }
  }

  /** A path into a process is a climb: it uses up steps. */
  lemma {:induction false} PathClimbs(es: seq<Event>, s: seq<NodeId>, pid: Pid, n: nat)
    requires IsPath(es, s) && s[|s| - 1] == P(pid) && Ends(es, pid, n)
    ensures |s| - 1 <= n && s[0].P? && Ends(es, s[0].pid, n - (|s| - 1))
    decreases |s|
  {
    if |s| > 1 {
      LinkedToProcess(es, s[|s| - 2], pid);
      PathClimbs(es, s[..|s| - 1], ParentOf(es, pid), n - 1);
    }
  }

  /** No cycle through a process whose climb ends. */
  lemma {:induction false} NoCycleThrough(es: seq<Event>, s: seq<NodeId>, pid: Pid, n: nat)
    requires IsPath(es, s) && |s| >= 2 && s[|s| - 1] == P(pid) && Ends(es, pid, n)
    ensures s[0] != P(pid)
    decreases n
  {
    PathClimbs(es, s, pid, n);
    if s[0] == P(pid) {
      NoCycleThrough(es, s, pid, n - (|s| - 1));
      assert false;
    }
  }

  lemma CycleStartsAtProcess(es: seq<Event>, s: seq<NodeId>)
    requires IsPath(es, s) && |s| >= 2
    ensures s[0].P?
    decreases |s|
  {
    if |s| == 2 {
      LeavesAreLast(es, s[0], s[1]);
    } else {
      CycleStartsAtProcess(es, s[..|s| - 1]);
    }
  }

  lemma EndingIsAcyclic(es: seq<Event>)
    requires forall pid :: pid in Processes(es) ==> EndsSometime(es, pid)
    ensures Acyclic(es)
  {
    forall s: seq<NodeId> | |s| >= 2 && IsPath(es, s) ensures !IsCycle(es, s) {
      CycleStartsAtProcess(es, s);
      if s[|s| - 1].P? {
        var pid := s[|s| - 1].pid;
        LinkedToProcess(es, s[|s| - 2], pid);
        var n: nat :| Ends(es, pid, n);
        NoCycleThrough(es, s, pid, n);
      }
    }
  }

  /** The line of processes down to `pid` from `n` generations up. */
  function Line(es: seq<Event>, pid: Pid, n: nat): (s: seq<Pid>)
    requires !Ends(es, pid, n)
    ensures |s| == n + 1 && s[n] == pid
    ensures forall p :: p in s ==> p in Processes(es)
    decreases n
  {
    if n == 0 then [pid] else Line(es, ParentOf(es, pid), n - 1) + [pid]
  }

  function Ids(pids: seq<Pid>): (r: seq<NodeId>) {
    seq(|pids|, i requires 0 <= i < |pids| => P(pids[i]))
  }

  lemma {:induction false} LineIsPath(es: seq<Event>, pid: Pid, n: nat)
    requires !Ends(es, pid, n)
    ensures IsPath(es, Ids(Line(es, pid, n)))
    decreases n
  {
    if n > 0 {
      LineIsPath(es, ParentOf(es, pid), n - 1);
      LinkedToProcess(es, P(ParentOf(es, pid)), pid);
      PathSnoc(es, Ids(Line(es, ParentOf(es, pid), n - 1)), P(pid));
      assert Ids(Line(es, pid, n)) == Ids(Line(es, ParentOf(es, pid), n - 1)) + [P(pid)];
    }
  }

  /** The part of a path from its node `i` to its node `j`. */
  lemma {:induction false} PathBetween(es: seq<Event>, s: seq<NodeId>, i: nat, j: nat) returns (c: seq<NodeId>)
    requires IsPath(es, s) && i <= j < |s|
    ensures IsPath(es, c) && |c| == j - i + 1 && c[0] == s[i] && c[j - i] == s[j]
    decreases |s|
  {
    if i == j {
      c := [s[i]];
    } else if j < |s| - 1 {
      c := PathBetween(es, s[..|s| - 1], i, j);
    } else {
      c := PathBetween(es, s[..|s| - 1], i, j - 1);
      PathSnoc(es, c, s[j]);
      c := c + [s[j]];
    }
  }

  /** More generations than there are processes: some process occurs twice, which is a cycle. */
  lemma EndlessLineCycles(es: seq<Event>, pid: Pid)
    requires !Ends(es, pid, |Processes(es)|)
    ensures !Acyclic(es)
  {
    var s := Line(es, pid, |Processes(es)|);
    LineIsPath(es, pid, |Processes(es)|);
    if Once(s) {
      OnceFits(s, Processes(es));
      assert false;
    }
    OnceIffDistinct(s);
    var i, j :| 0 <= i < j < |s| && s[i] == s[j];
    var c := Repeat(es, Ids(s), i, j);
    assert IsCycle(es, c);
  }

  lemma Repeat(es: seq<Event>, s: seq<NodeId>, i: nat, j: nat) returns (c: seq<NodeId>)
    requires IsPath(es, s) && i < j < |s| && s[i] == s[j]
    ensures IsCycle(es, c)
  {
    c := PathBetween(es, s, i, j);
  }

  /** The graph has no cycle exactly when the lineage of every process comes to an end. */
  lemma AcyclicIff(es: seq<Event>)
    ensures Acyclic(es) <==> Grounded(es)
  {
    if Grounded(es) {
      forall pid | pid in Processes(es) ensures EndsSometime(es, pid) {
        assert Ends(es, pid, |Processes(es)|);
      }
      EndingIsAcyclic(es);
    } else {
      var pid :| pid in Processes(es) && !Ends(es, pid, |Processes(es)|);
      EndlessLineCycles(es, pid);
    }
  }

  /** Each process comes after its parent, if the parent is there and is another one. */
  predicate ParentsFirst(es: seq<Event>) {
    forall pid :: pid in Processes(es) && ParentOf(es, pid) in Processes(es) && ParentOf(es, pid) != pid
      ==> FirstAt(es, ParentOf(es, pid)) < FirstAt(es, pid)
  }

  lemma {:induction false} ParentsFirstEnds(es: seq<Event>, pid: Pid)
    requires ParentsFirst(es) && pid in Processes(es)
    ensures Ends(es, pid, FirstAt(es, pid) + 1)
    decreases FirstAt(es, pid)
  {
    if HasParent(es, pid) && ParentOf(es, pid) in Processes(es) {
      ParentsFirstEnds(es, ParentOf(es, pid));
      EndsLater(es, ParentOf(es, pid), FirstAt(es, ParentOf(es, pid)) + 1, FirstAt(es, pid));
    }
  }

  /** Parents before children is enough to rule out cycles. */
  lemma ParentsFirstIsGrounded(es: seq<Event>)
    requires ParentsFirst(es)
    ensures Grounded(es) && Acyclic(es)
  {
    forall pid | pid in Processes(es) ensures EndsSometime(es, pid) {
      ParentsFirstEnds(es, pid);
      assert Ends(es, pid, FirstAt(es, pid) + 1);
    }
    EndingIsAcyclic(es);
    AcyclicIff(es);
  }

  /* ----------------------------------------------------------------------- the forest */

  predicate Reaches(es: seq<Event>, s: seq<NodeId>, id: NodeId) {
    IsPath(es, s) && s[0] in RootsOf(es) && s[|s| - 1] == id
  }

  ghost predicate Reachable(es: seq<Event>, id: NodeId) {
    exists s: seq<NodeId> :: Reaches(es, s, id)
  }

  lemma ReachesOn(es: seq<Event>, s: seq<NodeId>, a: NodeId, b: NodeId)
    requires Reaches(es, s, a) && Linked(es, a, b)
    ensures Reaches(es, s + [b], b)
  {
    PathSnoc(es, s, b);
  }

  /** A parent that occurs in the chain occurs as a process. */
  predicate ParentsPresent(es: seq<Event>) {
    forall pid :: pid in Processes(es) && ParentOf(es, pid) in Known(es) ==> ParentOf(es, pid) in Processes(es)
  }

  /** Each leaf hangs on a process: its actor, or the missing pid if that is one. */
  predicate LeavesHeld(es: seq<Event>) {
    forall ev :: ev in es && IsAttached(ev.kind) ==> ev.pid in Processes(es) || None in Processes(es)
  }

  lemma {:induction false} ProcessReachable(es: seq<Event>, pid: Pid, n: nat)
    requires ParentsPresent(es) && NoStrays(es) && pid in Processes(es) && Ends(es, pid, n)
    ensures Reachable(es, P(pid))
    decreases n
  {
    if HasParent(es, pid) {
      var parent := ParentOf(es, pid);
      ProcessReachable(es, parent, n - 1);
      var s :| Reaches(es, s, P(parent));
      LinkedToProcess(es, P(parent), pid);
      ReachesOn(es, s, P(parent), P(pid));
    } else {
      RootIff(es, P(pid));
      assert Reaches(es, [P(pid)], P(pid));
    }
  }

  lemma LeafReachable(es: seq<Event>, ev: Event)
    requires ParentsPresent(es) && LeavesHeld(es) && NoStrays(es) && Grounded(es) && ev in es && IsAttached(ev.kind)
    ensures Reachable(es, E(ev.id))
  {
    var pid := if ev.pid in Processes(es) then ev.pid else None;
    KnownIsProcesses(es);
    ProcessReachable(es, pid, |Processes(es)|);
    var s :| Reaches(es, s, P(pid));
    LinkedToLeaf(es, P(pid), ev.id);
    ReachesOn(es, s, P(pid), E(ev.id));
  }

  /** Whatever a root reaches has a lineage that ends. */
  lemma {:induction false} ReachedEnds(es: seq<Event>, s: seq<NodeId>, pid: Pid)
    requires Reaches(es, s, P(pid))
    ensures Ends(es, pid, |s| - 1)
    decreases |s|
  {
    if |s| == 1 {
      RootIff(es, s[0]);
    } else {
      LinkedToProcess(es, s[|s| - 2], pid);
      ReachedEnds(es, s[..|s| - 1], ParentOf(es, pid));
    }
  }

  /** What is reached is a root or the end of an edge. */
  lemma ReachedHow(es: seq<Event>, id: NodeId)
    requires Reachable(es, id)
    ensures id in RootsOf(es) || exists a :: Linked(es, a, id) && Reachable(es, a)
  {
    var s :| Reaches(es, s, id);
    if |s| > 1 {
      assert Linked(es, s[|s| - 2], id) && Reaches(es, s[..|s| - 1], s[|s| - 2]);
    }
  }

  lemma ReachedProcess(es: seq<Event>, pid: Pid)
    requires Reachable(es, P(pid))
    ensures pid in Processes(es) && !SelfParented(es, pid) && !ExitOrphan(es, pid)
  {
    ReachedHow(es, P(pid));
    RootIff(es, P(pid));
    KnownIsProcesses(es);
    if a :| Linked(es, a, P(pid)) {
      LinkedToProcess(es, a, pid);
    }
  }

  lemma ReachedLeaf(es: seq<Event>, ev: Event)
    requires UniqueEventIds(es) && ev in es && IsAttached(ev.kind) && Reachable(es, E(ev.id))
    ensures ev.pid in Processes(es) || None in Processes(es)
  {
    ReachedHow(es, E(ev.id));
    RootIff(es, E(ev.id));
    var a :| Linked(es, a, E(ev.id)) && Reachable(es, a);
    LinkedToLeaf(es, a, ev.id);
    var other :| other in es && IsAttached(other.kind) && other.id == ev.id && Holds(es, a, other);
    SameIdSameEvent(es, ev, other);
    ReachedProcess(es, a.pid);
  }

  lemma ReachedParent(es: seq<Event>, pid: Pid)
    requires pid in Processes(es) && Reachable(es, P(pid)) && ParentOf(es, pid) in Known(es)
    ensures ParentOf(es, pid) in Processes(es)
  {
    ReachedProcess(es, pid);
    ReachedHow(es, P(pid));
    RootIff(es, P(pid));
    var a :| Linked(es, a, P(pid)) && Reachable(es, a);
    LinkedToProcess(es, a, pid);
    ReachedProcess(es, ParentOf(es, pid));
  }

  lemma SameIdSameEvent(es: seq<Event>, x: Event, y: Event)
    requires UniqueEventIds(es) && x in es && y in es && IsAttached(x.kind) && IsAttached(y.kind) && x.id == y.id
    ensures x == y
  {
    var mine := Filter(es, AttachedAs(x.id));
    assert AttachedAs(x.id)(x) && AttachedAs(x.id)(y);
    assert x in mine && y in mine && |mine| <= 1;
  }

  ghost predicate AllReachable(es: seq<Event>) {
    forall id: NodeId :: HasNode(es, id) ==> Reachable(es, id)
  }

  /**
   * Every node is reached from a root exactly when parents that occur are processes, every
   * leaf hangs on a process, no process is its own parent or first seen exiting without its
   * parent, and every lineage ends.
   */
  lemma AllReachableIff(es: seq<Event>)
    requires UniqueEventIds(es)
    ensures AllReachable(es) <==> ParentsPresent(es) && LeavesHeld(es) && NoStrays(es) && Grounded(es)
  {
    if AllReachable(es) {
      ReachableIsWellFormed(es);
    }
    if ParentsPresent(es) && LeavesHeld(es) && NoStrays(es) && Grounded(es) {
      forall id: NodeId | HasNode(es, id) ensures Reachable(es, id) {
        HasNodeIff(es, id);
        match id
        case P(pid) => ProcessReachable(es, pid, |Processes(es)|);
        case E(x) =>
          var ev :| ev in es && IsAttached(ev.kind) && ev.id == x;
          LeafReachable(es, ev);
      }
    }
  }

  lemma ReachableIsWellFormed(es: seq<Event>)
    requires UniqueEventIds(es) && AllReachable(es)
    ensures ParentsPresent(es) && LeavesHeld(es) && NoStrays(es) && Grounded(es)
  {
    forall pid | pid in Processes(es)
      ensures !SelfParented(es, pid) && !ExitOrphan(es, pid) && EndsSometime(es, pid)
      ensures ParentOf(es, pid) in Known(es) ==> ParentOf(es, pid) in Processes(es)
    {
      HasNodeIff(es, P(pid));
      ReachedProcess(es, pid);
      if ParentOf(es, pid) in Known(es) {
        ReachedParent(es, pid);
      }
      var s :| Reaches(es, s, P(pid));
      ReachedEnds(es, s, pid);
      assert Ends(es, pid, |s| - 1);
    }
    EndingIsAcyclic(es);
    AcyclicIff(es);
    forall ev | ev in es && IsAttached(ev.kind) ensures ev.pid in Processes(es) || None in Processes(es) {
      HasNodeIff(es, E(ev.id));
      ReachedLeaf(es, ev);
    }
  }

  /**
   * The behaviour graph is a forest: with all pids given, parents first, every actor present
   * and no strays, all edges have both their nodes, no node has two edges into it, there is
   * no cycle, every node is reached from a root, the roots are the nodes without an edge
   * into them, and the processes are as many as roots and spawn edges together.
   */
  lemma IsForest(es: seq<Event>)
    requires None !in Known(es)
    requires UniqueEventIds(es) && ParentsFirst(es) && ActorsPresent(es) && NoStrays(es)
    ensures forall e :: e in Edges(es) ==> HasNode(es, e.source) && HasNode(es, e.target)
    ensures forall id: NodeId :: |Filter(Edges(es), Into(id))| <= 1
    ensures Acyclic(es) && AllReachable(es)
    ensures forall id: NodeId :: HasNode(es, id) ==> (id in RootsOf(es) <==> Filter(Edges(es), Into(id)) == [])
    ensures |Processes(es)| == |RootsOf(es)| + |Spawns(Nodes(es), Known(es))|
  {
    EndpointsExistIff(es);
    ParentsFirstIsGrounded(es);
    KnownIsProcesses(es);
    AllReachableIff(es);
    RootsPlusSpawnsIff(es);
    FilterNone(Nodes(es), ClaimedLeaf(Known(es)));
    forall id: NodeId
      ensures |Filter(Edges(es), Into(id))| <= 1
      ensures HasNode(es, id) ==> (id in RootsOf(es) <==> Filter(Edges(es), Into(id)) == [])
    {
      InDegree(es, id);
    }
  }

  lemma InDegree(es: seq<Event>, id: NodeId)
    requires None !in Known(es) && UniqueEventIds(es) && ActorsPresent(es) && NoStrays(es)
    ensures |Filter(Edges(es), Into(id))| <= 1
    ensures HasNode(es, id) ==> (id in RootsOf(es) <==> Filter(Edges(es), Into(id)) == [])
  {
    RootIff(es, id);
    HasNodeIff(es, id);
    KnownIsProcesses(es);
    match id
    case P(pid) => EdgesIntoProcess(es, pid);
    case E(x) =>
      EdgesIntoLeaf(es, x);
      if HasNode(es, id) {
        var ev :| ev in es && IsAttached(ev.kind) && ev.id == x;
        assert AttachedAs(x)(ev);
      }
  }

  function Mutual(): (es: seq<Event>) {
    [Event("a", ProcessCreated, Some(1), Some(2), "sh", 0.0, "", false),
     Event("b", ProcessCreated, Some(2), Some(1), "sh", 1.0, "", false)]
  }

  lemma MutualParents()
    ensures var es := Mutual();
      && Processes(es) == {Some(1), Some(2)}
      && ParentOf(es, Some(1)) == Some(2) && ParentOf(es, Some(2)) == Some(1)
  {
    var a, b := Mutual()[0], Mutual()[1];
    assert [a] + [b] == Mutual() && [] + [a] == [a];
    PidsSnoc([], a);
    PidsSnoc([a], b);
    ParentSnoc([], a, Some(1));
    ParentSnoc([a], b, Some(1));
    ParentSnoc([a], b, Some(2));
  }

  /** Without parents first there can be a cycle: two processes that name each other as parent. */
  lemma MutualParentsCycle()
    ensures IsCycle(Mutual(), [P(Some(1)), P(Some(2)), P(Some(1))]) && RootsOf(Mutual()) == []
  {
    var es := Mutual();
    MutualParents();
    KnownIsProcesses(es);
    LinkedToProcess(es, P(Some(1)), Some(2));
    LinkedToProcess(es, P(Some(2)), Some(1));
    PathSnoc(es, [P(Some(1))], P(Some(2)));
    PathSnoc(es, [P(Some(1)), P(Some(2))], P(Some(1)));
    assert [P(Some(1))] + [P(Some(2))] == [P(Some(1)), P(Some(2))];
    assert [P(Some(1)), P(Some(2))] + [P(Some(1))] == [P(Some(1)), P(Some(2)), P(Some(1))];
    if RootsOf(es) != [] {
      RootIff(es, RootsOf(es)[0]);
      assert false;
    }
  }
}
