/** The plan built by parse is what the state manager trusts, and exactly the sound plans can finish. */
module PlannerTheorems {
  import opened TaskTypes
  import opened Graph
  import opened PlannerModel
  import opened PlanInvariants
  import opened DagTheorems

  lemma {:induction false} RawRootsAre(pid: Id, raw: seq<RawNode>, t: Id)
    ensures t in RawRoots(pid, raw) <==> exists i | 0 <= i < |raw| :: raw[i].deps == [] && t == NodeId(pid, raw[i].id)
  {
    if raw != [] {
      var before := raw[..|raw| - 1];
      RawRootsAre(pid, before, t);
      assert forall i | 0 <= i < |before| :: before[i] == raw[i];
      if raw[|raw| - 1].deps == [] && t == NodeId(pid, raw[|raw| - 1].id) { assert 0 <= |raw| - 1 < |raw|; }
    }
  }

  predicate Distinct(ids: seq<Id>) {
    forall i, j | 0 <= i < j < |ids| :: ids[i] != ids[j]
  }

  lemma {:induction false} RawRootsDistinct(pid: Id, raw: seq<RawNode>)
    requires DistinctIds(raw)
    ensures Distinct(RawRoots(pid, raw))
  {
    if raw != [] {
      var before, k := raw[..|raw| - 1], |raw| - 1;
      RawRootsDistinct(pid, before);
      RawRootsAre(pid, before, NodeId(pid, raw[k].id));
      forall i | 0 <= i < |before| ensures NodeId(pid, before[i].id) != NodeId(pid, raw[k].id) {
        NodeIdInjective(pid, raw[i].id, raw[k].id);
      }
    }
  }

  lemma ReduceIsNew(pid: Id, raw: seq<RawNode>)
    requires ReduceUnused(raw)
    ensures ReduceId(pid) !in RawNodes(pid, raw)
    ensures DepTotal(pid, raw, ReduceId(pid)) == 0
    ensures Listed(Linked(pid, raw).succ, ReduceId(pid)) == []
  {
    forall i | 0 <= i < |raw| ensures NodeId(pid, raw[i].id) != ReduceId(pid) {
      NodeIdInjective(pid, raw[i].id, "reduce");
    }
    RawNodesAre(pid, raw);
    DepTotalNone(pid, raw, ReduceId(pid));
    if Listed(Linked(pid, raw).succ, ReduceId(pid)) != [] {
      var y := Listed(Linked(pid, raw).succ, ReduceId(pid))[0];
      LinkedEdges(pid, raw, ReduceId(pid), y);
      var i :| 0 <= i < |raw| && DepEdge(pid, raw[i], ReduceId(pid), y);
      var k :| 0 <= k < |raw[i].deps| && ReduceId(pid) == NodeId(pid, raw[i].deps[k]);
      NodeIdInjective(pid, raw[i].deps[k], "reduce");
      assert false;
    }
  }

  /** Every counter of the built plan is the number of edge occurrences into its node. */
  lemma ParseExact(pid: Id, raw: seq<RawNode>, leaves: seq<Id>, t: Id)
    requires ReduceUnused(raw) && LeafList(pid, raw, leaves)
    ensures var p := ParsePlan(pid, raw, leaves); t in p.nodes ==> Count(p.preds, t) == InDegree(p.succ, t)
    ensures t != ReduceId(pid) ==> InDegree(ParsePlan(pid, raw, leaves).succ, t) == DepTotal(pid, raw, t)
  {
    ReduceIsNew(pid, raw);
    LinkedCounts(pid, raw, t);
    AddSinkCounts(Linked(pid, raw).succ, leaves, ReduceId(pid), t);
  }

  /** A root waits for something exactly if its id is listed both with and without dependencies. */
  lemma RootWaits(pid: Id, raw: seq<RawNode>, leaves: seq<Id>, i: nat)
    requires ReduceUnused(raw) && LeafList(pid, raw, leaves) && i < |raw| && raw[i].deps == []
    ensures InDegree(ParsePlan(pid, raw, leaves).succ, NodeId(pid, raw[i].id)) > 0 <==> Mixed(raw, raw[i].id)
  {
    var t := NodeId(pid, raw[i].id);
    NodeIdInjective(pid, raw[i].id, "reduce");
    ParseExact(pid, raw, leaves, t);
    DepTotalZero(pid, raw, t);
    forall j | 0 <= j < |raw| ensures NodeId(pid, raw[j].id) == t <==> raw[j].id == raw[i].id {
      NodeIdInjective(pid, raw[j].id, raw[i].id);
    }
  }

  /** The built plan has exact counters precisely if no id is listed both with and without dependencies, whatever else is
      wrong with the list. */
  lemma ParseCounted(pid: Id, raw: seq<RawNode>, leaves: seq<Id>)
    requires ReduceUnused(raw) && LeafList(pid, raw, leaves)
    ensures Counted(ParsePlan(pid, raw, leaves)) <==> Unmixed(raw)
  {
    var p := ParsePlan(pid, raw, leaves);
    RawNodesAre(pid, raw);
    forall t | t in p.nodes ensures Count(p.preds, t) == InDegree(p.succ, t) { ParseExact(pid, raw, leaves, t); }
    forall i | 0 <= i < |raw| && raw[i].deps == []
      ensures NodeId(pid, raw[i].id) in p.roots && NodeId(pid, raw[i].id) in p.nodes
      ensures InDegree(p.succ, NodeId(pid, raw[i].id)) > 0 <==> Mixed(raw, raw[i].id)
    {
      RawRootsAre(pid, raw, NodeId(pid, raw[i].id));
      RootWaits(pid, raw, leaves, i);
    }
    if Unmixed(raw) {
      forall t | t in p.nodes && t in p.roots ensures InDegree(p.succ, t) == 0 { RawRootsAre(pid, raw, t); }
    } else {
      var k :| 0 <= k < |raw| && Mixed(raw, raw[k].id);
      var i :| 0 <= i < |raw| && raw[i].id == raw[k].id && raw[i].deps == [];
    }
  }

  // ── Acyclicity carries over ─────────────────────────────────────────

  function NameOf(pid: Id, t: Id): Id {
    if |t.s| > |pid.s| then Id(t.s[|pid.s| + 1..]) else t
  }

  lemma NameOfNode(pid: Id, name: string)
    ensures NameOf(pid, NodeId(pid, name)) == Id(name)
  {
    assert (pid.s + "-" + name)[|pid.s| + 1..] == name;
  }

  /** An edge of the plan goes to the sink or mirrors a dependency. */
  lemma PlanEdge(pid: Id, raw: seq<RawNode>, leaves: seq<Id>, x: Id, y: Id)
    requires ReduceUnused(raw) && LeafList(pid, raw, leaves)
    requires (x, y) in EdgesOf(ParsePlan(pid, raw, leaves).succ)
    ensures x != ReduceId(pid)
    ensures (y == ReduceId(pid) && x in leaves) ||
      ((exists i | 0 <= i < |raw| :: DepEdge(pid, raw[i], x, y)) && (NameOf(pid, x), NameOf(pid, y)) in RawEdges(raw))
  {
    var succ := Linked(pid, raw).succ;
    AddSinkLists(succ, leaves, ReduceId(pid), x);
    ReduceIsNew(pid, raw);
    if y in Listed(succ, x) {
      LinkedEdges(pid, raw, x, y);
      var i :| 0 <= i < |raw| && DepEdge(pid, raw[i], x, y);
      var k :| 0 <= k < |raw[i].deps| && x == NodeId(pid, raw[i].deps[k]);
      NameOfNode(pid, raw[i].deps[k]);
      NameOfNode(pid, raw[i].id);
    }
  }

  lemma NotSinkOnCycle(pid: Id, raw: seq<RawNode>, leaves: seq<Id>, w: seq<Id>, i: nat)
    requires ReduceUnused(raw) && LeafList(pid, raw, leaves) && i < |w|
    requires IsWalk(EdgesOf(ParsePlan(pid, raw, leaves).succ), w) && |w| >= 2 && w[0] == w[|w| - 1]
    ensures w[i] != ReduceId(pid)
  {
    var h := if i == |w| - 1 then 0 else i;
    PlanEdge(pid, raw, leaves, w[h], w[h + 1]);
  }

  lemma EdgeMirrored(pid: Id, raw: seq<RawNode>, leaves: seq<Id>, w: seq<Id>, i: nat)
    requires ReduceUnused(raw) && LeafList(pid, raw, leaves) && i + 1 < |w|
    requires IsWalk(EdgesOf(ParsePlan(pid, raw, leaves).succ), w) && |w| >= 2 && w[0] == w[|w| - 1]
    ensures (NameOf(pid, w[i]), NameOf(pid, w[i + 1])) in RawEdges(raw)
  {
    var j := i + 1;
    assert (w[i], w[j]) in EdgesOf(ParsePlan(pid, raw, leaves).succ);
    NotSinkOnCycle(pid, raw, leaves, w, j);
    PlanEdge(pid, raw, leaves, w[i], w[j]);
  }

  /** A cycle of the plan never meets the sink, so it mirrors a cycle of the list. */
  lemma CycleMirrored(pid: Id, raw: seq<RawNode>, leaves: seq<Id>, w: seq<Id>)
    requires ReduceUnused(raw) && LeafList(pid, raw, leaves)
    requires IsWalk(EdgesOf(ParsePlan(pid, raw, leaves).succ), w) && |w| >= 2 && w[0] == w[|w| - 1]
    ensures !Acyclic(RawEdges(raw))
  {
    var v := seq(|w|, i requires 0 <= i < |w| => NameOf(pid, w[i]));
    forall i, j | 0 <= i && j == i + 1 && j < |v| ensures (v[i], v[j]) in RawEdges(raw) {
      EdgeMirrored(pid, raw, leaves, w, i);
    }
    assert IsWalk(RawEdges(raw), v) && v[0] == v[|v| - 1];
  }

  lemma ParseAcyclic(pid: Id, raw: seq<RawNode>, leaves: seq<Id>)
    requires ReduceUnused(raw) && LeafList(pid, raw, leaves) && Acyclic(RawEdges(raw))
    ensures Acyclic(EdgesOf(ParsePlan(pid, raw, leaves).succ))
  {
    var E := EdgesOf(ParsePlan(pid, raw, leaves).succ);
    forall w: seq<Id> | IsWalk(E, w) && |w| >= 2 ensures w[0] != w[|w| - 1] {
      if w[0] == w[|w| - 1] { CycleMirrored(pid, raw, leaves, w); }
    }
  }

  lemma LinkedSuccessor(pid: Id, raw: seq<RawNode>, x: Id, y: Id)
    requires y in Listed(Linked(pid, raw).succ, x)
    ensures y in RawNodes(pid, raw)
    ensures DepsListed(raw) ==> x in RawNodes(pid, raw)
  {
    LinkedEdges(pid, raw, x, y);
    var i :| 0 <= i < |raw| && DepEdge(pid, raw[i], x, y);
    var k :| 0 <= k < |raw[i].deps| && x == NodeId(pid, raw[i].deps[k]);
    RawNodesAre(pid, raw);
    if DepsListed(raw) {
      assert Named(raw, raw[i].deps[k]);
    }
  }

  lemma InnerHasSuccessor(pid: Id, raw: seq<RawNode>, leaves: seq<Id>, m: Id) returns (y: Id)
    requires LeafList(pid, raw, leaves) && m in RawNodes(pid, raw) && m !in leaves
    ensures y in RawNodes(pid, raw) && (m, y) in EdgesOf(ParsePlan(pid, raw, leaves).succ)
  {
    y := Listed(Linked(pid, raw).succ, m)[0];
    AddSinkLists(Linked(pid, raw).succ, leaves, ReduceId(pid), m);
    LinkedSuccessor(pid, raw, m, y);
  }

  /** An acyclic non-empty list has a leaf. */
  lemma SomeLeaf(pid: Id, raw: seq<RawNode>, leaves: seq<Id>)
    requires raw != [] && ReduceUnused(raw) && Acyclic(RawEdges(raw)) && LeafList(pid, raw, leaves)
    ensures leaves != []
  {
    ParseAcyclic(pid, raw, leaves);
    RawNodesAre(pid, raw);
    assert NodeId(pid, raw[0].id) in RawNodes(pid, raw).Keys;
    var m := MaximalElement(EdgesOf(ParsePlan(pid, raw, leaves).succ), RawNodes(pid, raw).Keys);
    if m !in leaves {
      var y := InnerHasSuccessor(pid, raw, leaves, m);
      assert false;
    }
  }

  lemma ParseClosed(pid: Id, raw: seq<RawNode>, leaves: seq<Id>, x: Id, y: Id)
    requires ReduceUnused(raw) && DepsListed(raw) && LeafList(pid, raw, leaves)
    requires y in Listed(ParsePlan(pid, raw, leaves).succ, x)
    ensures x in ParsePlan(pid, raw, leaves).nodes && y in ParsePlan(pid, raw, leaves).nodes
  {
    AddSinkLists(Linked(pid, raw).succ, leaves, ReduceId(pid), x);
    if y in Listed(Linked(pid, raw).succ, x) { LinkedSuccessor(pid, raw, x, y); }
  }

  lemma ParseRooted(pid: Id, raw: seq<RawNode>, leaves: seq<Id>, t: Id)
    requires ReduceUnused(raw) && LeafList(pid, raw, leaves) && leaves != []
    requires t in ParsePlan(pid, raw, leaves).nodes && InDegree(ParsePlan(pid, raw, leaves).succ, t) == 0
    ensures t in RawRoots(pid, raw)
  {
    AddSinkCounts(Linked(pid, raw).succ, leaves, ReduceId(pid), t);
    LinkedCounts(pid, raw, t);
    RawNodesAre(pid, raw);
    var i :| 0 <= i < |raw| && t == NodeId(pid, raw[i].id);
    ReduceIsNew(pid, raw);
    DepTotalZero(pid, raw, t);
    RawRootsAre(pid, raw, t);
  }

  lemma ParseStarts(pid: Id, raw: seq<RawNode>, leaves: seq<Id>, p: Plan)
    requires ReduceUnused(raw) && LeafList(pid, raw, leaves) && leaves != [] && p == ParsePlan(pid, raw, leaves)
    ensures StartsListed(p.nodes.Keys, p.succ, p.roots)
  {
    forall t | t in p.nodes.Keys && InDegree(p.succ, t) == 0 ensures t in p.roots { ParseRooted(pid, raw, leaves, t); }
  }

  lemma ParseInside(pid: Id, raw: seq<RawNode>, leaves: seq<Id>, p: Plan)
    requires ReduceUnused(raw) && DepsListed(raw) && LeafList(pid, raw, leaves) && p == ParsePlan(pid, raw, leaves)
    ensures StaysInside(p.nodes.Keys, p.succ)
  {
    forall m | m in p.succ ensures forall n | n in p.succ[m] :: m in p.nodes && n in p.nodes {
      forall n | n in p.succ[m] ensures m in p.nodes && n in p.nodes {
        ParseClosed(pid, raw, leaves, m, n);
      }
    }
  }

  lemma ParseOnlySink(pid: Id, raw: seq<RawNode>, leaves: seq<Id>, p: Plan)
    requires LeafList(pid, raw, leaves) && p == ParsePlan(pid, raw, leaves)
    ensures OnlySink(p.nodes.Keys, p.succ, ReduceId(pid))
  {
    forall t | t in p.nodes.Keys && t != ReduceId(pid) ensures Listed(p.succ, t) != [] {
      AddSinkLists(Linked(pid, raw).succ, leaves, ReduceId(pid), t);
    }
  }

  /** From any non-empty list with dependencies that can be met, repeated and mixed ids included. */
  lemma ParseSound(pid: Id, raw: seq<RawNode>, leaves: seq<Id>)
    requires raw != [] && SoundDeps(raw) && LeafList(pid, raw, leaves)
    ensures SoundPlan(ParsePlan(pid, raw, leaves))
  {
    var p := ParsePlan(pid, raw, leaves);
    SomeLeaf(pid, raw, leaves);
    ParseAcyclic(pid, raw, leaves);
    ParseStarts(pid, raw, leaves, p);
    ParseInside(pid, raw, leaves, p);
    forall t | t in p.nodes ensures Count(p.preds, t) == InDegree(p.succ, t) { ParseExact(pid, raw, leaves, t); }
  }

  /** What the plan of a decoded list holds: a node for every listed id with the contents of its last entry, the system's own
      node, and a deadline. */
  ghost predicate Carries(p: Plan, pid: Id, raw: seq<RawNode>) {
    && (forall t :: t in p.nodes <==>
          t == Id(pid.s + "-reduce") || exists i | 0 <= i < |raw| :: t == Id(pid.s + "-" + raw[i].id))
    && (forall i | LastOfItsId(raw, i) && raw[i].id != "reduce" ::
          p.nodes[Id(pid.s + "-" + raw[i].id)] ==
            Node(TaskSpec(raw[i].prompt, "", "", 0, 500, raw[i].tools, raw[i].labels, 0, NoStage), Pending, "", 0))
    && p.nodes[Id(pid.s + "-reduce")] ==
      Node(TaskSpec("Combine all results into a single final response", "", "", 0, 1000, [], ["cpu"], 0, ReduceStage),
           Pending, "", 0)
    && p.hasDeadline
  }

  lemma ParseCarries(pid: Id, raw: seq<RawNode>, leaves: seq<Id>)
    ensures Carries(ParsePlan(pid, raw, leaves), pid, raw)
  {
    var p := ParsePlan(pid, raw, leaves);
    RawNodesAre(pid, raw);
    assert ReduceId(pid) == Id(pid.s + "-reduce");
    forall i | LastOfItsId(raw, i) && raw[i].id != "reduce"
      ensures Id(pid.s + "-" + raw[i].id) in p.nodes
      ensures p.nodes[Id(pid.s + "-" + raw[i].id)] ==
        Node(TaskSpec(raw[i].prompt, "", "", 0, 500, raw[i].tools, raw[i].labels, 0, NoStage), Pending, "", 0)
    {
      NodeCarriesEntry(pid, raw, i);
      NodeIdInjective(pid, raw[i].id, "reduce");
    }
  }

  lemma ParseGraph(pid: Id, raw: seq<RawNode>, leaves: seq<Id>, p: Plan)
    requires raw != [] && SoundDeps(raw) && LeafList(pid, raw, leaves) && p == ParsePlan(pid, raw, leaves)
    ensures SinkGraph(p.nodes.Keys, p.succ, p.roots, ReduceId(pid))
  {
    ParseSound(pid, raw, leaves);
    ParseOnlySink(pid, raw, leaves, p);
  }

  /** From a well-formed list parse builds what the manager trusts, with the added reduce node as the only sink. */
  lemma ParseEstablishesSinkPlan(pid: Id, raw: seq<RawNode>, leaves: seq<Id>)
    requires WellFormedRaw(raw) && LeafList(pid, raw, leaves)
    ensures SinkPlan(ParsePlan(pid, raw, leaves), ReduceId(pid))
    ensures DistinctIds(raw) ==> Distinct(ParsePlan(pid, raw, leaves).roots)
  {
    var p := ParsePlan(pid, raw, leaves);
    ParseCounted(pid, raw, leaves);
    ParseGraph(pid, raw, leaves, p);
    if DistinctIds(raw) { RawRootsDistinct(pid, raw); }
    RawNodesAre(pid, raw);
    forall t | t in p.roots ensures t in p.nodes { RawRootsAre(pid, raw, t); }
    ReduceIsNew(pid, raw);
    AddSinkLists(Linked(pid, raw).succ, leaves, ReduceId(pid), ReduceId(pid));
  }

  /** Every node of such a plan leads to its sink. */
  lemma SinkPlanReaches(p: Plan, sink: Id)
    requires SinkPlan(p, sink)
    ensures forall t | t in p.nodes :: Reaches(EdgesOf(p.succ), t, sink)
  {
    var E := EdgesOf(p.succ);
    forall t | t in p.nodes && t != sink ensures HasSuccIn(E, p.nodes.Keys, t) {
      var y := Listed(p.succ, t)[0];
      assert (t, y) in E && y in p.nodes.Keys;
    }
    SinkReachable(E, p.nodes.Keys, sink);
  }

  lemma NoWalk(E: Edges, w: seq<Id>)
    requires E == {} && |w| >= 2
    ensures !IsWalk(E, w)
  {
    var i, j := 0, 1;
    assert j == i + 1 && (w[i], w[j]) !in E;
  }

  /** The single-node fallback plan is its own sink. */
  lemma FallbackIsSinkPlan(pid: Id, prompt: string)
    ensures SinkPlan(FallbackPlan(pid, prompt), NodeId(pid, "single"))
  {
    var p := FallbackPlan(pid, prompt);
    assert forall t :: InDegree(p.succ, t) == 0;
    assert EdgesOf(p.succ) == {};
    forall w: seq<Id> | |w| >= 2 ensures !IsWalk(EdgesOf(p.succ), w) { NoWalk(EdgesOf(p.succ), w); }
  }

  // ── Entries that can never run ──────────────────────────────────────

  /** The entry waits for an unlisted name or for a name of B. */
  predicate Waits(raw: seq<RawNode>, B: set<string>, r: RawNode) {
    exists k | 0 <= k < |r.deps| :: !Named(raw, r.deps[k]) || r.deps[k] in B
  }

  /** Some entry of the name waits. */
  predicate HasEntry(raw: seq<RawNode>, B: set<string>, name: string) {
    exists x | 0 <= x < |raw| :: raw[x].id == name && Waits(raw, B, raw[x])
  }

  ghost predicate WaitingSet(raw: seq<RawNode>, B: set<string>) {
    forall b | b in B :: HasEntry(raw, B, b)
  }

  ghost predicate Doomed(raw: seq<RawNode>, name: string) {
    exists B :: WaitingSet(raw, B) && name in B
  }

  lemma MissingDepDoomed(raw: seq<RawNode>, i: nat, k: nat)
    requires i < |raw| && k < |raw[i].deps| && !Named(raw, raw[i].deps[k])
    ensures Doomed(raw, raw[i].id)
  {
    assert Waits(raw, {raw[i].id}, raw[i]);
    assert WaitingSet(raw, {raw[i].id}) && raw[i].id in {raw[i].id};
  }

  lemma DownstreamDoomed(raw: seq<RawNode>, i: nat, k: nat)
    requires i < |raw| && k < |raw[i].deps| && Doomed(raw, raw[i].deps[k])
    ensures Doomed(raw, raw[i].id)
  {
    var B :| WaitingSet(raw, B) && raw[i].deps[k] in B;
    var C := B + {raw[i].id};
    assert Waits(raw, C, raw[i]);
    forall c | c in C ensures HasEntry(raw, C, c) {
      if c in B {
        assert HasEntry(raw, B, c);
        var x :| 0 <= x < |raw| && raw[x].id == c && Waits(raw, B, raw[x]);
        assert Waits(raw, C, raw[x]);
      }
    }
    assert WaitingSet(raw, C) && raw[i].id in C;
  }

  lemma OnCycleDoomed(raw: seq<RawNode>, w: seq<Id>, i: nat)
    requires IsWalk(RawEdges(raw), w) && |w| >= 2 && w[0] == w[|w| - 1] && i < |w|
    ensures Doomed(raw, w[i].s)
  {
    var B := set j | 0 <= j < |w| :: w[j].s;
    forall j | 0 <= j < |w| ensures HasEntry(raw, B, w[j].s) {
      var h := if j == 0 then |w| - 1 else j;
      assert (w[h - 1], w[h]) in RawEdges(raw);
      var x, k :| 0 <= x < |raw| && 0 <= k < |raw[x].deps| && (w[h - 1], w[h]) == (Id(raw[x].deps[k]), Id(raw[x].id));
      assert Waits(raw, B, raw[x]) && raw[x].id == w[j].s;
    }
    assert forall b | b in B :: HasEntry(raw, B, b);
    assert WaitingSet(raw, B) && w[i].s in B;
  }

  lemma WaitsForMember(raw: seq<RawNode>, B: set<string>, b: string) returns (d: string)
    requires DepsListed(raw) && WaitingSet(raw, B) && b in B
    ensures d in B && (Id(d), Id(b)) in RawEdges(raw)
  {
    assert HasEntry(raw, B, b);
    var i :| 0 <= i < |raw| && raw[i].id == b && Waits(raw, B, raw[i]);
    var k :| 0 <= k < |raw[i].deps| && (!Named(raw, raw[i].deps[k]) || raw[i].deps[k] in B);
    d := raw[i].deps[k];
  }

  lemma DoomedIsCyclic(raw: seq<RawNode>, name: string)
    requires DepsListed(raw) && Doomed(raw, name)
    ensures !Acyclic(RawEdges(raw))
  {
    var B :| WaitingSet(raw, B) && name in B;
    var S := set b | b in B :: Id(b);
    assert Id(name) in S;
    forall m | m in S ensures HasPredIn(RawEdges(raw), S, m) {
      var d := WaitsForMember(raw, B, m.s);
      assert Id(d) in S;
    }
    NoMinimalIsCycle(RawEdges(raw), S);
  }

  /** The lists without a doomed entry are exactly the acyclic ones with all dependencies listed. */
  lemma SoundIffNoneDoomed(raw: seq<RawNode>)
    ensures DepsListed(raw) && Acyclic(RawEdges(raw)) <==> forall name :: !Doomed(raw, name)
  {
    var E := RawEdges(raw);
    if i: int, k: int :| 0 <= i < |raw| && 0 <= k < |raw[i].deps| && !Named(raw, raw[i].deps[k]) {
      MissingDepDoomed(raw, i, k);
    } else if w: seq<Id> :| IsWalk(E, w) && |w| >= 2 && w[0] == w[|w| - 1] {
      OnCycleDoomed(raw, w, 0);
    } else {
      forall name ensures !Doomed(raw, name) {
        if Doomed(raw, name) { DoomedIsCyclic(raw, name); }
      }
    }
  }

  /** A waiting set of entries is a stuck set of nodes. */
  lemma WaitingIsStuck(pid: Id, raw: seq<RawNode>, leaves: seq<Id>, B: set<string>)
    requires ReduceUnused(raw) && LeafList(pid, raw, leaves) && WaitingSet(raw, B)
    ensures Stuck(ParsePlan(pid, raw, leaves), set b | b in B :: NodeId(pid, b))
  {
    var p, S := ParsePlan(pid, raw, leaves), set b | b in B :: NodeId(pid, b);
    forall t | t in S ensures exists m :: m in p.succ && t in p.succ[m] && (m !in p.nodes || m in S) {
      var b :| b in B && t == NodeId(pid, b);
      assert HasEntry(raw, B, b);
      var i :| 0 <= i < |raw| && raw[i].id == b && Waits(raw, B, raw[i]);
      var k :| 0 <= k < |raw[i].deps| && (!Named(raw, raw[i].deps[k]) || raw[i].deps[k] in B);
      var m := NodeId(pid, raw[i].deps[k]);
      assert DepEdge(pid, raw[i], m, t);
      LinkedEdges(pid, raw, m, t);
      AddSinkLists(Linked(pid, raw).succ, leaves, ReduceId(pid), m);
      if !Named(raw, raw[i].deps[k]) { UnlistedIsNoNode(pid, raw, leaves, raw[i].deps[k]); }
      assert m in p.succ && t in p.succ[m] && (m !in p.nodes || m in S);
    }
  }

  lemma UnlistedIsNoNode(pid: Id, raw: seq<RawNode>, leaves: seq<Id>, name: string)
    requires !Named(raw, name) && name != "reduce"
    ensures NodeId(pid, name) !in ParsePlan(pid, raw, leaves).nodes
  {
    RawNodesAre(pid, raw);
    NodeIdInjective(pid, name, "reduce");
    forall i | 0 <= i < |raw| ensures NodeId(pid, raw[i].id) != NodeId(pid, name) {
      NodeIdInjective(pid, raw[i].id, name);
    }
  }
}
