/** The planner's parse as a function of the decoded node list. */
module PlannerModel {
  import opened TaskTypes
  import opened Graph

  /** One decoded entry of the model's answer. */
  datatype RawNode = RawNode(id: string, prompt: string, tools: seq<string>, labels: seq<string>, deps: seq<string>)

  function NodeId(pid: Id, name: string): Id { Id(pid.s + "-" + name) }

  function ReduceId(pid: Id): Id { NodeId(pid, "reduce") }

  function NewNode(spec: TaskSpec): Node { Node(spec, Pending, "", 0) }

  function RawSpec(r: RawNode): TaskSpec { TaskSpec(r.prompt, "", "", 0, 500, r.tools, r.labels, 0, NoStage) }

  const ReduceSpec := TaskSpec("Combine all results into a single final response", "", "", 0, 1000, [], ["cpu"], 0, ReduceStage)

  // ── The loops ───────────────────────────────────────────────────────

  /** First loop: one node per entry, the last of equal ids winning. */
  function RawNodes(pid: Id, raw: seq<RawNode>): map<Id, Node> {
    if raw == [] then map[] else
      var r := raw[|raw| - 1];
      RawNodes(pid, raw[..|raw| - 1])[NodeId(pid, r.id) := NewNode(RawSpec(r))]
  }

  function RawRoots(pid: Id, raw: seq<RawNode>): seq<Id> {
    if raw == [] then [] else
      var r := raw[|raw| - 1];
      RawRoots(pid, raw[..|raw| - 1]) + (if r.deps == [] then [NodeId(pid, r.id)] else [])
  }

  function RawZeros(pid: Id, raw: seq<RawNode>): map<Id, int> {
    if raw == [] then map[] else
      var r := raw[|raw| - 1];
      var m := RawZeros(pid, raw[..|raw| - 1]);
      if r.deps == [] then m[NodeId(pid, r.id) := 0] else m
  }

  datatype Links = Links(succ: map<Id, seq<Id>>, preds: map<Id, int>)

  function AddDep(l: Links, dep: Id, id: Id): Links {
    Links(l.succ[dep := Listed(l.succ, dep) + [id]], l.preds[id := Count(l.preds, id) + 1])
  }

  /** Inner loop of the second pass: the dependencies of one entry. */
  function AddDeps(l: Links, pid: Id, id: Id, deps: seq<string>): Links {
    if deps == [] then l
    else AddDep(AddDeps(l, pid, id, deps[..|deps| - 1]), NodeId(pid, deps[|deps| - 1]), id)
  }

  function LinkAll(l: Links, pid: Id, raw: seq<RawNode>): Links {
    if raw == [] then l else
      var r := raw[|raw| - 1];
      AddDeps(LinkAll(l, pid, raw[..|raw| - 1]), pid, NodeId(pid, r.id), r.deps)
  }

  function Linked(pid: Id, raw: seq<RawNode>): Links {
    LinkAll(Links(map[], RawZeros(pid, raw)), pid, raw)
  }

  /** Last loop: the sink joins the successor list of every leaf. */
  function AddSink(succ: map<Id, seq<Id>>, leaves: seq<Id>, sink: Id): map<Id, seq<Id>> {
    if leaves == [] then succ else
      var s := AddSink(succ, leaves[..|leaves| - 1], sink);
      s[leaves[|leaves| - 1] := Listed(s, leaves[|leaves| - 1]) + [sink]]
  }

  /** The leaves in the order a range over the node map happened to give them. */
  predicate LeafList(pid: Id, raw: seq<RawNode>, leaves: seq<Id>) {
    && (forall i, j | 0 <= i < j < |leaves| :: leaves[i] != leaves[j])
    && (forall t | t in leaves :: t in RawNodes(pid, raw) && Listed(Linked(pid, raw).succ, t) == [])
    && (forall t | t in RawNodes(pid, raw) && Listed(Linked(pid, raw).succ, t) == [] :: t in leaves)
  }

  function ParsePlan(pid: Id, raw: seq<RawNode>, leaves: seq<Id>): Plan {
    var l := Linked(pid, raw);
    Plan(RawNodes(pid, raw)[ReduceId(pid) := NewNode(ReduceSpec)],
         AddSink(l.succ, leaves, ReduceId(pid)),
         l.preds[ReduceId(pid) := |leaves|],
         RawRoots(pid, raw), true, false)
  }

  function FallbackPlan(pid: Id, prompt: string): Plan {
    var t := NodeId(pid, "single");
    Plan(map[t := NewNode(TaskSpec(prompt, "", "", 0, 500, [], [], 0, NoStage))], map[], map[t := 0], [t], true, false)
  }

  // ── Conditions on the decoded list ──────────────────────────────────

  predicate Named(raw: seq<RawNode>, name: string) {
    exists i | 0 <= i < |raw| :: raw[i].id == name
  }

  /** Nothing is called by the system's own name. */
  predicate ReduceUnused(raw: seq<RawNode>) {
    forall i | 0 <= i < |raw| :: raw[i].id != "reduce" && "reduce" !in raw[i].deps
  }

  predicate DistinctIds(raw: seq<RawNode>) {
    forall i, j | 0 <= i < j < |raw| :: raw[i].id != raw[j].id
  }

  /** The id is listed both with and without dependencies. */
  predicate Mixed(raw: seq<RawNode>, name: string) {
    && (exists i | 0 <= i < |raw| :: raw[i].id == name && raw[i].deps == [])
    && (exists i | 0 <= i < |raw| :: raw[i].id == name && raw[i].deps != [])
  }

  predicate Unmixed(raw: seq<RawNode>) {
    forall i | 0 <= i < |raw| :: !Mixed(raw, raw[i].id)
  }

  /** r depends on d. */
  function RawEdges(raw: seq<RawNode>): Edges {
    set i, k | 0 <= i < |raw| && 0 <= k < |raw[i].deps| :: (Id(raw[i].deps[k]), Id(raw[i].id))
  }

  predicate DepsListed(raw: seq<RawNode>) {
    forall i, k | 0 <= i < |raw| && 0 <= k < |raw[i].deps| :: Named(raw, raw[i].deps[k])
  }

  /** Dependencies that can all be met: listed, without a cycle, and clear of the system's own name. */
  ghost predicate SoundDeps(raw: seq<RawNode>) {
    ReduceUnused(raw) && DepsListed(raw) && Acyclic(RawEdges(raw))
  }

  ghost predicate WellFormedRaw(raw: seq<RawNode>) {
    raw != [] && Unmixed(raw) && SoundDeps(raw)
  }

  // ── What the loops leave behind ─────────────────────────────────────

  lemma NodeIdInjective(pid: Id, a: string, b: string)
    ensures NodeId(pid, a) == NodeId(pid, b) <==> a == b
  {
    var p := pid.s + "-";
    if NodeId(pid, a) == NodeId(pid, b) {
      assert a == (p + a)[|p|..];
      assert b == (p + b)[|p|..];
    }
  }

  lemma {:induction false} RawNodesAre(pid: Id, raw: seq<RawNode>)
    ensures forall i | 0 <= i < |raw| :: NodeId(pid, raw[i].id) in RawNodes(pid, raw)
    ensures forall t | t in RawNodes(pid, raw) :: exists i | 0 <= i < |raw| :: t == NodeId(pid, raw[i].id)
    ensures forall t | t in RawNodes(pid, raw) :: RawNodes(pid, raw)[t].spec.stage == NoStage
  {
    if raw != [] {
      var before := raw[..|raw| - 1];
      RawNodesAre(pid, before);
      forall t | t in RawNodes(pid, raw) ensures exists i | 0 <= i < |raw| :: t == NodeId(pid, raw[i].id) {
        if t != NodeId(pid, raw[|raw| - 1].id) {
          assert t in RawNodes(pid, before);
          var i :| 0 <= i < |before| && t == NodeId(pid, before[i].id);
          assert raw[i] == before[i];
        }
      }
      forall i | 0 <= i < |raw| ensures NodeId(pid, raw[i].id) in RawNodes(pid, raw) {
        if i < |before| { assert raw[i] == before[i]; }
      }
    }
  }

  /** Counters and successor lists agree: every pass adds one occurrence and one count together. */
  lemma {:induction false} AddDepsCounts(l: Links, pid: Id, id: Id, deps: seq<string>, t: Id)
    ensures Count(AddDeps(l, pid, id, deps).preds, t) == Count(l.preds, t) + (if t == id then |deps| else 0)
    ensures InDegree(AddDeps(l, pid, id, deps).succ, t) == InDegree(l.succ, t) + (if t == id then |deps| else 0)
  {
    if deps != [] {
      var before := deps[..|deps| - 1];
      AddDepsCounts(l, pid, id, before, t);
      InDegreeAppend(AddDeps(l, pid, id, before).succ, NodeId(pid, deps[|deps| - 1]), id, t);
    }
  }

  /** The dependencies, repeats counted, of the entries that became node t. */
  function DepTotal(pid: Id, raw: seq<RawNode>, t: Id): nat {
    if raw == [] then 0 else
      DepTotal(pid, raw[..|raw| - 1], t) +
      (if NodeId(pid, raw[|raw| - 1].id) == t then |raw[|raw| - 1].deps| else 0)
  }

  lemma {:induction false} LinkAllCounts(l: Links, pid: Id, raw: seq<RawNode>, t: Id)
    ensures Count(LinkAll(l, pid, raw).preds, t) == Count(l.preds, t) + DepTotal(pid, raw, t)
    ensures InDegree(LinkAll(l, pid, raw).succ, t) == InDegree(l.succ, t) + DepTotal(pid, raw, t)
  {
    if raw != [] {
      var r := raw[|raw| - 1];
      LinkAllCounts(l, pid, raw[..|raw| - 1], t);
      AddDepsCounts(LinkAll(l, pid, raw[..|raw| - 1]), pid, NodeId(pid, r.id), r.deps, t);
    }
  }

  lemma {:induction false} ZerosAreZero(pid: Id, raw: seq<RawNode>, t: Id)
    ensures Count(RawZeros(pid, raw), t) == 0
  {
    if raw != [] { ZerosAreZero(pid, raw[..|raw| - 1], t); }
  }

  lemma LinkedCounts(pid: Id, raw: seq<RawNode>, t: Id)
    ensures Count(Linked(pid, raw).preds, t) == InDegree(Linked(pid, raw).succ, t) == DepTotal(pid, raw, t)
  {
    ZerosAreZero(pid, raw, t);
    LinkAllCounts(Links(map[], RawZeros(pid, raw)), pid, raw, t);
  }

  lemma {:induction false} DepTotalNone(pid: Id, raw: seq<RawNode>, t: Id)
    requires forall i | 0 <= i < |raw| :: NodeId(pid, raw[i].id) != t
    ensures DepTotal(pid, raw, t) == 0
  {
    if raw != [] { DepTotalNone(pid, raw[..|raw| - 1], t); }
  }

  /** A node has no dependencies exactly if no entry of its id has any. */
  lemma {:induction false} DepTotalZero(pid: Id, raw: seq<RawNode>, t: Id)
    ensures DepTotal(pid, raw, t) == 0 <==> forall i | 0 <= i < |raw| && NodeId(pid, raw[i].id) == t :: raw[i].deps == []
  {
    if raw != [] {
      var before, k := raw[..|raw| - 1], |raw| - 1;
      DepTotalZero(pid, before, t);
      assert forall i | 0 <= i < |before| :: before[i] == raw[i];
      if NodeId(pid, raw[k].id) == t && raw[k].deps != [] { assert DepTotal(pid, raw, t) > 0; }
    }
  }

  /** Who is listed as whose successor. */
  predicate DepEdge(pid: Id, r: RawNode, x: Id, y: Id) {
    y == NodeId(pid, r.id) && exists k | 0 <= k < |r.deps| :: x == NodeId(pid, r.deps[k])
  }

  lemma {:induction false} AddDepsEdges(l: Links, pid: Id, id: Id, deps: seq<string>, x: Id, y: Id)
    ensures y in Listed(AddDeps(l, pid, id, deps).succ, x) <==>
      y in Listed(l.succ, x) || (y == id && exists k | 0 <= k < |deps| :: x == NodeId(pid, deps[k]))
  {
    if deps != [] {
      var before := deps[..|deps| - 1];
      AddDepsEdges(l, pid, id, before, x, y);
      assert forall k | 0 <= k < |before| :: before[k] == deps[k];
      if x == NodeId(pid, deps[|deps| - 1]) { assert 0 <= |deps| - 1 < |deps|; }
    }
  }

  lemma {:induction false} LinkAllEdges(l: Links, pid: Id, raw: seq<RawNode>, x: Id, y: Id)
    ensures y in Listed(LinkAll(l, pid, raw).succ, x) <==>
      y in Listed(l.succ, x) || exists i | 0 <= i < |raw| :: DepEdge(pid, raw[i], x, y)
  {
    if raw != [] {
      var before, r := raw[..|raw| - 1], raw[|raw| - 1];
      LinkAllEdges(l, pid, before, x, y);
      AddDepsEdges(LinkAll(l, pid, before), pid, NodeId(pid, r.id), r.deps, x, y);
      assert forall i | 0 <= i < |before| :: before[i] == raw[i];
      if DepEdge(pid, r, x, y) { assert raw[|raw| - 1] == r; }
    }
  }

  /** y is listed after x exactly when some entry y depends on x. */
  lemma LinkedEdges(pid: Id, raw: seq<RawNode>, x: Id, y: Id)
    ensures y in Listed(Linked(pid, raw).succ, x) <==> exists i | 0 <= i < |raw| :: DepEdge(pid, raw[i], x, y)
  {
    LinkAllEdges(Links(map[], RawZeros(pid, raw)), pid, raw, x, y);
  }

  lemma {:induction false} AddSinkCounts(succ: map<Id, seq<Id>>, leaves: seq<Id>, sink: Id, t: Id)
    ensures InDegree(AddSink(succ, leaves, sink), t) == InDegree(succ, t) + (if t == sink then |leaves| else 0)
  {
    if leaves != [] {
      var before := leaves[..|leaves| - 1];
      AddSinkCounts(succ, before, sink, t);
      InDegreeAppend(AddSink(succ, before, sink), leaves[|leaves| - 1], sink, t);
    }
  }

  lemma {:induction false} AddSinkLists(succ: map<Id, seq<Id>>, leaves: seq<Id>, sink: Id, x: Id)
    requires forall i, j | 0 <= i < j < |leaves| :: leaves[i] != leaves[j]
    ensures Listed(AddSink(succ, leaves, sink), x) == Listed(succ, x) + (if x in leaves then [sink] else [])
    ensures x in AddSink(succ, leaves, sink) <==> x in succ || x in leaves
  {
    if leaves != [] {
      var before := leaves[..|leaves| - 1];
      assert leaves == before + [leaves[|leaves| - 1]];
      AddSinkLists(succ, before, sink, x);
    }
  }

  /** The order in which the leaves were met leaves no trace in the plan. */
  lemma LeafOrderFree(pid: Id, raw: seq<RawNode>, a: seq<Id>, b: seq<Id>)
    requires LeafList(pid, raw, a) && LeafList(pid, raw, b)
    ensures ParsePlan(pid, raw, a) == ParsePlan(pid, raw, b)
  {
    var succ, sink := Linked(pid, raw).succ, ReduceId(pid);
    forall x ensures x in AddSink(succ, a, sink) <==> x in AddSink(succ, b, sink) {
      AddSinkLists(succ, a, sink, x);
      AddSinkLists(succ, b, sink, x);
    }
    forall x | x in AddSink(succ, a, sink) ensures AddSink(succ, a, sink)[x] == AddSink(succ, b, sink)[x] {
      AddSinkLists(succ, a, sink, x);
      AddSinkLists(succ, b, sink, x);
    }
    assert AddSink(succ, a, sink) == AddSink(succ, b, sink);
    SameLength(a, b);
  }

  lemma {:induction false} SameLength(a: seq<Id>, b: seq<Id>)
    requires forall i, j | 0 <= i < j < |a| :: a[i] != a[j]
    requires forall i, j | 0 <= i < j < |b| :: b[i] != b[j]
    requires forall t :: t in a <==> t in b
    ensures |a| == |b|
  {
    DistinctCard(a);
    DistinctCard(b);
    assert (set t | t in a) == (set t | t in b);
  }

  lemma {:induction false} DistinctCard(s: seq<Id>)
    requires forall i, j | 0 <= i < j < |s| :: s[i] != s[j]
    ensures |(set t | t in s)| == |s|
  {
    if s != [] {
      var k := |s| - 1;
      DistinctCard(s[..k]);
      assert s == s[..k] + [s[k]];
      assert (set t | t in s) == (set t | t in s[..k]) + {s[k]};
      assert s[k] !in s[..k];
    }
  }

  // ── Contents and order ──────────────────────────────────────────────

  /** No later entry has the same id. */
  predicate LastOfItsId(raw: seq<RawNode>, i: int) {
    0 <= i < |raw| && forall j | i < j < |raw| :: raw[j].id != raw[i].id
  }

  /** A node carries what its entry says: prompt, tools and labels, a budget of 500, and nothing else. */
  lemma {:induction false} NodeCarriesEntry(pid: Id, raw: seq<RawNode>, i: int)
    requires LastOfItsId(raw, i)
    ensures Id(pid.s + "-" + raw[i].id) in RawNodes(pid, raw)
    ensures RawNodes(pid, raw)[Id(pid.s + "-" + raw[i].id)] ==
      Node(TaskSpec(raw[i].prompt, "", "", 0, 500, raw[i].tools, raw[i].labels, 0, NoStage), Pending, "", 0)
  {
    var n := |raw| - 1;
    if i < n {
      assert raw[..n][i] == raw[i];
      NodeCarriesEntry(pid, raw[..n], i);
      NodeIdInjective(pid, raw[i].id, raw[n].id);
    }
  }

  /** The roots are the entries without dependencies, in list order. */
  lemma {:induction false} RawRootsInOrder(pid: Id, raw: seq<RawNode>) returns (ks: seq<int>)
    ensures Ascending(ks, |raw|) && forall k | 0 <= k < |raw| :: k in ks <==> raw[k].deps == []
    ensures |RawRoots(pid, raw)| == |ks|
    ensures forall j | 0 <= j < |ks| :: RawRoots(pid, raw)[j] == Id(pid.s + "-" + raw[ks[j]].id)
  {
    ks := [];
    if raw != [] {
      var n := |raw| - 1;
      ks := RawRootsInOrder(pid, raw[..n]);
      if raw[n].deps == [] { ks := ks + [n]; }
    }
  }

  function Copies(t: Id, n: nat): seq<Id> { seq(n, _ => t) }

  /** The entries that depend on the name, in list order, each as often as it lists the name. */
  function Dependents(pid: Id, raw: seq<RawNode>, name: string): seq<Id> {
    if raw == [] then [] else
      Copies(Id(pid.s + "-" + raw[0].id), multiset(raw[0].deps)[name]) + Dependents(pid, raw[1..], name)
  }

  lemma {:induction false} DependentsSnoc(pid: Id, raw: seq<RawNode>, r: RawNode, name: string)
    ensures Dependents(pid, raw + [r], name) ==
      Dependents(pid, raw, name) + Copies(Id(pid.s + "-" + r.id), multiset(r.deps)[name])
  {
    if raw != [] {
      DependentsSnoc(pid, raw[1..], r, name);
      assert (raw + [r])[1..] == raw[1..] + [r];
    }
  }

  lemma {:induction false} AddDepsLists(l: Links, pid: Id, id: Id, deps: seq<string>, name: string)
    ensures Listed(AddDeps(l, pid, id, deps).succ, NodeId(pid, name)) ==
      Listed(l.succ, NodeId(pid, name)) + Copies(id, multiset(deps)[name])
  {
    if deps != [] {
      var n := |deps| - 1;
      AddDepsLists(l, pid, id, deps[..n], name);
      assert deps == deps[..n] + [deps[n]];
      NodeIdInjective(pid, deps[n], name);
    }
  }

  /** The successors of a node, in the order in which the manager releases them. */
  lemma {:induction false} SuccessorsInOrder(pid: Id, raw: seq<RawNode>, name: string)
    ensures Listed(Linked(pid, raw).succ, NodeId(pid, name)) == Dependents(pid, raw, name)
  {
    LinkAllLists(Links(map[], RawZeros(pid, raw)), pid, raw, name);
  }

  lemma {:induction false} LinkAllLists(l: Links, pid: Id, raw: seq<RawNode>, name: string)
    ensures Listed(LinkAll(l, pid, raw).succ, NodeId(pid, name)) == Listed(l.succ, NodeId(pid, name)) + Dependents(pid, raw, name)
  {
    if raw == [] {
      assert Dependents(pid, raw, name) == [];
    } else {
      hide Dependents, AddDeps, Copies;
      var before, r := raw[..|raw| - 1], raw[|raw| - 1];
      LinkAllLists(l, pid, before, name);
      AddDepsLists(LinkAll(l, pid, before), pid, NodeId(pid, r.id), r.deps, name);
      DependentsSnoc(pid, before, r, name);
      assert raw == before + [r];
    }
  }
}
