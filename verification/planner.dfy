/** The planner's parse on its own maps and nodes; every loop refines the model's function. */
module Planner {
  import opened TaskTypes
  import opened PlannerModel
  import opened PlannerTheorems
  import opened StateManager
  import opened EndToEnd
  import opened DagTheorems
  import opened ExtractJson

  /** The node objects of a plan under construction, and the values they hold. */
  ghost predicate Built(planID: Id, nodes: map<Id, TaskNode>, values: map<Id, Node>)
    reads nodes.Values
  {
    && nodes.Keys == values.Keys
    && (forall t | t in nodes :: nodes[t].id == t && nodes[t].home == planID)
    && (forall t | t in nodes :: nodes[t].Value() == values[t])
  }

  /** First loop: a node per entry, and the entries without dependencies as roots. */
  method BuildNodes(planID: Id, raw: seq<RawNode>)
    returns (nodes: map<Id, TaskNode>, roots: seq<Id>, predecessorNums: map<Id, int>)
    ensures Built(planID, nodes, RawNodes(planID, raw)) && forall t | t in nodes :: fresh(nodes[t])
    ensures roots == RawRoots(planID, raw) && predecessorNums == RawZeros(planID, raw)
    ensures forall i | LastOfItsId(raw, i) ::
      Id(planID.s + "-" + raw[i].id) in nodes && nodes[Id(planID.s + "-" + raw[i].id)].spec ==
        TaskSpec(raw[i].prompt, "", "", 0, 500, raw[i].tools, raw[i].labels, 0, NoStage)
  {
    nodes, roots, predecessorNums := map[], [], map[];
    for i := 0 to |raw|
      invariant Built(planID, nodes, RawNodes(planID, raw[..i])) && forall t | t in nodes :: fresh(nodes[t])
      invariant roots == RawRoots(planID, raw[..i]) && predecessorNums == RawZeros(planID, raw[..i])
    {
      assert raw[..i + 1][..i] == raw[..i];
      var id := NodeId(planID, raw[i].id);
      var node := new TaskNode(id, RawSpec(raw[i]), planID);
      nodes := nodes[id := node];
      if raw[i].deps == [] {
        roots := roots + [id];
        predecessorNums := predecessorNums[id := 0];
      }
    }
    assert raw[..|raw|] == raw;
    forall i | LastOfItsId(raw, i)
      ensures Id(planID.s + "-" + raw[i].id) in nodes
      ensures nodes[Id(planID.s + "-" + raw[i].id)].spec ==
        TaskSpec(raw[i].prompt, "", "", 0, 500, raw[i].tools, raw[i].labels, 0, NoStage)
    {
      NodeCarriesEntry(planID, raw, i);
      BuiltSpec(planID, nodes, RawNodes(planID, raw), Id(planID.s + "-" + raw[i].id));
    }
  }

  lemma BuiltSpec(planID: Id, nodes: map<Id, TaskNode>, values: map<Id, Node>, t: Id)
    requires Built(planID, nodes, values) && t in values
    ensures t in nodes && nodes[t].spec == values[t].spec
  {
    assert nodes[t].Value() == values[t];
  }

  /** Second loop: an edge and a count per dependency. */
  method LinkNodes(planID: Id, raw: seq<RawNode>, zeros: map<Id, int>)
    returns (successors: map<Id, seq<Id>>, predecessorNums: map<Id, int>)
    ensures Links(successors, predecessorNums) == LinkAll(Links(map[], zeros), planID, raw)
  {
    successors, predecessorNums := map[], zeros;
    for i := 0 to |raw|
      invariant Links(successors, predecessorNums) == LinkAll(Links(map[], zeros), planID, raw[..i])
    {
      var id := NodeId(planID, raw[i].id);
      var deps := raw[i].deps;
      ghost var before := Links(successors, predecessorNums);
      for k := 0 to |deps|
        invariant Links(successors, predecessorNums) == AddDeps(before, planID, id, deps[..k])
      {
        assert deps[..k + 1][..k] == deps[..k];
        var depID := NodeId(planID, deps[k]);
        successors := successors[depID := Listed(successors, depID) + [id]];
        predecessorNums := predecessorNums[id := Count(predecessorNums, id) + 1];
      }
      assert deps[..|deps|] == deps;
      assert raw[..i + 1][..i] == raw[..i];
    }
    assert raw[..|raw|] == raw;
  }

  /** The nodes without successors, in whatever order the map yields them. */
  method FindLeaves(ids: set<Id>, successors: map<Id, seq<Id>>) returns (leaves: seq<Id>)
    ensures forall i, j | 0 <= i < j < |leaves| :: leaves[i] != leaves[j]
    ensures forall t :: t in leaves <==> t in ids && Listed(successors, t) == []
  {
    leaves := [];
    var todo := ids;
    while todo != {}
      invariant todo <= ids
      invariant forall i, j | 0 <= i < j < |leaves| :: leaves[i] != leaves[j]
      invariant forall t :: t in leaves <==> t in ids && t !in todo && Listed(successors, t) == []
      decreases todo
    {
      var t :| t in todo;
      if |Listed(successors, t)| == 0 {
        leaves := leaves + [t];
      }
      todo := todo - {t};
    }
  }

  method LinkSink(successors: map<Id, seq<Id>>, leaves: seq<Id>, sink: Id) returns (linked: map<Id, seq<Id>>)
    ensures linked == AddSink(successors, leaves, sink)
  {
    linked := successors;
    for i := 0 to |leaves|
      invariant linked == AddSink(successors, leaves[..i], sink)
    {
      assert leaves[..i + 1][..i] == leaves[..i];
      linked := linked[leaves[i] := Listed(linked, leaves[i]) + [sink]];
    }
    assert leaves[..|leaves|] == leaves;
  }

  method Fallback(planID: Id, prompt: string) returns (plan: TaskPlan)
    ensures fresh(plan) && (forall t | t in plan.nodes :: fresh(plan.nodes[t])) && plan.Valid() && plan.id == planID
    ensures plan.Value() == FallbackPlan(planID, prompt)
    ensures plan.nodes.Keys == {Id(planID.s + "-single")} && plan.roots == [Id(planID.s + "-single")]
    ensures plan.nodes[Id(planID.s + "-single")].spec == TaskSpec(prompt, "", "", 0, 500, [], [], 0, NoStage)
    ensures plan.hasDeadline && !plan.hasNotify && plan.successors == map[]
  {
    var id := NodeId(planID, "single");
    var node := new TaskNode(id, TaskSpec(prompt, "", "", 0, 500, [], [], 0, NoStage), planID);
    plan := new TaskPlan(planID, [id], map[id := node], map[], map[id := 0], true);
    assert id == Id(planID.s + "-single") && plan.nodes.Keys == {id};
  }

  /** The plan for a model's answer; `decode` is the JSON decoder, None its error. */
  method Parse(planID: Id, raw: string, decode: string -> Option<seq<RawNode>>) returns (plan: TaskPlan)
    ensures fresh(plan) && plan.Valid() && plan.id == planID && forall t | t in plan.nodes :: fresh(plan.nodes[t])
    ensures plan.hasDeadline && !plan.hasNotify
    ensures decode(Extracted(raw)).None? ==> plan.Value() == FallbackPlan(planID, raw)
    ensures decode(Extracted(raw)).None? ==>
      plan.nodes.Keys == {Id(planID.s + "-single")} &&
      plan.nodes[Id(planID.s + "-single")].spec == TaskSpec(raw, "", "", 0, 500, [], [], 0, NoStage)
    ensures decode(Extracted(raw)).Some? ==> Carries(plan.Value(), planID, decode(Extracted(raw)).value)
    ensures decode(Extracted(raw)).Some? ==> IsParsed(plan.Value(), planID, decode(Extracted(raw)).value)
    ensures decode(Extracted(raw)).Some? && WellFormedRaw(decode(Extracted(raw)).value) ==>
      SinkPlan(plan.Value(), ReduceId(planID))
  {
    var jsonStr := Extract(raw);
    var decoded := decode(jsonStr);
    if decoded.None? {
      plan := Fallback(planID, raw);
      return;
    }
    plan := Assemble(planID, decoded.value);
    ParsedCarries(plan.Value(), planID, decoded.value);
    if WellFormedRaw(decoded.value) { ParsedIsSinkPlan(plan.Value(), planID, decoded.value); }
  }

  lemma PlanOfBuilt(plan: TaskPlan, values: map<Id, Node>)
    requires Built(plan.id, plan.nodes, values)
    ensures plan.Valid()
    ensures plan.Value() ==
      Plan(values, plan.successors, plan.predecessorNums, plan.roots, plan.hasDeadline, plan.hasNotify)
  {
    assert plan.Value().nodes == values;
  }

  lemma BuiltKeys(planID: Id, nodes: map<Id, TaskNode>, values: map<Id, Node>)
    requires Built(planID, nodes, values)
    ensures nodes.Keys == values.Keys
  {
  }

  method Assemble(planID: Id, entries: seq<RawNode>) returns (plan: TaskPlan)
    ensures fresh(plan) && (forall t | t in plan.nodes :: fresh(plan.nodes[t])) && plan.Valid() && plan.id == planID && !plan.hasNotify
    ensures IsParsed(plan.Value(), planID, entries)
  {
    var nodes, roots, zeros := BuildNodes(planID, entries);
    var successors, predecessorNums := LinkNodes(planID, entries, zeros);
    BuiltKeys(planID, nodes, RawNodes(planID, entries));
    var leaves := FindLeaves(nodes.Keys, successors);
    assert LeafList(planID, entries, leaves);
    hide LinkAll, AddSink, RawNodes, RawRoots, RawZeros, LeafList, Built;
    nodes, successors, predecessorNums := AppendReduce(planID, entries, leaves, nodes, successors, predecessorNums);
    plan := new TaskPlan(planID, roots, nodes, successors, predecessorNums, true);
    PlanOfBuilt(plan, ParsePlan(planID, entries, leaves).nodes);
  }

  /** The system's own node: it waits for every leaf. */
  method AppendReduce(planID: Id, ghost entries: seq<RawNode>, leaves: seq<Id>,
                      nodes: map<Id, TaskNode>, successors: map<Id, seq<Id>>, predecessorNums: map<Id, int>)
    returns (nodes': map<Id, TaskNode>, successors': map<Id, seq<Id>>, predecessorNums': map<Id, int>)
    requires Built(planID, nodes, RawNodes(planID, entries))
    requires Links(successors, predecessorNums) == PlannerModel.Linked(planID, entries)
    ensures Built(planID, nodes', ParsePlan(planID, entries, leaves).nodes)
    ensures forall t | t in nodes' :: (t in nodes && nodes'[t] == nodes[t]) || fresh(nodes'[t])
    ensures successors' == ParsePlan(planID, entries, leaves).succ
    ensures predecessorNums' == ParsePlan(planID, entries, leaves).preds
  {
    var sink := ReduceId(planID);
    var node := new TaskNode(sink, ReduceSpec, planID);
    nodes' := nodes[sink := node];
    successors' := LinkSink(successors, leaves, sink);
    predecessorNums' := predecessorNums[sink := |leaves|];
  }
}
