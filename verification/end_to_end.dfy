/** Parsed plans in guarded runs: the planner's guarantees meet the manager's. */
module EndToEnd {
  import opened TaskTypes
  import opened PlannerModel
  import opened PlannerTheorems
  import opened PlanIds
  import opened PlanModel
  import opened PlanInvariants
  import opened ManagerModel
  import opened ManagerRuns
  import opened ManagerTheorems
  import opened DagTheorems

  /** What plan() hands to Ingest: a parsed plan with the callback of the pre-plan wrapper. */
  ghost predicate IsParsed(p: Plan, pid: Id, raw: seq<RawNode>) {
    exists leaves :: LeafList(pid, raw, leaves) && p == ParsePlan(pid, raw, leaves).(hasNotify := p.hasNotify)
  }

  predicate IsFallback(p: Plan, pid: Id) {
    NodeId(pid, "single") in p.nodes && p == FallbackPlan(pid, p.nodes[NodeId(pid, "single")].spec.prompt).(hasNotify := p.hasNotify)
  }

  ghost predicate ParsedAt(w: World, pid: Id, raw: seq<RawNode>) {
    pid in w.st.plans && pid in w.ingested && IsParsed(w.ingested[pid], pid, raw)
  }

  lemma ParsedIsCounted(p: Plan, pid: Id, raw: seq<RawNode>)
    requires ReduceUnused(raw) && IsParsed(p, pid, raw)
    ensures Counted(p) <==> Unmixed(raw)
  {
    var leaves :| LeafList(pid, raw, leaves) && p == ParsePlan(pid, raw, leaves).(hasNotify := p.hasNotify);
    ParseCounted(pid, raw, leaves);
  }

  lemma ParsedCarries(p: Plan, pid: Id, raw: seq<RawNode>)
    requires IsParsed(p, pid, raw)
    ensures Carries(p, pid, raw)
  {
    var leaves :| LeafList(pid, raw, leaves) && p == ParsePlan(pid, raw, leaves).(hasNotify := p.hasNotify);
    ParseCarries(pid, raw, leaves);
  }

  lemma ParsedIsSinkPlan(p: Plan, pid: Id, raw: seq<RawNode>)
    requires WellFormedRaw(raw) && IsParsed(p, pid, raw)
    ensures SinkPlan(p, ReduceId(pid))
  {
    var leaves :| LeafList(pid, raw, leaves) && p == ParsePlan(pid, raw, leaves).(hasNotify := p.hasNotify);
    ParseEstablishesSinkPlan(pid, raw, leaves);
  }

  /** A plan from a well-formed list is finished by its reduce node's Complete and by no other step, and the result sent
      is that output. */
  lemma ReduceFinishes(w: World, step: Step, pid: Id, raw: seq<RawNode>)
    requires Reachable(w) && Enabled(w, step) && ParsedAt(w, pid, raw) && WellFormedRaw(raw)
    requires pid in Next(w, step).st.plans && !AllDone(w.st.plans[pid]) && AllDone(Next(w, step).st.plans[pid])
    ensures step.Complete? && step.t == ReduceId(pid)
    ensures w.st.plans[pid].hasNotify ==>
      pid in w.logs && pid in Next(w, step).logs && w.logs[pid].sent == [] &&
      Next(w, step).logs[pid].sent == [PlanResult(PlanOK, step.output)]
  {
    ParsedIsSinkPlan(w.ingested[pid], pid, raw);
    SinkLast(w, step, pid, ReduceId(pid));
  }

  lemma ParsedIsSoundPlan(p: Plan, pid: Id, raw: seq<RawNode>)
    requires raw != [] && SoundDeps(raw) && IsParsed(p, pid, raw)
    ensures SoundPlan(p)
  {
    var leaves :| LeafList(pid, raw, leaves) && p == ParsePlan(pid, raw, leaves).(hasNotify := p.hasNotify);
    ParseSound(pid, raw, leaves);
  }

  /** A plan whose dependencies can be met never deadlocks while nothing has failed or been disposed. */
  lemma ParsedNoDeadlock(w: World, pid: Id, raw: seq<RawNode>)
    requires Reachable(w) && ParsedAt(w, pid, raw) && raw != [] && SoundDeps(raw)
    requires !AllDone(w.st.plans[pid]) && Healthy(w.st.plans[pid])
    ensures exists t :: t in w.st.plans[pid].nodes && AtWork(w.st.plans[pid].nodes[t].state)
  {
    ParsedIsSoundPlan(w.ingested[pid], pid, raw);
    NoDeadlock(w, pid);
  }

  /** When its reduce node leaves Pending every other node is Done. */
  lemma ReduceWaitsForAll(w: World, pid: Id, raw: seq<RawNode>, t: Id)
    requires Reachable(w) && ParsedAt(w, pid, raw) && WellFormedRaw(raw)
    requires ReduceId(pid) in w.st.plans[pid].nodes
    requires w.st.plans[pid].nodes[ReduceId(pid)].state != Pending && w.st.plans[pid].nodes[ReduceId(pid)].state != Disposed
    requires t in w.st.plans[pid].nodes && t != ReduceId(pid)
    ensures w.st.plans[pid].nodes[t].state == Done
  {
    ParsedIsSinkPlan(w.ingested[pid], pid, raw);
    SinkPlanHere(w, pid, ReduceId(pid));
    assert CounterAt(w.st.plans[pid], ReduceId(pid));
    SinkIsLast(w.st.plans[pid], ReduceId(pid));
  }

  /** An entry on a cycle, with an unlisted dependency, or downstream of either is never anything but Pending or
      Disposed, and its plan is never reported OK. */
  lemma DoomedNeverRuns(w: World, pid: Id, raw: seq<RawNode>, name: string)
    requires Reachable(w) && ParsedAt(w, pid, raw) && ReduceUnused(raw) && Unmixed(raw) && Doomed(raw, name)
    ensures NodeId(pid, name) in w.st.plans[pid].nodes && pid in w.logs
    ensures w.st.plans[pid].nodes[NodeId(pid, name)].state == Pending || w.st.plans[pid].nodes[NodeId(pid, name)].state == Disposed
    ensures !AllDone(w.st.plans[pid])
    ensures w.st.plans[pid].hasNotify ==> forall r | r in w.logs[pid].sent :: r.status != PlanOK
  {
    var p := w.ingested[pid];
    ParsedIsCounted(p, pid, raw);
    var leaves :| LeafList(pid, raw, leaves) && p == ParsePlan(pid, raw, leaves).(hasNotify := p.hasNotify);
    var B :| WaitingSet(raw, B) && name in B;
    WaitingIsStuck(pid, raw, leaves, B);
    var S := set b | b in B :: NodeId(pid, b);
    StuckKept(ParsePlan(pid, raw, leaves), p, S);
    assert HasEntry(raw, B, name);
    RawNodesAre(pid, raw);
    StuckNeverRuns(w, pid, S, NodeId(pid, name));
  }

  // ── The disjointness guard ──────────────────────────────────────────

  /** Every node id of the plan extends the plan's id. */
  ghost predicate OwnIds(p: Plan, pid: Id) {
    forall t | t in p.nodes :: exists name :: t == NodeId(pid, name)
  }

  lemma PlannedOwnIds(p: Plan, pid: Id, raw: seq<RawNode>)
    requires IsParsed(p, pid, raw) || IsFallback(p, pid)
    ensures OwnIds(p, pid)
  {
    RawNodesAre(pid, raw);
    forall t | t in p.nodes ensures exists name :: t == NodeId(pid, name) {
      if t in RawNodes(pid, raw) {
        var i :| 0 <= i < |raw| && t == NodeId(pid, raw[i].id);
      } else if t != NodeId(pid, "single") {
        assert t == NodeId(pid, "reduce");
      }
    }
  }

  /** Among plans with the wrapper's ids, the guard on Ingest holds by itself. */
  lemma PlannerIdsAreDisjoint(w: World, pid: Id, plan: Plan)
    requires Reachable(w) && IsPlanId(pid) && OwnIds(plan, pid)
    requires forall q | q in w.ingested :: IsPlanId(q) && OwnIds(w.ingested[q], q)
    ensures Enabled(w, Ingest(pid, plan))
  {
    ReachableInv(w);
    if pid !in w.st.plans {
      forall t | t in plan.nodes ensures t !in w.st.owner {
        if t in w.st.owner {
          assert Known(w.st, t);
          var q := w.st.owner[t];
          assert t in w.ingested[q].nodes;
          var a :| t == NodeId(pid, a);
          var b :| t == NodeId(q, b);
          PlansDisjoint(pid, q, a, b);
        }
      }
    }
  }
}
