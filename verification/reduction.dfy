/** What the reducer does to a plan of the pipeline: it sees every output and it finishes the plan. */
module Reduction {
  import opened TaskTypes
  import opened PlanModel
  import opened ManagerModel
  import opened ManagerRuns
  import opened ManagerTheorems
  import opened PlannerModel
  import opened EndToEnd
  import opened DagTheorems
  import opened Tracer
  import opened Pipeline
  import R = Reducer

  /** When the reduce node of a well-formed plan is ready, what the reducer collects is exactly one entry for each other
      node whose last output is not empty, holding that output; a node without a stored output was handled too early. */
  lemma ReduceSeesEveryOutput(p: Pipe, pid: Id, raw: seq<RawNode>, ids: seq<Id>, outputs: seq<string>)
    requires Flowed(p) && ParsedAt(p.world, pid, raw) && WellFormedRaw(raw)
    requires pid in p.world.st.plans && InState(p.world.st.plans[pid], ReduceId(pid), Ready)
    requires R.CollectedBy(p.world.st.plans[pid], p.store, ids, outputs)
    ensures forall t | t in p.world.st.plans[pid].nodes && t != ReduceId(pid) ::
      InState(p.world.st.plans[pid], t, Done) && (t in p.told || t in p.early) && (t in ids <==> LastOutput(p, t) != "")
    ensures forall t | t in ids :: t in p.world.st.plans[pid].nodes && t != ReduceId(pid)
    ensures R.Distinct(ids) && |outputs| == |ids|
    ensures forall i | 0 <= i < |ids| :: outputs[i] == "[" + ids[i].s + "]: " + LastOutput(p, ids[i])
  {
    hide Flowed, ParsedAt, WellFormedRaw, LastOutput;
    forall t | t in p.world.st.plans[pid].nodes
      ensures t != ReduceId(pid) ==> InState(p.world.st.plans[pid], t, Done) && (t in p.told || t in p.early)
      ensures R.Collectable(p.world.st.plans[pid], p.store, t) <==> t != ReduceId(pid) && LastOutput(p, t) != ""
      ensures t != ReduceId(pid) ==> OutputOf(p.store, t) == LastOutput(p, t)
    {
      CollectableMeans(p, pid, raw, t);
    }
    assert forall t | t in ids :: R.Collectable(p.world.st.plans[pid], p.store, t);
  }

  lemma CollectableMeans(p: Pipe, pid: Id, raw: seq<RawNode>, t: Id)
    requires Flowed(p) && ParsedAt(p.world, pid, raw) && WellFormedRaw(raw)
    requires InState(p.world.st.plans[pid], ReduceId(pid), Ready) && t in p.world.st.plans[pid].nodes
    ensures t != ReduceId(pid) ==>
      InState(p.world.st.plans[pid], t, Done) && (t in p.told || t in p.early) && OutputOf(p.store, t) == LastOutput(p, t)
    ensures R.Collectable(p.world.st.plans[pid], p.store, t) <==> t != ReduceId(pid) && LastOutput(p, t) != ""
  {
    FlowedInv(p);
    OnlyReduceReduces(p.world, pid, raw, t);
    if t != ReduceId(pid) { OutputsPrecedeReduction(p, pid, raw, t); }
  }

  /** The manager's state after the reducer's Claim and Start. */
  function Begun(s: State, t: Id, expires: int): State {
    DoStart(DoClaim(s, t, "local", expires).st, t).st
  }

  lemma BegunRuns(s: State, t: Id, expires: int)
    requires Known(s, t) && StateOf(s, t) == Ready
    ensures var u := Begun(s, t, expires);
      && u.plans.Keys == s.plans.Keys && u.owner == s.owner && Known(u, t) && StateOf(u, t) == Running
      && (forall p | p in s.plans :: SameShape(s.plans[p], u.plans[p]))
      && (forall p, n | p in s.plans && n in s.plans[p].nodes && !(p == s.owner[t] && n == t) ::
            u.plans[p].nodes[n] == s.plans[p].nodes[n])
      && u.plans[s.owner[t]].nodes[t] == Node(s.plans[s.owner[t]].nodes[t].spec, Running, "local", expires)
  {
  }

  /** The reducer's three calls, with nothing in between, finish the plan and send their output. */
  lemma DriveFinishes(w: World, pid: Id, raw: seq<RawNode>, expires: int, output: string, stop: Id)
    requires Reachable(w) && ParsedAt(w, pid, raw) && WellFormedRaw(raw)
    requires InState(w.st.plans[pid], ReduceId(pid), Ready)
    requires HasNode(w.st, stop, ReduceId(pid))
    ensures var done := R.Driven(w.st, ReduceId(pid), expires, output, stop);
      && done.reply.Ok? && done.published == [] && pid in done.st.plans && AllDone(done.st.plans[pid])
      && done.sent == (if w.st.plans[pid].hasNotify then [PlanResult(PlanOK, output)] else [])
      && ReduceId(pid) in done.st.plans[pid].nodes
      && done.st.plans[pid].nodes[ReduceId(pid)] == Node(w.st.plans[pid].nodes[ReduceId(pid)].spec, Done, "local", expires)
  {
    var t := ReduceId(pid);
    ReachableInv(w);
    OwnedIffNode(w.st, pid, t);
    OwnedIffNode(w.st, stop, t);
    BegunRuns(w.st, t, expires);
    SinkHasNoSuccessor(w, pid, raw);
    forall n | n in w.st.plans[pid].nodes && n != t ensures w.st.plans[pid].nodes[n].state == Done {
      ReduceWaitsForAll(w, pid, raw, n);
    }
    CompleteLast(Begun(w.st, t, expires), pid, t, output);
  }

  lemma SinkHasNoSuccessor(w: World, pid: Id, raw: seq<RawNode>)
    requires Reachable(w) && ParsedAt(w, pid, raw) && WellFormedRaw(raw)
    ensures Listed(w.st.plans[pid].succ, ReduceId(pid)) == []
  {
    ReachableInv(w);
    ParsedIsSinkPlan(w.ingested[pid], pid, raw);
    assert SameShape(w.ingested[pid], w.st.plans[pid]);
  }

  lemma CompleteLast(s: State, pid: Id, t: Id, output: string)
    requires Known(s, t) && s.owner[t] == pid && StateOf(s, t) == Running && Listed(s.plans[pid].succ, t) == []
    requires forall n | n in s.plans[pid].nodes && n != t :: s.plans[pid].nodes[n].state == Done
    ensures var done := DoComplete(s, t, output, pid);
      && done.reply.Ok? && done.published == [] && pid in done.st.plans && AllDone(done.st.plans[pid])
      && done.sent == (if s.plans[pid].hasNotify then [PlanResult(PlanOK, output)] else [])
      && t in done.st.plans[pid].nodes && done.st.plans[pid].nodes[t] == s.plans[pid].nodes[t].(state := Done)
  {
  }
}
