/** Which plans can be finished: exactly those parsed from well-formed lists. */
module Finish {
  import opened TaskTypes
  import opened Graph
  import opened PlanModel
  import opened ManagerModel
  import opened ManagerRuns
  import opened PlanInvariants
  import opened ManagerTheorems
  import opened DagTheorems
  import opened PlannerModel
  import opened PlannerTheorems
  import opened EndToEnd
  import PR = PlanRuns

  // ── One step forward ────────────────────────────────────────────────

  /** Finished nodes nothing outside can reopen: everything they waited for is among them. */
  ghost predicate Settled(p: Plan, A: set<Id>) {
    && A <= p.nodes.Keys
    && (forall t | t in A :: p.nodes[t].state == Done)
    && forall m, t | m in p.succ && t in p.succ[m] && t in A :: m in A
  }

  /** A node all of whose predecessors are settled. */
  ghost predicate Front(p: Plan, A: set<Id>, m: Id) {
    IsMinimal(EdgesOf(p.succ), p.nodes.Keys - A, m)
  }

  function Rank(s: NodeState): nat {
    match s
    case Pending => 4
    case Ready => 3
    case Claimed => 2
    case Running => 1
    case _ => 0
  }

  /** The operation that moves a node at work. */
  predicate Advances(s: NodeState, t: Id, op: PR.Op) {
    match s
    case Ready => op.Claim? && op.t == t
    case Claimed => op.Start? && op.t == t
    case Running => op.Complete? && op.t == t
    case _ => false
  }

  lemma SomeFront(p: Plan, A: set<Id>) returns (m: Id)
    requires SoundGraph(p) && A < p.nodes.Keys
    ensures Front(p, A, m)
  {
    AcyclicIffWellFounded(EdgesOf(p.succ));
    var t :| t in p.nodes.Keys && t !in A;
    var E, rest := EdgesOf(p.succ), p.nodes.Keys - A;
    assert t in rest && HasMinimal(E, rest);
    m :| IsMinimal(E, rest, m);
  }

  lemma FrontEdges(p: Plan, A: set<Id>, m: Id)
    requires SoundGraph(p) && Front(p, A, m)
    ensures m in p.nodes && m !in A && forall x | x in p.succ && m in p.succ[x] :: x in A
  {
    forall x | x in p.succ && m in p.succ[x] ensures x in A {
      assert (x, m) in EdgesOf(p.succ) && x in p.nodes.Keys;
    }
  }

  lemma FrontAtWork(p: Plan, A: set<Id>, m: Id)
    requires SoundGraph(p) && LooseInv(p) && Healthy(p) && Settled(p, A) && Front(p, A, m)
    ensures m in p.nodes && (p.nodes[m].state == Done || AtWork(p.nodes[m].state))
  {
    FrontEdges(p, A, m);
    NotPending(p, m);
  }

  /** A finished front node joins the settled ones. */
  lemma Settles(p: Plan, A: set<Id>, m: Id)
    requires SoundGraph(p) && Settled(p, A) && Front(p, A, m) && InState(p, m, Done)
    ensures Settled(p, A + {m})
  {
    FrontEdges(p, A, m);
  }

  lemma ForwardAt(v: PR.View, A: set<Id>, m: Id, op: PR.Op, u: Id)
    requires SoundGraph(v.plan) && Healthy(v.plan) && Settled(v.plan, A) && Front(v.plan, A, m)
    requires m in v.plan.nodes && Advances(v.plan.nodes[m].state, m, op) && u in v.plan.nodes
    ensures u in PR.PlanNext(v, op).plan.nodes
    ensures var s := PR.PlanNext(v, op).plan.nodes[u].state;
      && s != NodeState.Failed && s != Disposed && (u in A ==> s == Done)
      && (u == m ==> Rank(s) < Rank(v.plan.nodes[m].state))
  {
    hide PR.CompleteLog, PR.Record, Front, SoundGraph, PlanComplete;
    if op.Complete? {
      FrontEdges(v.plan, A, m);
      assert u in A + {m} ==> u !in Listed(v.plan.succ, m);
      CompletedNode(v.plan, m, u);
    }
  }

  lemma CompletedNode(p: Plan, m: Id, u: Id)
    requires InState(p, m, Running) && u in p.nodes
    ensures u in PlanComplete(p, m).nodes
    ensures var s := PlanComplete(p, m).nodes[u].state;
      && (s == Ready || s == SetState(p, m, Done).nodes[u].state)
      && (u !in Listed(p.succ, m) ==> s == SetState(p, m, Done).nodes[u].state)
  {
    CascadeEffect(SetState(p, m, Done), Listed(p.succ, m));
  }

  lemma Forward(v: PR.View, A: set<Id>, m: Id, op: PR.Op)
    requires SoundGraph(v.plan) && Healthy(v.plan) && Settled(v.plan, A) && Front(v.plan, A, m)
    requires m in v.plan.nodes && Advances(v.plan.nodes[m].state, m, op)
    ensures var q := PR.PlanNext(v, op).plan;
      && SameShape(v.plan, q) && Healthy(q) && Settled(q, A) && Front(q, A, m)
      && m in q.nodes && Rank(q.nodes[m].state) < Rank(v.plan.nodes[m].state)
  {
    hide PR.PlanNext, SoundGraph, Advances, Rank;
    PR.NextShape(v, op);
    forall u | u in v.plan.nodes
      ensures var s := PR.PlanNext(v, op).plan.nodes[u].state; s != NodeState.Failed && s != Disposed && (u in A ==> s == Done)
    {
      ForwardAt(v, A, m, op, u);
    }
    FrontEdges(v.plan, A, m);
    ForwardAt(v, A, m, op, m);
  }

  /** The manager step that moves the node. */
  function StepFor(s: NodeState, pid: Id, t: Id, output: string): Step {
    if s == Ready then Claim(t, "", 0, 0, 0) else if s == NodeState.Claimed then Start(t) else Complete(t, output, pid)
  }

  lemma StepAdvances(w: World, pid: Id, t: Id, output: string)
    requires pid in w.st.plans && t in w.st.plans[pid].nodes && AtWork(w.st.plans[pid].nodes[t].state)
    ensures var step := StepFor(w.st.plans[pid].nodes[t].state, pid, t, output); var op := Project(w, step, pid);
      && Enabled(w, step) && Advances(w.st.plans[pid].nodes[t].state, t, op) && (op.Complete? ==> op.output == output)
  {
    assert HasNode(w.st, pid, t);
  }

  ghost predicate Reported(w: World, pid: Id, output: string) {
    pid in w.logs && w.logs[pid].sent == [PlanResult(PlanOK, output)]
  }

  /** The plan pid is sound, nothing of it has failed or been disposed, A is settled and m is next. */
  ghost predicate AtFront(w: World, pid: Id, A: set<Id>, m: Id) {
    && Reachable(w) && SoundPlanAt(w, pid) && Healthy(w.st.plans[pid])
    && Settled(w.st.plans[pid], A) && Front(w.st.plans[pid], A, m) && m in w.st.plans[pid].nodes
  }

  lemma FinishingReports(w: World, step: Step, pid: Id, t: Id, output: string)
    requires Reachable(w) && Enabled(w, step) && pid in w.st.plans && w.st.plans[pid].hasNotify
    requires !AllDone(w.st.plans[pid]) && t in w.st.plans[pid].nodes
    requires var op := Project(w, step, pid);
      && Advances(w.st.plans[pid].nodes[t].state, t, op) && (op.Complete? ==> op.output == output)
    requires pid in Next(w, step).st.plans && AllDone(Next(w, step).st.plans[pid])
    ensures Reported(Next(w, step), pid, output)
  {
    BasicHere(w, pid);
    hide Reachable, Next, OwnerInv, NextState, DisposalInv;
    Isolation(w, step, pid);
    ProjectAllowed(w, step, pid);
    NextParts(w, step, pid);
    var v, op := ViewOf(w, pid), Project(w, step, pid);
    if !op.Complete? { OnlyCompleteFinishes(v, op); }
    FinishedIsReported(v, op);
  }

  lemma StepForward(w: World, pid: Id, A: set<Id>, m: Id, output: string) returns (step: Step)
    requires AtFront(w, pid, A, m) && AtWork(w.st.plans[pid].nodes[m].state)
    ensures Enabled(w, step) && AtFront(Next(w, step), pid, A, m)
    ensures var p, q := w.st.plans[pid], Next(w, step).st.plans[pid];
      && q.nodes.Keys == p.nodes.Keys && q.hasNotify == p.hasNotify && Rank(q.nodes[m].state) < Rank(p.nodes[m].state)
      && (!AllDone(p) && AllDone(q) && p.hasNotify ==> Reported(Next(w, step), pid, output))
  {
    step := StepFor(w.st.plans[pid].nodes[m].state, pid, m, output);
    StepAdvances(w, pid, m, output);
    SoundHere(w, pid);
    hide Next, OwnerInv, Enabled, Healthy, PR.PlanNext, Reachable, LooseInv, Advances, StepFor, Project, SoundGraph, Settled, Front,
      SoundPlan, Reported, AllDone, Rank;
    ReachableNext(w, step);
    KeepsIngested(w, step, pid);
    Isolation(w, step, pid);
    Forward(ViewOf(w, pid), A, m, Project(w, step, pid));
    if !AllDone(w.st.plans[pid]) && AllDone(Next(w, step).st.plans[pid]) && w.st.plans[pid].hasNotify {
      FinishingReports(w, step, pid, m, output);
    }
  }

  // ── Running a plan to its end ───────────────────────────────────────

  /** The nodes are run front by front; what is settled stays finished. */
  lemma {:induction false} FinishFrom(w: World, pid: Id, A: set<Id>, m: Id, output: string) returns (steps: seq<Step>)
    requires AtFront(w, pid, A, m)
    ensures Legal(w, steps) && pid in Exec(w, steps).st.plans && AllDone(Exec(w, steps).st.plans[pid])
    ensures !AllDone(w.st.plans[pid]) && w.st.plans[pid].hasNotify ==> Reported(Exec(w, steps), pid, output)
    ensures AllDone(w.st.plans[pid]) ==> steps == []
    decreases w.st.plans[pid].nodes.Keys - A, Rank(w.st.plans[pid].nodes[m].state)
  {
    var p := w.st.plans[pid];
    NoRun(w);
    SoundHere(w, pid);
    FrontAtWork(p, A, m);
    if p.nodes[m].state == Done {
      Settles(p, A, m);
      if A + {m} == p.nodes.Keys {
        steps := [];
      } else {
        var next := SomeFront(p, A + {m});
        steps := FinishFrom(w, pid, A + {m}, next, output);
      }
    } else {
      var step := StepForward(w, pid, A, m, output);
      var rest := FinishFrom(Next(w, step), pid, A, m, output);
      NoRun(Next(w, step));
      ConsRun(w, step, rest);
      steps := [step] + rest;
    }
  }

  /** From every reachable state in which nothing of a sound plan has failed or been disposed, some continuation finishes
      it and, if it was unfinished and has a callback, sends OK with any output one likes. */
  lemma CanFinish(w: World, pid: Id, output: string) returns (steps: seq<Step>)
    requires Reachable(w) && SoundPlanAt(w, pid) && Healthy(w.st.plans[pid])
    ensures Legal(w, steps) && pid in Exec(w, steps).st.plans && AllDone(Exec(w, steps).st.plans[pid])
    ensures !AllDone(w.st.plans[pid]) && w.st.plans[pid].hasNotify ==> Reported(Exec(w, steps), pid, output)
    ensures AllDone(w.st.plans[pid]) ==> steps == []
  {
    NoRun(w);
    SoundHere(w, pid);
    if AllDone(w.st.plans[pid]) { return []; }
    var m := SomeFront(w.st.plans[pid], {});
    steps := FinishFrom(w, pid, {}, m, output);
  }

  // ── A reduce node on its own ────────────────────────────────────────

  predicate Waiting(p: Plan, t: Id) { InState(p, t, Pending) || InState(p, t, Disposed) }

  /** A plan of one node that is not a root. */
  predicate Lonely(p: Plan, t: Id) { p.nodes.Keys == {t} && p.roots == [] }

  ghost predicate LonelyInv(w: World) {
    forall pid, t | pid in w.st.plans && pid in w.ingested && Lonely(w.ingested[pid], t) :: Waiting(w.st.plans[pid], t)
  }

  lemma LonelyStays(v: PR.View, op: PR.Op, t: Id)
    requires v.plan.nodes.Keys == {t} && Waiting(v.plan, t) && PR.Allowed(v, op)
    ensures Waiting(PR.PlanNext(v, op).plan, t)
  {
    hide PR.CompleteLog, PR.FailLog, PR.ReopenLog, PR.Record, PR.DropAll, PR.Send;
  }

  lemma NextLonely(w: World, step: Step)
    requires RunInv(w) && LonelyInv(w) && Enabled(w, step)
    ensures LonelyInv(Next(w, step))
  {
    var w' := Next(w, step);
    NextBirths(w, step);
    hide RunInv, Next, Enabled, Admits, Open;
    forall pid, t | pid in w'.st.plans && pid in w'.ingested && Lonely(w'.ingested[pid], t)
      ensures Waiting(w'.st.plans[pid], t)
    {
      if !(Admits(w, step) && pid == step.pid) {
        OldLonely(w, step, pid, t);
      } else {
        OpenWaits(step.plan, t);
      }
    }
  }

  lemma OpenWaits(p: Plan, t: Id)
    requires Lonely(p, t)
    ensures Waiting(Open(p), t)
  {
  }

  predicate Born(w: World, pid: Id, p: Plan) {
    pid in w.st.plans && w.st.plans[pid] == Open(p) && pid in w.ingested && w.ingested[pid] == p
  }

  lemma NextBirths(w: World, step: Step)
    requires RunInv(w)
    ensures Admits(w, step) ==> Born(Next(w, step), step.pid, step.plan)
    ensures forall pid | pid in Next(w, step).st.plans && !(Admits(w, step) && pid == step.pid) ::
      pid in w.st.plans && pid in w.ingested && pid in Next(w, step).ingested
      && Next(w, step).ingested[pid] == w.ingested[pid]
  {
    NextDomains(w, step);
  }

  lemma OldLonely(w: World, step: Step, pid: Id, t: Id)
    requires RunInv(w) && LonelyInv(w) && Enabled(w, step) && pid in w.st.plans && pid in w.ingested
    requires Lonely(w.ingested[pid], t)
    ensures pid in Next(w, step).st.plans && Waiting(Next(w, step).st.plans[pid], t)
  {
    assert SameShape(w.ingested[pid], w.st.plans[pid]) && Waiting(w.st.plans[pid], t);
    assert OwnerInv(w.st);
    hide RunInv, LonelyInv, Enabled, Next;
    Isolation(w, step, pid);
    ProjectAllowed(w, step, pid);
    LonelyStays(ViewOf(w, pid), Project(w, step, pid), t);
  }

  lemma {:induction false} ExecLonely(w: World, steps: seq<Step>)
    requires RunInv(w) && LonelyInv(w) && Legal(w, steps)
    ensures RunInv(Exec(w, steps)) && LonelyInv(Exec(w, steps))
    decreases |steps|
  {
    hide RunInv, LonelyInv, Enabled, Next;
    if steps != [] {
      var before := steps[..|steps| - 1];
      ExecLonely(w, before);
      NextLonely(Exec(w, before), steps[|steps| - 1]);
      NextRunInv(Exec(w, before), steps[|steps| - 1]);
    }
  }

  lemma InitLonely()
    ensures LonelyInv(Init)
  {
  }

  /** The plan parsed from an empty list never runs: its reduce node is no root and has nothing to wait for. */
  lemma EmptyListNeverRuns(w: World, pid: Id)
    requires Reachable(w) && ParsedAt(w, pid, [])
    ensures Waiting(w.st.plans[pid], ReduceId(pid)) && !AllDone(w.st.plans[pid])
  {
    InitInv();
    InitLonely();
    assert Lonely(w.ingested[pid], ReduceId(pid));
    hide RunInv, LonelyInv, Next, Enabled;
    var steps :| Legal(Init, steps) && Exec(Init, steps) == w;
    ExecLonely(Init, steps);
    assert LonelyInv(w);
    LonelyAt(w, pid, ReduceId(pid));
  }

  lemma LonelyAt(w: World, pid: Id, t: Id)
    requires LonelyInv(w) && pid in w.st.plans && pid in w.ingested && Lonely(w.ingested[pid], t)
    ensures Waiting(w.st.plans[pid], t) && !AllDone(w.st.plans[pid])
  {
  }

  // ── Exactly the well-formed lists ───────────────────────────────────

  /** Some continuation of the run finishes the plan. */
  ghost predicate Finishable(w: World, pid: Id) {
    exists steps :: Legal(w, steps) && pid in Exec(w, steps).st.plans && AllDone(Exec(w, steps).st.plans[pid])
  }

  lemma {:induction false} ParsedLater(w: World, steps: seq<Step>, pid: Id, raw: seq<RawNode>)
    requires Reachable(w) && Legal(w, steps) && ParsedAt(w, pid, raw)
    ensures Reachable(Exec(w, steps)) && ParsedAt(Exec(w, steps), pid, raw)
    decreases |steps|
  {
    hide Reachable, Next, Enabled, IsParsed;
    if steps != [] {
      var before := steps[..|steps| - 1];
      ParsedLater(w, before, pid, raw);
      ReachableNext(Exec(w, before), steps[|steps| - 1]);
      KeepsIngested(Exec(w, before), steps[|steps| - 1], pid);
    }
  }

  lemma UnsoundNeverDone(w: World, pid: Id, raw: seq<RawNode>)
    requires Reachable(w) && ParsedAt(w, pid, raw) && ReduceUnused(raw) && Unmixed(raw) && !WellFormedRaw(raw)
    ensures !AllDone(w.st.plans[pid])
  {
    if raw == [] {
      EmptyListNeverRuns(w, pid);
    } else {
      SoundIffNoneDoomed(raw);
      var name :| Doomed(raw, name);
      DoomedNeverRuns(w, pid, raw, name);
    }
  }

  /** As long as nothing of it has failed or been disposed, a plan parsed from a list that mixes no id can still be finished
      exactly if that list is well-formed. */
  lemma FinishableIffWellFormed(w: World, pid: Id, raw: seq<RawNode>)
    requires Reachable(w) && ParsedAt(w, pid, raw) && ReduceUnused(raw) && Unmixed(raw) && Healthy(w.st.plans[pid])
    ensures Finishable(w, pid) <==> WellFormedRaw(raw)
  {
    hide Reachable, Legal, Exec, ParsedAt, ReduceUnused, Unmixed, Healthy;
    if WellFormedRaw(raw) {
      var steps := SoundCanFinish(w, pid, raw, "");
    } else if Finishable(w, pid) {
      var steps :| Legal(w, steps) && pid in Exec(w, steps).st.plans && AllDone(Exec(w, steps).st.plans[pid]);
      ParsedLater(w, steps, pid, raw);
      UnsoundNeverDone(Exec(w, steps), pid, raw);
    }
  }

  /** Any non-empty list whose dependencies can be met, mixed ids or not, gives a plan that can still be finished at any
      point of any run at which nothing of it has failed or been disposed. */
  lemma SoundCanFinish(w: World, pid: Id, raw: seq<RawNode>, output: string) returns (steps: seq<Step>)
    requires Reachable(w) && ParsedAt(w, pid, raw) && raw != [] && SoundDeps(raw) && Healthy(w.st.plans[pid])
    ensures Legal(w, steps) && pid in Exec(w, steps).st.plans && AllDone(Exec(w, steps).st.plans[pid])
    ensures !AllDone(w.st.plans[pid]) && w.st.plans[pid].hasNotify ==> Reported(Exec(w, steps), pid, output)
  {
    ParsedIsSoundPlan(w.ingested[pid], pid, raw);
    hide Reachable, Legal, Exec, Healthy, AllDone, Reported, IsParsed, SoundDeps;
    steps := CanFinish(w, pid, output);
  }

  /** From its ingestion, at any point of any run, such a list can be brought to a plan that is all Done and reported once
      with the output of the last Complete. */
  lemma EveryPlanCanFinish(w: World, pid: Id, plan: Plan, raw: seq<RawNode>, output: string) returns (steps: seq<Step>)
    requires Reachable(w) && pid !in w.st.plans && Enabled(w, Ingest(pid, plan))
    requires IsParsed(plan, pid, raw) && raw != [] && SoundDeps(raw)
    ensures Legal(w, steps) && pid in Exec(w, steps).st.plans && AllDone(Exec(w, steps).st.plans[pid])
    ensures plan.hasNotify ==> Reported(Exec(w, steps), pid, output)
  {
    var u := Next(w, Ingest(pid, plan));
    Ingested(w, pid, plan);
    OpenIsHealthy(plan, ReduceId(pid));
    assert ReduceId(pid) in plan.nodes;
    hide Reachable, Next, Enabled, Legal, Exec, Healthy, AllDone, Reported, IsParsed, SoundDeps;
    var rest := SoundCanFinish(u, pid, raw, output);
    ConsRun(w, Ingest(pid, plan), rest);
    steps := [Ingest(pid, plan)] + rest;
  }

  lemma Ingested(w: World, pid: Id, plan: Plan)
    requires Reachable(w) && pid !in w.st.plans && Enabled(w, Ingest(pid, plan))
    ensures Reachable(Next(w, Ingest(pid, plan))) && Born(Next(w, Ingest(pid, plan)), pid, plan)
  {
    NextDomains(w, Ingest(pid, plan));
    ReachableNext(w, Ingest(pid, plan));
  }

  lemma OpenIsHealthy(p: Plan, t: Id)
    ensures Healthy(Open(p)) && (t in p.nodes ==> !AllDone(Open(p))) && Open(p).hasNotify == p.hasNotify
  {
    if t in p.nodes { assert Open(p).nodes[t].state != Done; }
  }
}
