/** What the shape of the dependency graph means for guarded runs: deadlock, exact work, the sink, and cycles. */
module DagTheorems {
  import opened TaskTypes
  import opened Graph
  import opened PlanModel
  import opened ManagerModel
  import opened ManagerRuns
  import opened PlanInvariants
  import opened ManagerTheorems
  import PR = PlanRuns

  ghost predicate StartsListed(ids: set<Id>, succ: map<Id, seq<Id>>, roots: seq<Id>) {
    forall t | t in ids && InDegree(succ, t) == 0 :: t in roots
  }

  predicate StaysInside(ids: set<Id>, succ: map<Id, seq<Id>>) {
    forall m | m in succ :: forall n | n in succ[m] :: m in ids && n in ids
  }

  predicate OnlySink(ids: set<Id>, succ: map<Id, seq<Id>>, sink: Id) {
    forall t | t in ids && t != sink :: Listed(succ, t) != []
  }

  /** A finite acyclic graph over the plan's own nodes, its starts among the roots. */
  ghost predicate SoundGraph(p: Plan) {
    Acyclic(EdgesOf(p.succ)) && StaysInside(p.nodes.Keys, p.succ) && StartsListed(p.nodes.Keys, p.succ, p.roots)
  }

  lemma SoundKept(p: Plan, q: Plan)
    requires SoundGraph(p) && SameShape(p, q)
    ensures SoundGraph(q)
  {
  }

  /** An acyclic graph over the given ids, every id but the sink with a successor, and no start missing from the roots. */
  ghost predicate SinkGraph(ids: set<Id>, succ: map<Id, seq<Id>>, roots: seq<Id>, sink: Id) {
    && StartsListed(ids, succ, roots)
    && Acyclic(EdgesOf(succ))
    && StaysInside(ids, succ)
    && sink in ids
    && OnlySink(ids, succ, sink)
  }

  /** What the manager trusts of a plan: exact counters, roots that are exactly the nodes without predecessors, an
      acyclic graph over the plan's own nodes, and one sink. */
  ghost predicate SinkPlan(p: Plan, sink: Id) {
    && Counted(p)
    && (forall t | t in p.roots :: t in p.nodes)
    && SinkGraph(p.nodes.Keys, p.succ, p.roots, sink)
    && Listed(p.succ, sink) == []
  }

  ghost predicate SinkShape(p: Plan, sink: Id) {
    SinkGraph(p.nodes.Keys, p.succ, p.roots, sink)
  }

  ghost predicate SinkPlanAt(w: World, pid: Id, sink: Id) {
    pid in w.st.plans && pid in w.ingested && SinkPlan(w.ingested[pid], sink)
  }

  lemma SinkPlanHere(w: World, pid: Id, sink: Id)
    requires Reachable(w) && SinkPlanAt(w, pid, sink)
    ensures pid in w.logs && BasicInv(ViewOf(w, pid)) && CountedInv(ViewOf(w, pid))
    ensures ViewOf(w, pid).log == w.logs[pid] && SinkShape(w.st.plans[pid], sink) && OwnerInv(w.st)
  {
    CountedHere(w, pid);
    assert SinkShape(w.ingested[pid], sink);
  }

  /** A pending node of a sink plan waits for something that is not Done. */
  lemma PendingWaits(w: World, pid: Id, sink: Id, t: Id)
    requires Reachable(w) && SinkPlanAt(w, pid, sink) && InState(w.st.plans[pid], t, Pending)
    ensures Count(w.st.plans[pid].preds, t) > 0
    ensures exists m :: m in w.st.plans[pid].succ && t in w.st.plans[pid].succ[m] && !InState(w.st.plans[pid], m, Done)
  {
    SinkPlanHere(w, pid, sink);
    var p := w.st.plans[pid];
    assert CounterAt(p, t);
    InCountZero(OpenSources(p), p.succ, t);
    var m :| m in OpenSources(p) && t in Listed(p.succ, m);
  }

  // ── No deadlock ─────────────────────────────────────────────────────

  predicate AtWork(s: NodeState) { s == Ready || s == Claimed || s == Running }

  /** What the planner builds from any list whose dependencies can be met, mixed ids or not: an acyclic graph over the
      plan's own nodes, its starts among the roots, and counters that count the edges. */
  ghost predicate SoundPlan(p: Plan) {
    SoundGraph(p) && forall t | t in p.nodes :: Count(p.preds, t) == InDegree(p.succ, t)
  }

  ghost predicate SoundPlanAt(w: World, pid: Id) {
    pid in w.st.plans && pid in w.ingested && SoundPlan(w.ingested[pid])
  }

  lemma SinkIsSound(p: Plan, sink: Id)
    requires SinkPlan(p, sink)
    ensures SoundPlan(p)
  {
  }

  lemma SoundHere(w: World, pid: Id)
    requires Reachable(w) && SoundPlanAt(w, pid)
    ensures LooseInv(w.st.plans[pid]) && SoundGraph(w.st.plans[pid]) && OwnerInv(w.st)
    ensures w.st.plans[pid].nodes.Keys == w.ingested[pid].nodes.Keys
  {
    LooseHere(w, pid);
    SoundKept(w.ingested[pid], w.st.plans[pid]);
  }

  /** A node whose predecessors are all Done does not wait. */
  lemma NotPending(p: Plan, m: Id)
    requires LooseInv(p) && m in p.nodes
    requires forall x | x in p.succ && m in p.succ[x] :: InState(p, x, Done)
    ensures p.nodes[m].state != Pending
  {
    assert LooseAt(p, m);
    InCountZero(OpenSources(p), p.succ, m);
  }

  /** Some node that is not Done has nothing to wait for. */
  lemma FirstNotDone(p: Plan) returns (m: Id)
    requires LooseInv(p) && SoundGraph(p) && !AllDone(p)
    ensures m in p.nodes && p.nodes[m].state != Done && p.nodes[m].state != Pending
  {
    var E := EdgesOf(p.succ);
    var S := set t | t in p.nodes && p.nodes[t].state != Done;
    var t0 :| t0 in p.nodes && p.nodes[t0].state != Done;
    assert t0 in S;
    AcyclicIffWellFounded(E);
    assert HasMinimal(E, S);
    m :| IsMinimal(E, S, m);
    forall x | x in p.succ && m in p.succ[x] ensures InState(p, x, Done) { assert (x, m) in E && x in p.nodes; }
    NotPending(p, m);
  }

  /** While nothing has failed or been disposed, an unfinished plan always has a node to claim, start or complete. */
  lemma NoDeadlock(w: World, pid: Id)
    requires Reachable(w) && SoundPlanAt(w, pid) && !AllDone(w.st.plans[pid])
    requires Healthy(w.st.plans[pid])
    ensures exists t :: t in w.st.plans[pid].nodes && AtWork(w.st.plans[pid].nodes[t].state)
  {
    SoundHere(w, pid);
    var m := FirstNotDone(w.st.plans[pid]);
    assert AtWork(w.st.plans[pid].nodes[m].state);
  }

  // ── Exact work ──────────────────────────────────────────────────────

  /** State-changing claims, starts and completes of each node. */
  function Work(ids: set<Id>, log: PR.Log): map<Id, int> {
    map t | t in ids :: PR.StepsOf(log, t).claims + PR.StepsOf(log, t).starts + PR.StepsOf(log, t).completes
  }

  function Reopenings(ids: set<Id>, log: PR.Log): map<Id, int> {
    map t | t in ids :: PR.StepsOf(log, t).abandons + PR.StepsOf(log, t).expiries
  }

  lemma WorkSum(v: PR.View)
    requires LedgerInv(v) && Healthy(v.plan)
    ensures var ids := v.plan.nodes.Keys; var work, again := Work(ids, v.log), Reopenings(ids, v.log);
      && Total(ids, work) <= 3 * |ids| + Total(ids, again)
      && (AllDone(v.plan) ==> Total(ids, work) == 3 * |ids| + Total(ids, again))
  {
    var ids := v.plan.nodes.Keys;
    var work, again := Work(ids, v.log), Reopenings(ids, v.log);
    forall t | t in ids
      ensures Count(work, t) <= 3 + Count(again, t)
      ensures v.plan.nodes[t].state == Done ==> Count(work, t) == 3 + Count(again, t)
    {
      assert LedgerAt(v.plan.nodes[t].state, PR.StepsOf(v.log, t));
    }
    TotalWithin(ids, work, again);
  }

  /** The work done never exceeds three steps a node plus one for each reopening, and a finished plan took exactly that. */
  lemma ExactWork(w: World, pid: Id)
    requires Reachable(w) && CountedAt(w, pid) && Healthy(w.st.plans[pid])
    ensures pid in w.logs
    ensures var ids := w.st.plans[pid].nodes.Keys;
      var work, again := Work(ids, w.logs[pid]), Reopenings(ids, w.logs[pid]);
      && Total(ids, work) <= 3 * |ids| + Total(ids, again)
      && (AllDone(w.st.plans[pid]) ==> Total(ids, work) == 3 * |ids| + Total(ids, again))
  {
    CountedHere(w, pid);
    WorkSum(ViewOf(w, pid));
  }

  // ── The sink comes last ─────────────────────────────────────────────

  /** When the sink waits for nothing, every other node is Done. */
  lemma SinkIsLast(p: Plan, sink: Id)
    requires CounterInv(p) && SinkShape(p, sink) && Count(p.preds, sink) == 0
    ensures forall t | t in p.nodes && t != sink :: p.nodes[t].state == Done
  {
    var E := EdgesOf(p.succ);
    var S := set t | t in p.nodes && t != sink && p.nodes[t].state != Done;
    if S != {} {
      var m := MaximalElement(E, S);
      var s := Listed(p.succ, m)[0];
      assert (m, s) in E && s !in S;
      assert CounterAt(p, s);
      AllBefore(p, s);
      assert false;
    }
    forall t | t in p.nodes && t != sink ensures p.nodes[t].state == Done { assert t !in S; }
  }

  lemma FinishedBySink(v: PR.View, op: PR.Op, sink: Id)
    requires BasicInv(v) && CounterInv(v.plan) && SinkShape(v.plan, sink) && PR.Allowed(v, op)
    requires !AllDone(v.plan) && AllDone(PR.PlanNext(v, op).plan)
    ensures op.Complete? && op.t == sink && InState(v.plan, sink, Running)
  {
    if !op.Complete? { OnlyCompleteFinishes(v, op); }
    assert InState(v.plan, op.t, Running);
    assert CounterAt(v.plan, sink);
    CompleteAt(v.plan, op.t, sink);
    if op.t != sink {
      SinkIsLast(v.plan, sink);
      assert false;
    }
  }

  lemma FinishedIsReported(v: PR.View, op: PR.Op)
    requires NoticeInv(v) && v.plan.hasNotify && op.Complete? && InState(v.plan, op.t, Running)
    requires AllDone(PR.PlanNext(v, op).plan)
    ensures v.log.sent == [] && PR.PlanNext(v, op).log.sent == [PlanResult(PlanOK, op.output)]
  {
    assert !AllDone(v.plan) && !Closed(v.plan);
  }

  lemma SinkView(v: PR.View)
    requires BasicInv(v) && CountedInv(v)
    ensures CounterInv(v.plan) && NoticeInv(v)
  {
  }

  /** The step that finishes a plan is the sink's Complete, and the OK result carries that Complete's output. */
  lemma SinkLast(w: World, step: Step, pid: Id, sink: Id)
    requires Reachable(w) && Enabled(w, step) && SinkPlanAt(w, pid, sink) && pid in Next(w, step).st.plans
    requires !AllDone(w.st.plans[pid]) && AllDone(Next(w, step).st.plans[pid])
    ensures step.Complete? && step.t == sink
    ensures w.st.plans[pid].hasNotify ==>
      pid in w.logs && pid in Next(w, step).logs && w.logs[pid].sent == [] &&
      Next(w, step).logs[pid].sent == [PlanResult(PlanOK, step.output)]
  {
    hide Next, Enabled, OwnerInv, Reachable, SinkShape, BasicInv, CountedInv, NextState;
    SinkPlanHere(w, pid, sink);
    Isolation(w, step, pid);
    ProjectAllowed(w, step, pid);
    NextParts(w, step, pid);
    var v, op := ViewOf(w, pid), Project(w, step, pid);
    SinkView(v);
    FinishedBySink(v, op, sink);
    if v.plan.hasNotify { FinishedIsReported(v, op); }
  }

  // ── Cycles never run ────────────────────────────────────────────────

  /** Every node of B waits for a node of B or for an id that is not in the plan. */
  ghost predicate Stuck(p: Plan, B: set<Id>) {
    forall b | b in B :: exists m :: m in p.succ && b in p.succ[m] && (m !in p.nodes || m in B)
  }

  lemma DoneBefore(v: PR.View, i: nat, m: Id)
    requires OrderInv(v) && i < |v.log.order| && m in v.plan.succ && v.log.order[i] in v.plan.succ[m]
    ensures m in v.log.order[..i] && m in v.plan.nodes
  {
    assert m in v.log.order;
    assert InState(v.plan, m, Done);
  }

  lemma {:induction false} StuckNotCompleted(v: PR.View, B: set<Id>, i: nat)
    requires OrderInv(v) && Stuck(v.plan, B) && i <= |v.log.order|
    ensures forall k | 0 <= k < i :: v.log.order[k] !in B
  {
    if i > 0 {
      StuckNotCompleted(v, B, i - 1);
      var b := v.log.order[i - 1];
      if b in B {
        var m :| m in v.plan.succ && b in v.plan.succ[m] && (m !in v.plan.nodes || m in B);
        DoneBefore(v, i - 1, m);
        assert false;
      }
    }
  }

  lemma StuckStates(v: PR.View, B: set<Id>, b: Id)
    requires CounterInv(v.plan) && OrderInv(v) && Stuck(v.plan, B) && b in B && b in v.plan.nodes
    ensures v.plan.nodes[b].state == Pending || v.plan.nodes[b].state == Disposed
  {
    StuckNotCompleted(v, B, |v.log.order|);
    assert forall t | t in B :: t !in v.log.order && !InState(v.plan, t, Done);
    var m :| m in v.plan.succ && b in v.plan.succ[m] && (m !in v.plan.nodes || m in B);
    assert m in OpenSources(v.plan);
    assert CounterAt(v.plan, b);
    InCountZero(OpenSources(v.plan), v.plan.succ, b);
    assert b in Listed(v.plan.succ, m);
  }

  lemma StuckUnreported(v: PR.View, b: Id)
    requires NoticeInv(v) && b in v.plan.nodes && v.plan.nodes[b].state != Done
    ensures !AllDone(v.plan) && (v.plan.hasNotify ==> forall r | r in v.log.sent :: r.status != PlanOK)
  {
    if v.plan.hasNotify { NoticeMeans(v); }
  }

  /** In every guarded run a stuck set never leaves Pending except by disposal, and its plan is never reported OK. */
  lemma StuckNeverRuns(w: World, pid: Id, B: set<Id>, b: Id)
    requires Reachable(w) && CountedAt(w, pid) && Stuck(w.ingested[pid], B) && b in B && b in w.ingested[pid].nodes
    ensures b in w.st.plans[pid].nodes && pid in w.logs
    ensures w.st.plans[pid].nodes[b].state == Pending || w.st.plans[pid].nodes[b].state == Disposed
    ensures !AllDone(w.st.plans[pid])
    ensures w.st.plans[pid].hasNotify ==> forall r | r in w.logs[pid].sent :: r.status != PlanOK
  {
    CountedHere(w, pid);
    var v := ViewOf(w, pid);
    StuckKept(w.ingested[pid], v.plan, B);
    StuckStates(v, B, b);
    StuckUnreported(v, b);
  }

  lemma StuckKept(p: Plan, q: Plan, B: set<Id>)
    requires Stuck(p, B) && p.succ == q.succ && p.nodes.Keys == q.nodes.Keys
    ensures Stuck(q, B)
  {
    forall b | b in B ensures exists m :: m in q.succ && b in q.succ[m] && (m !in q.nodes || m in B) {
      var m :| m in p.succ && b in p.succ[m] && (m !in p.nodes || m in B);
      assert m in q.succ && b in q.succ[m] && (m !in q.nodes || m in B);
    }
  }
}
