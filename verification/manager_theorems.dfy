/** Properties of every guarded run of the state manager. */
module ManagerTheorems {
  import opened TaskTypes
  import opened Graph
  import opened PlanModel
  import opened ManagerModel
  import opened ManagerRuns
  import opened PlanInvariants
  import PR = PlanRuns

  ghost predicate PidInv(w: World, pid: Id)
    requires pid in w.st.plans && pid in w.ingested
  {
    && BasicInv(ViewOf(w, pid))
    && (Counted(w.ingested[pid]) ==> CountedInv(ViewOf(w, pid)))
    && (Numbered(w.ingested[pid]) ==> LooseInv(w.st.plans[pid]))
  }

  ghost predicate PidsInv(w: World)
    requires KeysInv(w)
  {
    forall pid | pid in w.st.plans :: PidInv(w, pid)
  }

  ghost predicate RunInv(w: World) {
    WorldInv(w) && PidsInv(w)
  }

  lemma NewView(w: World, step: Step)
    requires w.st.claimed.Keys <= w.st.owner.Keys && Enabled(w, step) && Admits(w, step)
    ensures var w' := Next(w, step);
      step.pid in w'.st.plans && ViewOf(w', step.pid) == PR.View(Open(step.plan), map[], PR.NewLog)
  {
    NextDomains(w, step);
    assert NextState(w, step).claimed == w.st.claimed;
    assert Part(w.st.claimed, Open(step.plan).nodes.Keys) == map[];
    assert NextLogs(w, step)[step.pid] == PR.NewLog;
  }

  lemma NewPidInv(w: World, step: Step, w': World)
    requires WorldInv(w) && Enabled(w, step) && Admits(w, step) && w' == Next(w, step)
    ensures step.pid in w'.st.plans && step.pid in w'.ingested && PidInv(w', step.pid)
  {
    NewView(w, step);
    OpenBasic(step.plan);
    if Counted(step.plan) { OpenCounted(step.plan); }
    if Numbered(step.plan) { OpenLoose(step.plan); }
  }

  lemma OldPidInv(w: World, step: Step, pid: Id)
    requires WorldInv(w) && Enabled(w, step) && pid in w.st.plans && PidInv(w, pid)
    ensures var w' := Next(w, step); pid in w'.st.plans && pid in w'.ingested && PidInv(w', pid)
  {
    Isolation(w, step, pid);
    ProjectAllowed(w, step, pid);
    var v, op := ViewOf(w, pid), Project(w, step, pid);
    KeepsBasic(v, op);
    if CountedInv(v) { KeepsCounted(v, op); }
    if LooseInv(v.plan) { KeepsLoose(v, op); }
    assert Next(w, step).ingested[pid] == w.ingested[pid];
  }

  lemma NextRunInv(w: World, step: Step)
    requires RunInv(w) && Enabled(w, step)
    ensures RunInv(Next(w, step))
  {
    NextWorldInv(w, step);
    NextDomains(w, step);
    var w' := Next(w, step);
    forall pid | pid in w'.st.plans ensures PidInv(w', pid) {
      if Admits(w, step) && pid == step.pid { NewPidInv(w, step, w'); } else { OldPidInv(w, step, pid); }
    }
  }

  lemma {:induction false} ExecRunInv(w: World, steps: seq<Step>)
    requires RunInv(w) && Legal(w, steps)
    ensures RunInv(Exec(w, steps))
    decreases |steps|
  {
    if steps != [] {
      var before := steps[..|steps| - 1];
      ExecRunInv(w, before);
      NextRunInv(Exec(w, before), steps[|steps| - 1]);
    }
  }

  /** The worlds of the guarded runs. */
  ghost predicate Reachable(w: World) {
    exists steps :: Legal(Init, steps) && Exec(Init, steps) == w
  }

  lemma InitInv()
    ensures RunInv(Init)
  {
  }

  lemma ReachableInv(w: World)
    requires Reachable(w)
    ensures RunInv(w)
  {
    InitInv();
    hide RunInv, Next, Enabled;
    var steps :| Legal(Init, steps) && Exec(Init, steps) == w;
    ExecRunInv(Init, steps);
  }

  lemma OneMore(w: World, steps: seq<Step>, step: Step)
    requires Legal(w, steps) && Enabled(Exec(w, steps), step)
    ensures Legal(w, steps + [step]) && Exec(w, steps + [step]) == Next(Exec(w, steps), step)
  {
    assert (steps + [step])[..|steps|] == steps;
  }

  lemma {:induction false} ReachableLater(w: World, steps: seq<Step>)
    requires Reachable(w) && Legal(w, steps)
    ensures Reachable(Exec(w, steps))
    decreases |steps|
  {
    if steps != [] {
      var before := steps[..|steps| - 1];
      ReachableLater(w, before);
      ReachableNext(Exec(w, before), steps[|steps| - 1]);
    }
  }

  lemma ReachableNext(w: World, step: Step)
    requires Reachable(w) && Enabled(w, step)
    ensures Reachable(Next(w, step))
  {
    var steps :| Legal(Init, steps) && Exec(Init, steps) == w;
    OneMore(Init, steps, step);
  }

  lemma KeepsIngested(w: World, step: Step, pid: Id)
    requires pid in w.st.plans && pid in w.ingested
    ensures pid in Next(w, step).st.plans && pid in Next(w, step).ingested
    ensures Next(w, step).ingested[pid] == w.ingested[pid]
  {
    NextDomains(w, step);
  }

  lemma NoRun(w: World)
    ensures Legal(w, []) && Exec(w, []) == w
  {
  }

  lemma {:induction false} ConsRun(w: World, step: Step, rest: seq<Step>)
    requires Enabled(w, step) && Legal(Next(w, step), rest)
    ensures Legal(w, [step] + rest) && Exec(w, [step] + rest) == Exec(Next(w, step), rest)
    decreases |rest|
  {
    hide Next, Enabled;
    var steps := [step] + rest;
    if rest == [] {
      assert steps == [step] && steps[..0] == [];
      assert Legal(w, []) && Exec(w, []) == w;
    } else {
      ConsRun(w, step, rest[..|rest| - 1]);
      assert steps[..|steps| - 1] == [step] + rest[..|rest| - 1];
    }
  }

  /** One more step of a run, seen from the plan pid. */
  lemma Follow(w: World, steps: seq<Step>, step: Step, pid: Id)
    requires Legal(w, steps) && Enabled(Exec(w, steps), step)
    requires OwnerInv(Exec(w, steps).st) && pid in Exec(w, steps).st.plans
    ensures Legal(w, steps + [step]) && Exec(w, steps + [step]) == Next(Exec(w, steps), step)
    ensures OwnerInv(Exec(w, steps + [step]).st) && pid in Exec(w, steps + [step]).st.plans
    ensures ViewOf(Exec(w, steps + [step]), pid) ==
      PR.PlanNext(ViewOf(Exec(w, steps), pid), Project(Exec(w, steps), step, pid))
  {
    OneMore(w, steps, step);
    hide Next, Enabled, OwnerInv;
    Isolation(Exec(w, steps), step, pid);
    NextOwnerInv(Exec(w, steps), step);
  }

  // ── Plans do not touch each other ───────────────────────────────────

  /** The node index is the disjoint union of the plans' nodes, so the plan Complete's search stops at is the only one
      with the node, and a step on a node leaves every other plan as it was. */
  lemma PlanIsolation(w: World, step: Step, pid: Id, other: Id, t: Id)
    requires Reachable(w) && Enabled(w, step) && pid in w.st.plans && other in w.st.plans && pid != other
    requires t in w.st.plans[pid].nodes
    ensures t in w.st.owner && w.st.owner[t] == pid && t !in w.st.plans[other].nodes
    ensures step.Complete? && step.t == t ==> step.found == pid
    ensures TaskStep(step) && TaskOf(w, step) == t ==>
      other in Next(w, step).st.plans && Next(w, step).st.plans[other] == w.st.plans[other]
  {
    ReachableInv(w);
    OwnedIffNode(w.st, pid, t);
    OwnedIffNode(w.st, other, t);
    if step.Complete? && step.t == t { OwnedIffNode(w.st, step.found, t); }
    if TaskStep(step) && TaskOf(w, step) == t { ForeignTask(w, step, other, t); }
  }

  lemma ForeignTask(w: World, step: Step, pid: Id, t: Id)
    requires OwnerInv(w.st) && Enabled(w, step) && pid in w.st.plans && t !in w.st.plans[pid].nodes
    requires TaskStep(step) && TaskOf(w, step) == t
    ensures pid in Next(w, step).st.plans && Next(w, step).st.plans[pid] == w.st.plans[pid]
  {
    hide Next, OwnerInv, PR.CompleteLog, PR.FailLog, PR.ReopenLog, PR.Record, PR.DropAll, PR.Send;
    Isolation(w, step, pid);
  }

  function TaskOf(w: World, step: Step): Id
    requires TaskStep(step) && (step.DogFire? ==> 0 <= step.k < |w.dogs|)
  {
    if step.DogFire? then w.dogs[step.k].task else step.t
  }

  // ── One result per plan ─────────────────────────────────────────────

  lemma BasicHere(w: World, pid: Id)
    requires Reachable(w) && pid in w.st.plans
    ensures pid in w.logs && pid in w.ingested && ViewOf(w, pid).log == w.logs[pid]
    ensures BasicInv(ViewOf(w, pid)) && OwnerInv(w.st)
  {
    ReachableInv(w);
    assert PidInv(w, pid);
  }

  lemma NoticeMeans(v: PR.View)
    requires NoticeInv(v) && v.plan.hasNotify && v.plan.nodes.Keys != {}
    ensures |v.log.sent| <= 1
    ensures AllDone(v.plan) <==> |v.log.sent| == 1 && v.log.sent[0].status == PlanOK
    ensures forall r | r in v.log.sent && r.status != PlanOK ::
      r.status == PlanTimeout && Closed(v.plan) && v.log.watch == PR.Ended
    ensures v.log.watch == PR.Ended ==> |v.log.sent| == 1
    ensures v.log.sent == [] ==> v.log.buffer == []
  {
  }

  /** A non-empty plan with a callback is told at most once how it ended: OK exactly when every node is Done, a timeout
      only when it was closed unfinished, and always by the time the deadline goroutine has ended. */
  lemma ExactlyOnce(w: World, pid: Id)
    requires Reachable(w) && pid in w.st.plans && w.st.plans[pid].hasNotify && w.st.plans[pid].nodes.Keys != {}
    ensures pid in w.logs && |w.logs[pid].sent| <= 1
    ensures AllDone(w.st.plans[pid]) <==> |w.logs[pid].sent| == 1 && w.logs[pid].sent[0].status == PlanOK
    ensures forall r | r in w.logs[pid].sent && r.status != PlanOK ::
      r.status == PlanTimeout && Closed(w.st.plans[pid]) && w.logs[pid].watch == PR.Ended
    ensures w.logs[pid].watch == PR.Ended ==> |w.logs[pid].sent| == 1
  {
    BasicHere(w, pid);
    NoticeMeans(ViewOf(w, pid));
  }

  /** The reader's one-slot channel is empty whenever a result is sent to it, so no send can block. */
  lemma SendFindsRoom(w: World, step: Step, pid: Id)
    requires Reachable(w) && Enabled(w, step)
    requires pid in w.st.plans && w.st.plans[pid].hasNotify && w.st.plans[pid].nodes.Keys != {}
    requires pid in w.logs && pid in Next(w, step).logs && Next(w, step).logs[pid].sent != w.logs[pid].sent
    ensures w.logs[pid].sent == [] && w.logs[pid].buffer == []
    ensures |Next(w, step).logs[pid].sent| == 1
  {
    BasicHere(w, pid);
    NoticeMeans(ViewOf(w, pid));
    ReachableNext(w, step);
    Isolation(w, step, pid);
    var v, op := ViewOf(w, pid), Project(w, step, pid);
    PR.NextShape(v, op);
    PR.SentGrows(v, op);
    ExactlyOnce(Next(w, step), pid);
  }

  // ── Disposal is final ───────────────────────────────────────────────

  /** After Dispose, or after the deadline found the plan unfinished, the plan is closed. */
  lemma DisposalCloses(w: World, step: Step, pid: Id)
    requires Reachable(w) && Enabled(w, step) && pid in w.st.plans
    requires step == Dispose(pid) || (step == DeadlineFire(pid) && !AllDone(w.st.plans[pid]))
    ensures pid in Next(w, step).st.plans && Closed(Next(w, step).st.plans[pid])
  {
    ReachableInv(w);
    Isolation(w, step, pid);
    DisposeCloses(w.st.plans[pid]);
  }

  lemma ClosedNext(w: World, step: Step, pid: Id)
    requires OwnerInv(w.st) && Enabled(w, step) && pid in w.st.plans && Closed(w.st.plans[pid])
    ensures pid in Next(w, step).st.plans && Next(w, step).st.plans[pid] == w.st.plans[pid]
  {
    Isolation(w, step, pid);
    ProjectAllowed(w, step, pid);
    ClosedStays(ViewOf(w, pid), Project(w, step, pid));
  }

  lemma {:induction false} ClosedKept(w: World, steps: seq<Step>, pid: Id)
    requires OwnerInv(w.st) && Legal(w, steps) && pid in w.st.plans && Closed(w.st.plans[pid])
    ensures OwnerInv(Exec(w, steps).st)
    ensures pid in Exec(w, steps).st.plans && Exec(w, steps).st.plans[pid] == w.st.plans[pid]
    decreases |steps|
  {
    if steps != [] {
      var before, step := steps[..|steps| - 1], steps[|steps| - 1];
      ClosedKept(w, before, pid);
      ClosedNext(Exec(w, before), step, pid);
      NextOwnerInv(Exec(w, before), step);
    }
  }

  /** No later step of any kind changes a closed plan: no late watchdog, no late Complete, no released successor. */
  lemma DisposalIsFinal(w: World, steps: seq<Step>, pid: Id)
    requires Reachable(w) && Legal(w, steps) && pid in w.st.plans && Closed(w.st.plans[pid])
    ensures pid in Exec(w, steps).st.plans && Exec(w, steps).st.plans[pid] == w.st.plans[pid]
  {
    ReachableInv(w);
    ClosedKept(w, steps, pid);
  }

  /** A closed, unfinished plan that has no deadline is never told how it ended. */
  lemma NoDeadlineNeverTold(w: World, steps: seq<Step>, pid: Id)
    requires Reachable(w) && Legal(w, steps) && pid in w.st.plans && w.st.plans[pid].hasNotify && !w.st.plans[pid].hasDeadline
    requires Closed(w.st.plans[pid]) && !AllDone(w.st.plans[pid])
    ensures pid in Exec(w, steps).logs && Exec(w, steps).logs[pid].sent == []
  {
    hide Reachable, Legal, Exec;
    DisposalIsFinal(w, steps, pid);
    ReachableLater(w, steps);
    BasicHere(Exec(w, steps), pid);
  }

  // ── Plans with exact counters ───────────────────────────────────────

  ghost predicate CountedAt(w: World, pid: Id) {
    pid in w.st.plans && pid in w.ingested && Counted(w.ingested[pid])
  }

  lemma CountedHere(w: World, pid: Id)
    requires Reachable(w) && CountedAt(w, pid)
    ensures RunInv(w) && BasicInv(ViewOf(w, pid)) && CountedInv(ViewOf(w, pid))
    ensures pid in w.logs && ViewOf(w, pid).log == w.logs[pid]
    ensures SameShape(w.ingested[pid], w.st.plans[pid])
  {
    ReachableInv(w);
    assert PidInv(w, pid);
  }

  lemma LooseHere(w: World, pid: Id)
    requires Reachable(w) && pid in w.st.plans && pid in w.ingested && Numbered(w.ingested[pid])
    ensures LooseInv(w.st.plans[pid]) && SameShape(w.ingested[pid], w.st.plans[pid]) && OwnerInv(w.st)
  {
    ReachableInv(w);
    assert PidInv(w, pid);
  }

  lemma PlanSound(w: World, pid: Id)
    requires Reachable(w) && CountedAt(w, pid)
    ensures OwnerInv(w.st) && CounterInv(w.st.plans[pid]) && DisposalInv(w.st.plans[pid])
  {
    CountedHere(w, pid);
  }

  /** The running counter of a node is the number of edge occurrences into it from sources not yet Done, and it is zero
      exactly when every source is Done. */
  lemma CounterRefinement(w: World, pid: Id, t: Id)
    requires Reachable(w) && CountedAt(w, pid) && t in w.st.plans[pid].nodes
    ensures var p := w.st.plans[pid];
      && Count(p.preds, t) == InCount(OpenSources(p), w.ingested[pid].succ, t) >= 0
      && (Count(p.preds, t) == 0 <==> forall m | m in p.succ && t in p.succ[m] :: InState(p, m, Done))
      && (p.nodes[t].state == Pending && InDegree(p.succ, t) > 0 ==> Count(p.preds, t) > 0)
      && (p.nodes[t].state !in {Pending, Disposed} ==> Count(p.preds, t) == 0)
  {
    CountedHere(w, pid);
    var p := w.st.plans[pid];
    assert CounterAt(p, t);
    InCountZero(OpenSources(p), p.succ, t);
    if Count(p.preds, t) == 0 { AllBefore(p, t); }
    if forall m | m in p.succ && t in p.succ[m] :: InState(p, m, Done) {
      forall m | m in OpenSources(p) ensures t !in Listed(p.succ, m) { }
    }
  }

  lemma SameDoneSameCount(p: Plan, q: Plan, t: Id)
    requires CounterInv(p) && CounterInv(q) && p.succ == q.succ && t in p.nodes && t in q.nodes
    requires forall m :: InState(p, m, Done) <==> InState(q, m, Done)
    ensures Count(p.preds, t) == Count(q.preds, t)
  {
    assert OpenSources(p) == OpenSources(q);
    assert CounterAt(p, t) && CounterAt(q, t);
  }

  /** Two runs that completed the same nodes of the same plan, in whatever order, agree on every counter. */
  lemma CountersFollowDone(w1: World, w2: World, pid: Id, t: Id)
    requires Reachable(w1) && Reachable(w2) && CountedAt(w1, pid) && CountedAt(w2, pid)
    requires w1.ingested[pid] == w2.ingested[pid] && t in w1.ingested[pid].nodes
    requires forall m :: InState(w1.st.plans[pid], m, Done) <==> InState(w2.st.plans[pid], m, Done)
    ensures t in w1.st.plans[pid].nodes && t in w2.st.plans[pid].nodes
    ensures Count(w1.st.plans[pid].preds, t) == Count(w2.st.plans[pid].preds, t)
  {
    CountedHere(w1, pid);
    CountedHere(w2, pid);
    SameDoneSameCount(w1.st.plans[pid], w2.st.plans[pid], t);
  }

  /** Where every claim of a node went, and who holds it now. */
  predicate LedgerHolds(w: World, pid: Id, t: Id) {
    && pid in w.st.plans && t in w.st.plans[pid].nodes && pid in w.logs
    && var l := PR.StepsOf(w.logs[pid], t); var n := w.st.plans[pid].nodes[t];
      && l.claims == l.starts + l.abandons + l.expiries + l.dropped + (if n.state == Claimed then 1 else 0)
      && 0 <= l.completes <= l.starts <= 1
      && (l.completes == 1 <==> n.state == Done)
      && (t in w.st.claimed <==> n.state == Claimed || n.state == Running)
      && (t in w.st.claimed ==> w.st.claimed[t] == n.claimedBy)
  }

  lemma LeaseLedger(w: World, pid: Id, t: Id)
    requires Reachable(w) && CountedAt(w, pid) && t in w.st.plans[pid].nodes
    ensures LedgerHolds(w, pid, t)
  {
    CountedHere(w, pid);
    var v := ViewOf(w, pid);
    assert LedgerAt(v.plan.nodes[t].state, PR.StepsOf(v.log, t));
    assert HeldAt(v, t);
  }

  /** The completes form a topological order of the completed nodes; of all nodes once the plan is done. */
  lemma TopologicalExecution(w: World, pid: Id)
    requires Reachable(w) && CountedAt(w, pid)
    ensures pid in w.logs
    ensures var p, order := w.st.plans[pid], w.logs[pid].order;
      && (forall t :: t in order <==> InState(p, t, Done))
      && (forall i, j | 0 <= i < j < |order| :: order[i] != order[j])
      && (forall i, m | 0 <= i < |order| && m in p.succ && order[i] in p.succ[m] :: m in order[..i])
    ensures AllDone(w.st.plans[pid]) ==> multiset(w.logs[pid].order) == multiset(w.st.plans[pid].nodes.Keys)
  {
    CountedHere(w, pid);
    var p, order := w.st.plans[pid], w.logs[pid].order;
    assert OrderInv(ViewOf(w, pid));
    if AllDone(p) {
      DistinctIsSet(order, p.nodes.Keys);
    }
  }

  lemma {:induction false} DistinctIsSet(s: seq<Id>, ids: set<Id>)
    requires forall t :: t in s <==> t in ids
    requires forall i, j | 0 <= i < j < |s| :: s[i] != s[j]
    ensures multiset(s) == multiset(ids)
  {
    if s != [] {
      var k := |s| - 1;
      assert s == s[..k] + [s[k]];
      assert s[k] in s && s[k] !in s[..k];
      forall t ensures t in s[..k] <==> t in ids - {s[k]} {
        if t in ids - {s[k]} { assert t in s; }
      }
      DistinctIsSet(s[..k], ids - {s[k]});
    }
  }
}
