/** How often a node is announced: ready once, or as often as it is listed as a root, and republished once for every time it was reopened or failed. */
module EventTheorems {
  import opened TaskTypes
  import opened Graph
  import opened PlanModel
  import opened ManagerModel
  import opened ManagerRuns
  import opened PlanInvariants
  import opened ManagerTheorems
  import PR = PlanRuns

  function Times(events: seq<Event>, topic: Topic, t: Id): int {
    multiset(events)[Event(topic, t)]
  }

  // ── One plan ────────────────────────────────────────────────────────

  /** The announcements that fit a node's state and history: r as ready, a as republished. */
  predicate EventAt(v: PR.View, t: Id, r: int, a: int)
    requires t in v.plan.nodes
  {
    var s, l := v.plan.nodes[t].state, PR.StepsOf(v.log, t);
    && a == l.abandons + l.expiries + (if s == NodeState.Failed then 1 else 0)
    && (if t in v.plan.roots then RootReady(v.plan.roots, s, t, r) else InnerReady(s, r))
  }

  predicate RootReady(roots: seq<Id>, s: NodeState, t: Id, r: int) { r == multiset(roots)[t] && s != Pending }

  predicate InnerReady(s: NodeState, r: int) {
    0 <= r <= 1 && (s == Pending ==> r == 0) && (s != Pending && s != Disposed ==> r == 1)
  }

  function OpReady(v: PR.View, op: PR.Op, t: Id): int {
    if op.Complete? && InState(v.plan, op.t, Running)
    then multiset(Readied(SetState(v.plan, op.t, Done), Listed(v.plan.succ, op.t)))[t] else 0
  }

  function OpAgain(v: PR.View, op: PR.Op, t: Id): int {
    if (op.Fail? && op.t == t) || (op.Reopen? && op.t == t && InState(v.plan, t, NodeState.Claimed)) then 1 else 0
  }

  /** A completion announces exactly the pending nodes it makes ready. */
  lemma CompleteAnnounces(p: Plan, n: Id, t: Id)
    requires CounterInv(p) && DisposalInv(p) && InState(p, n, Running) && t in p.nodes
    ensures var k := multiset(Readied(SetState(p, n, Done), Listed(p.succ, n)))[t];
      && t in PlanComplete(p, n).nodes
      && k == if p.nodes[t].state == Pending && PlanComplete(p, n).nodes[t].state == Ready then 1 else 0
  {
    assert CounterAt(p, t);
    CompleteAt(p, n, t);
    var todo := Listed(p.succ, n);
    assert t in todo <==> multiset(todo)[t] > 0;
    ReadiedOnce(SetState(p, n, Done), todo, t);
    CascadeEffect(SetState(p, n, Done), todo);
    assert p.nodes[t].state != Disposed;
  }

  lemma KeepsEventOnComplete(v: PR.View, op: PR.Op, t: Id, r: int, a: int)
    requires CounterInv(v.plan) && DisposalInv(v.plan) && PR.Allowed(v, op) && t in v.plan.nodes && EventAt(v, t, r, a)
    requires op.Complete? && InState(v.plan, op.t, Running)
    ensures t in PR.PlanNext(v, op).plan.nodes && EventAt(PR.PlanNext(v, op), t, r + OpReady(v, op, t), a)
  {
    PR.NextShape(v, op);
    StateMoves(v, op, t);
    CompleteAnnounces(v.plan, op.t, t);
    hide CounterInv, DisposalInv, AllDone, PR.ReopenLog, PR.FailLog, PR.DropAll, Readied, Cascade;
  }

  lemma KeepsEvent(v: PR.View, op: PR.Op, t: Id, r: int, a: int)
    requires CounterInv(v.plan) && DisposalInv(v.plan) && PR.Allowed(v, op) && t in v.plan.nodes && EventAt(v, t, r, a)
    ensures t in PR.PlanNext(v, op).plan.nodes
    ensures EventAt(PR.PlanNext(v, op), t, r + OpReady(v, op, t), a + OpAgain(v, op, t))
  {
    if op.Complete? && InState(v.plan, op.t, Running) {
      KeepsEventOnComplete(v, op, t, r, a);
    } else {
      KeepsEventOtherwise(v, op, t, r, a);
    }
  }

  lemma KeepsEventOtherwise(v: PR.View, op: PR.Op, t: Id, r: int, a: int)
    requires PR.Allowed(v, op) && t in v.plan.nodes && EventAt(v, t, r, a)
    requires !(op.Complete? && InState(v.plan, op.t, Running))
    ensures t in PR.PlanNext(v, op).plan.nodes
    ensures EventAt(PR.PlanNext(v, op), t, r, a + OpAgain(v, op, t))
  {
    if op.Dispose? || op.Deadline? {
      DisposalKeepsEvent(v, op, t, r, a);
    } else if op.Reopen? {
      ReopenKeepsEvent(v, op, t, r, a);
    } else if op.Fail? {
      FailKeepsEvent(v, op, t, r, a);
    } else {
      hide AllDone, PR.CompleteLog, PlanDispose, PR.DropAll, PR.FailLog, PR.ReopenLog;
    }
  }

  lemma ReopenKeepsEvent(v: PR.View, op: PR.Op, t: Id, r: int, a: int)
    requires t in v.plan.nodes && EventAt(v, t, r, a) && op.Reopen?
    ensures t in PR.PlanNext(v, op).plan.nodes
    ensures EventAt(PR.PlanNext(v, op), t, r, a + OpAgain(v, op, t))
  {
    hide AllDone, PR.CompleteLog, PlanDispose, PR.DropAll, PR.FailLog, PR.PlanNext;
    PR.NextShape(v, op);
    ReopenIs(v, op, t);
  }

  lemma ReopenIs(v: PR.View, op: PR.Op, t: Id)
    requires op.Reopen? && t in v.plan.nodes
    ensures t in PR.PlanNext(v, op).plan.nodes
    ensures op.t == t && InState(v.plan, t, NodeState.Claimed) ==>
      var u, l := PR.PlanNext(v, op), PR.StepsOf(v.log, t);
      && u.plan.nodes[t].state == Ready
      && PR.StepsOf(u.log, t).abandons + PR.StepsOf(u.log, t).expiries == l.abandons + l.expiries + 1
    ensures !(op.t == t && InState(v.plan, t, NodeState.Claimed)) ==>
      var u := PR.PlanNext(v, op);
      u.plan.nodes[t] == v.plan.nodes[t] && PR.StepsOf(u.log, t) == PR.StepsOf(v.log, t)
  {
  }

  lemma FailKeepsEvent(v: PR.View, op: PR.Op, t: Id, r: int, a: int)
    requires PR.Allowed(v, op) && t in v.plan.nodes && EventAt(v, t, r, a) && op.Fail?
    ensures t in PR.PlanNext(v, op).plan.nodes
    ensures EventAt(PR.PlanNext(v, op), t, r, a + OpAgain(v, op, t))
  {
    hide AllDone, PR.CompleteLog, PlanDispose, PR.DropAll, PR.ReopenLog;
  }

  lemma DisposalKeepsEvent(v: PR.View, op: PR.Op, t: Id, r: int, a: int)
    requires t in v.plan.nodes && EventAt(v, t, r, a) && (op.Dispose? || op.Deadline?)
    ensures t in PR.PlanNext(v, op).plan.nodes && EventAt(PR.PlanNext(v, op), t, r, a)
  {
    hide AllDone, PR.CompleteLog, PR.ReopenLog, PR.FailLog, PR.Record;
  }

  // ── The whole manager ───────────────────────────────────────────────

  lemma {:induction false} TimesAppend(xs: seq<Event>, ys: seq<Event>, topic: Topic, t: Id)
    ensures Times(xs + ys, topic, t) == Times(xs, topic, t) + Times(ys, topic, t)
  {
  }

  lemma {:induction false} ReadyTimes(ids: seq<Id>, t: Id)
    ensures Times(ReadyEvents(ids), TaskReady, t) == multiset(ids)[t]
    ensures Times(ReadyEvents(ids), TaskRepublished, t) == 0
  {
    if ids != [] {
      var n := |ids| - 1;
      ReadyTimes(ids[..n], t);
      assert ids == ids[..n] + [ids[n]];
      assert ReadyEvents(ids) == ReadyEvents(ids[..n]) + [Event(TaskReady, ids[n])];
    }
  }

  lemma {:induction false} RootTimes(p: Plan, roots: seq<Id>, t: Id)
    ensures Times(RootEvents(p, roots), TaskReady, t) == if t in p.nodes then multiset(roots)[t] else 0
    ensures Times(RootEvents(p, roots), TaskRepublished, t) == 0
  {
    if roots != [] {
      var n := |roots| - 1;
      RootTimes(p, roots[..n], t);
      assert roots == roots[..n] + [roots[n]];
    }
  }

  lemma {:induction false} ReadiedInPlan(p: Plan, todo: seq<Id>, t: Id)
    requires t !in p.nodes
    ensures t !in Readied(p, todo)
  {
    if todo != [] { ReadiedInPlan(p, todo[..|todo| - 1], t); }
  }

  /** What a step publishes about a node is what it does to the node's plan. */
  lemma PublishedIs(w: World, step: Step, pid: Id, t: Id)
    requires OwnerInv(w.st) && Enabled(w, step) && HasNode(w.st, pid, t)
    ensures Times(Published(w, step), TaskReady, t) == OpReady(ViewOf(w, pid), Project(w, step, pid), t)
    ensures Times(Published(w, step), TaskRepublished, t) == OpAgain(ViewOf(w, pid), Project(w, step, pid), t)
  {
    OwnedIffNode(w.st, pid, t);
    if step.Complete? {
      PublishedOnComplete(w.st, step.t, step.output, step.found, pid, t);
    } else if step.Ingest? {
      if Admits(w, step) { RootTimes(step.plan, step.plan.roots, t); }
    } else {
      PublishedOtherwise(w, step, pid, t);
    }
  }

  lemma PublishedOnComplete(s: State, n: Id, output: string, found: Id, pid: Id, t: Id)
    requires OwnerInv(s) && HasNode(s, pid, t) && (n in s.owner ==> HasNode(s, found, n))
    ensures var p, events := s.plans[pid], DoComplete(s, n, output, found).published;
      && Times(events, TaskRepublished, t) == 0
      && Times(events, TaskReady, t) ==
        if InState(p, n, Running) then multiset(Readied(SetState(p, n, Done), Listed(p.succ, n)))[t] else 0
  {
    OwnedIffNode(s, pid, n);
    if Known(s, n) && StateOf(s, n) == Running {
      OwnedIffNode(s, found, n);
      OwnedIffNode(s, found, t);
      OwnedIffNode(s, pid, t);
      var q := SetState(s.plans[found], n, Done);
      ReadyTimes(Readied(q, Listed(q.succ, n)), t);
      if found != pid { ReadiedInPlan(q, Listed(q.succ, n), t); }
    }
  }

  lemma PublishedOtherwise(w: World, step: Step, pid: Id, t: Id)
    requires OwnerInv(w.st) && Enabled(w, step) && HasNode(w.st, pid, t) && !step.Complete? && !step.Ingest?
    ensures Times(Published(w, step), TaskReady, t) == 0
    ensures Times(Published(w, step), TaskRepublished, t) == OpAgain(ViewOf(w, pid), Project(w, step, pid), t)
  {
    OwnedIffNode(w.st, pid, t);
  }

  // ── Every guarded run ───────────────────────────────────────────────

  ghost predicate EventsAt(w: World, pid: Id, t: Id) {
    HasNode(w.st, pid, t) &&
    EventAt(ViewOf(w, pid), t, Times(w.events, TaskReady, t), Times(w.events, TaskRepublished, t))
  }

  ghost predicate EventInv(w: World) {
    && (forall e | e in w.events :: e.node in w.st.owner)
    && forall pid, t | HasNode(w.st, pid, t) && CountedAt(w, pid) :: EventsAt(w, pid, t)
  }

  lemma NextEvents(w: World, step: Step)
    ensures Next(w, step).events == w.events + Published(w, step)
  {
  }

  lemma OldEventsAt(w: World, step: Step, pid: Id, t: Id)
    requires Reachable(w) && Enabled(w, step) && CountedAt(w, pid) && EventsAt(w, pid, t)
    ensures EventsAt(Next(w, step), pid, t)
  {
    hide Next, Enabled, Reachable, OwnerInv, CounterInv, DisposalInv, EventAt, PR.PlanNext, OpReady, OpAgain, PR.Allowed;
    PlanSound(w, pid);
    Isolation(w, step, pid);
    ProjectAllowed(w, step, pid);
    PublishedIs(w, step, pid, t);
    NextEvents(w, step);
    TimesAppend(w.events, Published(w, step), TaskReady, t);
    TimesAppend(w.events, Published(w, step), TaskRepublished, t);
    KeepsEvent(ViewOf(w, pid), Project(w, step, pid), t, Times(w.events, TaskReady, t), Times(w.events, TaskRepublished, t));
  }

  lemma NewEventsAt(w: World, step: Step, t: Id)
    requires RunInv(w) && Enabled(w, step) && Admits(w, step) && t in step.plan.nodes
    requires forall e | e in w.events :: e.node in w.st.owner
    ensures EventsAt(Next(w, step), step.pid, t)
  {
    NewNode(w, step, t);
    NextEvents(w, step);
    hide Next, Enabled, RunInv, Admits, Published, ViewOf, Open;
    RootTimes(step.plan, step.plan.roots, t);
    assert Event(TaskReady, t) !in w.events && Event(TaskRepublished, t) !in w.events;
    TimesAppend(w.events, Published(w, step), TaskReady, t);
    TimesAppend(w.events, Published(w, step), TaskRepublished, t);
  }

  lemma NewNode(w: World, step: Step, t: Id)
    requires RunInv(w) && Enabled(w, step) && Admits(w, step) && t in step.plan.nodes
    ensures t !in w.st.owner && Published(w, step) == RootEvents(step.plan, step.plan.roots)
    ensures var w' := Next(w, step);
      && HasNode(w'.st, step.pid, t) && ViewOf(w', step.pid).log == PR.NewLog
      && ViewOf(w', step.pid).plan.nodes[t] == OpenNode(step.plan, t) && t in ViewOf(w', step.pid).plan.nodes
  {
    NewView(w, step);
    assert Open(step.plan).nodes[t] == OpenNode(step.plan, t);
  }

  lemma NextEventInv(w: World, step: Step)
    requires Reachable(w) && RunInv(w) && EventInv(w) && Enabled(w, step)
    ensures EventInv(Next(w, step))
  {
    hide Next, Enabled, Reachable, RunInv, EventsAt, Published;
    KnownEvents(w, step);
    forall pid, t | HasNode(Next(w, step).st, pid, t) && CountedAt(Next(w, step), pid) ensures EventsAt(Next(w, step), pid, t) {
      AnnouncedBefore(w, step, pid, t);
      if Admits(w, step) && pid == step.pid {
        NewEventsAt(w, step, t);
      } else {
        OldEventsAt(w, step, pid, t);
      }
    }
  }

  lemma AnnouncedBefore(w: World, step: Step, pid: Id, t: Id)
    requires RunInv(w) && Enabled(w, step) && HasNode(Next(w, step).st, pid, t) && CountedAt(Next(w, step), pid)
    ensures Admits(w, step) && pid == step.pid ==> t in step.plan.nodes
    ensures !(Admits(w, step) && pid == step.pid) ==> CountedAt(w, pid) && HasNode(w.st, pid, t)
  {
    NextDomains(w, step);
    if pid in w.st.plans {
      KeepsIngested(w, step, pid);
      hide Next, Enabled, RunInv;
      PlanKept(w, step, pid);
    }
  }

  lemma PlanKept(w: World, step: Step, pid: Id)
    requires RunInv(w) && Enabled(w, step) && pid in w.st.plans
    ensures pid in w.ingested && pid in Next(w, step).st.plans
    ensures Next(w, step).st.plans[pid].nodes.Keys == w.st.plans[pid].nodes.Keys
  {
    NextOwnerInv(w, step);
  }

  lemma {:induction false} ReadiedKnown(p: Plan, todo: seq<Id>)
    ensures forall t | t in Readied(p, todo) :: t in p.nodes
  {
    if todo != [] { ReadiedKnown(p, todo[..|todo| - 1]); }
  }

  lemma {:induction false} RootEventsKnown(p: Plan, roots: seq<Id>)
    ensures forall e | e in RootEvents(p, roots) :: e.node in p.nodes
  {
    if roots != [] { RootEventsKnown(p, roots[..|roots| - 1]); }
  }

  lemma PublishedKnown(w: World, step: Step)
    requires OwnerInv(w.st) && Enabled(w, step)
    ensures forall e | e in Published(w, step) :: e.node in NextState(w, step).owner
  {
    NextDomains(w, step);
    if step.Ingest? {
      RootEventsKnown(step.plan, step.plan.roots);
    } else if step.Complete? {
      CompleteKnown(w.st, step.t, step.output, step.found);
    }
  }

  lemma CompleteKnown(s: State, n: Id, output: string, found: Id)
    requires OwnerInv(s) && (n in s.owner ==> HasNode(s, found, n))
    ensures forall e | e in DoComplete(s, n, output, found).published :: e.node in s.owner
  {
    if Known(s, n) && StateOf(s, n) == Running {
      OwnedIffNode(s, found, n);
      var q := SetState(s.plans[found], n, Done);
      ReadiedKnown(q, Listed(q.succ, n));
      forall t | t in q.nodes ensures t in s.owner { OwnedIffNode(s, found, t); }
    }
  }

  lemma KnownEvents(w: World, step: Step)
    requires RunInv(w) && Enabled(w, step) && forall e | e in w.events :: e.node in w.st.owner
    ensures forall e | e in Next(w, step).events :: e.node in Next(w, step).st.owner
  {
    RunOwner(w);
    NextDomains(w, step);
    NextEvents(w, step);
    NextStateOf(w, step);
    hide Next, Enabled, RunInv, Published;
    PublishedKnown(w, step);
  }

  lemma RunOwner(w: World)
    requires RunInv(w)
    ensures OwnerInv(w.st)
  {
  }

  lemma NextStateOf(w: World, step: Step)
    ensures Next(w, step).st == NextState(w, step)
  {
  }

  lemma InitEvents()
    ensures EventInv(Init)
  {
  }

  lemma {:induction false} ExecEvents(steps: seq<Step>)
    requires Legal(Init, steps)
    ensures EventInv(Exec(Init, steps))
    decreases |steps|
  {
    InitEvents();
    hide EventInv, Next, Enabled, RunInv;
    if steps != [] {
      var before, step := steps[..|steps| - 1], steps[|steps| - 1];
      ExecEvents(before);
      assert Reachable(Exec(Init, before));
      ReachableInv(Exec(Init, before));
      NextEventInv(Exec(Init, before), step);
    }
  }

  /** In every guarded run of a plan with exact counters a root is announced as ready exactly as often as it is listed,
      and any other node at most once, never while it is pending, and always once it is past that; and every node is
      republished exactly once for every time it was abandoned, expired or failed. */
  lemma AnnouncedOnce(w: World, pid: Id, t: Id)
    requires Reachable(w) && CountedAt(w, pid) && t in w.st.plans[pid].nodes
    ensures pid in w.logs
    ensures var p, l, r := w.st.plans[pid], PR.StepsOf(w.logs[pid], t), Times(w.events, TaskReady, t);
      var s := p.nodes[t].state;
      && (if t in p.roots then r == multiset(p.roots)[t] && s != Pending
          else 0 <= r <= 1 && (s == Pending ==> r == 0) && (s != Pending && s != Disposed ==> r == 1))
      && Times(w.events, TaskRepublished, t) == l.abandons + l.expiries + (if s == NodeState.Failed then 1 else 0)
  {
    BasicHere(w, pid);
    var steps :| Legal(Init, steps) && Exec(Init, steps) == w;
    hide Exec, Legal;
    ExecEvents(steps);
    assert HasNode(w.st, pid, t);
  }
}
