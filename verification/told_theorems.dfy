/** Who is told: what the log says was sent is what the manager sends, and when a closed plan can still be told. */
module ToldTheorems {
  import opened TaskTypes
  import opened PlanModel
  import opened ManagerModel
  import opened ManagerRuns
  import opened PlanInvariants
  import opened ManagerTheorems
  import PR = PlanRuns

  // ── The log and the manager agree ───────────────────────────────────

  /** What a step sends to the callback channel of the plan pid, by the manager's own account. */
  function SentBy(w: World, step: Step, pid: Id): seq<PlanResult> {
    match step
    case Complete(t, output, found) => if HasNode(w.st, pid, t) then DoComplete(w.st, t, output, found).sent else []
    case DeadlineSend(p) => if p == pid then [PlanResult(PlanTimeout, TimeoutText(p))] else []
    case _ => []
  }

  lemma CompleteSends(s: State, t: Id, output: string, found: Id, pid: Id, v: PR.View)
    requires OwnerInv(s) && pid in s.plans && s.plans[pid] == v.plan && (t in s.owner ==> HasNode(s, found, t))
    ensures PR.PlanNext(v, PR.Complete(t, output)).log.sent ==
      v.log.sent + (if HasNode(s, pid, t) then DoComplete(s, t, output, found).sent else [])
  {
    OwnedIffNode(s, pid, t);
    if HasNode(s, pid, t) {
      OwnedIffNode(s, found, t);
      if InState(v.plan, t, Running) { CascadedSends(s, t, output); }
    }
  }

  lemma CascadedSends(s: State, t: Id, output: string)
    requires Known(s, t) && StateOf(s, t) == Running
    ensures var p := s.plans[s.owner[t]];
      DoComplete(s, t, output, s.owner[t]).sent ==
        if AllDone(PlanComplete(p, t)) && p.hasNotify then [PlanResult(PlanOK, output)] else []
  {
    CompleteShape(s.plans[s.owner[t]], t);
  }

  lemma OthersSend(v: PR.View, op: PR.Op)
    requires !op.Complete?
    ensures PR.PlanNext(v, op).log.sent == v.log.sent +
      (if op.SendTimeout? then [PlanResult(PlanTimeout, op.text)] else [])
  {
  }

  /** Every step appends to a plan's log exactly what the manager's locked region sends for that plan. */
  lemma SentAgrees(w: World, step: Step, pid: Id)
    requires Reachable(w) && Enabled(w, step) && pid in w.st.plans
    ensures pid in w.logs && pid in Next(w, step).logs
    ensures Next(w, step).logs[pid].sent == w.logs[pid].sent + SentBy(w, step, pid)
  {
    hide Next, Enabled, OwnerInv, PR.PlanNext, Reachable, NextState, BasicInv;
    BasicHere(w, pid);
    NextParts(w, step, pid);
    CompleteEnabled(w, step);
    var v := ViewOf(w, pid);
    if step.Complete? {
      CompleteSends(w.st, step.t, step.output, step.found, pid, v);
    } else {
      OthersSend(v, Project(w, step, pid));
    }
  }

  /** The deadline goroutine's result names its plan. */
  lemma TimeoutSays(w: World, pid: Id)
    requires Reachable(w) && Enabled(w, DeadlineSend(pid)) && pid in w.st.plans
    ensures pid in w.logs && pid in Next(w, DeadlineSend(pid)).logs
    ensures Next(w, DeadlineSend(pid)).logs[pid].sent ==
      w.logs[pid].sent + [PlanResult(PlanTimeout, "plan " + pid.s + " deadline exceeded")]
  {
    SentAgrees(w, DeadlineSend(pid), pid);
    hide Reachable, Next, Enabled;
  }

  lemma CompleteEnabled(w: World, step: Step)
    requires Enabled(w, step)
    ensures step.Complete? ==> step.t in w.st.owner ==> HasNode(w.st, step.found, step.t)
  {
  }

  // ── Closed plans ────────────────────────────────────────────────────

  /** A closed plan that was not finished and has a callback. */
  predicate ClosedUnfinished(w: World, pid: Id) {
    pid in w.st.plans && w.st.plans[pid].hasNotify && Closed(w.st.plans[pid]) && !AllDone(w.st.plans[pid])
  }

  ghost predicate CanBeTold(w: World, pid: Id) {
    exists steps :: Legal(w, steps) && pid in Exec(w, steps).logs && Exec(w, steps).logs[pid].sent != []
  }

  function StepsLeft(watch: PR.Watch): int {
    match watch
    case Unarmed => 3
    case Armed => 2
    case Owing => 1
    case _ => 0
  }

  /** The deadline goroutine's next step. */
  function DeadlineStep(watch: PR.Watch, pid: Id): Step {
    match watch
    case Unarmed => StartWatch(pid)
    case Armed => DeadlineFire(pid)
    case _ => DeadlineSend(pid)
  }

  lemma WatchMoves(v: PR.View, op: PR.Op)
    requires NoticeInv(v) && v.plan.hasDeadline && v.plan.hasNotify && Closed(v.plan) && !AllDone(v.plan) && v.log.sent == []
    requires match v.log.watch
      case Unarmed => op == PR.Arm
      case Armed => op == PR.Deadline
      case _ => op.SendTimeout?
    ensures 0 < StepsLeft(v.log.watch)
    ensures PR.PlanNext(v, op).log.sent != [] || 0 < StepsLeft(PR.PlanNext(v, op).log.watch) < StepsLeft(v.log.watch)
  {
    var t :| t in v.plan.nodes && v.plan.nodes[t].state != Done;
    assert v.plan.nodes.Keys != {};
  }

  lemma WatchStep(w: World, pid: Id) returns (step: Step)
    requires Reachable(w) && ClosedUnfinished(w, pid) && w.st.plans[pid].hasDeadline && pid in w.logs && w.logs[pid].sent == []
    ensures Enabled(w, step) && Reachable(Next(w, step)) && ClosedUnfinished(Next(w, step), pid)
    ensures Next(w, step).st.plans[pid] == w.st.plans[pid] && pid in Next(w, step).logs
    ensures Next(w, step).logs[pid].sent != []
      || StepsLeft(Next(w, step).logs[pid].watch) < StepsLeft(w.logs[pid].watch)
    ensures 0 < StepsLeft(w.logs[pid].watch)
  {
    step := DeadlineStep(w.logs[pid].watch, pid);
    var v, op := ViewOf(w, pid), Project(w, step, pid);
    BasicHere(w, pid);
    WatchMoves(v, op);
    assert Enabled(w, step);
    hide Next, Enabled, OwnerInv, PR.PlanNext, Reachable, BasicInv, NoticeInv;
    ReachableNext(w, step);
    ClosedNext(w, step, pid);
    BasicHere(Next(w, step), pid);
    Isolation(w, step, pid);
  }

  /** The deadline goroutine, wherever it is, ends by telling. */
  lemma {:induction false} Tell(w: World, pid: Id) returns (steps: seq<Step>)
    requires Reachable(w) && ClosedUnfinished(w, pid) && w.st.plans[pid].hasDeadline && pid in w.logs
    ensures Legal(w, steps) && pid in Exec(w, steps).logs && Exec(w, steps).logs[pid].sent != []
    decreases StepsLeft(w.logs[pid].watch)
  {
    NoRun(w);
    hide Next, Enabled, Reachable, ClosedUnfinished, Legal, Exec;
    if w.logs[pid].sent != [] { return []; }
    ClosedIn(w, pid);
    var step := WatchStep(w, pid);
    ClosedIn(Next(w, step), pid);
    NoRun(Next(w, step));
    var rest := [];
    if Next(w, step).logs[pid].sent == [] { rest := Tell(Next(w, step), pid); }
    ConsRun(w, step, rest);
    steps := [step] + rest;
  }

  lemma ClosedIn(w: World, pid: Id)
    requires ClosedUnfinished(w, pid)
    ensures pid in w.st.plans
  {
  }

  /** A closed, unfinished plan with a callback has been or can still be told how it ended exactly if it has a deadline. */
  lemma ToldIffDeadline(w: World, pid: Id)
    requires Reachable(w) && ClosedUnfinished(w, pid)
    ensures CanBeTold(w, pid) <==> w.st.plans[pid].hasDeadline
  {
    BasicHere(w, pid);
    hide Next, Enabled, Reachable, Legal, Exec;
    if w.st.plans[pid].hasDeadline {
      var steps := Tell(w, pid);
    } else if CanBeTold(w, pid) {
      var steps :| Legal(w, steps) && pid in Exec(w, steps).logs && Exec(w, steps).logs[pid].sent != [];
      NoDeadlineNeverTold(w, steps, pid);
    }
  }

  /** Ingesting any plan with a callback but no deadline, and disposing it, leaves a plan that is never told. */
  lemma DisposedUntold(pid: Id, plan: Plan) returns (steps: seq<Step>)
    requires plan.hasNotify && !plan.hasDeadline && plan.nodes.Keys != {}
    ensures Legal(Init, steps)
    ensures ClosedUnfinished(Exec(Init, steps), pid) && !CanBeTold(Exec(Init, steps), pid)
  {
    hide Next, OwnerInv, Exec, Legal, CanBeTold, Reachable;
    var first := [Ingest(pid, plan)];
    IngestAlone(pid, plan);
    OpenUnfinished(plan);
    Follow(Init, first, Dispose(pid), pid);
    DisposeCloses(Open(plan));
    steps := first + [Dispose(pid)];
    Reached(steps);
    ToldIffDeadline(Exec(Init, steps), pid);
  }

  lemma Reached(steps: seq<Step>)
    requires Legal(Init, steps)
    ensures Reachable(Exec(Init, steps))
  {
  }

  lemma IngestAlone(pid: Id, plan: Plan)
    ensures Legal(Init, [Ingest(pid, plan)])
    ensures var w := Exec(Init, [Ingest(pid, plan)]);
      OwnerInv(w.st) && pid in w.st.plans && ViewOf(w, pid) == PR.View(Open(plan), map[], PR.NewLog)
  {
    NoRun(Init);
    assert [] + [Ingest(pid, plan)] == [Ingest(pid, plan)];
    OneMore(Init, [], Ingest(pid, plan));
    NewView(Init, Ingest(pid, plan));
    NextOwnerInv(Init, Ingest(pid, plan));
  }

  lemma OpenUnfinished(p: Plan)
    requires p.nodes.Keys != {}
    ensures !AllDone(Open(p)) && Open(p).hasNotify == p.hasNotify && Open(p).hasDeadline == p.hasDeadline
  {
    var t :| t in p.nodes.Keys;
    assert Open(p).nodes[t].state != Done;
  }
}
