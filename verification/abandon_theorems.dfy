/** Where stale watchdogs come from, and when Abandon endangers the next lease. */
module AbandonTheorems {
  import opened TaskTypes
  import opened PlanModel
  import opened ManagerModel
  import opened ManagerRuns
  import opened PlanInvariants
  import opened ManagerTheorems
  import opened LeaseTheorems
  import PR = PlanRuns

  /** The watchdog k is about to take a lease away that has not expired. */
  predicate RevokesEarly(w: World, k: int, pid: Id) {
    && Enabled(w, DogFire(k)) && pid in w.st.plans && InState(w.st.plans[pid], w.dogs[k].task, NodeState.Claimed)
    && w.now / TICKS < w.st.plans[pid].nodes[w.dogs[k].task].expiresAt
  }

  predicate Watched(w: World, t: Id, k: int) {
    k in w.pending && 0 <= k < |w.dogs| && w.dogs[k].task == t
  }

  /** No stale watchdog of the node is pending. */
  predicate StaleFree(w: World, t: Id) {
    forall k | k in w.pending :: Watched(w, t, k) ==> k !in w.stale
  }

  lemma EarlyIsStale(w: World, k: int, pid: Id)
    requires Reachable(w) && RevokesEarly(w, k, pid)
    ensures k in w.stale && Watched(w, w.dogs[k].task, k)
  {
    LeaseTiming(w, k, pid);
  }

  // ── Where stale watchdogs come from ─────────────────────────────────

  /** The reopenings of a node. */
  predicate Reopens(w: World, step: Step, t: Id) {
    step == Abandon(t) || (step.DogFire? && Watched(w, t, step.k))
  }

  /** With exact counters a node is only ever reopened by Abandon or a watchdog. */
  lemma ReopenedBy(w: World, step: Step, pid: Id, t: Id)
    requires Reachable(w) && Enabled(w, step) && CountedAt(w, pid) && t in w.st.plans[pid].nodes && !Spawns(w, step)
    requires w.st.plans[pid].nodes[t].state != Pending && w.st.plans[pid].nodes[t].state != Ready
    requires HasNode(Next(w, step).st, pid, t)
    requires Next(w, step).st.plans[pid].nodes[t].state == Pending || Next(w, step).st.plans[pid].nodes[t].state == Ready
    ensures InState(w.st.plans[pid], t, NodeState.Claimed) && Reopens(w, step, t)
  {
    if step.Claim? {
      RefusedClaim(w, step);
    } else {
      hide Next, OwnerInv, PR.PlanNext, PR.Allowed, CounterInv, DisposalInv, Reachable;
      PlanSound(w, pid);
      Isolation(w, step, pid);
      ProjectAllowed(w, step, pid);
      OnlyReopened(ViewOf(w, pid), Project(w, step, pid), t);
      ReopenStep(w, step, pid, t);
    }
  }

  lemma OnlyReopened(v: PR.View, op: PR.Op, t: Id)
    requires CounterInv(v.plan) && DisposalInv(v.plan) && PR.Allowed(v, op) && t in v.plan.nodes && !op.Claim?
    requires v.plan.nodes[t].state != Pending && v.plan.nodes[t].state != Ready
    requires t in PR.PlanNext(v, op).plan.nodes
    requires var s := PR.PlanNext(v, op).plan.nodes[t].state; s == Pending || s == Ready
    ensures v.plan.nodes[t].state == NodeState.Claimed && op.Reopen? && op.t == t
  {
    hide PR.PlanNext, CounterInv, DisposalInv, PR.Allowed;
    StateMoves(v, op, t);
  }

  lemma ReopenStep(w: World, step: Step, pid: Id, t: Id)
    requires Enabled(w, step) && Project(w, step, pid).Reopen? && Project(w, step, pid).t == t
    ensures Reopens(w, step, t)
  {
  }

  /** In a plan with exact counters a watchdog becomes stale only when its claimed node is reopened, by Abandon or by a
      watchdog that was stale before. */
  lemma NewStale(w: World, step: Step, pid: Id, t: Id, k: int)
    requires Reachable(w) && Enabled(w, step) && CountedAt(w, pid) && t in w.st.plans[pid].nodes
    requires k in Next(w, step).stale && k !in w.stale && Watched(Next(w, step), t, k)
    ensures Watched(w, t, k) && InState(w.st.plans[pid], t, NodeState.Claimed)
    ensures step == Abandon(t) || (step.DogFire? && Watched(w, t, step.k) && step.k in w.stale)
  {
    LeaseHere(w, pid, t);
    RunParts(w);
    NextRunInv(w, step);
    RunParts(Next(w, step));
    NextWatch(w, step);
    OvertakenHow(w, step, pid, t, k);
    ReopenedBy(w, step, pid, t);
  }

  lemma OvertakenHow(w: World, step: Step, pid: Id, t: Id, k: int)
    requires OwnerInv(w.st) && DogInv(w) && Enabled(w, step) && OwnerInv(Next(w, step).st) && HasNode(w.st, pid, t)
    requires WatchAt(w, w.st.plans[pid].nodes[t], t)
    requires k in Next(w, step).stale && k !in w.stale && Watched(Next(w, step), t, k)
    ensures !Spawns(w, step) && Watched(w, t, k) && HasNode(Next(w, step).st, pid, t)
    ensures w.st.plans[pid].nodes[t].state != Pending && w.st.plans[pid].nodes[t].state != Ready
    ensures Next(w, step).st.plans[pid].nodes[t].state == Pending || Next(w, step).st.plans[pid].nodes[t].state == Ready
    ensures t in w.lastClaim && k == w.lastClaim[t] && (step.DogFire? ==> step.k != k)
  {
    hide Next, OwnerInv, DogInv;
    NextWatch(w, step);
    if Spawns(w, step) { ClaimMoves(w, step, pid, t); } else { OtherMoves(w, step, pid, t); }
    OwnedIffNode(Next(w, step).st, pid, t);
  }

  // ── Nodes without stale watchdogs ───────────────────────────────────

  predicate NoAbandonOf(steps: seq<Step>, t: Id) {
    forall i | 0 <= i < |steps| :: steps[i] != Abandon(t)
  }

  predicate Endangered(w: World, pid: Id, t: Id) {
    pid in w.st.plans && InState(w.st.plans[pid], t, NodeState.Claimed) && exists k | k in w.pending :: Watched(w, t, k)
  }

  lemma OldDog(w: World, step: Step, t: Id, k: int)
    requires LeaseInv(w) && Watched(Next(w, step), t, k) && k in w.stale
    ensures Watched(w, t, k)
  {
    NextWatch(w, step);
    hide Next;
  }

  lemma StaleFreeStep(w: World, step: Step, pid: Id, t: Id)
    requires Reachable(w) && Enabled(w, step) && CountedAt(w, pid) && t in w.st.plans[pid].nodes && StaleFree(w, t)
    requires step == Abandon(t) ==> !Endangered(w, pid, t)
    ensures StaleFree(Next(w, step), t)
  {
    ReachableLeaseInv(w);
    hide Next, Enabled, Reachable, RunInv, LeaseInv, CountedAt, Watched;
    forall k | k in Next(w, step).pending && Watched(Next(w, step), t, k) ensures k !in Next(w, step).stale {
      if k in w.stale { OldDog(w, step, t, k); PendingOf(w, t, k); }
      else if k in Next(w, step).stale {
        NewStale(w, step, pid, t, k);
        PendingOf(w, t, k);
        if step.DogFire? { PendingOf(w, t, step.k); }
      }
    }
  }

  lemma PendingOf(w: World, t: Id, k: int)
    requires Watched(w, t, k)
    ensures k in w.pending
  {
  }

  lemma KeepsCountedAt(w: World, step: Step, pid: Id, t: Id)
    requires Reachable(w) && Enabled(w, step) && CountedAt(w, pid) && t in w.st.plans[pid].nodes
    ensures CountedAt(Next(w, step), pid) && t in Next(w, step).st.plans[pid].nodes
  {
    PlanSound(w, pid);
    KeepsIngested(w, step, pid);
    hide Next;
    NextOwnerInv(w, step);
  }

  lemma {:induction false} StaleFreeRun(w: World, steps: seq<Step>, pid: Id, t: Id)
    requires Reachable(w) && Legal(w, steps) && CountedAt(w, pid) && t in w.st.plans[pid].nodes
    requires StaleFree(w, t) && NoAbandonOf(steps, t)
    ensures Reachable(Exec(w, steps)) && CountedAt(Exec(w, steps), pid) && t in Exec(w, steps).st.plans[pid].nodes
    ensures StaleFree(Exec(w, steps), t)
    decreases |steps|
  {
    hide Next, Enabled, Reachable, CountedAt, StaleFree;
    if steps != [] {
      var before, step := steps[..|steps| - 1], steps[|steps| - 1];
      StaleFreeRun(w, before, pid, t);
      StaleFreeStep(Exec(w, before), step, pid, t);
      KeepsCountedAt(Exec(w, before), step, pid, t);
      ReachableNext(Exec(w, before), step);
    }
  }

  lemma StaleFreeIsTimely(w: World, pid: Id, t: Id, k: int)
    requires Reachable(w) && StaleFree(w, t) && 0 <= k < |w.dogs| && w.dogs[k].task == t
    ensures !RevokesEarly(w, k, pid)
  {
    if RevokesEarly(w, k, pid) { EarlyIsStale(w, k, pid); }
  }

  lemma NewNodeUnknown(w: World, step: Step, pid: Id, t: Id)
    requires Enabled(w, step) && pid !in w.st.plans && HasNode(Next(w, step).st, pid, t)
    ensures t !in w.st.owner && !Spawns(w, step)
  {
    NextDomains(w, step);
  }

  lemma KnownDogs(w: World)
    requires RunInv(w)
    ensures DogsKnown(w) && DogInv(w)
  {
  }

  lemma NewNodeIsStaleFree(w: World, step: Step, pid: Id, t: Id)
    requires RunInv(w) && Enabled(w, step) && pid !in w.st.plans && HasNode(Next(w, step).st, pid, t)
    ensures StaleFree(Next(w, step), t)
  {
    hide Next, Enabled, RunInv;
    NewNodeUnknown(w, step, pid, t);
    NextWatch(w, step);
    KnownDogs(w);
    forall k | k in Next(w, step).pending ensures !Watched(Next(w, step), t, k) { assert w.dogs[k].task in w.st.owner; }
  }

  /** In a plan with exact counters a node nobody calls Abandon on never has a stale watchdog. */
  lemma {:induction false} UnabandonedIsStaleFree(steps: seq<Step>, pid: Id, t: Id)
    requires Legal(Init, steps) && NoAbandonOf(steps, t)
    requires CountedAt(Exec(Init, steps), pid) && t in Exec(Init, steps).st.plans[pid].nodes
    ensures StaleFree(Exec(Init, steps), t)
    decreases |steps|
  {
    hide Next, Enabled, StaleFree, RunInv;
    if steps != [] {
      var before, step := steps[..|steps| - 1], steps[|steps| - 1];
      var w := Exec(Init, before);
      assert Reachable(w);
      ReachableInv(w);
      if pid in w.st.plans {
        BeforeStep(w, step, pid, t);
        UnabandonedIsStaleFree(before, pid, t);
        StaleFreeStep(w, step, pid, t);
      } else {
        NewNodeIsStaleFree(w, step, pid, t);
      }
    }
  }

  lemma BeforeStep(w: World, step: Step, pid: Id, t: Id)
    requires RunInv(w) && Enabled(w, step) && pid in w.st.plans
    requires CountedAt(Next(w, step), pid) && t in Next(w, step).st.plans[pid].nodes
    ensures CountedAt(w, pid) && t in w.st.plans[pid].nodes
  {
    RunParts(w);
    KeepsIngested(w, step, pid);
    hide Next;
    NextOwnerInv(w, step);
  }

  // ── Abandon ─────────────────────────────────────────────────────────

  /** When the watchdog k can fire at the earliest. */
  function Due(w: World, k: int): int
    requires 0 <= k < |w.dogs|
  {
    if w.now < w.dogs[k].fireAt then w.dogs[k].fireAt else w.now
  }

  predicate TakesEarly(w: World, k: int, pid: Id, t: Id) {
    RevokesEarly(w, k, pid) && w.dogs[k].task == t
  }

  predicate TakesEarlyFrom(w: World, k: int, pid: Id, t: Id, peer: string) {
    TakesEarly(w, k, pid, t) && w.st.plans[pid].nodes[t].claimedBy == peer
  }

  lemma ReopenMove(w: World, pid: Id, t: Id)
    requires OwnerInv(w.st) && pid in w.st.plans && InState(w.st.plans[pid], t, NodeState.Claimed)
    ensures var u := Next(w, Abandon(t));
      && OwnerInv(u.st) && pid in u.st.plans && InState(u.st.plans[pid], t, Ready)
      && u.now == w.now && u.dogs == w.dogs && u.pending == w.pending
  {
    NextWatch(w, Abandon(t));
    NextOwnerInv(w, Abandon(t));
    Isolation(w, Abandon(t), pid);
  }

  lemma ClaimMove(w: World, pid: Id, t: Id, peer: string, lease: int)
    requires OwnerInv(w.st) && pid in w.st.plans && InState(w.st.plans[pid], t, Ready)
    ensures var u := Next(w, Claim(t, peer, lease, 0, 0));
      && OwnerInv(u.st) && pid in u.st.plans && InState(u.st.plans[pid], t, NodeState.Claimed)
      && u.st.plans[pid].nodes[t].claimedBy == peer && u.st.plans[pid].nodes[t].expiresAt == w.now / TICKS + lease
      && u.now == w.now && w.dogs <= u.dogs && w.pending <= u.pending
  {
    hide OwnerInv;
    NextWatch(w, Claim(t, peer, lease, 0, 0));
    NextOwnerInv(w, Claim(t, peer, lease, 0, 0));
    Isolation(w, Claim(t, peer, lease, 0, 0), pid);
  }

  lemma WaitMove(w: World, pid: Id, dt: int)
    requires OwnerInv(w.st) && pid in w.st.plans && 0 <= dt
    ensures var u := Next(w, Tick(dt));
      u.st == w.st && u.now == w.now + dt && u.dogs == w.dogs && u.pending == w.pending
  {
  }

  /** Abandoning a claimed node whose watchdog k is pending endangers its next lease, however long: there is a run in
      which the next claimant is revoked by k before its own lease expires. */
  lemma AbandonRevokesEarly(w: World, k: int, pid: Id, peer: string, lease: int) returns (rest: seq<Step>)
    requires OwnerInv(w.st) && k in w.pending && 0 <= k < |w.dogs| && pid in w.st.plans
    requires InState(w.st.plans[pid], w.dogs[k].task, NodeState.Claimed) && Due(w, k) / TICKS < w.now / TICKS + lease
    ensures var t := w.dogs[k].task; var u := Next(w, Abandon(t));
      Legal(u, rest) && NoAbandonOf(rest, t) && TakesEarlyFrom(Exec(u, rest), k, pid, t, peer)
  {
    var t := w.dogs[k].task;
    hide Next, OwnerInv, Legal, Exec, Enabled, TakesEarlyFrom;
    var dt := Due(w, k) - w.now;
    ReopenMove(w, pid, t);
    var u := Next(w, Abandon(t));
    ClaimMove(u, pid, t, peer, lease);
    WaitMove(Next(u, Claim(t, peer, lease, 0, 0)), pid, dt);
    TwoSteps(u, Claim(t, peer, lease, 0, 0), Tick(dt));
    rest := [Claim(t, peer, lease, 0, 0), Tick(dt)];
    assert Exec(u, rest).dogs[k] == w.dogs[k];
    Early(Exec(u, rest), k, pid, t, peer);
  }

  lemma Early(w: World, k: int, pid: Id, t: Id, peer: string)
    requires Watched(w, t, k) && w.dogs[k].fireAt <= w.now && pid in w.st.plans
    requires InState(w.st.plans[pid], t, NodeState.Claimed) && w.st.plans[pid].nodes[t].claimedBy == peer
    requires w.now / TICKS < w.st.plans[pid].nodes[t].expiresAt
    ensures TakesEarlyFrom(w, k, pid, t, peer)
  {
  }

  lemma TwoSteps(w: World, first: Step, second: Step)
    requires (first.Claim? && 0 <= first.slack) && (second.Tick? && 0 <= second.dt)
    ensures Legal(w, [first, second]) && Exec(w, [first, second]) == Next(Next(w, first), second)
  {
    NoRun(w);
    assert [] + [first] == [first] && [first] + [second] == [first, second];
    hide Next;
    OneMore(w, [], first);
    OneMore(w, [first], second);
  }

  /** After Abandon, and without a further Abandon of the node, some run has a lease of the node taken away early. */
  ghost predicate CanRevokeEarly(w: World, pid: Id, t: Id) {
    exists rest, k :: Legal(w, rest) && NoAbandonOf(rest, t) && TakesEarly(Exec(w, rest), k, pid, t)
  }

  /** On a node without stale watchdogs, Abandon can be followed by an early revocation exactly if the node is claimed and
      a watchdog of it is pending. */
  lemma AbandonEndangersIff(w: World, pid: Id, t: Id)
    requires Reachable(w) && CountedAt(w, pid) && t in w.st.plans[pid].nodes && StaleFree(w, t)
    ensures CanRevokeEarly(Next(w, Abandon(t)), pid, t) <==> Endangered(w, pid, t)
  {
    var u := Next(w, Abandon(t));
    PlanSound(w, pid);
    ReachableNext(w, Abandon(t));
    KeepsCountedAt(w, Abandon(t), pid, t);
    hide Next, Reachable, OwnerInv, Legal, Exec, CountedAt, StaleFree, RevokesEarly;
    if Endangered(w, pid, t) {
      var k :| k in w.pending && Watched(w, t, k);
      var rest := AbandonRevokesEarly(w, k, pid, "", Due(w, k) / TICKS - w.now / TICKS + 1);
      assert TakesEarly(Exec(u, rest), k, pid, t);
    } else if CanRevokeEarly(u, pid, t) {
      var rest, k :| Legal(u, rest) && NoAbandonOf(rest, t) && TakesEarly(Exec(u, rest), k, pid, t);
      StaleFreeStep(w, Abandon(t), pid, t);
      StaleFreeRun(u, rest, pid, t);
      EarlyInRange(Exec(u, rest), k, pid);
      StaleFreeIsTimely(Exec(u, rest), pid, t, k);
    }
  }

  lemma EarlyInRange(w: World, k: int, pid: Id)
    requires RevokesEarly(w, k, pid)
    ensures 0 <= k < |w.dogs|
  {
  }
}
