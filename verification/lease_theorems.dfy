/** When leases end: every revocation before expiry is by a watchdog that outlived its own lease. */
module LeaseTheorems {
  import opened TaskTypes
  import opened PlanModel
  import opened ManagerModel
  import opened ManagerRuns
  import opened PlanInvariants
  import opened ManagerTheorems
  import PR = PlanRuns

  /** A claimed node carries its latest claim's expiry, and unless that claim's context is cancelled its watchdog is
      pending. */
  ghost predicate ClaimAt(w: World, n: Node, t: Id)
    requires DogInv(w)
  {
    n.state == Claimed ==>
      && t in w.lastClaim
      && n.expiresAt == w.dogs[w.lastClaim[t]].expires
      && (w.dogs[w.lastClaim[t]].ctx !in w.cancelled ==> w.lastClaim[t] in w.pending)
  }

  /** A pending watchdog that is not stale belongs to the latest claim of a node that has not been reopened since. */
  ghost predicate WatchAt(w: World, n: Node, t: Id)
    requires DogInv(w)
  {
    forall k | k in w.pending && w.dogs[k].task == t && k !in w.stale ::
      n.state != Pending && n.state != Ready && t in w.lastClaim && k == w.lastClaim[t]
  }

  ghost predicate LeaseAt(w: World, n: Node, t: Id)
    requires DogInv(w)
  {
    ClaimAt(w, n, t) && WatchAt(w, n, t)
  }

  ghost predicate LeasesInv(w: World)
    requires DogInv(w)
  {
    forall pid, t | HasNode(w.st, pid, t) :: LeaseAt(w, w.st.plans[pid].nodes[t], t)
  }

  ghost predicate LeaseInv(w: World) {
    DogInv(w) && (forall k | k in w.stale :: 0 <= k < |w.dogs|) && LeasesInv(w)
  }

  /** What a step does to the watchdogs. */
  lemma NextWatch(w: World, step: Step)
    ensures var w' := Next(w, step);
      && w'.dogs == Dogs(w, step) && w'.pending == ManagerRuns.Pending(w, step)
      && w'.stale == w.stale + Overtaken(w'.st, w'.dogs, w'.pending)
      && w'.lastClaim == (if Spawns(w, step) then w.lastClaim[step.t := |w.dogs|] else w.lastClaim)
      && w.cancelled <= w'.cancelled && (Spawns(w, step) ==> w'.cancelled == w.cancelled)
      && w'.st == NextState(w, step)
  {
  }

  lemma LeaseOnClaim(w: World, step: Step, w': World, n: Node, n': Node, t: Id)
    requires DogInv(w) && DogInv(w') && LeaseAt(w, n, t) && Spawns(w, step)
    requires w'.dogs == w.dogs + [NewDog(w, step)] && w'.pending == w.pending + {|w.dogs|} && w.stale <= w'.stale
    requires w'.lastClaim == w.lastClaim[step.t := |w.dogs|] && w'.cancelled == w.cancelled
    requires t != step.t ==> n' == n
    requires t == step.t ==> n.state == Ready && n'.state == NodeState.Claimed && n'.expiresAt == NewDog(w, step).expires
    ensures LeaseAt(w', n', t)
  {
  }

  lemma LeaseOnOther(w: World, w': World, n: Node, n': Node, t: Id)
    requires DogInv(w) && DogInv(w') && LeaseAt(w, n, t)
    requires w'.dogs == w.dogs && w'.lastClaim == w.lastClaim && w.cancelled <= w'.cancelled && w'.pending <= w.pending
    requires n' == n || n'.state != NodeState.Claimed
    requires forall k | k in w.pending - w'.pending && w.dogs[k].task == t && n'.state == NodeState.Claimed ::
      w.dogs[k].ctx in w.cancelled
    requires w.stale <= w'.stale
    requires n'.state == Pending || n'.state == Ready ==> forall k | k in w'.pending && w.dogs[k].task == t :: k in w'.stale
    ensures LeaseAt(w', n', t)
  {
  }

  // ── How nodes move ──────────────────────────────────────────────────

  /** Only a claim leads into Claimed. */
  lemma MovesUnder(v: PR.View, op: PR.Op, t: Id)
    requires t in v.plan.nodes && !(op.Claim? && InState(v.plan, op.t, Ready))
    ensures t in PR.PlanNext(v, op).plan.nodes
    ensures var n, n' := v.plan.nodes[t], PR.PlanNext(v, op).plan.nodes[t];
      (n' == n || n'.state != NodeState.Claimed) && (op.Reopen? && op.t == t ==> n'.state != NodeState.Claimed)
  {
    hide PR.CompleteLog, PR.FailLog, PR.ReopenLog, PR.Record, PR.DropAll, PR.Send, AllDone, PlanComplete;
    if op.Complete? && InState(v.plan, op.t, Running) { CompleteMoves(v.plan, op.t, t); }
  }

  lemma CompleteMoves(p: Plan, n: Id, t: Id)
    requires InState(p, n, Running) && t in p.nodes
    ensures t in PlanComplete(p, n).nodes
    ensures PlanComplete(p, n).nodes[t] == p.nodes[t] || PlanComplete(p, n).nodes[t].state != NodeState.Claimed
  {
    CascadeEffect(SetState(p, n, Done), Listed(p.succ, n));
  }

  lemma RefusedClaim(w: World, step: Step)
    requires step.Claim? && !Spawns(w, step)
    ensures Next(w, step).st == w.st
  {
  }

  lemma OtherMoves(w: World, step: Step, pid: Id, t: Id)
    requires OwnerInv(w.st) && Enabled(w, step) && !Spawns(w, step) && HasNode(w.st, pid, t)
    ensures HasNode(Next(w, step).st, pid, t)
    ensures var n, n' := w.st.plans[pid].nodes[t], Next(w, step).st.plans[pid].nodes[t];
      && (n' == n || n'.state != NodeState.Claimed)
      && (step.DogFire? && 0 <= step.k < |w.dogs| && w.dogs[step.k].task == t ==> n'.state != NodeState.Claimed)
  {
    hide Next, Enabled, OwnerInv, PR.PlanNext, Spawns;
    if step.Claim? {
      RefusedClaim(w, step);
    } else {
      Isolation(w, step, pid);
      MovesUnder(ViewOf(w, pid), Project(w, step, pid), t);
    }
  }

  lemma ClaimMoves(w: World, step: Step, pid: Id, t: Id)
    requires OwnerInv(w.st) && Spawns(w, step) && pid in w.st.plans && t in w.st.plans[pid].nodes
    ensures pid in Next(w, step).st.plans && t in Next(w, step).st.plans[pid].nodes
    ensures var n, n' := w.st.plans[pid].nodes[t], Next(w, step).st.plans[pid].nodes[t];
      if t == step.t
      then n.state == Ready && n'.state == NodeState.Claimed && n'.expiresAt == NewDog(w, step).expires
      else n' == n
  {
    hide OwnerInv;
    OwnedIffNode(w.st, pid, t);
    OwnedIffNode(w.st, pid, step.t);
    IsolatedClaim(w.st, step.t, step.peer, w.now / TICKS + step.lease, pid, ViewOf(w, pid));
  }

  lemma FireMoves(w: World, k: int, pid: Id, t: Id)
    requires OwnerInv(w.st) && Enabled(w, DogFire(k)) && pid in w.st.plans && t in w.st.plans[pid].nodes
    ensures pid in Next(w, DogFire(k)).st.plans && t in Next(w, DogFire(k)).st.plans[pid].nodes
    ensures var n, n' := w.st.plans[pid].nodes[t], Next(w, DogFire(k)).st.plans[pid].nodes[t];
      if w.dogs[k].task == t && n.state == NodeState.Claimed then n'.state == Ready else n' == n
  {
    assert 0 <= k < |w.dogs|;
    hide Next, OwnerInv, Enabled, PR.PlanNext;
    Isolation(w, DogFire(k), pid);
    ReopenMoves(ViewOf(w, pid), w.dogs[k].task, t);
  }

  lemma ReopenMoves(v: PR.View, u: Id, t: Id)
    requires t in v.plan.nodes
    ensures t in PR.PlanNext(v, PR.Reopen(u, true)).plan.nodes
    ensures var n, n' := v.plan.nodes[t], PR.PlanNext(v, PR.Reopen(u, true)).plan.nodes[t];
      if u == t && n.state == NodeState.Claimed then n'.state == Ready else n' == n
  {
  }

  /** The watchdogs of a node that waits for a claim are stale. */
  lemma IdleIsOvertaken(w: World, pid: Id, t: Id, k: int)
    requires OwnerInv(w.st) && HasNode(w.st, pid, t) && k in w.pending && 0 <= k < |w.dogs| && w.dogs[k].task == t
    requires w.st.plans[pid].nodes[t].state == Pending || w.st.plans[pid].nodes[t].state == Ready
    ensures k in Overtaken(w.st, w.dogs, w.pending)
  {
    OwnedIffNode(w.st, pid, t);
  }

  lemma KeepsLeaseAt(w: World, step: Step, w': World, pid: Id, t: Id)
    requires OwnerInv(w.st) && OwnerInv(w'.st) && Enabled(w, step) && w' == Next(w, step) && DogInv(w) && DogInv(w')
    requires HasNode(w.st, pid, t) && LeaseAt(w, w.st.plans[pid].nodes[t], t)
    ensures HasNode(w'.st, pid, t) && LeaseAt(w', w'.st.plans[pid].nodes[t], t)
  {
    hide Next, OwnerInv, NewDog, LeaseAt, DogInv;
    NextWatch(w, step);
    if Spawns(w, step) {
      ClaimMoves(w, step, pid, t);
      LeaseOnClaim(w, step, w', w.st.plans[pid].nodes[t], w'.st.plans[pid].nodes[t], t);
    } else {
      KeepsOther(w, step, w', pid, t);
    }
  }

  lemma KeepsOther(w: World, step: Step, w': World, pid: Id, t: Id)
    requires OwnerInv(w.st) && OwnerInv(w'.st) && Enabled(w, step) && w' == Next(w, step) && DogInv(w) && DogInv(w')
    requires HasNode(w.st, pid, t) && LeaseAt(w, w.st.plans[pid].nodes[t], t) && !Spawns(w, step)
    ensures HasNode(w'.st, pid, t) && LeaseAt(w', w'.st.plans[pid].nodes[t], t)
  {
    hide Next, OwnerInv, LeaseAt;
    NextWatch(w, step);
    OtherMoves(w, step, pid, t);
    var n' := w'.st.plans[pid].nodes[t];
    if n'.state == Pending || n'.state == Ready {
      forall k | k in w'.pending && w.dogs[k].task == t ensures k in w'.stale { IdleIsOvertaken(w', pid, t, k); }
    }
    LeaseOnOther(w, w', w.st.plans[pid].nodes[t], n', t);
  }

  lemma NewLeaseAt(w: World, step: Step, w': World, t: Id)
    requires RunInv(w) && Enabled(w, step) && Admits(w, step) && w' == Next(w, step) && DogInv(w')
    requires t in step.plan.nodes
    ensures HasNode(w'.st, step.pid, t) && LeaseAt(w', w'.st.plans[step.pid].nodes[t], t)
  {
    NextDomains(w, step);
    assert Open(step.plan).nodes[t] == OpenNode(step.plan, t);
    forall k | k in w.pending ensures w.dogs[k].task != t { assert w.dogs[k].task in w.st.owner; }
  }

  lemma RunParts(w: World)
    requires RunInv(w)
    ensures OwnerInv(w.st) && DogInv(w)
  {
  }

  /** Nodes come only with their plan. */
  lemma NextNodes(w: World, step: Step, pid: Id, t: Id)
    requires OwnerInv(w.st) && Enabled(w, step) && HasNode(Next(w, step).st, pid, t) && !(Admits(w, step) && pid == step.pid)
    ensures HasNode(w.st, pid, t)
  {
    NextDomains(w, step);
    NextOwnerInv(w, step);
    hide Next, OwnerInv, Enabled;
  }

  lemma NextLeaseInv(w: World, step: Step)
    requires RunInv(w) && LeaseInv(w) && Enabled(w, step)
    ensures RunInv(Next(w, step)) && LeaseInv(Next(w, step))
  {
    hide Next, OwnerInv, LeaseAt, RunInv, Enabled;
    var w' := Next(w, step);
    NextRunInv(w, step);
    NextWatch(w, step);
    RunParts(w);
    RunParts(w');
    forall pid, t | HasNode(w'.st, pid, t) ensures LeaseAt(w', w'.st.plans[pid].nodes[t], t) {
      if Admits(w, step) && pid == step.pid {
        NewLeaseAt(w, step, w', t);
      } else {
        NextNodes(w, step, pid, t);
        KeepsLeaseAt(w, step, w', pid, t);
      }
    }
  }

  lemma InitLeaseInv()
    ensures LeaseInv(Init)
  {
  }

  lemma {:induction false} ExecLeaseInv(w: World, steps: seq<Step>)
    requires RunInv(w) && LeaseInv(w) && Legal(w, steps)
    ensures RunInv(Exec(w, steps)) && LeaseInv(Exec(w, steps))
    decreases |steps|
  {
    hide RunInv, LeaseInv, Next, Enabled;
    if steps != [] {
      var before := steps[..|steps| - 1];
      ExecLeaseInv(w, before);
      NextLeaseInv(Exec(w, before), steps[|steps| - 1]);
    }
  }

  lemma ReachableLeaseInv(w: World)
    requires Reachable(w)
    ensures RunInv(w) && LeaseInv(w)
  {
    InitInv();
    InitLeaseInv();
    hide RunInv, LeaseInv, Next, Enabled;
    var steps :| Legal(Init, steps) && Exec(Init, steps) == w;
    ExecLeaseInv(Init, steps);
  }

  lemma LeaseHere(w: World, pid: Id, t: Id)
    requires Reachable(w) && HasNode(w.st, pid, t)
    ensures RunInv(w) && LeaseInv(w) && LeaseAt(w, w.st.plans[pid].nodes[t], t)
  {
    ReachableLeaseInv(w);
  }

  // ── Leases in every guarded run ─────────────────────────────────────

  /** All pending watchdogs of a node but the stale ones are one: that of its latest claim, which nothing has ended. */
  lemma OneWatchdog(w: World, pid: Id, t: Id)
    requires Reachable(w) && HasNode(w.st, pid, t)
    ensures forall k | k in w.pending && 0 <= k < |w.dogs| && w.dogs[k].task == t && k !in w.stale ::
      t in w.lastClaim && k == w.lastClaim[t]
      && w.st.plans[pid].nodes[t].state != Pending && w.st.plans[pid].nodes[t].state != Ready
  {
    LeaseHere(w, pid, t);
  }

  /** A watchdog that fires on a claimed node reopens it. The latest claim's own does so no earlier than the lease ends,
      and it is the latest claim's own unless it is stale. */
  lemma LeaseTiming(w: World, k: int, pid: Id)
    requires Reachable(w) && Enabled(w, DogFire(k)) && pid in w.st.plans
    requires InState(w.st.plans[pid], w.dogs[k].task, NodeState.Claimed)
    ensures var t := w.dogs[k].task;
      && t in w.lastClaim
      && (k == w.lastClaim[t] ==> w.st.plans[pid].nodes[t].expiresAt <= w.now / TICKS)
      && (k !in w.stale ==> k == w.lastClaim[t])
      && pid in Next(w, DogFire(k)).st.plans && InState(Next(w, DogFire(k)).st.plans[pid], t, Ready)
  {
    LeaseHere(w, pid, w.dogs[k].task);
    FireMoves(w, k, pid, w.dogs[k].task);
    assert w.dogs[k].expires * TICKS <= w.now;
  }

  /** The watchdog of a claim whose context is live is waiting to reopen the node. */
  lemma LiveClaimIsWatched(w: World, pid: Id, t: Id)
    requires Reachable(w) && pid in w.st.plans && InState(w.st.plans[pid], t, NodeState.Claimed)
    ensures t in w.lastClaim && 0 <= w.lastClaim[t] < |w.dogs| && w.dogs[w.lastClaim[t]].task == t
    ensures w.dogs[w.lastClaim[t]].ctx !in w.cancelled ==> w.lastClaim[t] in w.pending
  {
    LeaseHere(w, pid, t);
  }

  /** A claim of a ready node leases it for so many seconds from now and leaves one new watchdog, due when they are over. */
  lemma ClaimArms(w: World, pid: Id, t: Id, peer: string, lease: int, ctx: int, slack: int)
    requires Reachable(w) && Enabled(w, Claim(t, peer, lease, ctx, slack))
    requires pid in w.st.plans && InState(w.st.plans[pid], t, Ready)
    ensures var u := Next(w, Claim(t, peer, lease, ctx, slack));
      && pid in u.st.plans && t in u.st.plans[pid].nodes
      && u.st.plans[pid].nodes[t] == Node(w.st.plans[pid].nodes[t].spec, NodeState.Claimed, peer, w.now / TICKS + lease)
      && u.dogs == w.dogs + [Dog(t, w.now + lease * TICKS + slack, w.now / TICKS + lease, ctx)]
      && u.pending == w.pending + {|w.dogs|} && u.lastClaim == w.lastClaim[t := |w.dogs|] && u.now == w.now
  {
    hide Reachable, Enabled, BasicInv, Next, DoClaim;
    BasicHere(w, pid);
    OwnedIffNode(w.st, pid, t);
    hide OwnerInv;
    ClaimedNow(w.st, pid, t, peer, w.now / TICKS + lease);
    NextOnClaim(w, t, peer, lease, ctx, slack);
  }

  lemma NextOnClaim(w: World, t: Id, peer: string, lease: int, ctx: int, slack: int)
    requires DoClaim(w.st, t, peer, w.now / TICKS + lease).reply.Ok?
    ensures var u := Next(w, Claim(t, peer, lease, ctx, slack));
      && u.st == DoClaim(w.st, t, peer, w.now / TICKS + lease).st && u.now == w.now
      && u.dogs == w.dogs + [Dog(t, w.now + lease * TICKS + slack, w.now / TICKS + lease, ctx)]
      && u.pending == w.pending + {|w.dogs|} && u.lastClaim == w.lastClaim[t := |w.dogs|]
  {
    NextWatch(w, Claim(t, peer, lease, ctx, slack));
    hide DoClaim;
  }

  lemma ClaimedNow(s: State, pid: Id, t: Id, peer: string, expires: int)
    requires Known(s, t) && s.owner[t] == pid && InState(s.plans[pid], t, Ready)
    ensures var done := DoClaim(s, t, peer, expires);
      && done.reply.Ok? && pid in done.st.plans && t in done.st.plans[pid].nodes
      && done.st.plans[pid].nodes[t] == Node(s.plans[pid].nodes[t].spec, NodeState.Claimed, peer, expires)
  {
  }
}
