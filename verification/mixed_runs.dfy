/** Guarded runs of parsed plans keep the ledger and the leases exactly if no id is mixed. */
module MixedRuns {
  import opened TaskTypes
  import opened Graph
  import opened PlanModel
  import opened PlanInvariants
  import opened ManagerModel
  import opened ManagerRuns
  import opened ManagerTheorems
  import opened LeaseTheorems
  import opened AbandonTheorems
  import opened DagTheorems
  import opened PlannerModel
  import opened PlannerTheorems
  import opened EndToEnd
  import opened MixedIds
  import PR = PlanRuns

  predicate AbandonFree(steps: seq<Step>) {
    forall i | 0 <= i < |steps| :: !steps[i].Abandon?
  }

  // ── Runs that claim, start and complete ─────────────────────────────

  /** A run at time zero that has brought the plan to the view v. */
  ghost predicate Stage(steps: seq<Step>, pid: Id, plan: Plan, v: PR.View) {
    var w := Exec(Init, steps);
    && Legal(Init, steps) && AbandonFree(steps) && OwnerInv(w.st) && w.now == 0
    && pid in w.st.plans && ViewOf(w, pid) == v && pid in w.ingested && w.ingested[pid] == plan
  }

  /** Watchdogs are only added. */
  predicate MoreDogs(w: World, u: World) {
    w.dogs <= u.dogs && w.pending <= u.pending
  }

  lemma DoStep(steps: seq<Step>, step: Step, pid: Id, plan: Plan, v: PR.View)
    requires Stage(steps, pid, plan, v) && Enabled(Exec(Init, steps), step)
    requires step.Claim? || step.Start? || step.Complete?
    ensures Stage(steps + [step], pid, plan, PR.PlanNext(v, Project(Exec(Init, steps), step, pid)))
    ensures MoreDogs(Exec(Init, steps), Exec(Init, steps + [step]))
  {
    hide Legal, Exec, OwnerInv, Enabled, PR.PlanNext, ViewOf, Project;
    Follow(Init, steps, step, pid);
    KeepsIngested(Exec(Init, steps), step, pid);
    NextWatch(Exec(Init, steps), step);
    SameTime(Exec(Init, steps), step);
  }

  lemma SameTime(w: World, step: Step)
    requires !step.Tick?
    ensures Next(w, step).now == w.now
  {
  }

  lemma BeginNode(steps: seq<Step>, pid: Id, plan: Plan, v: PR.View, t: Id) returns (later: seq<Step>)
    requires Stage(steps, pid, plan, v)
    ensures Stage(later, pid, plan, Begun(v, t)) && MoreDogs(Exec(Init, steps), Exec(Init, later))
  {
    var claim := Claim(t, "", 0, 0, 0);
    assert Project(Exec(Init, steps), claim, pid) == PR.Claim(t, "", 0);
    hide Stage, Exec, PR.PlanNext;
    DoStep(steps, claim, pid, plan, v);
    DoStep(steps + [claim], Start(t), pid, plan, PR.PlanNext(v, PR.Claim(t, "", 0)));
    later := steps + [claim] + [Start(t)];
  }

  lemma NodeOf(steps: seq<Step>, pid: Id, plan: Plan, v: PR.View, t: Id)
    requires Stage(steps, pid, plan, v) && t in v.plan.nodes
    ensures HasNode(Exec(Init, steps).st, pid, t)
  {
  }

  lemma RunNode(steps: seq<Step>, pid: Id, plan: Plan, v: PR.View, t: Id) returns (later: seq<Step>)
    requires Stage(steps, pid, plan, v) && InState(v.plan, t, Ready)
    ensures Stage(later, pid, plan, Ran(v, t)) && MoreDogs(Exec(Init, steps), Exec(Init, later))
  {
    BegunIs(v, t);
    hide Stage, Exec, PR.PlanNext, Begun;
    later := BeginNode(steps, pid, plan, v, t);
    NodeOf(later, pid, plan, Begun(v, t), t);
    DoStep(later, Complete(t, "", pid), pid, plan, Begun(v, t));
    later := later + [Complete(t, "", pid)];
  }

  lemma {:induction false} RunNodes(steps: seq<Step>, pid: Id, plan: Plan, v: PR.View, ms: seq<Id>) returns (later: seq<Step>)
    requires Stage(steps, pid, plan, v) && Runnable(v, ms)
    ensures Stage(later, pid, plan, RanAll(v, ms)) && MoreDogs(Exec(Init, steps), Exec(Init, later))
    decreases |ms|
  {
    hide Stage, Exec, Ran;
    if ms == [] {
      later := steps;
    } else {
      later := RunNode(steps, pid, plan, v, ms[0]);
      later := RunNodes(later, pid, plan, Ran(v, ms[0]), ms[1..]);
    }
  }

  lemma IngestFirst(pid: Id, plan: Plan) returns (steps: seq<Step>)
    ensures Stage(steps, pid, plan, PR.View(Open(plan), map[], PR.NewLog))
    ensures Exec(Init, steps).dogs == []
  {
    NoRun(Init);
    steps := [Ingest(pid, plan)];
    assert [] + steps == steps;
    OneMore(Init, [], Ingest(pid, plan));
    NewView(Init, Ingest(pid, plan));
    NextOwnerInv(Init, Ingest(pid, plan));
  }

  // ── A waiting root runs twice ───────────────────────────────────────

  lemma StageLog(steps: seq<Step>, pid: Id, plan: Plan, v: PR.View)
    requires Stage(steps, pid, plan, v)
    ensures var w := Exec(Init, steps);
      && Reachable(w) && pid in w.st.plans && pid in w.ingested && w.ingested[pid] == plan
      && w.st.plans[pid] == v.plan && pid in w.logs && w.logs[pid] == v.log
  {
    assert Reachable(Exec(Init, steps));
    BasicHere(Exec(Init, steps), pid);
  }

  /** A root that waits for something is started twice in some run: at once, and again when it is reopened. */
  lemma WaitingRootRunsTwice(pid: Id, plan: Plan, b: Id) returns (steps: seq<Step>)
    requires WaitingRoot(plan, b)
    ensures var w := Exec(Init, steps);
      && Reachable(w) && pid in w.st.plans && pid in w.ingested && w.ingested[pid] == plan
      && b in w.st.plans[pid].nodes && pid in w.logs && PR.StepsOf(w.logs[pid], b).starts == 2
  {
    hide Stage, Exec, Ran, Begun, RanAll, Runnable, WaitingRoot, Holding;
    RunHolds(plan, b);
    var v := PR.View(Open(plan), map[], PR.NewLog);
    steps := IngestFirst(pid, plan);
    steps := RunNode(steps, pid, plan, v, b);
    var ms := UntilReopened(Ran(v, b), b, Done);
    steps := RunNodes(steps, pid, plan, Ran(v, b), ms);
    var u := RanAll(Ran(v, b), ms);
    BegunIs(u, b);
    steps := BeginNode(steps, pid, plan, u, b);
    StageLog(steps, pid, plan, Begun(u, b));
  }

  // ── A waiting root loses a lease early ──────────────────────────────

  lemma ClaimStep(steps: seq<Step>, pid: Id, plan: Plan, v: PR.View, b: Id, lease: int) returns (later: seq<Step>)
    requires Stage(steps, pid, plan, v) && InState(v.plan, b, Ready)
    ensures Stage(later, pid, plan, PR.PlanNext(v, PR.Claim(b, "", lease)))
    ensures MoreDogs(Exec(Init, steps), Exec(Init, later))
    ensures var w, u := Exec(Init, steps), Exec(Init, later);
      && |u.dogs| == |w.dogs| + 1 && u.dogs[|w.dogs|].task == b && u.dogs[|w.dogs|].fireAt == lease * TICKS
      && |w.dogs| in u.pending
  {
    var claim := Claim(b, "", lease, 0, 0);
    var w := Exec(Init, steps);
    assert Project(w, claim, pid) == PR.Claim(b, "", lease);
    Spawned(w, pid, b, claim);
    hide Next;
    OneMore(Init, steps, claim);
    hide Stage, Exec, PR.PlanNext, Legal;
    DoStep(steps, claim, pid, plan, v);
    later := steps + [claim];
  }

  lemma Spawned(w: World, pid: Id, b: Id, claim: Step)
    requires OwnerInv(w.st) && pid in w.st.plans && InState(w.st.plans[pid], b, Ready) && w.now == 0
    requires claim.Claim? && claim.t == b && claim.slack == 0
    ensures var u := Next(w, claim);
      && u.dogs == w.dogs + [Dog(b, claim.lease * TICKS, claim.lease, claim.ctx)] && |w.dogs| in u.pending
  {
    OwnedIffNode(w.st, pid, b);
    NextWatch(w, claim);
    hide Next, OwnerInv;
  }

  /** Two watchdogs of b are pending, the first half as long as the lease the second guards. */
  predicate TwoDogs(w: World, pid: Id, plan: Plan, b: Id) {
    && w.now == 0 && pid in w.st.plans && pid in w.ingested && w.ingested[pid] == plan
    && InState(w.st.plans[pid], b, NodeState.Claimed) && w.st.plans[pid].nodes[b].expiresAt == 60
    && Watched(w, b, 0) && w.dogs[0].fireAt == 30 * TICKS && |w.dogs| >= 2 && Watched(w, b, |w.dogs| - 1)
  }

  predicate LosesLease(w: World, pid: Id, plan: Plan, b: Id) {
    && pid in w.st.plans && pid in w.ingested && w.ingested[pid] == plan && b in w.st.plans[pid].nodes
    && RevokesEarly(w, 0, pid) && |w.dogs| >= 2 && Watched(w, b, 0) && Watched(w, b, |w.dogs| - 1)
  }

  lemma HalfWay(w: World, pid: Id, plan: Plan, b: Id)
    requires TwoDogs(w, pid, plan, b)
    ensures LosesLease(Next(w, Tick(30 * TICKS)), pid, plan, b)
  {
    SameButTime(w, 30 * TICKS);
    hide Next;
  }

  lemma SameButTime(w: World, dt: int)
    ensures var u := Next(w, Tick(dt));
      u.st == w.st && u.now == w.now + dt && u.dogs == w.dogs && u.pending == w.pending && u.ingested == w.ingested
  {
  }

  lemma SecondClaim(first: World, middle: World, last: seq<Step>, pid: Id, plan: Plan, v: PR.View, b: Id)
    requires InState(v.plan, b, Ready) && Stage(last, pid, plan, PR.PlanNext(v, PR.Claim(b, "", 60)))
    requires MoreDogs(first, middle) && MoreDogs(middle, Exec(Init, last))
    requires |first.dogs| == 1 && Watched(first, b, 0) && first.dogs[0].fireAt == 30 * TICKS
    requires var w := Exec(Init, last); |w.dogs| >= 2 && Watched(w, b, |w.dogs| - 1)
    ensures TwoDogs(Exec(Init, last), pid, plan, b)
  {
    hide Exec, Legal, OwnerInv, ViewOf;
    FirstDog(first, middle, Exec(Init, last), b);
    StageNow(last, pid, plan, PR.PlanNext(v, PR.Claim(b, "", 60)));
  }

  lemma FirstDog(first: World, middle: World, last: World, b: Id)
    requires MoreDogs(first, middle) && MoreDogs(middle, last) && Watched(first, b, 0)
    ensures Watched(last, b, 0) && last.dogs[0] == first.dogs[0]
  {
    assert last.dogs[0] == middle.dogs[0] == first.dogs[0];
  }

  lemma StageNow(steps: seq<Step>, pid: Id, plan: Plan, v: PR.View)
    requires Stage(steps, pid, plan, v)
    ensures var w := Exec(Init, steps);
      w.now == 0 && pid in w.st.plans && pid in w.ingested && w.ingested[pid] == plan && w.st.plans[pid] == v.plan
  {
    hide Exec, Legal, OwnerInv;
  }

  /** Two claims of a waiting root with the cascade between them: both watchdogs are pending, and the first revokes the
      second lease halfway, with no Abandon in the run. */
  lemma WaitingRootLosesLease(pid: Id, plan: Plan, b: Id) returns (steps: seq<Step>)
    requires WaitingRoot(plan, b)
    ensures Legal(Init, steps) && AbandonFree(steps) && LosesLease(Exec(Init, steps), pid, plan, b)
  {
    hide Stage, Exec, Ran, Begun, RanAll, Runnable, WaitingRoot, Holding, PR.PlanNext, Legal, TwoDogs, LosesLease;
    OpenIs(plan, b);
    ClaimHolds(plan, b, "", 30);
    var start := IngestFirst(pid, plan);
    var first := ClaimStep(start, pid, plan, PR.View(Open(plan), map[], PR.NewLog), b, 30);
    var v := FirstClaim(plan, b, "", 30);
    var ms := UntilReopened(v, b, NodeState.Claimed);
    var middle := RunNodes(first, pid, plan, v, ms);
    var last := ClaimStep(middle, pid, plan, RanAll(v, ms), b, 60);
    SecondClaim(Exec(Init, first), Exec(Init, middle), last, pid, plan, RanAll(v, ms), b);
    HalfWay(Exec(Init, last), pid, plan, b);
    steps := WaitAt(last, pid, plan, PR.PlanNext(RanAll(v, ms), PR.Claim(b, "", 60)), 30 * TICKS);
  }

  lemma WaitAt(steps: seq<Step>, pid: Id, plan: Plan, v: PR.View, dt: int) returns (later: seq<Step>)
    requires Stage(steps, pid, plan, v) && 0 <= dt
    ensures Legal(Init, later) && AbandonFree(later) && Exec(Init, later) == Next(Exec(Init, steps), Tick(dt))
  {
    OneMore(Init, steps, Tick(dt));
    later := steps + [Tick(dt)];
    hide Next, Exec, Legal;
  }

  // ── Exactly the mixed lists ─────────────────────────────────────────

  /** A list with dependencies that can all be met and a mixed id yields a plan with a waiting root. */
  lemma MixedWaits(pid: Id, raw: seq<RawNode>) returns (plan: Plan, b: Id)
    requires SoundDeps(raw) && !Unmixed(raw)
    ensures IsParsed(plan, pid, raw) && WaitingRoot(plan, b)
  {
    var leaves := SomeLeafList(pid, raw);
    plan := ParsePlan(pid, raw, leaves);
    assert plan == ParsePlan(pid, raw, leaves).(hasNotify := plan.hasNotify);
    ParseSound(pid, raw, leaves);
    var k :| 0 <= k < |raw| && Mixed(raw, raw[k].id);
    var i :| 0 <= i < |raw| && raw[i].id == raw[k].id && raw[i].deps == [];
    b := NodeId(pid, raw[i].id);
    RootWaits(pid, raw, leaves, i);
    RawRootsAre(pid, raw, b);
    RawNodesAre(pid, raw);
  }

  lemma SomeLeafList(pid: Id, raw: seq<RawNode>) returns (leaves: seq<Id>)
    ensures LeafList(pid, raw, leaves)
  {
    leaves := Listing(set t | t in RawNodes(pid, raw) && Listed(Linked(pid, raw).succ, t) == []);
  }

  lemma {:induction false} Listing(ids: set<Id>) returns (s: seq<Id>)
    ensures forall i, j | 0 <= i < j < |s| :: s[i] != s[j]
    ensures forall t :: t in s <==> t in ids
  {
    if ids == {} {
      s := [];
    } else {
      var t :| t in ids;
      s := Listing(ids - {t});
      s := s + [t];
    }
  }

  /** The list's plan keeps the lease ledger in every guarded run. */
  ghost predicate KeepsLedger(pid: Id, raw: seq<RawNode>) {
    forall w, t | Reachable(w) && ParsedAt(w, pid, raw) && t in w.st.plans[pid].nodes :: LedgerHolds(w, pid, t)
  }

  /** Claims, starts, completes and reopenings of a list's nodes balance in every guarded run exactly if no id is mixed. */
  lemma LedgerIffUnmixed(pid: Id, raw: seq<RawNode>)
    requires SoundDeps(raw)
    ensures KeepsLedger(pid, raw) <==> Unmixed(raw)
  {
    hide Reachable, SoundDeps, Unmixed, LedgerHolds;
    if Unmixed(raw) {
      forall w, t | Reachable(w) && ParsedAt(w, pid, raw) && t in w.st.plans[pid].nodes ensures LedgerHolds(w, pid, t) {
        UnmixedCounted(w, pid, raw);
        LeaseLedger(w, pid, t);
      }
    } else {
      var plan, b := MixedWaits(pid, raw);
      var steps := WaitingRootRunsTwice(pid, plan, b);
      TwiceBreaksLedger(Exec(Init, steps), pid, b);
    }
  }

  lemma TwiceBreaksLedger(w: World, pid: Id, t: Id)
    requires pid in w.st.plans && t in w.st.plans[pid].nodes && pid in w.logs && PR.StepsOf(w.logs[pid], t).starts == 2
    ensures !LedgerHolds(w, pid, t)
  {
  }

  lemma UnmixedCounted(w: World, pid: Id, raw: seq<RawNode>)
    requires ParsedAt(w, pid, raw) && SoundDeps(raw) && Unmixed(raw)
    ensures CountedAt(w, pid)
  {
    ParsedIsCounted(w.ingested[pid], pid, raw);
  }

  /** No lease of the list's plan is revoked before it expires, in any guarded run without Abandon. */
  ghost predicate KeepsLeases(pid: Id, raw: seq<RawNode>) {
    forall steps, k | Legal(Init, steps) && AbandonFree(steps) && ParsedAt(Exec(Init, steps), pid, raw) ::
      !RevokesEarly(Exec(Init, steps), k, pid)
  }

  predicate BothWatched(w: World, pid: Id, t: Id, j: int, k: int) {
    pid in w.st.plans && t in w.st.plans[pid].nodes && Watched(w, t, j) && Watched(w, t, k)
  }

  /** No node of the list's plan ever has two pending watchdogs, in any guarded run without Abandon. */
  ghost predicate KeepsOneDog(pid: Id, raw: seq<RawNode>) {
    forall steps, t, j, k | Legal(Init, steps) && AbandonFree(steps) && ParsedAt(Exec(Init, steps), pid, raw) ::
      BothWatched(Exec(Init, steps), pid, t, j, k) ==> j == k
  }

  lemma UnmixedStaleFree(steps: seq<Step>, pid: Id, raw: seq<RawNode>, t: Id)
    requires SoundDeps(raw) && Unmixed(raw)
    requires Legal(Init, steps) && AbandonFree(steps) && ParsedAt(Exec(Init, steps), pid, raw)
    requires t in Exec(Init, steps).st.plans[pid].nodes
    ensures StaleFree(Exec(Init, steps), t) && Reachable(Exec(Init, steps))
  {
    hide Next, Enabled;
    UnmixedCounted(Exec(Init, steps), pid, raw);
    UnabandonedIsStaleFree(steps, pid, t);
  }

  /** Without Abandon, leases of a list's nodes are never cut short exactly if no id is mixed. */
  lemma LeasesIffUnmixed(pid: Id, raw: seq<RawNode>)
    requires SoundDeps(raw)
    ensures KeepsLeases(pid, raw) <==> Unmixed(raw)
  {
    hide Legal, Exec, SoundDeps, Unmixed, StaleFree, Reachable, RevokesEarly, AbandonFree;
    if Unmixed(raw) {
      forall steps, k | Legal(Init, steps) && AbandonFree(steps) && ParsedAt(Exec(Init, steps), pid, raw)
        ensures !RevokesEarly(Exec(Init, steps), k, pid)
      {
        if RevokesEarly(Exec(Init, steps), k, pid) {
          EarlyNode(Exec(Init, steps), k, pid);
          UnmixedStaleFree(steps, pid, raw, Exec(Init, steps).dogs[k].task);
          StaleFreeIsTimely(Exec(Init, steps), pid, Exec(Init, steps).dogs[k].task, k);
        }
      }
    } else {
      var plan, b := MixedWaits(pid, raw);
      var steps := WaitingRootLosesLease(pid, plan, b);
    }
  }

  lemma EarlyNode(w: World, k: int, pid: Id)
    requires RevokesEarly(w, k, pid)
    ensures 0 <= k < |w.dogs| && w.dogs[k].task in w.st.plans[pid].nodes
  {
  }

  lemma OneDogOnly(w: World, pid: Id, t: Id, j: int, k: int)
    requires Reachable(w) && StaleFree(w, t) && BothWatched(w, pid, t, j, k)
    ensures j == k
  {
    hide Reachable;
    OneWatchdog(w, pid, t);
  }

  lemma BothIn(w: World, pid: Id, t: Id, j: int, k: int)
    requires BothWatched(w, pid, t, j, k)
    ensures pid in w.st.plans && t in w.st.plans[pid].nodes
  {
  }

  lemma LosesHasTwo(w: World, pid: Id, plan: Plan, b: Id) returns (k: int)
    requires LosesLease(w, pid, plan, b)
    ensures k != 0 && BothWatched(w, pid, b, 0, k) && pid in w.st.plans && pid in w.ingested && w.ingested[pid] == plan
  {
    k := |w.dogs| - 1;
  }

  /** Without Abandon, no node of a list ever has two pending watchdogs exactly if no id is mixed. */
  lemma OneDogIffUnmixed(pid: Id, raw: seq<RawNode>)
    requires SoundDeps(raw)
    ensures KeepsOneDog(pid, raw) <==> Unmixed(raw)
  {
    hide Legal, Exec, SoundDeps, Unmixed, StaleFree, Reachable, AbandonFree, BothWatched, LosesLease;
    if Unmixed(raw) {
      forall steps, t, j, k | Legal(Init, steps) && AbandonFree(steps) && ParsedAt(Exec(Init, steps), pid, raw)
        ensures BothWatched(Exec(Init, steps), pid, t, j, k) ==> j == k
      {
        if BothWatched(Exec(Init, steps), pid, t, j, k) {
          BothIn(Exec(Init, steps), pid, t, j, k);
          UnmixedStaleFree(steps, pid, raw, t);
          OneDogOnly(Exec(Init, steps), pid, t, j, k);
        }
      }
    } else {
      var plan, b := MixedWaits(pid, raw);
      var steps := WaitingRootLosesLease(pid, plan, b);
      var k := LosesHasTwo(Exec(Init, steps), pid, plan, b);
    }
  }
}
