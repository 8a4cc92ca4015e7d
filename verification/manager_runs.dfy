/** Guarded runs of the state manager: any interleaving of its locked regions over any number of plans. */
module ManagerRuns {
  import opened TaskTypes
  import opened PlanModel
  import opened ManagerModel
  import PR = PlanRuns

  /** Clock ticks in one second; leases are in seconds, timers and the clock in ticks. */
  const TICKS := 1_000_000_000

  /** A lease watchdog: the claim it was spawned for is its index in `World.dogs`. */
  datatype Dog = Dog(task: Id, fireAt: int, expires: int, ctx: int)

  /** The manager with its goroutines, the clock and the history. `pending` holds the live watchdogs and `lastClaim`
      the watchdog of each node's latest claim; `stale` are the watchdogs that outlived their lease: their node was open
      for a new claim while they were pending. `ingested` keeps every plan as it was handed in, `events` all that was
      published. */
  datatype World = World(
    st: State, logs: map<Id, PR.Log>, ingested: map<Id, Plan>, now: int,
    dogs: seq<Dog>, pending: set<int>, lastClaim: map<Id, int>, cancelled: set<int>, stale: set<int>,
    events: seq<Event>)

  const Init := World(Empty, map[], map[], 0, [], {}, map[], {}, {}, [])

  /** `slack` is how much later than the claim the watchdog goroutine sets its timer. */
  datatype Step =
    | Ingest(pid: Id, plan: Plan)
    | StartWatch(pid: Id)
    | Claim(t: Id, peer: string, lease: int, ctx: int, slack: int)
    | Start(t: Id)
    | Complete(t: Id, output: string, found: Id)
    | Failed(t: Id)
    | Abandon(t: Id)
    | Dispose(pid: Id)
    | DogFire(k: int)
    | DogCancel(k: int)
    | DeadlineFire(pid: Id)
    | DeadlineSend(pid: Id)
    | Receive(pid: Id)
    | CancelCtx(ctx: int)
    | Tick(dt: int)

  predicate HasNode(s: State, pid: Id, t: Id) {
    pid in s.plans && t in s.plans[pid].nodes
  }

  /** When a step can happen, with the two guards: disjoint ids at ingest, and Failed only on claimed or running nodes. */
  predicate Enabled(w: World, step: Step) {
    match step
    case Ingest(pid, plan) => pid in w.st.plans || plan.nodes.Keys !! w.st.owner.Keys
    case StartWatch(pid) => pid in w.logs && w.logs[pid].watch == PR.Unarmed
    case Complete(t, _, found) => t in w.st.owner ==> HasNode(w.st, found, t)
    case Failed(t) => Known(w.st, t) ==> StateOf(w.st, t) == Claimed || StateOf(w.st, t) == Running
    case Claim(_, _, _, _, slack) => 0 <= slack
    case Tick(dt) => 0 <= dt
    case DogFire(k) => k in w.pending && 0 <= k < |w.dogs| && w.dogs[k].fireAt <= w.now
    case DogCancel(k) => k in w.pending && 0 <= k < |w.dogs| && w.dogs[k].ctx in w.cancelled
    case DeadlineFire(pid) => pid in w.logs && w.logs[pid].watch == PR.Armed
    case DeadlineSend(pid) => pid in w.logs && w.logs[pid].watch == PR.Owing
    case Receive(pid) => pid in w.logs && w.logs[pid].buffer != []
    case _ => true
  }

  /** What a step does to the plan pid; operations on nodes of other plans are void there. */
  function Project(w: World, step: Step, pid: Id): PR.Op {
    match step
    case Claim(t, peer, lease, _, _) => PR.Claim(t, peer, w.now / TICKS + lease)
    case Start(t) => PR.Start(t)
    case Complete(t, output, _) => PR.Complete(t, output)
    case Failed(t) => PR.Fail(t)
    case Abandon(t) => PR.Reopen(t, false)
    case DogFire(k) => if 0 <= k < |w.dogs| then PR.Reopen(w.dogs[k].task, true) else PR.Skip
    case Dispose(p) => if p == pid then PR.Dispose else PR.Skip
    case StartWatch(p) => if p == pid then PR.Arm else PR.Skip
    case DeadlineFire(p) => if p == pid then PR.Deadline else PR.Skip
    case DeadlineSend(p) => if p == pid then PR.SendTimeout(TimeoutText(p)) else PR.Skip
    case Receive(p) => if p == pid then PR.Receive else PR.Skip
    case _ => PR.Skip
  }

  function TimeoutText(pid: Id): string {
    "plan " + pid.s + " deadline exceeded"
  }

  /** The part of the world that belongs to one plan. */
  function ViewOf(w: World, pid: Id): PR.View
    requires pid in w.st.plans
  {
    PR.View(w.st.plans[pid], Part(w.st.claimed, w.st.plans[pid].nodes.Keys), if pid in w.logs then w.logs[pid] else PR.NewLog)
  }

  function Part(m: map<Id, string>, ids: set<Id>): map<Id, string> {
    map t | t in m && t in ids :: m[t]
  }

  function LogOf(w: World, step: Step, pid: Id): PR.Log
    requires pid in w.st.plans
  {
    PR.PlanNext(ViewOf(w, pid), Project(w, step, pid)).log
  }

  function NextState(w: World, step: Step): State {
    match step
    case Ingest(pid, plan) => DoIngest(w.st, pid, plan).st
    case Claim(t, peer, lease, _, _) => DoClaim(w.st, t, peer, w.now / TICKS + lease).st
    case Start(t) => DoStart(w.st, t).st
    case Complete(t, output, found) => DoComplete(w.st, t, output, found).st
    case Failed(t) => DoFailed(w.st, t).st
    case Abandon(t) => DoAbandon(w.st, t).st
    case Dispose(pid) => DoDispose(w.st, pid).st
    case DogFire(k) => if 0 <= k < |w.dogs| then DoExpire(w.st, w.dogs[k].task).st else w.st
    case DeadlineFire(pid) => DoDeadline(w.st, pid)
    case _ => w.st
  }

  function NextLogs(w: World, step: Step): map<Id, PR.Log> {
    var logs := map pid | pid in w.st.plans :: LogOf(w, step, pid);
    if Admits(w, step) then logs[step.pid := PR.NewLog] else logs
  }

  predicate Admits(w: World, step: Step) {
    step.Ingest? && step.pid !in w.st.plans
  }

  /** The step is a claim that succeeds and so spawns a watchdog. */
  predicate Spawns(w: World, step: Step) {
    step.Claim? && DoClaim(w.st, step.t, step.peer, w.now / TICKS + step.lease).reply.Ok?
  }

  function NewDog(w: World, step: Step): Dog
    requires step.Claim?
  {
    Dog(step.t, w.now + step.lease * TICKS + step.slack, w.now / TICKS + step.lease, step.ctx)
  }

  function Pending(w: World, step: Step): set<int> {
    if Spawns(w, step) then w.pending + {|w.dogs|}
    else if step.DogFire? || step.DogCancel? then w.pending - {step.k}
    else w.pending
  }

  predicate Idle(s: State, t: Id) {
    Known(s, t) && (StateOf(s, t) == NodeState.Pending || StateOf(s, t) == Ready)
  }

  /** The live watchdogs of nodes that wait for a claim. */
  function Overtaken(s: State, dogs: seq<Dog>, pending: set<int>): set<int> {
    set k | k in pending && 0 <= k < |dogs| && Idle(s, dogs[k].task)
  }

  function Dogs(w: World, step: Step): seq<Dog> {
    if Spawns(w, step) then w.dogs + [NewDog(w, step)] else w.dogs
  }

  function Published(w: World, step: Step): seq<Event> {
    match step
    case Ingest(pid, plan) => DoIngest(w.st, pid, plan).published
    case Complete(t, output, found) => DoComplete(w.st, t, output, found).published
    case Failed(t) => DoFailed(w.st, t).published
    case Abandon(t) => DoAbandon(w.st, t).published
    case DogFire(k) => if 0 <= k < |w.dogs| then DoExpire(w.st, w.dogs[k].task).published else []
    case _ => []
  }

  function Next(w: World, step: Step): World {
    World(
      NextState(w, step),
      NextLogs(w, step),
      if Admits(w, step) then w.ingested[step.pid := step.plan] else w.ingested,
      if step.Tick? then w.now + step.dt else w.now,
      Dogs(w, step),
      Pending(w, step),
      if Spawns(w, step) then w.lastClaim[step.t := |w.dogs|] else w.lastClaim,
      if step.CancelCtx? then w.cancelled + {step.ctx} else w.cancelled,
      w.stale + Overtaken(NextState(w, step), Dogs(w, step), Pending(w, step)),
      w.events + Published(w, step))
  }

  predicate Legal(w: World, steps: seq<Step>)
    decreases |steps|
  {
    steps == [] ||
    (Legal(w, steps[..|steps| - 1]) && Enabled(Exec(w, steps[..|steps| - 1]), steps[|steps| - 1]))
  }

  function Exec(w: World, steps: seq<Step>): World
    decreases |steps|
  {
    if steps == [] then w else Next(Exec(w, steps[..|steps| - 1]), steps[|steps| - 1])
  }

  // ── Plan isolation ──────────────────────────────────────────────────

  /** The node index is the disjoint union of the plans' node maps. */
  ghost predicate OwnerInv(s: State) {
    && (forall t | t in s.owner :: Known(s, t))
    && (forall pid, t | HasNode(s, pid, t) :: t in s.owner && s.owner[t] == pid)
  }

  lemma OwnedIffNode(s: State, pid: Id, t: Id)
    requires OwnerInv(s) && pid in s.plans
    ensures t in s.owner ==> Known(s, t)
    ensures t in s.plans[pid].nodes <==> t in s.owner && s.owner[t] == pid
  {
    assert t in s.plans[pid].nodes ==> HasNode(s, pid, t);
  }

  /** The plan's share of a state: the plan itself and its part of the claimed index. */
  predicate Share(s: State, pid: Id, plan: Plan, held: map<Id, string>) {
    pid in s.plans && s.plans[pid] == plan && Part(s.claimed, plan.nodes.Keys) == held
  }

  lemma IsolatedClaim(s: State, t: Id, peer: string, expires: int, pid: Id, v: PR.View)
    requires OwnerInv(s) && Share(s, pid, v.plan, v.held)
    ensures var u := PR.PlanNext(v, PR.Claim(t, peer, expires)); Share(DoClaim(s, t, peer, expires).st, pid, u.plan, u.held)
  {
    OwnedIffNode(s, pid, t);
  }

  lemma IsolatedStart(s: State, t: Id, pid: Id, v: PR.View)
    requires OwnerInv(s) && Share(s, pid, v.plan, v.held)
    ensures var u := PR.PlanNext(v, PR.Start(t)); Share(DoStart(s, t).st, pid, u.plan, u.held)
  {
    OwnedIffNode(s, pid, t);
  }

  /** When the search stops at the owner, Complete is the plan's own complete. */
  lemma CompleteAtOwner(s: State, t: Id, output: string)
    requires Known(s, t) && StateOf(s, t) == Running
    ensures DoComplete(s, t, output, s.owner[t]).st ==
      s.(plans := s.plans[s.owner[t] := PlanComplete(s.plans[s.owner[t]], t)], claimed := Without(s.claimed, t))
  {
  }

  lemma IsolatedRunning(s: State, t: Id, output: string, pid: Id, v: PR.View)
    requires OwnerInv(s) && Share(s, pid, v.plan, v.held) && Known(s, t) && StateOf(s, t) == Running
    ensures var u := PR.PlanNext(v, PR.Complete(t, output));
      Share(DoComplete(s, t, output, s.owner[t]).st, pid, u.plan, u.held)
  {
    OwnedIffNode(s, pid, t);
    CompleteShape(s.plans[s.owner[t]], t);
    CompleteAtOwner(s, t, output);
  }

  lemma IsolatedComplete(s: State, t: Id, output: string, found: Id, pid: Id, v: PR.View)
    requires OwnerInv(s) && Share(s, pid, v.plan, v.held) && (t in s.owner ==> HasNode(s, found, t))
    ensures var u := PR.PlanNext(v, PR.Complete(t, output)); Share(DoComplete(s, t, output, found).st, pid, u.plan, u.held)
  {
    OwnedIffNode(s, pid, t);
    if t in s.owner {
      OwnedIffNode(s, found, t);
      if StateOf(s, t) == Running { IsolatedRunning(s, t, output, pid, v); }
    }
  }

  lemma IsolatedFailed(s: State, t: Id, pid: Id, v: PR.View)
    requires OwnerInv(s) && Share(s, pid, v.plan, v.held)
    ensures var u := PR.PlanNext(v, PR.Fail(t)); Share(DoFailed(s, t).st, pid, u.plan, u.held)
  {
    OwnedIffNode(s, pid, t);
  }

  lemma IsolatedReopen(s: State, t: Id, expired: bool, pid: Id, v: PR.View)
    requires OwnerInv(s) && Share(s, pid, v.plan, v.held)
    ensures var u := PR.PlanNext(v, PR.Reopen(t, expired));
      Share(DoAbandon(s, t).st, pid, u.plan, u.held) && Share(DoExpire(s, t).st, pid, u.plan, u.held)
  {
    OwnedIffNode(s, pid, t);
  }

  lemma IsolatedDispose(s: State, p: Id, pid: Id, v: PR.View)
    requires OwnerInv(s) && Share(s, pid, v.plan, v.held) && p in s.plans
    ensures var u := if p == pid then PR.PlanNext(v, PR.Dispose) else v; Share(Disposing(s, p), pid, u.plan, u.held)
  {
    forall t | t in v.plan.nodes && p != pid ensures t !in LiveSet(s.plans[p]) {
      OwnedIffNode(s, pid, t);
      OwnedIffNode(s, p, t);
    }
  }

  lemma IsolatedTask(w: World, step: Step, pid: Id, v: PR.View)
    requires OwnerInv(w.st) && Enabled(w, step) && Share(w.st, pid, v.plan, v.held)
    requires TaskStep(step)
    ensures var u := PR.PlanNext(v, Project(w, step, pid)); Share(NextState(w, step), pid, u.plan, u.held)
  {
    match step {
      case Claim(t, peer, lease, _, _) => IsolatedClaim(w.st, t, peer, w.now / TICKS + lease, pid, v);
      case Start(t) => IsolatedStart(w.st, t, pid, v);
      case Complete(t, output, found) => IsolatedComplete(w.st, t, output, found, pid, v);
      case Failed(t) => IsolatedFailed(w.st, t, pid, v);
      case Abandon(t) => IsolatedReopen(w.st, t, false, pid, v);
      case DogFire(k) => IsolatedReopen(w.st, w.dogs[k].task, true, pid, v);
    }
  }

  predicate TaskStep(step: Step) {
    step.Claim? || step.Start? || step.Complete? || step.Failed? || step.Abandon? || step.DogFire?
  }

  lemma IsolatedPlanStep(w: World, step: Step, pid: Id, v: PR.View)
    requires OwnerInv(w.st) && Share(w.st, pid, v.plan, v.held) && (step.Dispose? || step.DeadlineFire?)
    ensures var u := PR.PlanNext(v, Project(w, step, pid)); Share(NextState(w, step), pid, u.plan, u.held)
  {
    hide OwnerInv;
    if step.pid in w.st.plans { IsolatedDispose(w.st, step.pid, pid, v); }
  }

  lemma IsolatedRest(w: World, step: Step, pid: Id, v: PR.View)
    requires OwnerInv(w.st) && Enabled(w, step) && Share(w.st, pid, v.plan, v.held)
    requires !TaskStep(step) && !step.Dispose? && !step.DeadlineFire?
    ensures var u := PR.PlanNext(v, Project(w, step, pid)); Share(NextState(w, step), pid, u.plan, u.held)
  {
  }

  lemma ProjectAllowed(w: World, step: Step, pid: Id)
    requires OwnerInv(w.st) && Enabled(w, step) && pid in w.st.plans
    ensures PR.Allowed(ViewOf(w, pid), Project(w, step, pid))
  {
    if step.Failed? { OwnedIffNode(w.st, pid, step.t); }
  }

  /** A step changes a plan exactly by its projected operation, and every other plan not at all. */
  lemma Isolation(w: World, step: Step, pid: Id)
    requires OwnerInv(w.st) && Enabled(w, step) && pid in w.st.plans
    ensures pid in Next(w, step).st.plans
    ensures ViewOf(Next(w, step), pid) == PR.PlanNext(ViewOf(w, pid), Project(w, step, pid))
  {
    var v := ViewOf(w, pid);
    var op := Project(w, step, pid);
    assert Share(w.st, pid, v.plan, v.held);
    if TaskStep(step) {
      IsolatedTask(w, step, pid, v);
    } else if step.Dispose? || step.DeadlineFire? {
      IsolatedPlanStep(w, step, pid, v);
    } else {
      IsolatedRest(w, step, pid, v);
    }
    NextParts(w, step, pid);
    PR.NextShape(v, op);
  }

  lemma NextParts(w: World, step: Step, pid: Id)
    requires pid in w.st.plans
    ensures Next(w, step).st == NextState(w, step)
    ensures pid in Next(w, step).logs && Next(w, step).logs[pid] == LogOf(w, step, pid)
  {
  }

  // ── Every guarded run keeps the index ───────────────────────────────

  ghost predicate KeysInv(w: World) {
    w.logs.Keys == w.st.plans.Keys == w.ingested.Keys
  }

  /** A plan keeps the shape it was ingested with. */
  ghost predicate ShapeInv(w: World) {
    forall pid | pid in w.st.plans && pid in w.ingested :: SameShape(w.ingested[pid], w.st.plans[pid])
  }

  /** A watchdog guards a known node and is not due before the lease it was spawned for expires. */
  ghost predicate DogInv(w: World) {
    && (forall k | 0 <= k < |w.dogs| :: w.dogs[k].expires * TICKS <= w.dogs[k].fireAt)
    && (forall k | k in w.pending :: 0 <= k < |w.dogs|)
    && (forall t | t in w.lastClaim :: 0 <= w.lastClaim[t] < |w.dogs| && w.dogs[w.lastClaim[t]].task == t)
  }

  ghost predicate DogsKnown(w: World) {
    forall k | 0 <= k < |w.dogs| :: w.dogs[k].task in w.st.owner
  }

  ghost predicate WorldInv(w: World) {
    DogsKnown(w) && OwnerInv(w.st) && w.st.claimed.Keys <= w.st.owner.Keys && KeysInv(w) && ShapeInv(w) && DogInv(w)
  }

  lemma TaskDomains(w: World, step: Step)
    requires TaskStep(step)
    ensures NextState(w, step).plans.Keys == w.st.plans.Keys && NextState(w, step).owner == w.st.owner
  {
    match step {
      case Claim(t, peer, lease, _, _) => assert Known(w.st, t) ==> w.st.owner[t] in w.st.plans;
      case Start(t) => assert Known(w.st, t) ==> w.st.owner[t] in w.st.plans;
      case Complete(t, output, found) => assert Known(w.st, t) ==> w.st.owner[t] in w.st.plans;
      case Failed(t) => assert Known(w.st, t) ==> w.st.owner[t] in w.st.plans;
      case Abandon(t) => assert Known(w.st, t) ==> w.st.owner[t] in w.st.plans;
      case DogFire(k) =>
    }
  }

  lemma NextDomains(w: World, step: Step)
    ensures NextState(w, step).plans.Keys == w.st.plans.Keys + (if Admits(w, step) then {step.pid} else {})
    ensures NextState(w, step).owner ==
      if Admits(w, step) then w.st.owner + (map t | t in step.plan.nodes :: step.pid) else w.st.owner
    ensures Admits(w, step) ==> NextState(w, step).plans[step.pid] == Open(step.plan)
  {
    if TaskStep(step) {
      TaskDomains(w, step);
    }
  }

  lemma NextOwnerInv(w: World, step: Step)
    requires OwnerInv(w.st) && Enabled(w, step)
    ensures OwnerInv(Next(w, step).st)
    ensures forall pid | pid in w.st.plans ::
      pid in Next(w, step).st.plans && SameShape(w.st.plans[pid], Next(w, step).st.plans[pid])
    ensures Admits(w, step) ==>
      step.pid in Next(w, step).st.plans && SameShape(step.plan, Next(w, step).st.plans[step.pid])
  {
    var s, s' := w.st, Next(w, step).st;
    NextDomains(w, step);
    assert s' == NextState(w, step);
    forall pid | pid in s.plans ensures pid in s'.plans && SameShape(s.plans[pid], s'.plans[pid]) {
      Isolation(w, step, pid);
      PR.NextShape(ViewOf(w, pid), Project(w, step, pid));
    }
    forall pid, t | HasNode(s', pid, t) ensures t in s'.owner && s'.owner[t] == pid {
      if pid in s.plans { assert HasNode(s, pid, t); }
    }
    forall t | t in s'.owner ensures Known(s', t) {
      if t in s.owner { assert Known(s, t); }
    }
  }

  lemma NewDogDue(w: World, step: Step)
    requires step.Claim? && 0 <= step.slack
    ensures NewDog(w, step).expires * TICKS <= NewDog(w, step).fireAt
  {
    assert w.now / TICKS * TICKS <= w.now;
    assert NewDog(w, step).expires * TICKS == w.now / TICKS * TICKS + step.lease * TICKS;
  }

  lemma NextDogs(w: World, step: Step)
    requires DogInv(w) && Enabled(w, step)
    ensures DogInv(Next(w, step))
  {
    if step.Claim? { NewDogDue(w, step); }
  }

  lemma NextLogKeys(w: World, step: Step)
    ensures NextLogs(w, step).Keys == w.st.plans.Keys + (if Admits(w, step) then {step.pid} else {})
  {
  }

  lemma NextIngestedKeys(w: World, step: Step)
    ensures Next(w, step).ingested.Keys == w.ingested.Keys + (if Admits(w, step) then {step.pid} else {})
  {
  }

  lemma NextDogsKnown(w: World, step: Step)
    requires DogsKnown(w)
    ensures DogsKnown(Next(w, step))
  {
    NextDomains(w, step);
    assert Spawns(w, step) ==> Known(w.st, step.t);
  }

  lemma NextKeys(w: World, step: Step)
    requires KeysInv(w)
    ensures KeysInv(Next(w, step))
  {
    NextDomains(w, step);
    NextLogKeys(w, step);
    NextIngestedKeys(w, step);
  }

  lemma NextShapes(w: World, step: Step)
    requires OwnerInv(w.st) && KeysInv(w) && ShapeInv(w) && Enabled(w, step)
    ensures ShapeInv(Next(w, step))
  {
    var w' := Next(w, step);
    NextOwnerInv(w, step);
    NextDomains(w, step);
    forall pid | pid in w'.st.plans && pid in w'.ingested ensures SameShape(w'.ingested[pid], w'.st.plans[pid]) {
      if !(Admits(w, step) && pid == step.pid) {
        ShapeTransitive(w.ingested[pid], w.st.plans[pid], w'.st.plans[pid]);
      }
    }
  }

  lemma NextClaimed(w: World, step: Step)
    requires OwnerInv(w.st) && w.st.claimed.Keys <= w.st.owner.Keys
    ensures NextState(w, step).claimed.Keys <= w.st.owner.Keys
  {
  }

  lemma NextWorldInv(w: World, step: Step)
    requires WorldInv(w) && Enabled(w, step)
    ensures WorldInv(Next(w, step))
  {
    NextOwnerInv(w, step);
    NextKeys(w, step);
    NextShapes(w, step);
    NextDogs(w, step);
    NextDogsKnown(w, step);
    NextClaimed(w, step);
    NextDomains(w, step);
  }
}
