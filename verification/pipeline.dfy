/** Manager and tracer together, as the planner, the board's TaskDone handler and the reducer drive them. */
module Pipeline {
  import opened TaskTypes
  import opened PlanModel
  import opened PlanInvariants
  import opened ManagerModel
  import opened ManagerRuns
  import opened ManagerTheorems
  import opened PlannerModel
  import opened EndToEnd
  import opened Tracer

  import PR = PlanRuns

  /** `handled` are the TaskDone messages whose handler has stored the output and may still complete the node;
      `imported` keeps each own task's spec as it was imported, `told` is the last output stored for it, and `early` lists
      the tasks whose output a handler could not store with an own task, because none had been imported. */
  datatype Pipe = Pipe(world: World, store: Store, handled: seq<(Id, string)>, imported: map<Id, TaskSpec>,
                       told: map<Id, string>, early: set<Id>)

  const NewPipe := Pipe(Init, NoTasks, [], map[], map[], {})

  datatype Move =
    | Manage(step: Step)
    | Import(t: Id, spec: TaskSpec)
    | Assign(t: Id, spec: TaskSpec)
    | Store(t: Id, output: string) // first half of the TaskDone handler
    | Finish(k: int, found: Id)    // second half
    | StoreReduced(t: Id, output: string)

  predicate IsReduce(s: State, t: Id) {
    Known(s, t) && s.plans[s.owner[t]].nodes[t].spec.stage == ReduceStage
  }

  /** Any manager step but two: a plan is ingested only after all its nodes were imported, and a node is completed
      directly only by the reducer. */
  predicate Managed(p: Pipe, step: Step) {
    && Enabled(p.world, step)
    && (step.Ingest? ==> step.plan.nodes.Keys <= p.store.local.Keys)
    && (step.Complete? && Known(p.world.st, step.t) ==> IsReduce(p.world.st, step.t))
  }

  function FinishStep(p: Pipe, k: int, found: Id): Step
    requires 0 <= k < |p.handled|
  {
    Complete(p.handled[k].0, p.handled[k].1, found)
  }

  predicate Possible(p: Pipe, move: Move) {
    match move
    case Manage(step) => Managed(p, step)
    case Finish(k, found) => 0 <= k < |p.handled| && Enabled(p.world, FinishStep(p, k, found))
    case StoreReduced(t, _) => IsReduce(p.world.st, t)
    case _ => true
  }

  function Told(p: Pipe, t: Id, output: string): Pipe {
    p.(store := Stored(p.store, t, output), told := if t in p.store.local then p.told[t := output] else p.told)
  }

  function Moved(p: Pipe, move: Move): Pipe {
    match move
    case Manage(step) => p.(world := Next(p.world, step))
    case Import(t, spec) =>
      p.(store := Imported(p.store, t, spec), imported := if t in p.store.local then p.imported else p.imported[t := spec])
    case Assign(t, spec) => p.(store := AssignedTo(p.store, t, spec))
    case Store(t, output) =>
      Told(p, t, output).(handled := p.handled + [(t, output)], early := if t in p.store.local then p.early else p.early + {t})
    case Finish(k, found) => if 0 <= k < |p.handled| then p.(world := Next(p.world, FinishStep(p, k, found))) else p
    case StoreReduced(t, output) => Told(p, t, output)
  }

  predicate Flows(p: Pipe, moves: seq<Move>)
    decreases |moves|
  {
    moves == [] ||
    (Flows(p, moves[..|moves| - 1]) && Possible(After(p, moves[..|moves| - 1]), moves[|moves| - 1]))
  }

  function After(p: Pipe, moves: seq<Move>): Pipe
    decreases |moves|
  {
    if moves == [] then p else Moved(After(p, moves[..|moves| - 1]), moves[|moves| - 1])
  }

  ghost predicate Flowed(p: Pipe) {
    exists moves :: Flows(NewPipe, moves) && After(NewPipe, moves) == p
  }

  // ── The invariant ───────────────────────────────────────────────────

  /** What has been told is what the tracer holds; what nobody told is as it was imported. */
  predicate ToldInv(p: Pipe) {
    && p.imported.Keys == p.store.local.Keys
    && (forall t | t in p.told :: t in p.store.local && p.store.local[t].output == p.told[t])
    && (forall t | t in p.store.local && t !in p.told :: p.store.local[t] == p.imported[t])
  }

  predicate Heard(p: Pipe, t: Id) { t in p.told || t in p.early }

  predicate HandledInv(p: Pipe) {
    forall k | 0 <= k < |p.handled| :: Heard(p, p.handled[k].0)
  }

  predicate ImportedInv(p: Pipe) {
    forall t | t in p.world.st.owner :: t in p.store.local
  }

  ghost predicate DoneInv(p: Pipe) {
    forall pid, t | HasNode(p.world.st, pid, t) ::
      var n := p.world.st.plans[pid].nodes[t]; n.state == Done && n.spec.stage != ReduceStage ==> Heard(p, t)
  }

  ghost predicate PipeInv(p: Pipe) {
    RunInv(p.world) && Reachable(p.world) && ToldInv(p) && HandledInv(p) && ImportedInv(p) && DoneInv(p)
  }

  lemma DoneByComplete(v: PR.View, op: PR.Op, t: Id)
    ensures SameShape(v.plan, PR.PlanNext(v, op).plan)
    ensures InState(PR.PlanNext(v, op).plan, t, Done) ==> InState(v.plan, t, Done) || (op.Complete? && op.t == t)
  {
    hide PR.CompleteLog, PR.FailLog, PR.ReopenLog, PR.Record, PR.DropAll, PR.Send;
    PR.NextShape(v, op);
    if op.Complete? && InState(v.plan, op.t, Running) {
      CascadeEffect(SetState(v.plan, op.t, Done), Listed(v.plan.succ, op.t));
    }
  }

  /** A manager step makes no node Done but the one it completes. */
  lemma NewlyDone(w: World, step: Step, pid: Id, t: Id)
    requires Reachable(w) && Enabled(w, step) && HasNode(Next(w, step).st, pid, t) && InState(Next(w, step).st.plans[pid], t, Done)
    ensures HasNode(w.st, pid, t) && Next(w, step).st.plans[pid].nodes[t].spec == w.st.plans[pid].nodes[t].spec
    ensures InState(w.st.plans[pid], t, Done) || (step.Complete? && step.t == t)
    ensures Known(w.st, t) && w.st.owner[t] == pid
  {
    ReachableInv(w);
    NextDomains(w, step);
    assert pid in w.st.plans by { OpenHasNoDone(step, t); hide WorldInv, PidsInv; }
    OldDone(w, step, pid, t);
  }

  lemma OpenHasNoDone(step: Step, t: Id)
    ensures step.Ingest? ==> !InState(Open(step.plan), t, Done)
  {
  }

  lemma OldDone(w: World, step: Step, pid: Id, t: Id)
    requires OwnerInv(w.st) && Enabled(w, step) && pid in w.st.plans
    requires pid in Next(w, step).st.plans && InState(Next(w, step).st.plans[pid], t, Done)
    ensures HasNode(w.st, pid, t) && Next(w, step).st.plans[pid].nodes[t].spec == w.st.plans[pid].nodes[t].spec
    ensures InState(w.st.plans[pid], t, Done) || (step.Complete? && step.t == t)
    ensures Known(w.st, t) && w.st.owner[t] == pid
  {
    hide Next, OwnerInv, PR.PlanNext, Enabled;
    Isolation(w, step, pid);
    OwnedIffNode(w.st, pid, t);
    var v, op := ViewOf(w, pid), Project(w, step, pid);
    DoneByComplete(v, op, t);
  }

  lemma NextOwners(w: World, step: Step)
    ensures forall t | t in Next(w, step).st.owner :: t in w.st.owner || (step.Ingest? && t in step.plan.nodes)
  {
    NextDomains(w, step);
  }

  lemma ManagerKeeps(p: Pipe, step: Step, q: Pipe)
    requires PipeInv(p) && Enabled(p.world, step) && q == p.(world := Next(p.world, step))
    requires step.Ingest? ==> step.plan.nodes.Keys <= p.store.local.Keys
    requires step.Complete? && Known(p.world.st, step.t) ==> IsReduce(p.world.st, step.t) || Heard(p, step.t)
    ensures PipeInv(q)
  {
    hide Next, Enabled, RunInv, Reachable;
    NextRunInv(p.world, step);
    ReachableNext(p.world, step);
    NextOwners(p.world, step);
    forall pid, t | HasNode(q.world.st, pid, t) && InState(q.world.st.plans[pid], t, Done)
      ensures q.world.st.plans[pid].nodes[t].spec.stage != ReduceStage ==> Heard(q, t)
    {
      NewlyDone(p.world, step, pid, t);
    }
  }

  lemma ToldKeeps(p: Pipe, t: Id, output: string, q: Pipe)
    requires PipeInv(p) && q == Told(p, t, output)
    ensures PipeInv(q) && forall u :: Heard(p, u) ==> Heard(q, u)
    ensures t in p.store.local ==> t in q.told
  {
  }

  lemma StoreKeeps(p: Pipe, t: Id, output: string)
    requires PipeInv(p)
    ensures PipeInv(Moved(p, Move.Store(t, output)))
  {
    ToldKeeps(p, t, output, Told(p, t, output));
  }

  lemma ImportKeeps(p: Pipe, t: Id, spec: TaskSpec)
    requires PipeInv(p)
    ensures PipeInv(Moved(p, Import(t, spec)))
  {
  }

  lemma AssignKeeps(p: Pipe, t: Id, spec: TaskSpec)
    requires PipeInv(p)
    ensures PipeInv(Moved(p, Assign(t, spec)))
  {
  }

  lemma HandledIsHeard(p: Pipe, k: int)
    requires PipeInv(p) && 0 <= k < |p.handled|
    ensures Heard(p, p.handled[k].0)
  {
  }

  lemma MoveKeeps(p: Pipe, move: Move)
    requires PipeInv(p) && Possible(p, move)
    ensures PipeInv(Moved(p, move))
  {
    hide PipeInv;
    match move {
      case Manage(step) => ManagerKeeps(p, step, Moved(p, move));
      case Import(t, spec) => ImportKeeps(p, t, spec);
      case Assign(t, spec) => AssignKeeps(p, t, spec);
      case Store(t, output) => StoreKeeps(p, t, output);
      case Finish(k, found) =>
        HandledIsHeard(p, k);
        ManagerKeeps(p, FinishStep(p, k, found), Moved(p, move));
      case StoreReduced(t, output) => ToldKeeps(p, t, output, Moved(p, move));
    }
  }

  lemma {:induction false} FlowInv(p: Pipe, moves: seq<Move>)
    requires PipeInv(p) && Flows(p, moves)
    ensures PipeInv(After(p, moves))
    decreases |moves|
  {
    if moves != [] {
      var before := moves[..|moves| - 1];
      FlowInv(p, before);
      MoveKeeps(After(p, before), moves[|moves| - 1]);
    }
  }

  lemma FlowedInv(p: Pipe)
    requires Flowed(p)
    ensures PipeInv(p)
  {
    var moves :| Flows(NewPipe, moves) && After(NewPipe, moves) == p;
    InitInv();
    assert Legal(Init, []) && Exec(Init, []) == Init;
    hide RunInv, Moved, Possible;
    FlowInv(NewPipe, moves);
  }

  // ── Outputs precede reduction ───────────────────────────────────────

  /** The last output a handler or the reducer could store for the own task and, if there is none, the imported one. */
  function LastOutput(p: Pipe, t: Id): string {
    if t in p.told then p.told[t] else if t in p.imported then p.imported[t].output else ""
  }

  predicate Imports(move: Move, t: Id) { move.Import? && move.t == t }

  predicate Tells(move: Move, t: Id) { (move.Store? || move.StoreReduced?) && move.t == t }

  /** Move k is the first import of t. */
  predicate FirstImport(moves: seq<Move>, t: Id, k: int) {
    0 <= k < |moves| && Imports(moves[k], t) && forall j | 0 <= j < k :: !Imports(moves[j], t)
  }

  /** Move k is the last that stores an output for t, and t was imported before it. */
  predicate LastTold(moves: seq<Move>, t: Id, k: int) {
    && 0 <= k < |moves| && Tells(moves[k], t) && (exists i | 0 <= i < k :: Imports(moves[i], t))
    && forall j | k < j < |moves| :: !Tells(moves[j], t)
  }

  lemma {:induction false} ImportedIffImport(p: Pipe, moves: seq<Move>, t: Id)
    requires p == After(NewPipe, moves)
    ensures t in p.store.local <==> exists i | 0 <= i < |moves| :: Imports(moves[i], t)
    decreases |moves|
  {
    if moves != [] {
      hide Moved, Imports;
      var before, n := moves[..|moves| - 1], |moves| - 1;
      ImportedIffImport(After(NewPipe, before), before, t);
      LocalGrows(After(NewPipe, before), moves[n], t);
      OneMoreMove(before, moves[n], t);
      assert moves == before + [moves[n]];
    }
  }

  lemma OneMoreMove(moves: seq<Move>, move: Move, t: Id)
    ensures (exists i | 0 <= i < |moves + [move]| :: Imports((moves + [move])[i], t)) <==>
      Imports(move, t) || exists i | 0 <= i < |moves| :: Imports(moves[i], t)
  {
    var all := moves + [move];
    assert all[|moves|] == move && forall i | 0 <= i < |moves| :: all[i] == moves[i];
  }

  lemma LocalGrows(p: Pipe, move: Move, t: Id)
    ensures t in Moved(p, move).store.local <==> t in p.store.local || Imports(move, t)
    ensures t in Moved(p, move).imported <==> t in p.imported || (Imports(move, t) && t !in p.store.local)
    ensures t in p.imported && t in p.store.local ==> Moved(p, move).imported[t] == p.imported[t]
    ensures Imports(move, t) && t !in p.store.local ==> Moved(p, move).imported[t] == move.spec
    ensures !Tells(move, t) || t !in p.store.local ==> (t in Moved(p, move).told <==> t in p.told)
    ensures (!Tells(move, t) || t !in p.store.local) && t in p.told ==> Moved(p, move).told[t] == p.told[t]
    ensures Tells(move, t) && t in p.store.local ==> t in Moved(p, move).told && Moved(p, move).told[t] == move.output
  {
  }

  lemma {:induction false} ToldIsLast(p: Pipe, moves: seq<Move>, t: Id, k: int)
    requires p == After(NewPipe, moves) && LastTold(moves, t, k)
    ensures t in p.told && p.told[t] == moves[k].output
    decreases |moves|
  {
    hide Moved, Tells, Imports;
    var before, n := moves[..|moves| - 1], |moves| - 1;
    var q := After(NewPipe, before);
    assert forall i | 0 <= i < n :: before[i] == moves[i];
    LocalGrows(q, moves[n], t);
    if k < n {
      assert LastTold(before, t, k);
      ToldIsLast(q, before, t, k);
    } else {
      ImportedIffImport(q, before, t);
    }
  }

  lemma {:induction false} ToldWasLast(p: Pipe, moves: seq<Move>, t: Id) returns (k: int)
    requires p == After(NewPipe, moves) && t in p.told
    ensures LastTold(moves, t, k)
    decreases |moves|
  {
    assert moves != [];
    hide Moved, Tells, Imports, LastTold;
    var before, n := moves[..|moves| - 1], |moves| - 1;
    var q := After(NewPipe, before);
    LocalGrows(q, moves[n], t);
    ImportedIffImport(q, before, t);
    if Tells(moves[n], t) && t in q.store.local {
      LastNow(moves, t);
      k := n;
    } else {
      k := ToldWasLast(q, before, t);
      LastStays(moves, t, k);
    }
  }

  lemma LastNow(moves: seq<Move>, t: Id)
    requires moves != [] && Tells(moves[|moves| - 1], t)
    requires var before := moves[..|moves| - 1]; exists i | 0 <= i < |before| :: Imports(before[i], t)
    ensures LastTold(moves, t, |moves| - 1)
  {
    var before := moves[..|moves| - 1];
    var i :| 0 <= i < |before| && Imports(before[i], t);
    assert Imports(moves[i], t);
  }

  lemma LastStays(moves: seq<Move>, t: Id, k: int)
    requires moves != [] && LastTold(moves[..|moves| - 1], t, k)
    ensures var before := moves[..|moves| - 1]; exists i | 0 <= i < |before| :: Imports(before[i], t)
    ensures !Tells(moves[|moves| - 1], t) ==> LastTold(moves, t, k)
  {
    var before := moves[..|moves| - 1];
    assert forall i | 0 <= i < |before| :: before[i] == moves[i];
    var i :| 0 <= i < k && Imports(before[i], t);
    assert Imports(moves[i], t);
  }

  /** What counts as told is what the moves say: the last output stored for a task after its import. */
  lemma ToldMeans(moves: seq<Move>, t: Id)
    ensures var told := After(NewPipe, moves).told;
      && (t in told <==> exists k :: LastTold(moves, t, k))
      && forall k | LastTold(moves, t, k) :: t in told && told[t] == moves[k].output
  {
    var p := After(NewPipe, moves);
    hide After, Moved;
    if t in p.told { var k := ToldWasLast(p, moves, t); }
    forall k | LastTold(moves, t, k) ensures t in p.told && p.told[t] == moves[k].output { ToldIsLast(p, moves, t, k); }
  }

  /** What counts as imported is the spec of the first import. */
  lemma {:induction false} ImportedIsFirst(p: Pipe, moves: seq<Move>, t: Id, k: int)
    requires p == After(NewPipe, moves) && FirstImport(moves, t, k)
    ensures t in p.imported && t in p.store.local && p.imported[t] == moves[k].spec
    decreases |moves|
  {
    hide Moved, Imports;
    var before, n := moves[..|moves| - 1], |moves| - 1;
    var q := After(NewPipe, before);
    assert forall i | 0 <= i < n :: before[i] == moves[i];
    LocalGrows(q, moves[n], t);
    if k < n {
      ImportedIsFirst(q, before, t, k);
    } else {
      ImportedIffImport(q, before, t);
    }
  }

  /** What the tracer has for a completed node: the output last stored for it, if any handler found it imported, and
      otherwise, when its handlers all came too early, only what it was imported with. */
  lemma DoneIsStored(p: Pipe, pid: Id, t: Id)
    requires Flowed(p) && pid in p.world.st.plans && InState(p.world.st.plans[pid], t, Done)
    requires p.world.st.plans[pid].nodes[t].spec.stage != ReduceStage
    ensures OutputOf(p.store, t) == LastOutput(p, t)
    ensures t !in p.told ==> t in p.early && t in p.imported
  {
    FlowedInv(p);
    assert HasNode(p.world.st, pid, t);
    DoneKnown(p, pid, t);
  }

  lemma DoneKnown(p: Pipe, pid: Id, t: Id)
    requires OwnerInv(p.world.st) && ImportedInv(p) && HasNode(p.world.st, pid, t)
    ensures t in p.store.local
  {
    OwnedIffNode(p.world.st, pid, t);
  }

  /** Once the reduce node of a well-formed plan is ready, the tracer holds the output last stored for every other node
      that was not handled too early. */
  lemma OutputsPrecedeReduction(p: Pipe, pid: Id, raw: seq<RawNode>, t: Id)
    requires Flowed(p) && ParsedAt(p.world, pid, raw) && WellFormedRaw(raw)
    requires ReduceId(pid) in p.world.st.plans[pid].nodes
    requires p.world.st.plans[pid].nodes[ReduceId(pid)].state !in {Pending, Disposed}
    requires t in p.world.st.plans[pid].nodes && t != ReduceId(pid)
    ensures InState(p.world.st.plans[pid], t, Done)
    ensures OutputOf(p.store, t) == LastOutput(p, t)
    ensures t !in p.told ==> t in p.early && t in p.imported
  {
    FlowedInv(p);
    ReduceWaitsForAll(p.world, pid, raw, t);
    OnlyReduceReduces(p.world, pid, raw, t);
    DoneIsStored(p, pid, t);
  }

  /** The system's node is the plan's only reduce-stage node. */
  lemma OnlyReduceReduces(w: World, pid: Id, raw: seq<RawNode>, t: Id)
    requires Reachable(w) && ParsedAt(w, pid, raw) && t in w.st.plans[pid].nodes
    ensures w.st.plans[pid].nodes[t].spec.stage == ReduceStage <==> t == ReduceId(pid)
  {
    ReachableInv(w);
    var p := w.ingested[pid];
    var leaves :| LeafList(pid, raw, leaves) && p == ParsePlan(pid, raw, leaves).(hasNotify := p.hasNotify);
    RawNodesAre(pid, raw);
    assert SameShape(p, w.st.plans[pid]);
  }

  // ── An output that comes too early is lost ──────────────────────────

  lemma OneMove(moves: seq<Move>, move: Move)
    requires Flows(NewPipe, moves) && Possible(After(NewPipe, moves), move)
    ensures Flows(NewPipe, moves + [move]) && After(NewPipe, moves + [move]) == Moved(After(NewPipe, moves), move)
  {
    assert (moves + [move])[..|moves|] == moves;
  }

  /** A step on the node t of the plan pid, seen from that plan. */
  lemma ManageMove(moves: seq<Move>, step: Step, pid: Id)
    requires Flows(NewPipe, moves) && Managed(After(NewPipe, moves), step) && pid in After(NewPipe, moves).world.st.plans
    ensures Flows(NewPipe, moves + [Manage(step)])
    ensures var p, q := After(NewPipe, moves), After(NewPipe, moves + [Manage(step)]);
      && pid in q.world.st.plans
      && q.world.st.plans[pid] == PR.PlanNext(ViewOf(p.world, pid), Project(p.world, step, pid)).plan
      && q.store == p.store && q.handled == p.handled && q.early == p.early && q.told == p.told
  {
    OneMove(moves, Manage(step));
    FlowedInv(After(NewPipe, moves));
    Isolation(After(NewPipe, moves).world, step, pid);
  }

  /** The message for t was handled before anything was imported, and by now the given nodes are. */
  predicate HandledFirst(p: Pipe, plan: Plan, t: Id, output: string, ids: set<Id>) {
    && p.world == Init && p.handled == [(t, output)] && t in p.early && p.told == map[] && p.store.given == map[]
    && ids <= plan.nodes.Keys && p.store.local == map u | u in ids :: plan.nodes[u].spec
  }

  lemma {:induction false} ImportNodes(moves: seq<Move>, plan: Plan, t: Id, output: string, ids: set<Id>, todo: set<Id>)
    returns (later: seq<Move>)
    requires Flows(NewPipe, moves) && HandledFirst(After(NewPipe, moves), plan, t, output, ids)
    requires todo == plan.nodes.Keys - ids
    ensures Flows(NewPipe, later) && HandledFirst(After(NewPipe, later), plan, t, output, plan.nodes.Keys)
    decreases todo
  {
    hide Flows, After;
    if todo == {} {
      assert ids == plan.nodes.Keys;
      later := moves;
    } else {
      var u :| u in todo;
      OneMove(moves, Import(u, plan.nodes[u].spec));
      later := moves + [Import(u, plan.nodes[u].spec)];
      assert todo - {u} == plan.nodes.Keys - (ids + {u});
      later := ImportNodes(later, plan, t, output, ids + {u}, todo - {u});
    }
  }

  lemma HandleFirst(plan: Plan, t: Id, output: string) returns (moves: seq<Move>)
    ensures Flows(NewPipe, moves) && HandledFirst(After(NewPipe, moves), plan, t, output, {})
  {
    OneMove([], Move.Store(t, output));
    moves := [] + [Move.Store(t, output)];
  }

  lemma HandleThenIngest(pid: Id, plan: Plan, t: Id, output: string) returns (moves: seq<Move>)
    ensures Flows(NewPipe, moves)
    ensures var p := After(NewPipe, moves);
      && pid in p.world.st.plans && p.world.st.plans[pid] == Open(plan)
      && p.handled == [(t, output)] && t in p.early && p.told == map[]
      && (t in plan.nodes ==> OutputOf(p.store, t) == plan.nodes[t].spec.output)
  {
    hide Flows, After, Next;
    moves := HandleFirst(plan, t, output);
    moves := ImportNodes(moves, plan, t, output, {}, plan.nodes.Keys);
    OneMove(moves, Manage(Ingest(pid, plan)));
    NextDomains(Init, Ingest(pid, plan));
    NextStateIs(Init, Ingest(pid, plan));
    moves := moves + [Manage(Ingest(pid, plan))];
  }

  lemma NextStateIs(w: World, step: Step)
    ensures Next(w, step).st == NextState(w, step)
  {
  }

  /** q is p after some steps that left the tracer and the handlers alone. */
  ghost predicate OnlyManaged(p: Pipe, q: Pipe, pid: Id) {
    && pid in p.world.st.plans && pid in q.world.st.plans
    && SameShape(p.world.st.plans[pid], q.world.st.plans[pid])
    && q.store == p.store && q.handled == p.handled && q.early == p.early && q.told == p.told
  }

  lemma ClaimMove(moves: seq<Move>, pid: Id, t: Id) returns (later: seq<Move>)
    requires Flows(NewPipe, moves)
    requires var p := After(NewPipe, moves); pid in p.world.st.plans && InState(p.world.st.plans[pid], t, Ready)
    ensures Flows(NewPipe, later) && OnlyManaged(After(NewPipe, moves), After(NewPipe, later), pid)
    ensures InState(After(NewPipe, later).world.st.plans[pid], t, NodeState.Claimed)
  {
    hide Flows, After, ViewOf;
    var step := Claim(t, "peer", 30, 0, 0);
    ManageMove(moves, step, pid);
    PR.NextShape(ViewOf(After(NewPipe, moves).world, pid), Project(After(NewPipe, moves).world, step, pid));
    ViewPlan(After(NewPipe, moves).world, pid);
    later := moves + [Manage(step)];
  }

  lemma StartMove(moves: seq<Move>, pid: Id, t: Id) returns (later: seq<Move>)
    requires Flows(NewPipe, moves)
    requires var p := After(NewPipe, moves); pid in p.world.st.plans && InState(p.world.st.plans[pid], t, NodeState.Claimed)
    ensures Flows(NewPipe, later) && OnlyManaged(After(NewPipe, moves), After(NewPipe, later), pid)
    ensures InState(After(NewPipe, later).world.st.plans[pid], t, Running)
  {
    hide Flows, After, ViewOf;
    ManageMove(moves, Start(t), pid);
    PR.NextShape(ViewOf(After(NewPipe, moves).world, pid), PR.Start(t));
    ViewPlan(After(NewPipe, moves).world, pid);
    later := moves + [Manage(Start(t))];
  }

  lemma ViewPlan(w: World, pid: Id)
    requires pid in w.st.plans
    ensures ViewOf(w, pid).plan == w.st.plans[pid]
  {
  }

  lemma FinishMove(moves: seq<Move>, pid: Id, t: Id) returns (later: seq<Move>)
    requires Flows(NewPipe, moves)
    requires var p := After(NewPipe, moves);
      pid in p.world.st.plans && InState(p.world.st.plans[pid], t, Running) && |p.handled| > 0 && p.handled[0].0 == t
    requires t !in Listed(After(NewPipe, moves).world.st.plans[pid].succ, t)
    ensures Flows(NewPipe, later)
    ensures var p, q := After(NewPipe, moves), After(NewPipe, later);
      pid in q.world.st.plans && InState(q.world.st.plans[pid], t, Done) && q.store == p.store && q.early == p.early && q.told == p.told
  {
    hide Flows, After, Next, OwnerInv;
    FlowOwner(moves);
    CompleteEffect(After(NewPipe, moves).world, After(NewPipe, moves).handled[0].1, pid, t);
    OneMove(moves, Finish(0, pid));
    later := moves + [Finish(0, pid)];
  }

  lemma FlowOwner(moves: seq<Move>)
    requires Flows(NewPipe, moves)
    ensures OwnerInv(After(NewPipe, moves).world.st)
  {
    FlowedInv(After(NewPipe, moves));
  }

  lemma CompleteEffect(w: World, output: string, pid: Id, t: Id)
    requires OwnerInv(w.st) && pid in w.st.plans && InState(w.st.plans[pid], t, Running)
    requires t !in Listed(w.st.plans[pid].succ, t)
    ensures Enabled(w, Complete(t, output, pid))
    ensures var u := Next(w, Complete(t, output, pid)); pid in u.st.plans && InState(u.st.plans[pid], t, Done)
  {
    hide Next;
    assert HasNode(w.st, pid, t);
    Isolation(w, Complete(t, output, pid), pid);
    ViewPlan(w, pid);
    ViewPlan(Next(w, Complete(t, output, pid)), pid);
    CompleteKeepsDone(w.st.plans[pid], t);
  }

  /** The handler ignores that its output could not be stored. For any root of any plan: when its message is handled
      before the import, the second half of that handler can complete the node later, and the output is nowhere. */
  lemma EarlyOutputIsLost(pid: Id, plan: Plan, t: Id, output: string) returns (moves: seq<Move>)
    requires t in plan.nodes && t in plan.roots && t !in Listed(plan.succ, t)
    ensures Flows(NewPipe, moves)
    ensures var p := After(NewPipe, moves);
      && pid in p.world.st.plans && InState(p.world.st.plans[pid], t, Done) && t in p.early && p.told == map[]
      && OutputOf(p.store, t) == plan.nodes[t].spec.output
  {
    moves := HandleThenIngest(pid, plan, t, output);
    OpenStarts(plan, t);
    hide Flows, After;
    moves := ClaimMove(moves, pid, t);
    moves := StartMove(moves, pid, t);
    moves := FinishMove(moves, pid, t);
  }

  lemma OpenStarts(plan: Plan, t: Id)
    requires t in plan.nodes && t in plan.roots
    ensures InState(Open(plan), t, Ready) && Open(plan).succ == plan.succ
  {
  }

  lemma CompleteKeepsDone(p: Plan, t: Id)
    requires InState(p, t, Running) && t !in Listed(p.succ, t)
    ensures InState(PlanComplete(p, t), t, Done)
  {
    CascadeEffect(SetState(p, t, Done), Listed(p.succ, t));
  }
}
