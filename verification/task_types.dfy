/** The task vocabulary shared by the planner, the state manager, the board and the reducer. */
module TaskTypes {
  /** TaskID. */
  datatype Id = Id(s: string)

  datatype Option<+T> = None | Some(value: T)

  datatype Stage = NoStage | PlanStage | ExecuteStage | ReduceStage

  datatype TaskSpec = TaskSpec(
    prompt: string, model: string, output: string,
    minVRAM: int, budgetTokens: int, tools: seq<string>, labels: seq<string>,
    priority: int, stage: Stage)

  datatype NodeState = Pending | Ready | Claimed | Running | Done | Failed | Disposed

  datatype Node = Node(spec: TaskSpec, state: NodeState, claimedBy: string, expiresAt: int)

  datatype PlanStatus = PlanOK | PlanError | PlanTimeout | PlanCancelled

  datatype PlanResult = PlanResult(status: PlanStatus, text: string)

  /** A plan as a value: `preds` counts unsatisfied dependencies, `hasNotify` says the callback channel is set. */
  datatype Plan = Plan(
    nodes: map<Id, Node>, succ: map<Id, seq<Id>>, preds: map<Id, int>, roots: seq<Id>,
    hasDeadline: bool, hasNotify: bool)

  /** Reading a Go map of ints: a missing key reads as zero. */
  function Count(m: map<Id, int>, k: Id): int {
    if k in m then m[k] else 0
  }

  /** Reading a Go map of slices: a missing key reads as the empty slice. */
  function Listed(m: map<Id, seq<Id>>, k: Id): seq<Id> {
    if k in m then m[k] else []
  }

  /** Positions in a list of n, in order. */
  predicate Ascending(ks: seq<int>, n: int) {
    && (forall j | 0 <= j < |ks| :: 0 <= ks[j] < n)
    && forall i, j | 0 <= i < j < |ks| :: ks[i] < ks[j]
  }

  predicate Terminal(s: NodeState) {
    s == Done || s == Failed || s == Disposed
  }

  predicate AllDone(p: Plan) {
    forall t | t in p.nodes :: p.nodes[t].state == Done
  }

  /** Nothing in the plan can run any more. */
  predicate Closed(p: Plan) {
    forall t | t in p.nodes :: Terminal(p.nodes[t].state)
  }

  /** Nothing in the plan has failed or been disposed. */
  predicate Healthy(p: Plan) {
    forall t | t in p.nodes :: p.nodes[t].state != Failed && p.nodes[t].state != Disposed
  }

  /** Same graph, same node ids, same specs: what no step of the manager may touch. */
  predicate SameShape(p: Plan, q: Plan) {
    && p.nodes.Keys == q.nodes.Keys && p.succ == q.succ && p.roots == q.roots
    && p.hasDeadline == q.hasDeadline && p.hasNotify == q.hasNotify
    && forall t | t in p.nodes :: p.nodes[t].spec == q.nodes[t].spec
  }
}
