/** The state manager's locked regions as functions on its whole state. */
module ManagerModel {
  import opened TaskTypes
  import opened PlanModel

  /** `owner` is the manager's node index: the plan whose node object the id points to. */
  datatype State = State(plans: map<Id, Plan>, owner: map<Id, Id>, claimed: map<Id, string>)

  const Empty := State(map[], map[], map[])

  datatype Topic = TaskReady | TaskRepublished
  datatype Event = Event(topic: Topic, node: Id)

  datatype Error = NoSuchNode | AlreadyClaimed(holder: string) | WrongState(found: NodeState) | PlanExists | NoSuchPlan
  datatype Reply = Ok | Err(error: Error)

  /** What a locked region leaves behind: the new state, the reply, the published events and the result sent
      to the plan's callback channel. */
  datatype Outcome = Outcome(st: State, reply: Reply, published: seq<Event>, sent: seq<PlanResult>)

  predicate Known(s: State, t: Id) {
    t in s.owner && s.owner[t] in s.plans && t in s.plans[s.owner[t]].nodes
  }

  function StateOf(s: State, t: Id): NodeState
    requires Known(s, t)
  {
    s.plans[s.owner[t]].nodes[t].state
  }

  function Refuse(s: State, e: Error): Outcome { Outcome(s, Err(e), [], []) }

  function Holder(s: State, t: Id): string { if t in s.claimed then s.claimed[t] else "" }

  function Without(m: map<Id, string>, t: Id): map<Id, string> { m - {t} }

  function DoIngest(s: State, pid: Id, plan: Plan): Outcome {
    if pid in s.plans then Refuse(s, PlanExists) else
      Outcome(
        s.(plans := s.plans[pid := Open(plan)], owner := s.owner + (map t | t in plan.nodes :: pid)),
        Ok, RootEvents(plan, plan.roots), [])
  }

  /** One event per listed root that names a node, in list order. */
  function RootEvents(plan: Plan, roots: seq<Id>): seq<Event> {
    if roots == [] then [] else
      RootEvents(plan, roots[..|roots| - 1]) +
      (if roots[|roots| - 1] in plan.nodes then [Event(TaskReady, roots[|roots| - 1])] else [])
  }

  function ReadyEvents(ids: seq<Id>): seq<Event> {
    seq(|ids|, i requires 0 <= i < |ids| => Event(TaskReady, ids[i]))
  }

  function DoClaim(s: State, t: Id, peer: string, expires: int): Outcome {
    if !Known(s, t) then Refuse(s, NoSuchNode)
    else if StateOf(s, t) == Claimed then Refuse(s, AlreadyClaimed(Holder(s, t)))
    else if StateOf(s, t) != Ready then Refuse(s, WrongState(StateOf(s, t)))
    else
      var pid := s.owner[t];
      Outcome(s.(plans := s.plans[pid := PlanClaim(s.plans[pid], t, peer, expires)], claimed := s.claimed[t := peer]),
              Ok, [], [])
  }

  function DoStart(s: State, t: Id): Outcome {
    if !Known(s, t) then Refuse(s, NoSuchNode)
    else if StateOf(s, t) == Running then Outcome(s, Ok, [], [])
    else if StateOf(s, t) != Claimed then Refuse(s, WrongState(StateOf(s, t)))
    else
      var pid := s.owner[t];
      Outcome(s.(plans := s.plans[pid := PlanStart(s.plans[pid], t)]), Ok, [], [])
  }

  /** `found` is the plan the search over all plans stops at: some plan whose node map has t. */
  function DoComplete(s: State, t: Id, output: string, found: Id): Outcome {
    if !Known(s, t) then Refuse(s, NoSuchNode)
    else if StateOf(s, t) == Done then Outcome(s, Ok, [], [])
    else if StateOf(s, t) != Running then Refuse(s, WrongState(StateOf(s, t)))
    else
      var pid := s.owner[t];
      Cascaded(s.(plans := s.plans[pid := SetState(s.plans[pid], t, Done)], claimed := Without(s.claimed, t)), t, output, found)
  }

  /** The rest of Complete, once the node is Done. */
  function Cascaded(s: State, t: Id, output: string, found: Id): Outcome {
    if !(found in s.plans && t in s.plans[found].nodes) then Outcome(s, Ok, [], []) else
      var q := s.plans[found];
      var todo := Listed(q.succ, t);
      var q1 := Cascade(q, todo);
      Outcome(s.(plans := s.plans[found := q1]), Ok, ReadyEvents(Readied(q, todo)),
              if AllDone(q1) && q1.hasNotify then [PlanResult(PlanOK, output)] else [])
  }

  function DoFailed(s: State, t: Id): Outcome {
    if !Known(s, t) then Refuse(s, NoSuchNode) else
      var pid := s.owner[t];
      Outcome(s.(plans := s.plans[pid := PlanFail(s.plans[pid], t)], claimed := Without(s.claimed, t)),
              Ok, [Event(TaskRepublished, t)], [])
  }

  function DoAbandon(s: State, t: Id): Outcome {
    if !Known(s, t) then Refuse(s, NoSuchNode)
    else if StateOf(s, t) != Claimed then Refuse(s, WrongState(StateOf(s, t)))
    else Reopened(s, t)
  }

  function Reopened(s: State, t: Id): Outcome
    requires Known(s, t)
  {
    var pid := s.owner[t];
    Outcome(s.(plans := s.plans[pid := PlanReopen(s.plans[pid], t)], claimed := Without(s.claimed, t)),
            Ok, [Event(TaskRepublished, t)], [])
  }

  /** The lease watchdog after its timer fired: it looks only at the node's state. */
  function DoExpire(s: State, t: Id): Outcome {
    if Known(s, t) && StateOf(s, t) == Claimed then Reopened(s, t) else Outcome(s, Ok, [], [])
  }

  function DoDispose(s: State, pid: Id): Outcome {
    if pid !in s.plans then Refuse(s, NoSuchPlan) else Outcome(Disposing(s, pid), Ok, [], [])
  }

  function Disposing(s: State, pid: Id): State
    requires pid in s.plans
  {
    s.(plans := s.plans[pid := PlanDispose(s.plans[pid])], claimed := s.claimed - LiveSet(s.plans[pid]))
  }

  /** The deadline goroutine's locked region: dispose unless the plan is done; Ok means nothing is left to send. */
  function DoDeadline(s: State, pid: Id): State {
    if pid in s.plans && !AllDone(s.plans[pid]) then Disposing(s, pid) else s
  }

  /** The roots are announced in list order, those that name no node left out. */
  lemma {:induction false} RootsInOrder(plan: Plan, roots: seq<Id>) returns (ks: seq<int>)
    ensures Ascending(ks, |roots|) && forall k | 0 <= k < |roots| :: k in ks <==> roots[k] in plan.nodes
    ensures |RootEvents(plan, roots)| == |ks|
    ensures forall j | 0 <= j < |ks| :: RootEvents(plan, roots)[j] == Event(TaskReady, roots[ks[j]])
  {
    ks := [];
    if roots != [] {
      var n := |roots| - 1;
      ks := RootsInOrder(plan, roots[..n]);
      if roots[n] in plan.nodes { ks := ks + [n]; }
    }
  }
}
