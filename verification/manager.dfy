/** The manager object: plans, node index and claims, changed in place under its lock. */
module Manager {
  import opened TaskTypes
  import opened PlanModel
  import opened ManagerModel
  import opened StateManager

  /** A goroutine a method leaves behind: a lease watchdog for a node, or the deadline watch of a plan. */
  datatype Goroutine = LeaseWatchdog(task: Id, lease: int, ctx: int) | DeadlineWatch(plan: Id)

  /** The state with one node and the claims replaced. */
  function WithNode(s: State, t: Id, n: Node, claims: map<Id, string>): State {
    if Known(s, t) then State(s.plans[s.owner[t] := Put(s.plans[s.owner[t]], t, n)], s.owner, claims) else s
  }

  /** Complete's state between marking the node Done and searching for its plan. */
  function DoneState(s: State, t: Id): State {
    if Known(s, t) then WithNode(s, t, s.plans[s.owner[t]].nodes[t].(state := Done), s.claimed - {t}) else s
  }

  lemma ReopenedIs(s: State, t: Id)
    requires Known(s, t) && StateOf(s, t) == Claimed
    ensures Reopened(s, t).st == WithNode(s, t, Node(s.plans[s.owner[t]].nodes[t].spec, Ready, "", 0), s.claimed - {t})
  {
  }

  lemma AbandonIs(s: State, t: Id)
    ensures DoAbandon(s, t) ==
      if !Known(s, t) then Refuse(s, NoSuchNode)
      else if StateOf(s, t) != Claimed then Refuse(s, WrongState(StateOf(s, t)))
      else
        Outcome(WithNode(s, t, Node(s.plans[s.owner[t]].nodes[t].spec, Ready, "", 0), s.claimed - {t}),
                Ok, [Event(TaskRepublished, t)], [])
  {
    if Known(s, t) && StateOf(s, t) == Claimed { ReopenedIs(s, t); }
  }

  lemma FailedIs(s: State, t: Id)
    requires Known(s, t)
    ensures DoFailed(s, t).st == WithNode(s, t, Node(s.plans[s.owner[t]].nodes[t].spec, NodeState.Failed, "", 0), s.claimed - {t})
  {
  }

  lemma DeadlineIs(s: State, pid: Id)
    requires pid in s.plans
    ensures DoDeadline(s, pid) == if AllDone(s.plans[pid]) then s else Disposing(s, pid)
  {
  }

  lemma DoneThenCascade(s: State, t: Id, output: string, stop: Id)
    requires Known(s, t) && StateOf(s, t) == Running
    ensures DoneState(s, t).plans.Keys == s.plans.Keys
    ensures stop in s.plans ==> DoneState(s, t).plans[stop].nodes.Keys == s.plans[stop].nodes.Keys
    ensures DoComplete(s, t, output, stop) == Cascaded(DoneState(s, t), t, output, stop)
  {
  }

  /** Plans and nodes know where they belong, so no two entries share an object. */
  ghost predicate Linked(plans: map<Id, TaskPlan>, nodes: map<Id, TaskNode>) {
    && (forall p | p in plans :: plans[p].id == p && plans[p].Valid())
    && (forall t | t in nodes :: nodes[t].id == t && nodes[t].home in plans)
    && (forall t | t in nodes :: t in plans[nodes[t].home].nodes)
    && (forall t | t in nodes :: plans[nodes[t].home].nodes[t] == nodes[t])
  }

  ghost predicate Indexed(nodes: map<Id, TaskNode>, owner: map<Id, Id>) {
    owner.Keys == nodes.Keys && forall t | t in nodes :: nodes[t].home == owner[t]
  }

  ghost predicate Holds(plans: map<Id, TaskPlan>, s: map<Id, Plan>)
    reads *
  {
    && s.Keys == plans.Keys
    && forall p | p in plans :: plans[p].Value() == s[p]
  }

  lemma LinkedMore(plans: map<Id, TaskPlan>, nodes: map<Id, TaskNode>, plan: TaskPlan)
    requires Linked(plans, nodes) && plan.Valid() && plan.id !in plans
    ensures Linked(plans[plan.id := plan], nodes + plan.nodes)
  {
  }

  lemma IndexedMore(nodes: map<Id, TaskNode>, owner: map<Id, Id>, plan: TaskPlan)
    requires Indexed(nodes, owner) && plan.Valid()
    ensures Indexed(nodes + plan.nodes, owner + (map t | t in plan.nodes :: plan.id))
  {
  }

  lemma HoldsMore(plans: map<Id, TaskPlan>, s: map<Id, Plan>, plan: TaskPlan)
    requires Holds(plans, s) && plan.id !in plans
    ensures Holds(plans[plan.id := plan], s[plan.id := plan.Value()])
  {
  }

  class TaskStateManager {
    var plans: map<Id, TaskPlan>
    var nodes: map<Id, TaskNode>
    var claimed: map<Id, string>

    constructor ()
      ensures Shows(Empty)
    {
      plans, nodes, claimed := map[], map[], map[];
    }

    /** The objects hold the state s. */
    ghost predicate Shows(s: State)
      reads *
    {
      Linked(plans, nodes) && Holds(plans, s.plans) && Indexed(nodes, s.owner) && s.claimed == claimed
    }

    lemma KnownIffNode(t: Id, s: State)
      requires Shows(s)
      ensures Known(s, t) <==> t in nodes
      ensures t in s.owner <==> t in nodes
      ensures t in nodes ==> nodes[t].home == s.owner[t] && s.plans[s.owner[t]].nodes[t] == nodes[t].Value()
      ensures claimed == s.claimed
    {
    }

    lemma AtPlan(plan: TaskPlan, s: State)
      requires Shows(s) && plan.id in plans && plans[plan.id] == plan
      ensures plan.id in s.plans && s.plans[plan.id] == plan.Value()
    {
    }

    lemma KnownPlans(s: State)
      requires Shows(s)
      ensures s.plans.Keys == plans.Keys
    {
    }

    method WriteClaims(claims: map<Id, string>, ghost s: map<Id, Plan>)
      requires Holds(plans, s)
      modifies `claimed
      ensures Holds(plans, s) && claimed == claims
    {
      claimed := claims;
    }

    method WriteNode(t: Id, n: Node, ghost s: map<Id, Plan>)
      requires Linked(plans, nodes) && Holds(plans, s) && t in nodes && n.spec == nodes[t].spec
      modifies nodes[t]
      ensures nodes[t].home in s && Holds(plans, s[nodes[t].home := Put(s[nodes[t].home], t, n)])
      ensures nodes[t].Value() == n
    {
      ghost var pid := nodes[t].home;
      ghost var after := s[pid := Put(s[pid], t, n)];
      nodes[t].Become(n.state, n.claimedBy, n.expiresAt);
      forall p | p in plans ensures plans[p].Value() == after[p] {
        if p == pid { plans[p].OneNodeChanged(t); } else { plans[p].Untouched(); }
      }
      assert after.Keys == plans.Keys;
    }

    method Write(t: Id, n: Node, claims: map<Id, string>, ghost s: State)
      requires Shows(s) && t in nodes && n.spec == nodes[t].spec
      modifies `claimed, nodes[t]
      ensures Shows(WithNode(s, t, n, claims)) && nodes[t].Value() == n && claimed == claims
    {
      KnownIffNode(t, s);
      hide Linked, Indexed;
      WriteClaims(claims, s.plans);
      WriteNode(t, n, s.plans);
    }

    method Claim(ctx: int, taskID: Id, peerID: string, leaseDuration: int, now: int, ghost s: State)
      returns (reply: Reply, spawned: Option<Goroutine>)
      requires Shows(s)
      modifies `claimed, if taskID in nodes then {nodes[taskID]} else {}
      ensures taskID !in nodes ==> reply == Err(NoSuchNode)
      ensures taskID in nodes && old(nodes[taskID].state) == Ready ==> reply == Ok
      ensures taskID in nodes && old(nodes[taskID].state) == Claimed ==>
        reply == Err(AlreadyClaimed(if taskID in old(claimed) then old(claimed)[taskID] else ""))
      ensures taskID in nodes && old(nodes[taskID].state) !in {Ready, Claimed} ==>
        reply == Err(WrongState(old(nodes[taskID].state)))
      ensures reply.Ok? ==> claimed == old(claimed)[taskID := peerID]
      ensures reply.Ok? ==> nodes[taskID].Value() == Node(nodes[taskID].spec, Claimed, peerID, now + leaseDuration)
      ensures !reply.Ok? ==> unchanged(this) && (taskID in nodes ==> unchanged(nodes[taskID]))
      ensures spawned == if reply.Ok? then Some(LeaseWatchdog(taskID, leaseDuration, ctx)) else None
      ensures Shows(DoClaim(s, taskID, peerID, now + leaseDuration).st)
      ensures reply == DoClaim(s, taskID, peerID, now + leaseDuration).reply
    {
      KnownIffNode(taskID, s);
      hide Shows;
      if taskID !in nodes {
        return Err(NoSuchNode), None;
      }
      var node := nodes[taskID];
      if node.state == Claimed {
        return Err(AlreadyClaimed(if taskID in claimed then claimed[taskID] else "")), None;
      }
      if node.state != Ready {
        return Err(WrongState(node.state)), None;
      }
      Write(taskID, Node(node.spec, Claimed, peerID, now + leaseDuration), claimed[taskID := peerID], s);
      return Ok, Some(LeaseWatchdog(taskID, leaseDuration, ctx));
    }

    method Start(taskID: Id, ghost s: State) returns (reply: Reply)
      requires Shows(s)
      modifies `claimed, if taskID in nodes then {nodes[taskID]} else {}
      ensures taskID !in nodes ==> reply == Err(NoSuchNode)
      ensures taskID in nodes && old(nodes[taskID].state) in {Claimed, Running} ==>
        reply == Ok && nodes[taskID].Value() == old(nodes[taskID].Value()).(state := Running)
      ensures taskID in nodes && old(nodes[taskID].state) !in {Claimed, Running} ==>
        reply == Err(WrongState(old(nodes[taskID].state))) && unchanged(nodes[taskID])
      ensures claimed == old(claimed)
      ensures Shows(DoStart(s, taskID).st) && reply == DoStart(s, taskID).reply
    {
      KnownIffNode(taskID, s);
      hide Shows;
      if taskID !in nodes {
        return Err(NoSuchNode);
      }
      var node := nodes[taskID];
      if node.state == Running {
        return Ok;
      }
      if node.state != Claimed {
        return Err(WrongState(node.state));
      }
      Write(taskID, Node(node.spec, Running, node.claimedBy, node.expiresAt), claimed, s);
      return Ok;
    }

    method Failed(taskID: Id, ghost s: State) returns (reply: Reply, published: seq<Event>)
      requires Shows(s)
      modifies `claimed, if taskID in nodes then {nodes[taskID]} else {}
      ensures taskID !in nodes ==> reply == Err(NoSuchNode) && published == [] && unchanged(this)
      ensures taskID in nodes ==> reply == Ok && published == [Event(TaskRepublished, taskID)] && claimed == old(claimed) - {taskID}
      ensures taskID in nodes ==> nodes[taskID].Value() == Node(nodes[taskID].spec, NodeState.Failed, "", 0)
      ensures var done := DoFailed(s, taskID);
        Shows(done.st) && reply == done.reply && published == done.published
    {
      KnownIffNode(taskID, s);
      hide Shows;
      if taskID !in nodes {
        return Err(NoSuchNode), [];
      }
      FailedIs(s, taskID);
      hide WithNode, PlanFail;
      Write(taskID, Node(nodes[taskID].spec, NodeState.Failed, "", 0), claimed - {taskID}, s);
      return Ok, [Event(TaskRepublished, taskID)];
    }

    method Abandon(taskID: Id, ghost s: State) returns (reply: Reply, published: seq<Event>)
      requires Shows(s)
      modifies `claimed, if taskID in nodes then {nodes[taskID]} else {}
      ensures taskID !in nodes ==> reply == Err(NoSuchNode) && published == [] && unchanged(this)
      ensures taskID in nodes && old(nodes[taskID].state) != Claimed ==>
        reply == Err(WrongState(old(nodes[taskID].state))) && published == [] && unchanged(this, nodes[taskID])
      ensures taskID in nodes && old(nodes[taskID].state) == Claimed ==>
        reply == Ok && published == [Event(TaskRepublished, taskID)] && claimed == old(claimed) - {taskID}
      ensures taskID in nodes && old(nodes[taskID].state) == Claimed ==>
        nodes[taskID].Value() == Node(nodes[taskID].spec, Ready, "", 0)
      ensures var done := DoAbandon(s, taskID);
        Shows(done.st) && reply == done.reply && published == done.published
    {
      KnownIffNode(taskID, s);
      AbandonIs(s, taskID);
      hide Shows, WithNode, DoAbandon;
      if taskID !in nodes {
        return Err(NoSuchNode), [];
      }
      if nodes[taskID].state != Claimed {
        return Err(WrongState(nodes[taskID].state)), [];
      }
      Write(taskID, Node(nodes[taskID].spec, Ready, "", 0), claimed - {taskID}, s);
      return Ok, [Event(TaskRepublished, taskID)];
    }

    /** The watchdog's locked region, once its timer has fired. */
    method LeaseExpired(taskID: Id, ghost s: State) returns (published: seq<Event>)
      requires Shows(s)
      modifies `claimed, if taskID in nodes then {nodes[taskID]} else {}
      ensures taskID in nodes && old(nodes[taskID].state) == Claimed ==>
        published == [Event(TaskRepublished, taskID)] && claimed == old(claimed) - {taskID}
      ensures taskID in nodes && old(nodes[taskID].state) == Claimed ==>
        nodes[taskID].Value() == Node(nodes[taskID].spec, Ready, "", 0)
      ensures taskID !in nodes || old(nodes[taskID].state) != Claimed ==>
        published == [] && unchanged(this) && (taskID in nodes ==> unchanged(nodes[taskID]))
      ensures Shows(DoExpire(s, taskID).st) && published == DoExpire(s, taskID).published
    {
      KnownIffNode(taskID, s);
      hide Shows;
      if taskID !in nodes || nodes[taskID].state != Claimed {
        return [];
      }
      ReopenedIs(s, taskID);
      hide WithNode, PlanReopen;
      Write(taskID, Node(nodes[taskID].spec, Ready, "", 0), claimed - {taskID}, s);
      return [Event(TaskRepublished, taskID)];
    }

    /** Every object the manager may write. */
    ghost function Objects(): set<object>
      reads `plans
    {
      plans.Values + NodeObjects()
    }

    ghost function NodeObjects(): set<object>
      reads `plans
    {
      set p, t | p in plans && t in plans[p].nodes :: plans[p].nodes[t]
    }

    lemma ObjectsOf(p: Id, t: Id, s: State)
      requires Shows(s)
      ensures p in plans ==> plans[p] in Objects() && plans[p].nodes.Values <= NodeObjects()
      ensures p in plans ==> p in s.plans && s.plans[p].nodes.Keys == plans[p].nodes.Keys && plans[p].id == p
      ensures t in nodes ==> nodes[t] in NodeObjects() && nodes[t].home in plans && t in plans[nodes[t].home].nodes
    {
    }

    /** The search over all plans, in whatever order, stops at a plan that has the node. */
    method SearchPlan(taskID: Id) returns (found: Option<Id>)
      ensures found.Some? ==> found.value in plans && taskID in plans[found.value].nodes
      ensures found.None? ==> forall p | p in plans :: taskID !in plans[p].nodes
    {
      var todo := plans.Keys;
      while todo != {}
        invariant todo <= plans.Keys
        invariant forall p | p in plans && p !in todo :: taskID !in plans[p].nodes
        decreases todo
      {
        var p :| p in todo;
        if taskID in plans[p].nodes { return Some(p); }
        todo := todo - {p};
      }
      return None;
    }

    method CascadeIn(plan: TaskPlan, list: seq<Id>, ghost s: map<Id, Plan>) returns (readied: seq<Id>)
      requires Linked(plans, nodes) && Holds(plans, s) && plan.id in plans && plans[plan.id] == plan
      modifies plan`predecessorNums, plan.nodes.Values
      ensures plan.id in s && Holds(plans, s[plan.id := Cascade(s[plan.id], list)]) && readied == Readied(s[plan.id], list)
    {
      ghost var after := s[plan.id := Cascade(s[plan.id], list)];
      readied := plan.ReleaseSuccessors(list);
      forall p | p in plans ensures plans[p].Value() == after[p] {
        if p != plan.id { plans[p].Untouched(); }
      }
      assert after.Keys == plans.Keys;
    }

    method DisposeIn(plan: TaskPlan, ghost s: map<Id, Plan>) returns (left: map<Id, string>)
      requires Linked(plans, nodes) && Holds(plans, s) && plan.id in plans && plans[plan.id] == plan
      modifies plan.nodes.Values
      ensures plan.id in s && Holds(plans, s[plan.id := PlanDispose(s[plan.id])]) && left == claimed - LiveSet(s[plan.id])
      ensures Disposal(old(plan.Value()), plan.Value(), claimed, left)
    {
      ghost var after := s[plan.id := PlanDispose(s[plan.id])];
      left := plan.DisposeNodes(claimed);
      forall p | p in plans ensures plans[p].Value() == after[p] {
        if p != plan.id { plans[p].Untouched(); }
      }
      assert after.Keys == plans.Keys;
    }


    /** The rest of Complete, once the node is Done and its plan has been found. */
    method CascadeFrom(plan: TaskPlan, taskID: Id, output: string, ghost s: State)
      returns (published: seq<Event>, sent: seq<PlanResult>)
      requires Shows(s) && plan.id in plans && plans[plan.id] == plan && taskID in plan.nodes
      modifies plan`predecessorNums, plan.nodes.Values
      ensures var done := Cascaded(s, taskID, output, plan.id);
        Shows(done.st) && published == done.published && sent == done.sent
      ensures sent == if (forall t | t in plan.nodes :: plan.nodes[t].state == Done) && plan.hasNotify
        then [PlanResult(PlanOK, output)] else []
    {
      var readied := CascadeIn(plan, Listed(plan.successors, taskID), s.plans);
      var finished := plan.AllNodesDone();
      published := ReadyEvents(readied);
      sent := if finished && plan.hasNotify then [PlanResult(PlanOK, output)] else [];
    }

    method MarkDone(taskID: Id, ghost s: State)
      requires Shows(s) && taskID in nodes
      modifies `claimed, nodes[taskID]
      ensures Shows(DoneState(s, taskID)) && claimed == old(claimed) - {taskID}
    {
      KnownIffNode(taskID, s);
      var node := nodes[taskID];
      Write(taskID, Node(node.spec, Done, node.claimedBy, node.expiresAt), claimed - {taskID}, s);
    }

    method CompleteRunning(taskID: Id, output: string, ghost s: State)
      returns (published: seq<Event>, sent: seq<PlanResult>, ghost stop: Id)
      requires Shows(s) && Known(s, taskID) && StateOf(s, taskID) == Running
      modifies `claimed, Objects()
      ensures stop in s.plans && taskID in s.plans[stop].nodes
      ensures var done := DoComplete(s, taskID, output, stop);
        Shows(done.st) && published == done.published && sent == done.sent
      ensures claimed == old(claimed) - {taskID} && stop in plans
      ensures sent == if (forall t | t in plans[stop].nodes :: plans[stop].nodes[t].state == Done) && plans[stop].hasNotify
        then [PlanResult(PlanOK, output)] else []
    {
      hide Shows, DoComplete, Cascaded, DoneState;
      KnownIffNode(taskID, s);
      ObjectsOf(taskID, taskID, s);
      MarkDone(taskID, s);
      var found := SearchPlan(taskID);
      stop := found.value;
      ObjectsOf(stop, taskID, DoneState(s, taskID));
      DoneThenCascade(s, taskID, output, stop);
      published, sent := CascadeFrom(plans[found.value], taskID, output, DoneState(s, taskID));
    }

    method Complete(taskID: Id, output: string, ghost s: State)
      returns (reply: Reply, published: seq<Event>, sent: seq<PlanResult>, ghost stop: Id)
      requires Shows(s)
      modifies `claimed, Objects()
      ensures taskID !in nodes ==> reply == Err(NoSuchNode)
      ensures taskID in nodes && old(nodes[taskID].state) in {Running, Done} ==> reply == Ok
      ensures taskID in nodes && old(nodes[taskID].state) !in {Running, Done} ==> reply == Err(WrongState(old(nodes[taskID].state)))
      ensures taskID in nodes && old(nodes[taskID].state) == Running ==> claimed == old(claimed) - {taskID} && stop in plans
      ensures taskID in nodes && old(nodes[taskID].state) == Running ==>
        sent == if (forall t | t in plans[stop].nodes :: plans[stop].nodes[t].state == Done) && plans[stop].hasNotify
                then [PlanResult(PlanOK, output)] else []
      ensures taskID !in nodes || old(nodes[taskID].state) != Running ==> published == [] && sent == [] && unchanged(this)
      ensures taskID in s.owner ==> stop in s.plans && taskID in s.plans[stop].nodes
      ensures var done := DoComplete(s, taskID, output, stop);
        Shows(done.st) && reply == done.reply && published == done.published && sent == done.sent
    {
      hide Shows;
      KnownIffNode(taskID, s);
      stop := if taskID in s.owner then s.owner[taskID] else taskID;
      if taskID !in nodes {
        return Err(NoSuchNode), [], [], stop;
      }
      var node := nodes[taskID];
      if node.state == Done {
        return Ok, [], [], stop;
      }
      if node.state != Running {
        return Err(WrongState(node.state)), [], [], stop;
      }
      published, sent, stop := CompleteRunning(taskID, output, s);
      reply := Ok;
    }

    /** The disposal both Dispose and the deadline goroutine do under the lock. */
    method DisposeRest(plan: TaskPlan, ghost s: State)
      requires Shows(s) && plan.id in plans && plans[plan.id] == plan
      modifies `claimed, plan.nodes.Values
      ensures Disposal(old(plan.Value()), plan.Value(), old(claimed), claimed) && Shows(Disposing(s, plan.id))
    {
      hide Disposal, PlanDispose, LiveSet;
      var left := DisposeIn(plan, s.plans);
      WriteClaims(left, s.plans[plan.id := PlanDispose(s.plans[plan.id])]);
    }

    method Dispose(planID: Id, ghost s: State) returns (reply: Reply)
      requires Shows(s)
      modifies `claimed, if planID in plans then plans[planID].nodes.Values else {}
      ensures planID in plans ==> reply == Ok && Disposal(old(plans[planID].Value()), plans[planID].Value(), old(claimed), claimed)
      ensures planID !in plans ==> reply == Err(NoSuchPlan) && unchanged(this)
      ensures Shows(DoDispose(s, planID).st) && reply == DoDispose(s, planID).reply
    {
      if planID !in plans {
        return Err(NoSuchPlan);
      }
      DisposeRest(plans[planID], s);
      return Ok;
    }

    /** The deadline goroutine's locked region; `owing` tells whether it still has a timeout to send. */
    method DeadlinePassed(plan: TaskPlan, ghost s: State) returns (owing: bool)
      requires Shows(s) && plan.id in plans && plans[plan.id] == plan
      modifies `claimed, plan.nodes.Values
      ensures owing <==> exists t | t in plan.nodes :: old(plan.nodes[t].state) != Done
      ensures owing ==> Disposal(old(plan.Value()), plan.Value(), old(claimed), claimed)
      ensures !owing ==> unchanged(this) && forall t | t in plan.nodes :: unchanged(plan.nodes[t])
      ensures Shows(DoDeadline(s, plan.id)) && (owing <==> !AllDone(s.plans[plan.id]))
    {
      AtPlan(plan, s);
      hide Shows, Disposing, Disposal, plan.Value, AllDone, DoDeadline;
      var finished := plan.AllNodesDone();
      DeadlineIs(s, plan.id);
      if finished { return false; }
      DisposeRest(plan, s);
      return true;
    }

    method OpenApart(plan: TaskPlan, ghost s: State) returns (index: map<Id, TaskNode>, ready: seq<Id>)
      requires Shows(s) && plan.Valid() && plan.id !in plans
      modifies plan.nodes.Values
      ensures Shows(s) && plan.Value() == Open(old(plan.Value()))
      ensures index == nodes + plan.nodes && ReadyEvents(ready) == RootEvents(old(plan.Value()), plan.roots)
      ensures forall t | t in plan.nodes :: plan.nodes[t].state == if t in plan.roots then Ready else Pending
    {
      index, ready := plan.OpenNodes(nodes);
      forall p | p in plans ensures plans[p].Value() == s.plans[p] {
        plans[p].Untouched();
      }
    }

    method Enter(plan: TaskPlan, index: map<Id, TaskNode>, ghost v: Plan, ghost s: State)
      requires Shows(s) && plan.Valid() && plan.id !in plans && index == nodes + plan.nodes && plan.Value() == v
      modifies `plans, `nodes
      ensures plans == old(plans)[plan.id := plan] && nodes == index
      ensures Shows(State(s.plans[plan.id := v], s.owner + (map t | t in plan.nodes :: plan.id), s.claimed))
    {
      hide Linked, Indexed;
      LinkedMore(plans, nodes, plan);
      IndexedMore(nodes, s.owner, plan);
      HoldsMore(plans, s.plans, plan);
      plans, nodes := plans[plan.id := plan], index;
    }

    method Ingest(plan: TaskPlan, ghost s: State)
      returns (reply: Reply, published: seq<Event>, spawned: Option<Goroutine>)
      requires Shows(s) && plan.Valid()
      modifies `plans, `nodes, plan.nodes.Values
      ensures reply == if plan.id in old(plans) then Err(PlanExists) else Ok
      ensures spawned == if plan.id !in old(plans) && plan.hasDeadline && plan.hasNotify then Some(DeadlineWatch(plan.id)) else None
      ensures plan.id !in old(plans) ==> plans == old(plans)[plan.id := plan] && nodes == old(nodes) + plan.nodes
      ensures plan.id !in old(plans) ==>
        forall t | t in plan.nodes :: plan.nodes[t].state == if t in plan.roots then Ready else Pending
      ensures plan.id in old(plans) ==> published == [] && unchanged(this) && forall t | t in plan.nodes :: unchanged(plan.nodes[t])
      ensures var done := DoIngest(s, plan.id, old(plan.Value()));
        Shows(done.st) && reply == done.reply && published == done.published
    {
      ghost var before := plan.Value();
      assert plan.nodes.Keys == before.nodes.Keys && plan.roots == before.roots;
      KnownPlans(s);
      hide Shows;
      if plan.id in plans {
        return Err(PlanExists), [], None;
      }
      var index, ready := OpenApart(plan, s);
      Enter(plan, index, Open(before), s);
      return Ok, ReadyEvents(ready), if plan.hasDeadline && plan.hasNotify then Some(DeadlineWatch(plan.id)) else None;
    }

    /** The claimed nodes whose lease has run out, as copies, each once and in no particular order. */
    method Expired(now: int) returns (expired: seq<(Id, Node)>)
      ensures forall e :: e in expired <==>
        e.0 in nodes && e.1 == nodes[e.0].Value() && nodes[e.0].state == Claimed && 0 < nodes[e.0].expiresAt < now
      ensures forall i, j | 0 <= i < j < |expired| :: expired[i].0 != expired[j].0
    {
      expired := [];
      var todo := nodes.Keys;
      while todo != {}
        invariant todo <= nodes.Keys
        invariant forall e :: e in expired <==>
          e.0 in nodes && e.0 !in todo && e.1 == nodes[e.0].Value() && Lapsed(e.1, now)
        invariant forall i, j | 0 <= i < j < |expired| :: expired[i].0 != expired[j].0
        decreases todo
      {
        var t :| t in todo;
        var copy := nodes[t].Value();
        if Lapsed(copy, now) {
          assert forall e | e in expired :: e.0 != t;
          expired := expired + [(t, copy)];
        }
        todo := todo - {t};
      }
    }
  }

  predicate Lapsed(n: Node, now: int) {
    n.state == Claimed && 0 < n.expiresAt < now
  }
}
