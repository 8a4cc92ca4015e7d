/** The state manager on its own mutable nodes and plans; every locked region refines the model's function. */
module StateManager {
  import opened TaskTypes
  import opened PlanModel
  import opened ManagerModel

  class TaskNode {
    const id: Id
    const spec: TaskSpec
    ghost const home: Id // the plan that holds this node
    var state: NodeState
    var claimedBy: string
    var expiresAt: int

    constructor (id: Id, spec: TaskSpec, ghost home: Id)
      ensures this.id == id && this.home == home && Value() == Node(spec, Pending, "", 0)
    {
      this.id, this.spec, this.home := id, spec, home;
      state, claimedBy, expiresAt := Pending, "", 0;
    }

    function Value(): Node
      reads this
    {
      Node(spec, state, claimedBy, expiresAt)
    }

    method Become(state: NodeState, claimedBy: string, expiresAt: int)
      modifies this
      ensures Value() == Node(spec, state, claimedBy, expiresAt)
    {
      this.state, this.claimedBy, this.expiresAt := state, claimedBy, expiresAt;
    }

    method Dispose()
      modifies this
      ensures Value() == DisposedNode(old(Value()))
    {
      if !Terminal(state) {
        state, claimedBy, expiresAt := Disposed, "", 0;
      }
    }
  }

  class TaskPlan {
    const id: Id
    const roots: seq<Id>
    const nodes: map<Id, TaskNode>
    const successors: map<Id, seq<Id>>
    const hasDeadline: bool
    var hasNotify: bool
    var predecessorNums: map<Id, int>

    constructor (id: Id, roots: seq<Id>, nodes: map<Id, TaskNode>, successors: map<Id, seq<Id>>,
                 predecessorNums: map<Id, int>, hasDeadline: bool)
      ensures this.id == id && this.nodes == nodes
      ensures this.roots == roots && this.successors == successors && this.predecessorNums == predecessorNums
      ensures this.hasDeadline == hasDeadline && !hasNotify
    {
      this.id, this.roots, this.nodes, this.successors := id, roots, nodes, successors;
      this.predecessorNums, this.hasDeadline, hasNotify := predecessorNums, hasDeadline, false;
    }

    /** A plan's nodes know their own id and their plan, so no two entries of any plans share a node. */
    ghost predicate Valid() {
      forall t | t in nodes :: nodes[t].id == t && nodes[t].home == id
    }

    function Value(): Plan
      reads this, nodes.Values
    {
      Plan(map t | t in nodes :: nodes[t].Value(), successors, predecessorNums, roots, hasDeadline, hasNotify)
    }

    /** Nothing in the plan has changed since. */
    twostate lemma Untouched()
      requires old(allocated(nodes)) && unchanged(this)
      requires forall u | u in nodes :: unchanged(nodes[u])
      ensures Value() == old(Value())
    {
    }

    /** Nothing but the node t has changed since. */
    twostate lemma OneNodeChanged(t: Id)
      requires Valid() && t in nodes && old(allocated(nodes)) && unchanged(this)
      requires forall u | u in nodes && u != t :: unchanged(nodes[u])
      ensures Value() == Put(old(Value()), t, nodes[t].Value())
    {
    }

    method WriteNodeState(t: Id, state: NodeState)
      requires Valid() && t in nodes
      modifies nodes[t]
      ensures Value() == SetState(old(Value()), t, state)
      ensures nodes[t].Value() == Node(nodes[t].spec, state, old(nodes[t].claimedBy), old(nodes[t].expiresAt))
    {
      nodes[t].state := state;
      OneNodeChanged(t);
    }

    /** Every node becomes Pending and enters the index. */
    method ResetNodes(index: map<Id, TaskNode>) returns (grown: map<Id, TaskNode>)
      requires Valid()
      modifies nodes.Values
      ensures Value() == PendingExcept(old(Value()), {})
      ensures grown == index + nodes
    {
      ghost var before := Value();
      assert before.nodes.Keys == nodes.Keys;
      hide Value;
      grown := index;
      var todo := nodes.Keys;
      NothingSkipped(before);
      while todo != {}
        invariant todo <= nodes.Keys && Value() == PendingExcept(before, todo)
        invariant forall t | t in nodes && t !in todo :: t in grown && grown[t] == nodes[t]
        invariant forall t | t !in nodes || t in todo :: t in grown <==> t in index
        invariant forall t | t in grown && (t !in nodes || t in todo) :: grown[t] == index[t]
        decreases todo
      {
        var t :| t in todo;
        grown := grown[nodes[t].id := nodes[t]];
        WriteNodeState(t, Pending);
        PendingOneMore(before, todo, t);
        todo := todo - {t};
      }
    }

    /** The listed roots become Ready; a root that names no node is skipped. */
    method OpenRoots() returns (ready: seq<Id>)
      requires Valid()
      modifies nodes.Values
      ensures Value() == RootsOpen(old(Value()), roots)
      ensures ReadyEvents(ready) == RootEvents(old(Value()), roots)
    {
      ghost var before := Value();
      assert before.nodes.Keys == nodes.Keys;
      ready := [];
      NothingSkipped(before);
      assert RootEvents(before, []) == [];
      hide Value, RootsOpen, RootEvents, SetState;
      for i := 0 to |roots|
        invariant Value() == RootsOpen(before, roots[..i])
        invariant ReadyEvents(ready) == RootEvents(before, roots[..i])
      {
        var t := roots[i];
        assert roots[..i + 1] == roots[..i] + [t];
        RootsOneMore(before, roots[..i], t);
        RootEventsOneMore(before, roots[..i], t, ready);
        if t in nodes {
          WriteNodeState(t, Ready);
          ready := ready + [t];
        }
      }
      assert roots[..|roots|] == roots;
    }

    /** What Ingest does to the plan itself. */
    method OpenNodes(index: map<Id, TaskNode>) returns (grown: map<Id, TaskNode>, ready: seq<Id>)
      requires Valid()
      modifies nodes.Values
      ensures Value() == Open(old(Value()))
      ensures forall t | t in nodes :: nodes[t].state == if t in roots then Ready else Pending
      ensures forall t | t in nodes :: nodes[t].claimedBy == old(nodes[t].claimedBy) && nodes[t].expiresAt == old(nodes[t].expiresAt)
      ensures grown == index + nodes && ReadyEvents(ready) == RootEvents(old(Value()), roots)
    {
      ghost var before := Value();
      hide PendingExcept, RootsOpen, RootEvents, ReadyEvents;
      grown := ResetNodes(index);
      ready := OpenRoots();
      OpenInTwoPasses(before);
      RootEventsByKeys(before, PendingExcept(before, {}), roots);
      forall t | t in nodes ensures nodes[t].Value() == OpenNode(before, t) { assert Value().nodes[t] == OpenNode(before, t); }
    }

    method AllNodesDone() returns (done: bool)
      ensures done == AllDone(Value()) && (done <==> forall t | t in nodes :: nodes[t].state == Done)
    {
      var todo := nodes.Keys;
      while todo != {}
        invariant todo <= nodes.Keys
        invariant forall t | t in nodes && t !in todo :: nodes[t].state == Done
        decreases todo
      {
        var t :| t in todo;
        if nodes[t].state != Done {
          assert Value().nodes[t].state != Done;
          return false;
        }
        todo := todo - {t};
      }
      return true;
    }

    /** One successor of a completed node. */
    method ReleaseSuccessor(s: Id) returns (ready: bool)
      requires Valid()
      modifies this`predecessorNums, nodes.Values
      ensures Value() == ReleaseOne(old(Value()), s)
      ensures ready <==> s in nodes && Count(old(predecessorNums), s) - 1 <= 0
      ensures forall t | t in nodes :: nodes[t].claimedBy == old(nodes[t].claimedBy) && nodes[t].expiresAt == old(nodes[t].expiresAt)
    {
      ValueParts();
      hide Value;
      if s !in nodes { return false; }
      var c := Count(predecessorNums, s) - 1;
      WriteCount(s, c);
      if c <= 0 { WriteNodeState(s, Ready); }
      return c <= 0;
    }

    lemma ValueParts()
      ensures Value().preds == predecessorNums && Value().nodes.Keys == nodes.Keys
    {
    }

    method WriteCount(s: Id, c: int)
      modifies `predecessorNums
      ensures Value() == old(Value()).(preds := old(predecessorNums)[s := c])
    {
      predecessorNums := predecessorNums[s := c];
      assert Value().nodes == old(Value()).nodes;
    }

    /** The cascade over a successor list. */
    method ReleaseSuccessors(list: seq<Id>) returns (readied: seq<Id>)
      requires Valid()
      modifies this`predecessorNums, nodes.Values
      ensures Value() == Cascade(old(Value()), list)
      ensures readied == Readied(old(Value()), list)
      ensures forall t | t in nodes :: nodes[t].claimedBy == old(nodes[t].claimedBy) && nodes[t].expiresAt == old(nodes[t].expiresAt)
    {
      ghost var before := Value();
      readied := [];
      for i := 0 to |list|
        invariant Value() == Cascade(before, list[..i])
        invariant readied == Readied(before, list[..i])
        invariant unchanged(`hasNotify)
        invariant forall t | t in nodes ::
          nodes[t].claimedBy == old(nodes[t].claimedBy) && nodes[t].expiresAt == old(nodes[t].expiresAt)
      {
        assert list[..i + 1][..i] == list[..i];
        CascadeShape(before, list[..i]);
        var ready := ReleaseSuccessor(list[i]);
        if ready { readied := readied + [list[i]]; }
      }
      assert list[..|list|] == list;
    }

    method DisposeNode(t: Id) returns (live: bool)
      requires Valid() && t in nodes && t in Value().nodes
      modifies nodes[t]
      ensures Value() == Put(old(Value()), t, DisposedNode(old(Value()).nodes[t]))
      ensures live == !Terminal(old(Value()).nodes[t].state)
    {
      live := !Terminal(nodes[t].state);
      nodes[t].Dispose();
      OneNodeChanged(t);
    }

    /** Every node that is not finished is disposed and loses its claim. */
    method DisposeNodes(claimed: map<Id, string>) returns (left: map<Id, string>)
      requires Valid()
      modifies nodes.Values
      ensures Value() == PlanDispose(old(Value()))
      ensures left == claimed - LiveSet(old(Value()))
      ensures Disposal(old(Value()), Value(), claimed, left)
    {
      hide Value, PlanDispose, LiveSet, Disposal;
      DisposalMeans(Value(), claimed);
      left := DisposeEach(claimed);
    }

    method DisposeEach(claimed: map<Id, string>) returns (left: map<Id, string>)
      requires Valid()
      modifies nodes.Values
      ensures Value() == PlanDispose(old(Value()))
      ensures left == claimed - LiveSet(old(Value()))
    {
      ghost var before := Value();
      assert before.nodes.Keys == nodes.Keys;
      left := claimed;
      var todo := nodes.Keys;
      NothingSkipped(before);
      assert ClaimsLeft(claimed, before, todo) == claimed;
      DisposedAll(before, claimed);
      hide Value, DisposedExcept, ClaimsLeft, PlanDispose, LiveSet;
      while todo != {}
        invariant todo <= nodes.Keys && Value() == DisposedExcept(before, todo)
        invariant left == ClaimsLeft(claimed, before, todo)
        decreases todo
      {
        var t :| t in todo;
        DisposeOneMore(before, todo, t, claimed);
        var live := DisposeNode(t);
        if live { left := left - {nodes[t].id}; }
        todo := todo - {t};
      }
    }
  }

  /** From p to q every node that was not Done, Failed or Disposed has been disposed and has lost its claim. */
  predicate Disposal(p: Plan, q: Plan, claims: map<Id, string>, left: map<Id, string>) {
    && q.nodes.Keys == p.nodes.Keys && q.(nodes := p.nodes) == p
    && (forall t | t in p.nodes && p.nodes[t].state in {Done, Failed, Disposed} :: q.nodes[t] == p.nodes[t])
    && (forall t | t in p.nodes && p.nodes[t].state !in {Done, Failed, Disposed} ::
          q.nodes[t] == Node(p.nodes[t].spec, Disposed, "", 0))
    && left == map t | t in claims && !(t in p.nodes && p.nodes[t].state !in {Done, Failed, Disposed}) :: claims[t]
  }

  lemma DisposalMeans(p: Plan, claims: map<Id, string>)
    ensures Disposal(p, PlanDispose(p), claims, claims - LiveSet(p))
  {
  }

  /** The claims without those of the nodes disposed so far. */
  function ClaimsLeft(claimed: map<Id, string>, p: Plan, todo: set<Id>): map<Id, string> {
    claimed - (LiveSet(p) - todo)
  }

  lemma DisposedAll(p: Plan, claimed: map<Id, string>)
    ensures DisposedExcept(p, {}) == PlanDispose(p) && ClaimsLeft(claimed, p, {}) == claimed - LiveSet(p)
  {
    assert DisposedExcept(p, {}).nodes == PlanDispose(p).nodes;
    assert LiveSet(p) - {} == LiveSet(p);
  }

  function DisposedExcept(p: Plan, todo: set<Id>): Plan {
    p.(nodes := map t | t in p.nodes :: if t in todo then p.nodes[t] else DisposedNode(p.nodes[t]))
  }

  lemma DisposeOneMore(p: Plan, todo: set<Id>, t: Id, claimed: map<Id, string>)
    requires t in todo && t in p.nodes
    ensures t in DisposedExcept(p, todo).nodes && DisposedExcept(p, todo).nodes[t] == p.nodes[t]
    ensures Put(DisposedExcept(p, todo), t, DisposedNode(p.nodes[t])) == DisposedExcept(p, todo - {t})
    ensures ClaimsLeft(claimed, p, todo - {t}) ==
      ClaimsLeft(claimed, p, todo) - (if Terminal(p.nodes[t].state) then {} else {t})
  {
    assert Put(DisposedExcept(p, todo), t, DisposedNode(p.nodes[t])).nodes == DisposedExcept(p, todo - {t}).nodes;
    assert LiveSet(p) - (todo - {t}) == (LiveSet(p) - todo) + (if Terminal(p.nodes[t].state) then {} else {t});
  }

  function PendingExcept(p: Plan, todo: set<Id>): Plan {
    p.(nodes := map t | t in p.nodes :: if t in todo then p.nodes[t] else p.nodes[t].(state := Pending))
  }

  lemma PendingOneMore(p: Plan, todo: set<Id>, t: Id)
    requires t in todo && t in p.nodes
    ensures SetState(PendingExcept(p, todo), t, Pending) == PendingExcept(p, todo - {t})
  {
    assert SetState(PendingExcept(p, todo), t, Pending).nodes == PendingExcept(p, todo - {t}).nodes;
  }

  function RootsOpen(p: Plan, listed: seq<Id>): Plan {
    p.(nodes := map t | t in p.nodes :: if t in listed then p.nodes[t].(state := Ready) else p.nodes[t])
  }

  lemma RootsOneMore(p: Plan, listed: seq<Id>, t: Id)
    ensures RootsOpen(p, listed + [t]) == SetState(RootsOpen(p, listed), t, Ready)
  {
    assert RootsOpen(p, listed + [t]).nodes == SetState(RootsOpen(p, listed), t, Ready).nodes;
  }

  lemma RootEventsOneMore(p: Plan, listed: seq<Id>, t: Id, ready: seq<Id>)
    requires ReadyEvents(ready) == RootEvents(p, listed)
    ensures RootEvents(p, listed + [t]) == ReadyEvents(if t in p.nodes then ready + [t] else ready)
  {
    assert (listed + [t])[..|listed|] == listed;
  }

  /** Nothing has happened to a plan when every node is still to come, or no root has been listed. */
  lemma NothingSkipped(p: Plan)
    ensures PendingExcept(p, p.nodes.Keys) == p && DisposedExcept(p, p.nodes.Keys) == p && RootsOpen(p, []) == p
  {
    assert PendingExcept(p, p.nodes.Keys).nodes == p.nodes;
    assert DisposedExcept(p, p.nodes.Keys).nodes == p.nodes;
    assert RootsOpen(p, []).nodes == p.nodes;
  }

  /** Pending everywhere and then the roots Ready is what Ingest does to a plan. */
  lemma OpenInTwoPasses(p: Plan)
    ensures RootsOpen(PendingExcept(p, {}), p.roots) == Open(p)
  {
    assert RootsOpen(PendingExcept(p, {}), p.roots).nodes == Open(p).nodes;
  }

  lemma {:induction false} RootEventsByKeys(p: Plan, q: Plan, roots: seq<Id>)
    requires p.nodes.Keys == q.nodes.Keys
    ensures RootEvents(p, roots) == RootEvents(q, roots)
  {
    if roots != [] { RootEventsByKeys(p, q, roots[..|roots| - 1]); }
  }
}
