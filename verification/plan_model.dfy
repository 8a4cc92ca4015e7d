/** What one locked region of the state manager does to a single plan. */
module PlanModel {
  import opened TaskTypes

  predicate InState(p: Plan, t: Id, s: NodeState) {
    t in p.nodes && p.nodes[t].state == s
  }

  function Put(p: Plan, t: Id, n: Node): Plan {
    p.(nodes := p.nodes[t := n])
  }

  function SetState(p: Plan, t: Id, s: NodeState): Plan {
    if t in p.nodes then Put(p, t, p.nodes[t].(state := s)) else p
  }

  /** Back to an unleased node in state s. */
  function Release(p: Plan, t: Id, s: NodeState): Plan {
    if t in p.nodes then Put(p, t, p.nodes[t].(state := s, claimedBy := "", expiresAt := 0)) else p
  }

  function OpenNode(p: Plan, t: Id): Node
    requires t in p.nodes
  {
    p.nodes[t].(state := if t in p.roots then Ready else Pending)
  }

  /** Ingest: every node Pending, then the roots Ready. */
  function Open(p: Plan): Plan {
    p.(nodes := map t | t in p.nodes :: OpenNode(p, t))
  }

  function PlanClaim(p: Plan, t: Id, peer: string, expires: int): Plan {
    if InState(p, t, Ready)
    then Put(p, t, p.nodes[t].(state := Claimed, claimedBy := peer, expiresAt := expires))
    else p
  }

  function PlanStart(p: Plan, t: Id): Plan {
    if InState(p, t, Claimed) then SetState(p, t, Running) else p
  }

  function PlanReopen(p: Plan, t: Id): Plan {
    if InState(p, t, Claimed) then Release(p, t, Ready) else p
  }

  function PlanFail(p: Plan, t: Id): Plan {
    Release(p, t, Failed)
  }

  function LiveSet(p: Plan): set<Id> {
    set t | t in p.nodes && !Terminal(p.nodes[t].state)
  }

  function DisposedNode(n: Node): Node {
    if Terminal(n.state) then n else n.(state := Disposed, claimedBy := "", expiresAt := 0)
  }

  function PlanDispose(p: Plan): Plan {
    p.(nodes := map t | t in p.nodes :: DisposedNode(p.nodes[t]))
  }

  /** One successor in the cascade: count down, and release the node when nothing is left to wait for. */
  function ReleaseOne(p: Plan, s: Id): Plan {
    if s !in p.nodes then p else
      var c := Count(p.preds, s) - 1;
      var q := p.(preds := p.preds[s := c]);
      if c <= 0 then SetState(q, s, Ready) else q
  }

  function Cascade(p: Plan, todo: seq<Id>): Plan {
    if todo == [] then p
    else ReleaseOne(Cascade(p, todo[..|todo| - 1]), todo[|todo| - 1])
  }

  /** The nodes announced as ready while the cascade runs, in order. */
  function Readied(p: Plan, todo: seq<Id>): seq<Id> {
    if todo == [] then [] else
      var s := todo[|todo| - 1];
      var before := todo[..|todo| - 1];
      Readied(p, before) +
      (if s in p.nodes && Count(Cascade(p, before).preds, s) - 1 <= 0 then [s] else [])
  }

  /** Complete on a running node: Done, then the cascade over its successor list. */
  function PlanComplete(p: Plan, t: Id): Plan {
    if InState(p, t, Running) then Cascade(SetState(p, t, Done), Listed(p.succ, t)) else p
  }

  /** A listed node after a cascade that counted it down `hits` times. */
  function AfterCascade(p: Plan, s: Id, hits: nat): Node
    requires s in p.nodes
  {
    if hits > 0 && Count(p.preds, s) - hits <= 0 then p.nodes[s].(state := Ready) else p.nodes[s]
  }

  lemma PutShape(p: Plan, t: Id, n: Node)
    requires t in p.nodes && n.spec == p.nodes[t].spec
    ensures SameShape(p, Put(p, t, n))
  {
  }

  lemma ReleaseOneShape(p: Plan, s: Id)
    ensures SameShape(p, ReleaseOne(p, s))
  {
    if s in p.nodes {
      var q := p.(preds := p.preds[s := Count(p.preds, s) - 1]);
      assert SameShape(p, q);
      PutShape(q, s, q.nodes[s].(state := Ready));
    }
  }

  lemma ShapeTransitive(p: Plan, q: Plan, r: Plan)
    requires SameShape(p, q) && SameShape(q, r)
    ensures SameShape(p, r)
  {
  }

  lemma {:induction false} CascadeShape(p: Plan, todo: seq<Id>)
    ensures SameShape(p, Cascade(p, todo))
  {
    if todo != [] {
      var q := Cascade(p, todo[..|todo| - 1]);
      CascadeShape(p, todo[..|todo| - 1]);
      ReleaseOneShape(q, todo[|todo| - 1]);
      ShapeTransitive(p, q, ReleaseOne(q, todo[|todo| - 1]));
    }
  }

  lemma CompleteShape(p: Plan, t: Id)
    ensures SameShape(p, PlanComplete(p, t))
  {
    if InState(p, t, Running) {
      var p1 := SetState(p, t, Done);
      PutShape(p, t, p.nodes[t].(state := Done));
      CascadeShape(p1, Listed(p.succ, t));
      ShapeTransitive(p, p1, PlanComplete(p, t));
    }
  }

  lemma ReleaseShape(p: Plan, t: Id, s: NodeState)
    ensures SameShape(p, Release(p, t, s))
  {
    if t in p.nodes { PutShape(p, t, p.nodes[t].(state := s, claimedBy := "", expiresAt := 0)); }
  }

  lemma {:induction false} CascadeAt(p: Plan, todo: seq<Id>, s: Id)
    requires s in p.nodes
    ensures s in Cascade(p, todo).nodes
    ensures Count(Cascade(p, todo).preds, s) == Count(p.preds, s) - multiset(todo)[s]
    ensures Cascade(p, todo).nodes[s] == AfterCascade(p, s, multiset(todo)[s])
  {
    if todo != [] {
      var before := todo[..|todo| - 1];
      assert todo == before + [todo[|todo| - 1]];
      CascadeAt(p, before, s);
    }
  }

  /** The cascade in closed form: each counter drops by the number of occurrences, whatever their order,
      and a listed node ends Ready exactly when its counter ends at zero or below. */
  lemma CascadeEffect(p: Plan, todo: seq<Id>)
    ensures SameShape(p, Cascade(p, todo))
    ensures forall s | s in p.nodes ::
      Count(Cascade(p, todo).preds, s) == Count(p.preds, s) - multiset(todo)[s]
    ensures forall s | s in p.nodes ::
      Cascade(p, todo).nodes[s] == AfterCascade(p, s, multiset(todo)[s])
  {
    CascadeShape(p, todo);
    forall s | s in p.nodes
      ensures Count(Cascade(p, todo).preds, s) == Count(p.preds, s) - multiset(todo)[s]
      ensures Cascade(p, todo).nodes[s] == AfterCascade(p, s, multiset(todo)[s])
    {
      CascadeAt(p, todo, s);
    }
  }

  /** Two successor lists with the same occurrences cascade to the same counters and states. */
  lemma CascadeOrderFree(p: Plan, a: seq<Id>, b: seq<Id>)
    requires multiset(a) == multiset(b)
    ensures Cascade(p, a).nodes == Cascade(p, b).nodes
    ensures forall s | s in p.nodes :: Count(Cascade(p, a).preds, s) == Count(Cascade(p, b).preds, s)
  {
    CascadeEffect(p, a);
    CascadeEffect(p, b);
    assert Cascade(p, a).nodes.Keys == Cascade(p, b).nodes.Keys;
  }

  /** Every node is announced at most as often as it is listed, and exactly once when its counter
      reaches zero with the last occurrence. */
  lemma {:induction false} ReadiedOnce(p: Plan, todo: seq<Id>, s: Id)
    requires s in p.nodes && Count(p.preds, s) >= multiset(todo)[s]
    ensures multiset(Readied(p, todo))[s] ==
      if s in todo && Count(p.preds, s) == multiset(todo)[s] then 1 else 0
  {
    if todo != [] {
      var before := todo[..|todo| - 1];
      assert todo == before + [todo[|todo| - 1]];
      ReadiedOnce(p, before, s);
      CascadeEffect(p, before);
      if todo[|todo| - 1] == s {
        assert s in before <==> multiset(before)[s] > 0;
      }
    }
  }

  /** Entry k of a successor list brings its node's counter to zero or below. */
  predicate Releases(p: Plan, todo: seq<Id>, k: int)
    requires 0 <= k < |todo|
  {
    todo[k] in p.nodes && Count(p.preds, todo[k]) <= multiset(todo[..k + 1])[todo[k]]
  }

  /** The announcements follow the list: one for each entry that finds nothing left to wait for, in order. */
  lemma {:induction false} ReadiedInOrder(p: Plan, todo: seq<Id>) returns (ks: seq<int>)
    ensures Ascending(ks, |todo|) && forall k | 0 <= k < |todo| :: k in ks <==> Releases(p, todo, k)
    ensures |Readied(p, todo)| == |ks| && forall j | 0 <= j < |ks| :: Readied(p, todo)[j] == todo[ks[j]]
  {
    ks := [];
    if todo != [] {
      var n := |todo| - 1;
      ks := ReadiedInOrder(p, todo[..n]);
      forall k | 0 <= k < n ensures Releases(p, todo, k) <==> Releases(p, todo[..n], k) { ReleasesEarlier(p, todo, k); }
      ReadiedOneMore(p, todo);
      hide Releases, Readied;
      if Releases(p, todo, n) { ks := ks + [n]; }
    }
  }

  lemma ReleasesEarlier(p: Plan, todo: seq<Id>, k: int)
    requires 0 <= k < |todo| - 1
    ensures Releases(p, todo, k) <==> Releases(p, todo[..|todo| - 1], k)
  {
    assert todo[..k + 1] == todo[..|todo| - 1][..k + 1];
  }

  lemma ReadiedOneMore(p: Plan, todo: seq<Id>)
    requires todo != []
    ensures var n := |todo| - 1;
      Readied(p, todo) == Readied(p, todo[..n]) + (if Releases(p, todo, n) then [todo[n]] else [])
  {
    var n := |todo| - 1;
    assert todo[..n + 1] == todo[..n] + [todo[n]];
    if todo[n] in p.nodes { CascadeAt(p, todo[..n], todo[n]); }
  }
}
