/** Why ids must not be mixed: an id listed both with and without dependencies makes a node that is a root and yet waits.
    Such a node is reopened whatever its state when the last node it waits for completes. */
module MixedIds {
  import opened TaskTypes
  import opened Graph
  import opened PlanModel
  import opened PlanInvariants
  import opened DagTheorems
  import PR = PlanRuns

  // ── Running one node ────────────────────────────────────────────────

  function Begun(v: PR.View, t: Id): PR.View {
    PR.PlanNext(PR.PlanNext(v, PR.Claim(t, "", 0)), PR.Start(t))
  }

  /** Claim, start and complete a node. */
  function Ran(v: PR.View, t: Id): PR.View {
    PR.PlanNext(Begun(v, t), PR.Complete(t, ""))
  }

  lemma BegunIs(v: PR.View, t: Id)
    requires InState(v.plan, t, Ready)
    ensures InState(Begun(v, t).plan, t, Running) && Begun(v, t).plan.preds == v.plan.preds
    ensures SameShape(v.plan, Begun(v, t).plan)
    ensures forall u | u in v.plan.nodes && u != t :: Begun(v, t).plan.nodes[u] == v.plan.nodes[u]
    ensures PR.StepsOf(Begun(v, t).log, t).starts == PR.StepsOf(v.log, t).starts + 1
    ensures forall u | u != t :: PR.StepsOf(Begun(v, t).log, u) == PR.StepsOf(v.log, u)
  {
  }

  lemma CompleteIs(v: PR.View, t: Id, u: Id)
    requires InState(v.plan, t, Running) && t !in Listed(v.plan.succ, t) && u in v.plan.nodes && u != t
    ensures var q := PR.PlanNext(v, PR.Complete(t, ""));
      && SameShape(v.plan, q.plan) && InState(q.plan, t, Done)
      && Count(q.plan.preds, u) == Count(v.plan.preds, u) - Occ(v.plan.succ, t, u)
      && Count(q.plan.preds, t) == Count(v.plan.preds, t)
      && q.plan.nodes[u] == AfterCascade(v.plan, u, Occ(v.plan.succ, t, u))
      && PR.StepsOf(q.log, t).starts == PR.StepsOf(v.log, t).starts
      && PR.StepsOf(q.log, u).starts == PR.StepsOf(v.log, u).starts
  {
    CompleteShape(v.plan, t);
    CascadeEffect(SetState(v.plan, t, Done), Listed(v.plan.succ, t));
  }

  lemma RanIs(v: PR.View, t: Id, u: Id)
    requires InState(v.plan, t, Ready) && t !in Listed(v.plan.succ, t) && u in v.plan.nodes && u != t
    ensures SameShape(v.plan, Ran(v, t).plan) && InState(Ran(v, t).plan, t, Done)
    ensures Count(Ran(v, t).plan.preds, u) == Count(v.plan.preds, u) - Occ(v.plan.succ, t, u)
    ensures Count(Ran(v, t).plan.preds, t) == Count(v.plan.preds, t)
    ensures Ran(v, t).plan.nodes[u] == AfterCascade(v.plan, u, Occ(v.plan.succ, t, u))
    ensures PR.StepsOf(Ran(v, t).log, t).starts == PR.StepsOf(v.log, t).starts + 1
    ensures PR.StepsOf(Ran(v, t).log, u).starts == PR.StepsOf(v.log, u).starts
  {
    BegunIs(v, t);
    hide Begun;
    CompleteIs(Begun(v, t), t, u);
  }

  // ── A root that waits ───────────────────────────────────────────────

  ghost predicate ExactAt(p: Plan, u: Id) {
    Count(p.preds, u) == InCount(OpenSources(p), p.succ, u)
  }

  /** What holds of every other node while b is kept where it is and only nodes that wait for nothing are run. */
  predicate OtherAt(p: Plan, u: Id) {
    || (InState(p, u, Pending) && Count(p.preds, u) > 0)
    || InState(p, u, Ready)
    || (InState(p, u, Done) && Count(p.preds, u) == 0)
  }

  /** b is in state s although it still waits for something. */
  ghost predicate Holding(p: Plan, b: Id, s: NodeState) {
    && InState(p, b, s) && Count(p.preds, b) > 0
    && (forall u | u in p.nodes :: ExactAt(p, u))
    && (forall u | u in p.nodes && u != b :: OtherAt(p, u))
  }

  lemma LoopIsWalk(E: Edges, m: Id)
    requires (m, m) in E
    ensures !Acyclic(E)
  {
    var w := [m, m];
    assert IsWalk(E, w) && |w| >= 2 && w[0] == w[|w| - 1];
  }

  lemma NoSelfLoop(p: Plan, m: Id)
    requires Acyclic(EdgesOf(p.succ))
    ensures m !in Listed(p.succ, m)
  {
    if m in Listed(p.succ, m) { LoopIsWalk(EdgesOf(p.succ), m); }
  }

  /** Completing m closes its edges. */
  lemma OneSourceLess(p: Plan, q: Plan, m: Id, u: Id)
    requires p.succ == q.succ && !InState(p, m, Done) && InState(q, m, Done)
    requires forall x | x != m :: InState(q, x, Done) <==> InState(p, x, Done)
    ensures InCount(OpenSources(q), q.succ, u) == InCount(OpenSources(p), p.succ, u) - Occ(p.succ, m, u)
  {
    assert OpenSources(q) == OpenSources(p) - {m};
    if m in p.succ {
      InCountRemove(OpenSources(p), p.succ, m, u);
    } else {
      assert OpenSources(q) == OpenSources(p);
    }
  }

  lemma HitBySource(p: Plan, m: Id, u: Id)
    requires !InState(p, m, Done) && Occ(p.succ, m, u) > 0
    ensures InCount(OpenSources(p), p.succ, u) >= Occ(p.succ, m, u)
  {
    assert m in p.succ;
    InCountRemove(OpenSources(p), p.succ, m, u);
  }

  /** While b waits, some other node waits for nothing and is ready. */
  lemma SomeReady(p: Plan, b: Id, s: NodeState) returns (m: Id)
    requires SoundGraph(p) && Holding(p, b, s)
    ensures m in p.nodes && m != b && p.nodes[m].state == Ready && Count(p.preds, m) == 0
  {
    var E := EdgesOf(p.succ);
    var S := set t | t in p.nodes && p.nodes[t].state != Done;
    assert ExactAt(p, b);
    InCountZero(OpenSources(p), p.succ, b);
    var x :| x in OpenSources(p) && b in Listed(p.succ, x);
    assert x in S;
    AcyclicIffWellFounded(E);
    assert HasMinimal(E, S);
    m :| IsMinimal(E, S, m);
    assert ExactAt(p, m);
    InCountZero(OpenSources(p), p.succ, m);
    forall y | y in OpenSources(p) ensures m !in Listed(p.succ, y) {
      assert m in Listed(p.succ, y) ==> (y, m) in E && y in S;
    }
    assert OtherAt(p, m);
  }

  /** Running a node that waits for nothing leaves every finished node alone. */
  lemma DoneStays(v: PR.View, b: Id, s: NodeState, m: Id, u: Id)
    requires SoundGraph(v.plan) && Holding(v.plan, b, s) && InState(v.plan, m, Ready)
    requires u in v.plan.nodes && u != m && u != b
    ensures OtherAt(Ran(v, m).plan, u) && (InState(Ran(v, m).plan, u, Done) <==> InState(v.plan, u, Done))
  {
    NoSelfLoop(v.plan, m);
    RanIs(v, m, u);
    hide Ran;
    assert ExactAt(v.plan, u) && OtherAt(v.plan, u);
    if Occ(v.plan.succ, m, u) > 0 { HitBySource(v.plan, m, u); }
  }

  /** What running m leaves of b: kept in its state with less to wait for, or reopened. */
  lemma BAfter(v: PR.View, b: Id, s: NodeState, m: Id)
    requires SoundGraph(v.plan) && Holding(v.plan, b, s) && InState(v.plan, m, Ready) && m != b && s != Ready
    ensures InState(Ran(v, m).plan, b, Ready) || (InState(Ran(v, m).plan, b, s) && Count(Ran(v, m).plan.preds, b) > 0)
    ensures PR.StepsOf(Ran(v, m).log, b).starts == PR.StepsOf(v.log, b).starts
  {
    NoSelfLoop(v.plan, m);
    RanIs(v, m, b);
  }

  lemma ExactAfter(v: PR.View, b: Id, s: NodeState, m: Id, u: Id)
    requires SoundGraph(v.plan) && Holding(v.plan, b, s) && InState(v.plan, m, Ready) && Count(v.plan.preds, m) == 0 && m != b
    requires InState(Ran(v, m).plan, b, s) && u in v.plan.nodes
    ensures ExactAt(Ran(v, m).plan, u)
  {
    NoSelfLoop(v.plan, m);
    RanIs(v, m, b);
    forall x | x != m ensures InState(Ran(v, m).plan, x, Done) <==> InState(v.plan, x, Done) {
      if x in v.plan.nodes && x != b { DoneStays(v, b, s, m, x); }
    }
    if u != m { RanIs(v, m, u); }
    hide Ran;
    OneSourceLess(v.plan, Ran(v, m).plan, m, u);
    assert ExactAt(v.plan, u);
  }

  /** One node that waits for nothing is run: b is reopened, or everything still holds. */
  lemma Advance(v: PR.View, b: Id, s: NodeState, m: Id)
    requires SoundGraph(v.plan) && Holding(v.plan, b, s) && s != Ready
    requires m != b && InState(v.plan, m, Ready) && Count(v.plan.preds, m) == 0
    ensures InState(Ran(v, m).plan, b, Ready) || Holding(Ran(v, m).plan, b, s)
    ensures SoundGraph(Ran(v, m).plan) && PR.StepsOf(Ran(v, m).log, b).starts == PR.StepsOf(v.log, b).starts
    ensures Unfinished(Ran(v, m).plan) < Unfinished(v.plan) || InState(Ran(v, m).plan, b, Ready)
  {
    hide Ran, SoundGraph;
    RanShape(v, m, b);
    BAfter(v, b, s, m);
    if !InState(Ran(v, m).plan, b, Ready) {
      forall u | u in v.plan.nodes ensures ExactAt(Ran(v, m).plan, u) { ExactAfter(v, b, s, m, u); }
      forall u | u in v.plan.nodes && u != b ensures OtherAt(Ran(v, m).plan, u) {
        if u != m { DoneStays(v, b, s, m, u); }
      }
      forall u | u in v.plan.nodes && u != m && u != b
        ensures InState(Ran(v, m).plan, u, Done) <==> InState(v.plan, u, Done)
      {
        DoneStays(v, b, s, m, u);
      }
      assert m in Unfinished(v.plan) && m !in Unfinished(Ran(v, m).plan);
    }
  }

  function Unfinished(p: Plan): set<Id> {
    set t | t in p.nodes && p.nodes[t].state != Done
  }

  lemma RanShape(v: PR.View, m: Id, b: Id)
    requires SoundGraph(v.plan) && InState(v.plan, m, Ready) && b in v.plan.nodes && b != m
    ensures SameShape(v.plan, Ran(v, m).plan) && SoundGraph(Ran(v, m).plan) && InState(Ran(v, m).plan, m, Done)
    ensures Count(Ran(v, m).plan.preds, m) == Count(v.plan.preds, m)
  {
    NoSelfLoop(v.plan, m);
    RanIs(v, m, b);
    SoundKept(v.plan, Ran(v, m).plan);
  }

  // ── Running until b is reopened ─────────────────────────────────────

  function RanAll(v: PR.View, ms: seq<Id>): PR.View
    decreases |ms|
  {
    if ms == [] then v else RanAll(Ran(v, ms[0]), ms[1..])
  }

  predicate Runnable(v: PR.View, ms: seq<Id>)
    decreases |ms|
  {
    ms == [] || (InState(v.plan, ms[0], Ready) && Runnable(Ran(v, ms[0]), ms[1..]))
  }

  /** A held node is reopened sooner or later, and it was not run again until then. */
  lemma {:induction false} UntilReopened(v: PR.View, b: Id, s: NodeState) returns (ms: seq<Id>)
    requires SoundGraph(v.plan) && Holding(v.plan, b, s) && s != Ready
    ensures Runnable(v, ms) && InState(RanAll(v, ms).plan, b, Ready)
    ensures PR.StepsOf(RanAll(v, ms).log, b).starts == PR.StepsOf(v.log, b).starts
    decreases Unfinished(v.plan)
  {
    hide Ran, Holding, SoundGraph, Unfinished;
    var m := SomeReady(v.plan, b, s);
    Advance(v, b, s, m);
    if InState(Ran(v, m).plan, b, Ready) {
      ms := [m];
      assert ms[1..] == [];
    } else {
      var rest := UntilReopened(Ran(v, m), b, s);
      ms := [m] + rest;
      assert ms[1..] == rest;
    }
  }

  // ── A new plan with such a root ─────────────────────────────────────

  /** Counters are exact, and the root b waits for something. */
  ghost predicate WaitingRoot(p: Plan, b: Id) {
    SoundPlan(p) && b in p.nodes && b in p.roots && InDegree(p.succ, b) > 0
  }

  lemma OpenIs(p: Plan, b: Id)
    requires WaitingRoot(p, b)
    ensures SoundGraph(Open(p)) && InState(Open(p), b, Ready) && Count(Open(p).preds, b) > 0
    ensures OpenSources(Open(p)) == p.succ.Keys
    ensures forall u | u in p.nodes :: ExactAt(Open(p), u) && OtherAt(Open(p), u) && !InState(Open(p), u, Done)
  {
    var q := Open(p);
    forall u | u in p.nodes ensures !InState(q, u, Done) && OtherAt(q, u) { assert q.nodes[u] == OpenNode(p, u); }
    assert OpenSources(q) == p.succ.Keys;
    SoundKept(p, q);
  }

  function FirstClaim(p: Plan, b: Id, peer: string, expires: int): PR.View {
    PR.PlanNext(PR.View(Open(p), map[], PR.NewLog), PR.Claim(b, peer, expires))
  }

  /** Claimed at once, b is held while it waits. */
  lemma ClaimHolds(p: Plan, b: Id, peer: string, expires: int)
    requires WaitingRoot(p, b)
    ensures SoundGraph(FirstClaim(p, b, peer, expires).plan)
    ensures Holding(FirstClaim(p, b, peer, expires).plan, b, NodeState.Claimed)
  {
    OpenIs(p, b);
    var q := FirstClaim(p, b, peer, expires).plan;
    hide SoundGraph, Open;
    SoundKept(Open(p), q);
    assert OpenSources(q) == OpenSources(Open(p));
    forall u | u in q.nodes ensures ExactAt(q, u) { assert ExactAt(Open(p), u); }
    forall u | u in q.nodes && u != b ensures OtherAt(q, u) { assert OtherAt(Open(p), u); }
  }

  /** Run at once, b is held while it waits. */
  lemma RunHolds(p: Plan, b: Id)
    requires WaitingRoot(p, b)
    ensures var v := PR.View(Open(p), map[], PR.NewLog);
      && InState(v.plan, b, Ready) && SoundGraph(Ran(v, b).plan) && Holding(Ran(v, b).plan, b, Done)
      && PR.StepsOf(Ran(v, b).log, b).starts == 1
  {
    hide Ran, SoundGraph, Open;
    var v := PR.View(Open(p), map[], PR.NewLog);
    OpenIs(p, b);
    WaitsForOthers(p, b);
    RanAlone(v, b);
    SoundKept(v.plan, Ran(v, b).plan);
    forall u | u in p.nodes && u != b ensures OtherAt(Ran(v, b).plan, u) && !InState(Ran(v, b).plan, u, Done) {
      RunOther(p, b, u);
    }
    forall u | u in p.nodes ensures ExactAt(Ran(v, b).plan, u) {
      OneSourceLess(v.plan, Ran(v, b).plan, b, u);
      assert ExactAt(v.plan, u);
      if u != b { RanIs(v, b, u); }
    }
  }

  lemma WaitsForOthers(p: Plan, b: Id)
    requires WaitingRoot(p, b)
    ensures b !in Listed(p.succ, b) && b !in Listed(Open(p).succ, b) && Open(p).nodes.Keys == p.nodes.Keys
  {
    NoSelfLoop(p, b);
  }

  lemma RunOther(p: Plan, b: Id, u: Id)
    requires WaitingRoot(p, b) && u in p.nodes && u != b
    ensures var v := PR.View(Open(p), map[], PR.NewLog);
      OtherAt(Ran(v, b).plan, u) && !InState(Ran(v, b).plan, u, Done)
  {
    hide Ran, SoundGraph, Open;
    var v := PR.View(Open(p), map[], PR.NewLog);
    OpenIs(p, b);
    WaitsForOthers(p, b);
    RanIs(v, b, u);
    assert ExactAt(v.plan, u) && OtherAt(v.plan, u);
    if Occ(v.plan.succ, b, u) > 0 { HitBySource(v.plan, b, u); }
  }

  lemma RanAlone(v: PR.View, t: Id)
    requires InState(v.plan, t, Ready) && t !in Listed(v.plan.succ, t)
    ensures SameShape(v.plan, Ran(v, t).plan) && InState(Ran(v, t).plan, t, Done)
    ensures Count(Ran(v, t).plan.preds, t) == Count(v.plan.preds, t)
    ensures PR.StepsOf(Ran(v, t).log, t).starts == PR.StepsOf(v.log, t).starts + 1
  {
    BegunIs(v, t);
    hide Begun;
    CompleteAlone(Begun(v, t), t);
  }

  lemma CompleteAlone(v: PR.View, t: Id)
    requires InState(v.plan, t, Running) && t !in Listed(v.plan.succ, t)
    ensures var q := PR.PlanNext(v, PR.Complete(t, ""));
      && SameShape(v.plan, q.plan) && InState(q.plan, t, Done) && Count(q.plan.preds, t) == Count(v.plan.preds, t)
      && PR.StepsOf(q.log, t).starts == PR.StepsOf(v.log, t).starts
  {
    CompleteShape(v.plan, t);
    CascadeEffect(SetState(v.plan, t, Done), Listed(v.plan.succ, t));
  }
}
