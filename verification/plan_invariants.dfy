/** What every operation keeps of a single plan. */
module PlanInvariants {
  import opened TaskTypes
  import opened Graph
  import opened PlanModel
  import opened PlanRuns

  // ── Any plan ────────────────────────────────────────────────────────

  /** Disposal takes the whole plan: beside a disposed node nothing is live. */
  predicate DisposalInv(p: Plan) {
    (exists t | t in p.nodes :: p.nodes[t].state == Disposed) ==> Closed(p)
  }

  /** The four situations of a plan with a callback: nothing sent yet, the result sent, the timeout owed, the timeout sent. */
  predicate NoticeInv(v: View) {
    && (v.log.sent == [] ==> v.log.buffer == [])
    && (v.log.watch == Never ==> !(v.plan.hasDeadline && v.plan.hasNotify))
    && (v.log.watch == Armed || v.log.watch == Owing || v.log.watch == Ended ==> v.plan.hasDeadline && v.plan.hasNotify)
    && (v.plan.hasNotify && v.plan.nodes.Keys != {} ==>
      || (v.log.sent == [] && !AllDone(v.plan) && (v.log.watch == Unarmed || v.log.watch == Armed || v.log.watch == Never))
      || (|v.log.sent| == 1 && v.log.sent[0].status == PlanOK && AllDone(v.plan) && v.log.watch != Owing)
      || (v.log.sent == [] && !AllDone(v.plan) && Closed(v.plan) && v.log.watch == Owing)
      || (|v.log.sent| == 1 && v.log.sent[0].status == PlanTimeout && !AllDone(v.plan) && Closed(v.plan) && v.log.watch == Ended))
  }

  predicate BasicInv(v: View) {
    DisposalInv(v.plan) && NoticeInv(v)
  }

  /** No operation changes anything in a plan that is closed. */
  lemma ClosedStays(v: View, op: Op)
    requires Closed(v.plan) && Allowed(v, op)
    ensures PlanNext(v, op).plan == v.plan
  {
    if op.Dispose? || op.Deadline? {
      assert PlanDispose(v.plan).nodes == v.plan.nodes;
    }
  }

  lemma DisposeCloses(p: Plan)
    ensures Closed(PlanDispose(p)) && (AllDone(PlanDispose(p)) <==> AllDone(p))
  {
    assert forall t | t in p.nodes :: PlanDispose(p).nodes[t].state == Done <==> p.nodes[t].state == Done;
    if AllDone(PlanDispose(p)) {
      forall t | t in p.nodes ensures p.nodes[t].state == Done {
        assert PlanDispose(p).nodes[t].state == Done;
      }
    }
  }

  lemma NoNewDisposed(v: View, op: Op, t: Id)
    requires Allowed(v, op) && !op.Dispose? && !op.Deadline? && t in v.plan.nodes && v.plan.nodes[t].state != Disposed
    ensures t in PlanNext(v, op).plan.nodes && PlanNext(v, op).plan.nodes[t].state != Disposed
  {
    if op.Complete? && InState(v.plan, op.t, Running) {
      CascadeEffect(SetState(v.plan, op.t, Done), Listed(v.plan.succ, op.t));
    }
  }

  lemma KeepsDisposal(v: View, op: Op)
    requires DisposalInv(v.plan) && Allowed(v, op)
    ensures DisposalInv(PlanNext(v, op).plan)
  {
    hide PlanComplete, PlanDispose, PlanClaim, PlanStart, PlanFail, PlanReopen;
    NextShape(v, op);
    if Closed(v.plan) {
      ClosedStays(v, op);
    } else if op.Dispose? || op.Deadline? {
      DisposeCloses(v.plan);
    } else {
      forall t | t in v.plan.nodes ensures PlanNext(v, op).plan.nodes[t].state != Disposed {
        NoNewDisposed(v, op, t);
      }
    }
  }

  /** Only Complete can finish a plan. */
  lemma OnlyCompleteFinishes(v: View, op: Op)
    requires !AllDone(v.plan) && Allowed(v, op) && !op.Complete?
    ensures !AllDone(PlanNext(v, op).plan)
  {
    var t :| t in v.plan.nodes && v.plan.nodes[t].state != Done;
    assert PlanNext(v, op).plan.nodes[t].state != Done;
  }

  lemma ClosedNotice(v: View, op: Op)
    requires NoticeInv(v) && Allowed(v, op) && Closed(v.plan)
    ensures NoticeInv(PlanNext(v, op))
  {
    ClosedStays(v, op);
    assert forall t | InState(v.plan, t, Running) :: Terminal(v.plan.nodes[t].state);
    hide PlanDispose, PlanComplete, PlanClaim, PlanStart, PlanFail, PlanReopen, DropAll;
  }

  lemma OpenNotice(v: View, op: Op)
    requires NoticeInv(v) && Allowed(v, op) && !Closed(v.plan)
    ensures NoticeInv(PlanNext(v, op))
  {
    hide PlanDispose, PlanComplete, PlanClaim, PlanStart, PlanFail, PlanReopen;
    NextShape(v, op);
    DisposeCloses(v.plan);
    if !op.Complete? && !AllDone(v.plan) { OnlyCompleteFinishes(v, op); }
  }

  lemma KeepsNotice(v: View, op: Op)
    requires NoticeInv(v) && Allowed(v, op)
    ensures NoticeInv(PlanNext(v, op))
  {
    hide NoticeInv, PlanNext, Allowed;
    if Closed(v.plan) { ClosedNotice(v, op); } else { OpenNotice(v, op); }
  }

  lemma KeepsBasic(v: View, op: Op)
    requires BasicInv(v) && Allowed(v, op)
    ensures BasicInv(PlanNext(v, op))
  {
    KeepsDisposal(v, op);
    KeepsNotice(v, op);
  }

  lemma OpenBasic(p: Plan)
    ensures BasicInv(View(Open(p), map[], NewLog))
  {
    var q := Open(p);
    forall t | t in q.nodes ensures q.nodes[t].state == Ready || q.nodes[t].state == Pending {
      assert q.nodes[t] == OpenNode(p, t);
    }
    if t :| t in q.nodes { assert q.nodes[t].state != Done; }
  }

  // ── Plans with exact counters ───────────────────────────────────────

  /** Counters as the planner leaves them: one per edge occurrence, and zero on every root. */
  ghost predicate Counted(p: Plan) {
    && (forall t | t in p.nodes :: Count(p.preds, t) == InDegree(p.succ, t))
    && (forall t | t in p.nodes && t in p.roots :: InDegree(p.succ, t) == 0)
  }

  /** The edge sources that are not Done; an id that names no node never is. */
  function OpenSources(p: Plan): set<Id> {
    set m | m in p.succ && !InState(p, m, Done)
  }

  ghost predicate CounterAt(p: Plan, t: Id)
    requires t in p.nodes
  {
    && Count(p.preds, t) == InCount(OpenSources(p), p.succ, t)
    && (p.nodes[t].state == Pending && InDegree(p.succ, t) > 0 ==> Count(p.preds, t) > 0)
    && (p.nodes[t].state != Pending && p.nodes[t].state != Disposed ==> Count(p.preds, t) == 0)
    && (t in p.roots ==> p.nodes[t].state != Pending)
  }

  ghost predicate CounterInv(p: Plan) {
    forall t | t in p.nodes :: CounterAt(p, t)
  }

  lemma OpenCounters(p: Plan)
    requires Counted(p)
    ensures CounterInv(Open(p))
  {
    var q := Open(p);
    assert OpenSources(q) == p.succ.Keys by {
      forall t | t in q.nodes ensures q.nodes[t].state != Done { assert q.nodes[t] == OpenNode(p, t); }
    }
    forall t | t in q.nodes ensures CounterAt(q, t) { assert q.nodes[t] == OpenNode(p, t); }
  }

  /** What completing n does to the counter of t and to the open sources. */
  lemma CompleteAt(p: Plan, n: Id, t: Id)
    requires CounterInv(p) && InState(p, n, Running) && t in p.nodes
    ensures var q := PlanComplete(p, n);
      && t in q.nodes
      && Count(q.preds, t) == Count(p.preds, t) - Occ(p.succ, n, t) == InCount(OpenSources(p) - {n}, p.succ, t)
      && (InState(p, t, Pending) || InState(p, t, Disposed) || q.nodes[t].state == SetState(p, n, Done).nodes[t].state)
      && (q.nodes[t].state == p.nodes[t].state || (t == n && q.nodes[t].state == Done)
          || (q.nodes[t].state == Ready && Count(q.preds, t) == 0))
      && (Occ(p.succ, n, t) > 0 && Count(q.preds, t) == 0 ==> q.nodes[t].state == Ready)
      && q.nodes[t] == p.nodes[t].(state := q.nodes[t].state)
  {
    CascadeEffect(SetState(p, n, Done), Listed(p.succ, n));
    assert CounterAt(p, t);
    if n in p.succ {
      InCountRemove(OpenSources(p), p.succ, n, t);
    } else {
      assert OpenSources(p) - {n} == OpenSources(p);
    }
  }

  lemma SourcesAfterComplete(p: Plan, n: Id)
    requires CounterInv(p) && InState(p, n, Running)
    ensures OpenSources(PlanComplete(p, n)) == OpenSources(p) - {n}
  {
    var q := PlanComplete(p, n);
    CascadeShape(SetState(p, n, Done), Listed(p.succ, n));
    forall t | t in p.nodes ensures InState(q, t, Done) <==> InState(p, t, Done) || t == n {
      CompleteAt(p, n, t);
    }
  }

  lemma CompleteCounters(p: Plan, n: Id)
    requires CounterInv(p) && InState(p, n, Running)
    ensures CounterInv(PlanComplete(p, n))
  {
    var q := PlanComplete(p, n);
    CascadeShape(SetState(p, n, Done), Listed(p.succ, n));
    SourcesAfterComplete(p, n);
    forall t | t in q.nodes ensures CounterAt(q, t) {
      assert CounterAt(p, t);
      CompleteAt(p, n, t);
    }
  }

  /** Every other operation leaves the counters and the set of Done nodes alone, and starts no pending node. */
  lemma QuietAt(v: View, op: Op, t: Id)
    requires Allowed(v, op) && t in v.plan.nodes && !(op.Complete? && InState(v.plan, op.t, Running))
    ensures var q := PlanNext(v, op).plan;
      && q.preds == v.plan.preds && t in q.nodes
      && (InState(q, t, Done) <==> InState(v.plan, t, Done))
      && (InState(q, t, Pending) ==> InState(v.plan, t, Pending))
      && (InState(v.plan, t, Pending) || InState(v.plan, t, Disposed) ==> InState(q, t, Pending) || InState(q, t, Disposed))
  {
    hide CompleteLog, FailLog, ReopenLog, DropAll, Record, AllDone, PlanComplete, StepsOf, Send;
  }

  lemma KeepsCounters(v: View, op: Op)
    requires CounterInv(v.plan) && Allowed(v, op)
    ensures CounterInv(PlanNext(v, op).plan)
  {
    var p, q := v.plan, PlanNext(v, op).plan;
    if op.Complete? && InState(p, op.t, Running) {
      CompleteCounters(p, op.t);
    } else {
      NextShape(v, op);
      forall t | t in p.nodes
        ensures InState(q, t, Done) <==> InState(p, t, Done)
      {
        QuietAt(v, op, t);
      }
      assert OpenSources(q) == OpenSources(p);
      forall t | t in q.nodes ensures CounterAt(q, t) {
        assert CounterAt(p, t);
        QuietAt(v, op, t);
      }
    }
  }

  // ── Plans whose roots may wait ──────────────────────────────────────

  /** Counters as the planner leaves them for any list: one per edge occurrence, and a root wherever there is none. */
  ghost predicate Numbered(p: Plan) {
    forall t | t in p.nodes :: Count(p.preds, t) == InDegree(p.succ, t) && (InDegree(p.succ, t) == 0 ==> t in p.roots)
  }

  /** A reopened source is counted down again, so a counter may fall behind the open sources but never lead them. */
  ghost predicate LooseAt(p: Plan, t: Id)
    requires t in p.nodes
  {
    && Count(p.preds, t) <= InCount(OpenSources(p), p.succ, t)
    && (p.nodes[t].state == Pending ==> Count(p.preds, t) > 0)
  }

  ghost predicate LooseInv(p: Plan) {
    forall t | t in p.nodes :: LooseAt(p, t)
  }

  lemma OpenLoose(p: Plan)
    requires Numbered(p)
    ensures LooseInv(Open(p))
  {
    var q := Open(p);
    assert OpenSources(q) == p.succ.Keys by {
      forall t | t in q.nodes ensures q.nodes[t].state != Done { assert q.nodes[t] == OpenNode(p, t); }
    }
    forall t | t in q.nodes ensures LooseAt(q, t) { assert q.nodes[t] == OpenNode(p, t); }
  }

  lemma CompleteLoose(p: Plan, n: Id, t: Id)
    requires LooseInv(p) && InState(p, n, Running) && t in p.nodes
    ensures t in PlanComplete(p, n).nodes && LooseAt(PlanComplete(p, n), t)
  {
    var q := PlanComplete(p, n);
    CascadeEffect(SetState(p, n, Done), Listed(p.succ, n));
    assert LooseAt(p, t);
    forall m | m in OpenSources(p) - {n} ensures m in OpenSources(q) { }
    InCountGrows(OpenSources(p) - {n}, OpenSources(q), p.succ, t);
    if n in p.succ { InCountRemove(OpenSources(p), p.succ, n, t); } else { assert OpenSources(p) - {n} == OpenSources(p); }
  }

  lemma KeepsLoose(v: View, op: Op)
    requires LooseInv(v.plan) && Allowed(v, op)
    ensures LooseInv(PlanNext(v, op).plan)
  {
    var p, q := v.plan, PlanNext(v, op).plan;
    NextShape(v, op);
    if op.Complete? && InState(p, op.t, Running) {
      forall t | t in q.nodes ensures LooseAt(q, t) { CompleteLoose(p, op.t, t); }
    } else {
      hide PlanNext, LooseAt;
      forall t | t in p.nodes ensures InState(q, t, Done) <==> InState(p, t, Done) { QuietAt(v, op, t); }
      assert OpenSources(q) == OpenSources(p);
      forall t | t in q.nodes ensures LooseAt(q, t) {
        QuietAt(v, op, t);
        QuietLoose(p, q, t);
      }
    }
  }

  lemma QuietLoose(p: Plan, q: Plan, t: Id)
    requires t in p.nodes && t in q.nodes && LooseAt(p, t) && q.preds == p.preds && q.succ == p.succ
    requires OpenSources(q) == OpenSources(p) && (InState(q, t, Pending) ==> InState(p, t, Pending))
    ensures LooseAt(q, t)
  {
  }

  // ── Ledger, claims and completion order ─────────────────────────────

  ghost predicate LedgerAt(s: NodeState, l: Ledger) {
    && l.claims == l.starts + l.abandons + l.expiries + l.dropped + (if s == Claimed then 1 else 0)
    && (s == Pending || s == Ready || s == Claimed ==> l.starts == 0)
    && (s == Running ==> l.starts == 1)
    && 0 <= l.completes <= l.starts <= 1
    && (l.completes == 1 <==> s == Done)
    && (s != Failed && s != Disposed ==> l.dropped == 0)
  }

  ghost predicate LedgerInv(v: View) {
    forall t | t in v.plan.nodes :: LedgerAt(v.plan.nodes[t].state, StepsOf(v.log, t))
  }

  ghost predicate HeldAt(v: View, t: Id)
    requires t in v.plan.nodes
  {
    && (t in v.held <==> v.plan.nodes[t].state == Claimed || v.plan.nodes[t].state == Running)
    && (t in v.held ==> v.held[t] == v.plan.nodes[t].claimedBy)
  }

  ghost predicate HeldInv(v: View) {
    && v.held.Keys <= v.plan.nodes.Keys
    && forall t | t in v.plan.nodes :: HeldAt(v, t)
  }

  /** The completed nodes, each once and after everything that lists it as a successor. */
  ghost predicate OrderInv(v: View) {
    && (forall t :: t in v.log.order <==> InState(v.plan, t, Done))
    && (forall i, j | 0 <= i < j < |v.log.order| :: v.log.order[i] != v.log.order[j])
    && (forall i, m | 0 <= i < |v.log.order| && m in v.plan.succ && v.log.order[i] in v.plan.succ[m] ::
          m in v.log.order[..i])
  }

  /** A node at work in a plan with exact counters is not in any successor list of an open source. */
  lemma AllBefore(p: Plan, n: Id)
    requires CounterInv(p) && n in p.nodes && Count(p.preds, n) == 0
    ensures forall m | m in p.succ && n in p.succ[m] :: InState(p, m, Done)
  {
    assert CounterAt(p, n);
    InCountZero(OpenSources(p), p.succ, n);
    forall m | m in p.succ && n in p.succ[m] ensures InState(p, m, Done) {
      assert m in OpenSources(p) ==> n !in Listed(p.succ, m);
    }
  }

  /** States move as the operation says and in no other way. */
  lemma StateMoves(v: View, op: Op, t: Id)
    requires CounterInv(v.plan) && DisposalInv(v.plan) && Allowed(v, op) && t in v.plan.nodes
    ensures var q := PlanNext(v, op).plan;
      t in q.nodes && var a, b := v.plan.nodes[t].state, q.nodes[t].state;
      || q.nodes[t] == v.plan.nodes[t]
      || (op.Claim? && op.t == t && a == Ready && b == Claimed)
      || (op.Start? && op.t == t && a == Claimed && b == Running)
      || (op.Complete? && op.t == t && a == Running && b == Done)
      || (op.Complete? && op.t != t && a == Pending && b == Ready && InState(v.plan, op.t, Running))
      || (op.Fail? && op.t == t && (a == Claimed || a == Running) && b == Failed)
      || (op.Reopen? && op.t == t && a == Claimed && b == Ready)
      || ((op.Dispose? || (op.Deadline? && !AllDone(v.plan))) && !Terminal(a) && b == Disposed)
  {
    hide CompleteLog, FailLog, ReopenLog, DropAll, Record, PlanComplete;
    if op.Complete? && InState(v.plan, op.t, Running) {
      CompleteAt(v.plan, op.t, t);
      assert CounterAt(v.plan, t);
    }
  }

  lemma LedgerOnComplete(v: View, n: Id, output: string, t: Id)
    requires CounterInv(v.plan) && DisposalInv(v.plan) && t in v.plan.nodes && InState(v.plan, n, Running)
    requires LedgerAt(v.plan.nodes[t].state, StepsOf(v.log, t))
    ensures t in PlanComplete(v.plan, n).nodes
    ensures LedgerAt(PlanComplete(v.plan, n).nodes[t].state, StepsOf(CompleteLog(v.plan, v.log, n, output), t))
  {
    CompleteAt(v.plan, n, t);
    assert CounterAt(v.plan, t);
  }

  lemma LedgerOnDispose(p: Plan, log: Log, t: Id)
    requires t in p.nodes && LedgerAt(p.nodes[t].state, StepsOf(log, t))
    ensures LedgerAt(PlanDispose(p).nodes[t].state, StepsOf(DropAll(p, log), t))
  {
  }

  lemma LedgerOnLease(v: View, op: Op, t: Id)
    requires (op.Claim? || op.Start?) && t in v.plan.nodes
    requires LedgerAt(v.plan.nodes[t].state, StepsOf(v.log, t))
    ensures t in PlanNext(v, op).plan.nodes
    ensures LedgerAt(PlanNext(v, op).plan.nodes[t].state, StepsOf(PlanNext(v, op).log, t))
  {
  }

  lemma LedgerOnRelease(v: View, op: Op, t: Id)
    requires (op.Fail? || op.Reopen?) && Allowed(v, op) && t in v.plan.nodes
    requires LedgerAt(v.plan.nodes[t].state, StepsOf(v.log, t))
    ensures t in PlanNext(v, op).plan.nodes
    ensures LedgerAt(PlanNext(v, op).plan.nodes[t].state, StepsOf(PlanNext(v, op).log, t))
  {
  }

  lemma KeepsLedgerAt(v: View, op: Op, t: Id)
    requires CounterInv(v.plan) && DisposalInv(v.plan) && Allowed(v, op) && t in v.plan.nodes
    requires LedgerAt(v.plan.nodes[t].state, StepsOf(v.log, t))
    ensures t in PlanNext(v, op).plan.nodes
    ensures LedgerAt(PlanNext(v, op).plan.nodes[t].state, StepsOf(PlanNext(v, op).log, t))
  {
    if op.Complete? && InState(v.plan, op.t, Running) {
      LedgerOnComplete(v, op.t, op.output, t);
    } else if op.Dispose? || op.Deadline? {
      LedgerOnDispose(v.plan, v.log, t);
    } else if op.Claim? || op.Start? {
      LedgerOnLease(v, op, t);
    } else if op.Fail? || op.Reopen? {
      LedgerOnRelease(v, op, t);
    }
  }

  lemma KeepsLedger(v: View, op: Op)
    requires CounterInv(v.plan) && DisposalInv(v.plan) && Allowed(v, op) && LedgerInv(v)
    ensures LedgerInv(PlanNext(v, op))
  {
    NextShape(v, op);
    var u := PlanNext(v, op);
    forall t | t in u.plan.nodes ensures LedgerAt(u.plan.nodes[t].state, StepsOf(u.log, t)) {
      KeepsLedgerAt(v, op, t);
    }
  }

  lemma HeldOnComplete(v: View, n: Id, output: string, t: Id)
    requires CounterInv(v.plan) && t in v.plan.nodes && InState(v.plan, n, Running) && HeldAt(v, t)
    ensures var u := PlanNext(v, Complete(n, output)); t in u.plan.nodes && HeldAt(u, t)
  {
    CompleteAt(v.plan, n, t);
    assert CounterAt(v.plan, t);
  }

  lemma HeldOnLease(v: View, op: Op, t: Id)
    requires (op.Claim? || op.Start?) && t in v.plan.nodes && HeldAt(v, t)
    ensures t in PlanNext(v, op).plan.nodes && HeldAt(PlanNext(v, op), t)
  {
  }

  lemma HeldOnRelease(v: View, op: Op, t: Id)
    requires (op.Fail? || op.Reopen?) && t in v.plan.nodes && HeldAt(v, t)
    ensures t in PlanNext(v, op).plan.nodes && HeldAt(PlanNext(v, op), t)
  {
  }

  lemma KeepsHeldAt(v: View, op: Op, t: Id)
    requires CounterInv(v.plan) && Allowed(v, op) && t in v.plan.nodes && HeldAt(v, t)
    ensures t in PlanNext(v, op).plan.nodes && HeldAt(PlanNext(v, op), t)
  {
    hide CompleteLog, FailLog, ReopenLog, DropAll, Record, AllDone, CounterInv;
    match op {
      case Complete(n, output) => if InState(v.plan, n, Running) { HeldOnComplete(v, n, output, t); }
      case Claim(_, _, _) => HeldOnLease(v, op, t);
      case Start(_) => HeldOnLease(v, op, t);
      case Fail(_) => HeldOnRelease(v, op, t);
      case Reopen(_, _) => HeldOnRelease(v, op, t);
      case _ =>
    }
  }

  lemma KeepsHeld(v: View, op: Op)
    requires CounterInv(v.plan) && Allowed(v, op) && HeldInv(v)
    ensures HeldInv(PlanNext(v, op))
  {
    NextShape(v, op);
    forall t | t in v.plan.nodes ensures HeldAt(PlanNext(v, op), t) {
      KeepsHeldAt(v, op, t);
    }
  }

  lemma OrderOnComplete(v: View, n: Id, u: View)
    requires CounterInv(v.plan) && OrderInv(v) && InState(v.plan, n, Running)
    requires u.log.order == v.log.order + [n] && u.plan.succ == v.plan.succ
    requires forall t :: InState(u.plan, t, Done) <==> InState(v.plan, t, Done) || t == n
    ensures OrderInv(u)
  {
    assert CounterAt(v.plan, n);
    AllBefore(v.plan, n);
    assert n in v.log.order <==> InState(v.plan, n, Done);
    forall i, j | 0 <= i < j < |u.log.order| ensures u.log.order[i] != u.log.order[j] {
      if j == |v.log.order| { assert u.log.order[i] in v.log.order; }
    }
    forall i, m | 0 <= i < |u.log.order| && m in u.plan.succ && u.log.order[i] in u.plan.succ[m]
      ensures m in u.log.order[..i]
    {
      assert u.log.order[..i] == v.log.order[..i];
      if i == |v.log.order| { assert u.log.order[..i] == v.log.order; }
    }
  }

  lemma OtherOrder(v: View, op: Op)
    requires !(op.Complete? && InState(v.plan, op.t, Running))
    ensures PlanNext(v, op).log.order == v.log.order
  {
  }

  lemma KeepsOrder(v: View, op: Op)
    requires CounterInv(v.plan) && DisposalInv(v.plan) && Allowed(v, op) && OrderInv(v)
    ensures OrderInv(PlanNext(v, op))
  {
    var u := PlanNext(v, op);
    NextShape(v, op);
    if op.Complete? && InState(v.plan, op.t, Running) {
      forall t ensures InState(u.plan, t, Done) <==> InState(v.plan, t, Done) || t == op.t {
        if t in v.plan.nodes { StateMoves(v, op, t); CompleteAt(v.plan, op.t, t); }
      }
      OrderOnComplete(v, op.t, u);
    } else {
      OtherOrder(v, op);
      forall t ensures InState(u.plan, t, Done) <==> InState(v.plan, t, Done) {
        if t in v.plan.nodes { QuietAt(v, op, t); }
      }
    }
  }

  /** Everything kept of a plan with exact counters. */
  ghost predicate CountedInv(v: View) {
    CounterInv(v.plan) && LedgerInv(v) && HeldInv(v) && OrderInv(v)
  }

  lemma KeepsCounted(v: View, op: Op)
    requires BasicInv(v) && CountedInv(v) && Allowed(v, op)
    ensures CountedInv(PlanNext(v, op))
  {
    KeepsCounters(v, op);
    KeepsLedger(v, op);
    KeepsHeld(v, op);
    KeepsOrder(v, op);
  }

  lemma OpenCounted(p: Plan)
    requires Counted(p)
    ensures CountedInv(View(Open(p), map[], NewLog))
  {
    OpenCounters(p);
    var v := View(Open(p), map[], NewLog);
    forall t | t in v.plan.nodes
      ensures HeldAt(v, t) && LedgerAt(v.plan.nodes[t].state, StepsOf(v.log, t)) && !InState(v.plan, t, Done)
    {
      assert v.plan.nodes[t] == OpenNode(p, t);
    }
  }
}
