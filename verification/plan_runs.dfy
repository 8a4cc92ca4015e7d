/** A single plan as it moves through a run, with the history the properties talk about. */
module PlanRuns {
  import opened TaskTypes
  import opened PlanModel

  /** How often each state-changing step happened to a node; `dropped` counts failures and disposals of a claimed node. */
  datatype Ledger = Ledger(claims: int, starts: int, completes: int, abandons: int, expiries: int, dropped: int)

  const NoSteps := Ledger(0, 0, 0, 0, 0, 0)

  /** The deadline goroutine: not yet spawned, waiting, disposed with the timeout still to send, finished, or never spawned. */
  datatype Watch = Unarmed | Armed | Owing | Ended | Never

  /** `order` lists the state-changing completes; `sent` is all that went to the callback channel and `buffer` what
      its reader has not taken yet. */
  datatype Log = Log(order: seq<Id>, ledger: map<Id, Ledger>, sent: seq<PlanResult>, buffer: seq<PlanResult>, watch: Watch)

  const NewLog := Log([], map[], [], [], Unarmed)

  /** `held` is the part of the manager's claimed index that belongs to the plan. */
  datatype View = View(plan: Plan, held: map<Id, string>, log: Log)

  /** An operation naming a node of another plan does nothing. */
  datatype Op =
    | Skip
    | Claim(t: Id, peer: string, expires: int)
    | Start(t: Id)
    | Complete(t: Id, output: string)
    | Fail(t: Id)
    | Reopen(t: Id, expired: bool)
    | Dispose
    | Arm
    | Deadline
    | SendTimeout(text: string)
    | Receive

  function StepsOf(log: Log, t: Id): Ledger {
    if t in log.ledger then log.ledger[t] else NoSteps
  }

  function Record(log: Log, t: Id, l: Ledger): Log {
    log.(ledger := log.ledger[t := l])
  }

  function Send(log: Log, r: PlanResult): Log {
    log.(sent := log.sent + [r], buffer := log.buffer + [r])
  }

  function DropAll(p: Plan, log: Log): Log {
    log.(ledger := map t | t in p.nodes ::
      if p.nodes[t].state == Claimed then StepsOf(log, t).(dropped := StepsOf(log, t).dropped + 1) else StepsOf(log, t))
  }

  function CompleteLog(p: Plan, log: Log, t: Id, output: string): Log {
    var l := Record(log, t, StepsOf(log, t).(completes := StepsOf(log, t).completes + 1)).(order := log.order + [t]);
    if AllDone(PlanComplete(p, t)) && p.hasNotify then Send(l, PlanResult(PlanOK, output)) else l
  }

  function FailLog(p: Plan, log: Log, t: Id): Log {
    if InState(p, t, Claimed) then Record(log, t, StepsOf(log, t).(dropped := StepsOf(log, t).dropped + 1)) else log
  }

  function ReopenLog(log: Log, t: Id, expired: bool): Log {
    var l := StepsOf(log, t);
    Record(log, t, if expired then l.(expiries := l.expiries + 1) else l.(abandons := l.abandons + 1))
  }

  function PlanNext(v: View, op: Op): View {
    match op
    case Skip => v
    case Claim(t, peer, expires) =>
      if !InState(v.plan, t, Ready) then v else
        View(PlanClaim(v.plan, t, peer, expires), v.held[t := peer],
             Record(v.log, t, StepsOf(v.log, t).(claims := StepsOf(v.log, t).claims + 1)))
    case Start(t) =>
      if !InState(v.plan, t, Claimed) then v else
        v.(plan := PlanStart(v.plan, t),
           log := Record(v.log, t, StepsOf(v.log, t).(starts := StepsOf(v.log, t).starts + 1)))
    case Complete(t, output) =>
      if !InState(v.plan, t, Running) then v else
        View(PlanComplete(v.plan, t), v.held - {t}, CompleteLog(v.plan, v.log, t, output))
    case Fail(t) =>
      if t !in v.plan.nodes then v else
        View(PlanFail(v.plan, t), v.held - {t}, FailLog(v.plan, v.log, t))
    case Reopen(t, expired) =>
      if !InState(v.plan, t, Claimed) then v else
        View(PlanReopen(v.plan, t), v.held - {t}, ReopenLog(v.log, t, expired))
    case Dispose =>
      View(PlanDispose(v.plan), v.held - LiveSet(v.plan), DropAll(v.plan, v.log))
    case Arm =>
      v.(log := v.log.(watch := if v.plan.hasDeadline && v.plan.hasNotify then Armed else Never))
    case Deadline =>
      if AllDone(v.plan) then v.(log := v.log.(watch := Ended)) else
        View(PlanDispose(v.plan), v.held - LiveSet(v.plan), DropAll(v.plan, v.log).(watch := Owing))
    case SendTimeout(text) =>
      v.(log := Send(v.log, PlanResult(PlanTimeout, text)).(watch := Ended))
    case Receive =>
      if v.log.buffer == [] then v else v.(log := v.log.(buffer := v.log.buffer[1..]))
  }

  /** When an operation may happen to a plan; `Fail` is guarded as in the runs. */
  predicate Allowed(v: View, op: Op) {
    match op
    case Fail(t) => t in v.plan.nodes ==> InState(v.plan, t, Claimed) || InState(v.plan, t, Running)
    case Arm => v.log.watch == Unarmed
    case Deadline => v.log.watch == Armed
    case SendTimeout(_) => v.log.watch == Owing
    case _ => true
  }

  /** No operation changes the graph, the node ids or the specs. */
  lemma NextShape(v: View, op: Op)
    ensures SameShape(v.plan, PlanNext(v, op).plan)
  {
    var p := v.plan;
    assert SameShape(p, p);
    match op {
      case Complete(t, _) => CompleteShape(p, t);
      case Claim(t, peer, expires) =>
        if InState(p, t, Ready) { PutShape(p, t, p.nodes[t].(state := NodeState.Claimed, claimedBy := peer, expiresAt := expires)); }
      case Start(t) => if InState(p, t, Claimed) { PutShape(p, t, p.nodes[t].(state := Running)); }
      case Fail(t) => ReleaseShape(p, t, Failed);
      case Reopen(t, _) => ReleaseShape(p, t, Ready);
      case Dispose => assert SameShape(p, PlanDispose(p));
      case Deadline => assert SameShape(p, PlanDispose(p));
      case _ =>
    }
  }

  lemma SentGrows(v: View, op: Op)
    ensures PlanNext(v, op).log.sent == v.log.sent || |PlanNext(v, op).log.sent| == |v.log.sent| + 1
  {
  }
}
