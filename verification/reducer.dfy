/** The reducer: collecting the outputs of a plan and fitting them into one prompt. */
module Reducer {
  import opened TaskTypes
  import opened ManagerModel
  import opened StateManager
  import opened Manager
  import opened PlanIds
  import opened Tracer

  const INSTRUCTION := "You are writing a final answer for a user. Below are research notes from earlier steps. Synthesize them into one polished, flowing response. Do NOT mention sub-tasks, research steps, or your process. Do NOT say \"based on the information\" or \"let me combine.\" Just write the answer directly as if you knew it yourself:\n\n"

  // ── Collecting ──────────────────────────────────────────────────────

  predicate Collectable(p: Plan, s: Store, t: Id) {
    t in p.nodes && p.nodes[t].spec.stage != ReduceStage && OutputOf(s, t) != ""
  }

  predicate Distinct(ids: seq<Id>) {
    forall i, j | 0 <= i < j < |ids| :: ids[i] != ids[j]
  }

  /** One entry for every collectable node and no other, in some order. */
  ghost predicate CollectedBy(p: Plan, s: Store, ids: seq<Id>, outputs: seq<string>) {
    && |outputs| == |ids| && Distinct(ids)
    && (forall t :: t in ids <==> Collectable(p, s, t))
    && (forall i | 0 <= i < |ids| :: outputs[i] == "[" + ids[i].s + "]: " + OutputOf(s, ids[i]))
  }

  /** The own task's output or, if there is no own task, the assigned one's. */
  method LookUp(tracer: TaskTracer, id: Id) returns (output: string)
    ensures output == OutputOf(tracer.Value(), id)
  {
    var task := tracer.GetLocal(id);
    if task.None? { task := tracer.GetAssigned(id); }
    return if task.None? then "" else task.value.spec.output;
  }

  method Collect(plan: TaskPlan, tracer: TaskTracer) returns (outputs: seq<string>, ghost ids: seq<Id>)
    requires plan.Valid()
    ensures CollectedBy(plan.Value(), tracer.Value(), ids, outputs)
    ensures exists order :: CollectedBy(plan.Value(), tracer.Value(), order, outputs)
  {
    hide OutputOf;
    outputs, ids := [], [];
    ghost var p, s := plan.Value(), tracer.Value();
    var todo := plan.nodes.Keys;
    while todo != {}
      invariant todo <= plan.nodes.Keys
      invariant |outputs| == |ids| && Distinct(ids)
      invariant forall t :: t in ids <==> Collectable(p, s, t) && t !in todo
      invariant forall i | 0 <= i < |ids| :: outputs[i] == "[" + ids[i].s + "]: " + OutputOf(s, ids[i])
      decreases todo
    {
      var t :| t in todo;
      var node := plan.nodes[t];
      if node.spec.stage != ReduceStage {
        var output := LookUp(tracer, node.id);
        if output != "" {
          outputs := outputs + ["[" + node.id.s + "]: " + output];
          ids := ids + [t];
        }
      }
      todo := todo - {t};
    }
  }

  // ── Fitting ─────────────────────────────────────────────────────────

  /** strings.Join with a line break. */
  function Join(pieces: seq<string>): string {
    if pieces == [] then ""
    else if |pieces| == 1 then pieces[0]
    else Join(pieces[..|pieces| - 1]) + "\n" + pieces[|pieces| - 1]
  }

  /** Cut anywhere between two pieces, the joined text is the joined halves with one line break between them. */
  lemma {:induction false} JoinSplits(front: seq<string>, back: seq<string>)
    requires front != [] && back != []
    ensures Join(front + back) == Join(front) + "\n" + Join(back)
    decreases |back|
  {
    var all, n := front + back, |back| - 1;
    assert all[..|all| - 1] == front + back[..n];
    if n > 0 {
      JoinSplits(front, back[..n]);
    } else {
      assert front + back[..n] == front;
    }
  }

  /** Every piece stands whole, first, last or between two line breaks. */
  lemma JoinKeeps(before: seq<string>, piece: string, after: seq<string>)
    ensures Join([]) == "" && Join([piece]) == piece
    ensures before != [] ==> Join(before + [piece]) == Join(before) + "\n" + piece
    ensures after != [] ==> Join([piece] + after) == piece + "\n" + Join(after)
    ensures before != [] && after != [] ==> Join(before + ([piece] + after)) == Join(before) + "\n" + (piece + "\n" + Join(after))
  {
    assert Join([piece]) == piece;
    hide Join;
    if before != [] { JoinSplits(before, [piece]); }
    if after != [] { JoinSplits([piece], after); }
    if before != [] && after != [] { JoinSplits(before, [piece] + after); }
  }

  function Max(a: int, b: int): int { if a < b then b else a }

  /** The prompt budget in bytes for a context of so many tokens. */
  function Budget(contextTokens: int): int { Max(3 * contextTokens, 256) }

  predicate CutTo(piece: string, output: string, size: nat) {
    if |output| <= size then piece == output
    else piece == output[..size] + "..."
  }

  lemma {:induction false} JoinLength(pieces: seq<string>, each: nat)
    requires |pieces| > 0 && forall i | 0 <= i < |pieces| :: |pieces[i]| <= each
    ensures |Join(pieces)| <= |pieces| * (each + 1) - 1
  {
    if |pieces| > 1 {
      JoinLength(pieces[..|pieces| - 1], each);
      assert (|pieces| - 1) * (each + 1) == |pieces| * (each + 1) - (each + 1);
    }
  }

  lemma ShareFits(budget: int, n: nat, each: nat)
    requires n > 0 && budget >= 256 && each == Max((budget - 100) / n, 50)
    ensures n * (each + 4) - 1 <= Max(budget - 100, 50 * n) + 4 * n - 1
  {
    var q := (budget - 100) / n;
    assert q * n <= budget - 100;
    assert n * (each + 4) == n * each + 4 * n;
    if each == q { assert n * each == q * n; } else { assert n * each == 50 * n; }
  }

  method Shorten(outputs: seq<string>, perOutput: nat) returns (truncated: seq<string>)
    ensures |truncated| == |outputs|
    ensures forall i | 0 <= i < |outputs| && |outputs[i]| <= perOutput :: truncated[i] == outputs[i]
    ensures forall i | 0 <= i < |outputs| && |outputs[i]| > perOutput :: truncated[i] == outputs[i][..perOutput] + "..."
  {
    truncated := [];
    for i := 0 to |outputs|
      invariant |truncated| == i
      invariant forall k | 0 <= k < i && |outputs[k]| <= perOutput :: truncated[k] == outputs[k]
      invariant forall k | 0 <= k < i && |outputs[k]| > perOutput :: truncated[k] == outputs[k][..perOutput] + "..."
    {
      var o := outputs[i];
      truncated := truncated + [if |o| > perOutput then o[..perOutput] + "..." else o];
    }
  }

  /** The notes are the outputs unshortened if that fits the budget. If not, every note is kept whole or cut to its share,
      and what follows the instruction stays within the budget less 100, or within 50 bytes a note if that is more, plus
      the dots and line breaks. */
  predicate Fitted(outputs: seq<string>, contextTokens: int, notes: seq<string>) {
    && |notes| == |outputs| > 0
    && (|INSTRUCTION + Join(outputs)| <= Budget(contextTokens) ==> notes == outputs)
    && (|INSTRUCTION + Join(outputs)| > Budget(contextTokens) ==>
      && (forall i | 0 <= i < |outputs| ::
            CutTo(notes[i], outputs[i], Max((Budget(contextTokens) - 100) / |outputs|, 50)))
      && |Join(notes)| <= Max(Budget(contextTokens) - 100, 50 * |outputs|) + 4 * |outputs| - 1)
  }

  /** What fitting means in bytes: nothing is cut up to 256 bytes or three a token, and a cut note keeps its share of three
      bytes a token less 100, or 50 bytes. */
  lemma FittedMeans(outputs: seq<string>, contextTokens: int, notes: seq<string>, i: nat)
    requires Fitted(outputs, contextTokens, notes) && i < |outputs|
    ensures |INSTRUCTION + Join(outputs)| <= 256 || |INSTRUCTION + Join(outputs)| <= 3 * contextTokens ==> notes == outputs
    ensures |INSTRUCTION + Join(outputs)| > 3 * contextTokens >= 256 ==>
      var share := (3 * contextTokens - 100) / |outputs|; var size := if share < 50 then 50 else share;
      notes[i] == if |outputs[i]| <= size then outputs[i] else outputs[i][..size] + "..."
  {
    hide Join;
  }

  method Prompt(outputs: seq<string>, contextTokens: int) returns (prompt: string, notes: seq<string>)
    requires |outputs| > 0
    ensures prompt == INSTRUCTION + Join(notes) && Fitted(outputs, contextTokens, notes)
  {
    var maxPromptChars := contextTokens * 3;
    if maxPromptChars < 256 { maxPromptChars := 256; }
    notes := outputs;
    prompt := INSTRUCTION + Join(outputs);
    if |prompt| > maxPromptChars {
      var perOutput := (maxPromptChars - 100) / |outputs|;
      if perOutput < 50 { perOutput := 50; }
      notes := Shorten(outputs, perOutput);
      prompt := INSTRUCTION + Join(notes);
      JoinLength(notes, perOutput + 3);
      ShareFits(maxPromptChars, |outputs|, perOutput);
    }
  }

  // ── Reducing ────────────────────────────────────────────────────────

  /** The planning provider: its models, its context size, and what a model answers to a prompt, None for a failure. */
  datatype Provider = Provider(models: seq<string>, contextTokens: int, generate: (string, string) -> Option<string>)

  datatype Reduction = Reduced | NoPlan | NoOutputs | NoProvider | NoModel | NotCompleted(error: Error)

  /** Claim, Start and Complete one after the other; the first two only log what goes wrong. */
  function Driven(s: State, t: Id, expires: int, output: string, stop: Id): Outcome {
    DoComplete(DoStart(DoClaim(s, t, "local", expires).st, t).st, t, output, stop)
  }

  method Drive(manager: TaskStateManager, t: Id, output: string, ctx: int, now: int, ghost s: State)
    returns (reply: Reply, sent: seq<PlanResult>, ghost stop: Id)
    requires manager.Shows(s)
    modifies manager`claimed, manager.Objects()
    ensures sent == [] || sent == [PlanResult(PlanOK, output)]
    ensures var done := Driven(s, t, now + 30, output, stop);
      manager.Shows(done.st) && reply == done.reply && sent == done.sent
  {
    hide manager.Shows, DoClaim, DoStart, DoComplete;
    manager.ObjectsOf(t, t, s);
    var claimed, _ := manager.Claim(ctx, t, "local", 30, now, s);
    ghost var s1 := DoClaim(s, t, "local", now + 30).st;
    var started := manager.Start(t, s1);
    var published;
    reply, published, sent, stop := manager.Complete(t, output, DoStart(s1, t).st);
  }

  /** What the first model makes of the fitted notes or, if it fails, the outputs as they are. */
  method Combine(provider: Provider, outputs: seq<string>) returns (output: string, ghost notes: seq<string>)
    requires |outputs| > 0 && |provider.models| > 0
    ensures Fitted(outputs, provider.contextTokens, notes)
    ensures provider.generate(provider.models[0], INSTRUCTION + Join(notes)) == Some(output) ||
      (provider.generate(provider.models[0], INSTRUCTION + Join(notes)) == None && output == Join(outputs))
  {
    var prompt;
    prompt, notes := Prompt(outputs, provider.contextTokens);
    var response := provider.generate(provider.models[0], prompt);
    output := if response.Some? then response.value else Join(outputs);
  }

  method SaveOutput(manager: TaskStateManager, tracer: TaskTracer, t: Id, output: string, ghost s: State)
    requires manager.Shows(s) && tracer.Valid()
    modifies tracer.Target(t)
    ensures manager.Shows(s) && tracer.Valid() && tracer.Value() == Stored(old(tracer.Value()), t, output)
  {
    var stored := tracer.SetOutput(t, output);
    forall p | p in manager.plans ensures manager.plans[p].Value() == s.plans[p] {
      manager.plans[p].Untouched();
    }
  }

  /** The outputs of the plan the reduce node belongs to, if that plan is known. */
  method Gather(manager: TaskStateManager, tracer: TaskTracer, taskID: Id, ghost s: State)
    returns (gathered: Option<seq<string>>, ghost ids: seq<Id>)
    requires manager.Shows(s)
    ensures gathered.None? <==> ParentPlanId(taskID) !in s.plans
    ensures gathered.Some? ==> CollectedBy(s.plans[ParentPlanId(taskID)], tracer.Value(), ids, gathered.value)
  {
    manager.KnownPlans(s);
    var planID := ParentPlanId(taskID);
    gathered, ids := None, [];
    if planID in manager.plans {
      var outputs;
      outputs, ids := Collect(manager.plans[planID], tracer);
      gathered := Some(outputs);
    }
  }

  predicate Gathers(gathered: Option<seq<string>>) { gathered.Some? && gathered.value != [] }

  predicate Answers(provider: Option<Provider>) { provider.Some? && provider.value.models != [] }

  /** Why a reduction ends before anything is written, if it does. */
  function Refusal(gathered: Option<seq<string>>, provider: Option<Provider>): Option<Reduction> {
    if gathered.None? then Some(NoPlan)
    else if |gathered.value| == 0 then Some(NoOutputs)
    else if provider.None? then Some(NoProvider)
    else if |provider.value.models| == 0 then Some(NoModel)
    else None
  }

  lemma StoredReads(s: Store, t: Id, output: string)
    ensures t in Stored(s, t, output).local ==> Stored(s, t, output).local[t].output == output
    ensures t !in Stored(s, t, output).local && t in Stored(s, t, output).given ==> Stored(s, t, output).given[t].output == output
  {
  }

  /** The result is stored and the node is driven to Done. */
  method Deliver(manager: TaskStateManager, tracer: TaskTracer, t: Id, output: string, ctx: int, now: int, ghost s: State)
    returns (result: Reduction, sent: seq<PlanResult>, ghost stop: Id)
    requires manager.Shows(s) && tracer.Valid()
    modifies manager`claimed, manager.Objects(), tracer.Target(t)
    ensures tracer.Value() == Stored(old(tracer.Value()), t, output)
    ensures sent == [] || sent == [PlanResult(PlanOK, output)]
    ensures var done := Driven(s, t, now + 30, output, stop);
      manager.Shows(done.st) && sent == done.sent && result == if done.reply.Ok? then Reduced else NotCompleted(done.reply.error)
  {
    hide manager.Shows, Driven, Stored;
    SaveOutput(manager, tracer, t, output, s);
    ghost var store := tracer.Value();
    var reply;
    reply, sent, stop := Drive(manager, t, output, ctx, now, s);
    assert tracer.Value() == store;
    result := if reply.Ok? then Reduced else NotCompleted(reply.error);
  }

  /** One reduction, start to end, with nothing in between: it refuses and changes nothing, or it stores one output made
      from the gathered notes and drives the node with it. */
  method Reduce(manager: TaskStateManager, tracer: TaskTracer, taskID: Id, provider: Option<Provider>, ctx: int, now: int,
                ghost s: State)
    returns (result: Reduction, sent: seq<PlanResult>, gathered: Option<seq<string>>,
             ghost ids: seq<Id>, ghost notes: seq<string>, ghost text: string, ghost stop: Id)
    requires manager.Shows(s) && tracer.Valid()
    modifies manager`claimed, manager.Objects(), tracer.Target(taskID)
    ensures gathered.None? <==> ParentPlanId(taskID) !in s.plans
    ensures gathered.Some? ==> CollectedBy(s.plans[ParentPlanId(taskID)], old(tracer.Value()), ids, gathered.value)
    ensures gathered == None ==> result == NoPlan
    ensures gathered == Some([]) ==> result == NoOutputs
    ensures Gathers(gathered) && provider == None ==> result == NoProvider
    ensures Gathers(gathered) && provider.Some? && provider.value.models == [] ==> result == NoModel
    ensures !(Gathers(gathered) && Answers(provider)) ==>
      sent == [] && manager.Shows(s) && tracer.Value() == old(tracer.Value())
    ensures Gathers(gathered) && Answers(provider) ==>
      var response := provider.value.generate(provider.value.models[0], INSTRUCTION + Join(notes));
      && Fitted(gathered.value, provider.value.contextTokens, notes)
      && (response.Some? ==> text == response.value) && (response.None? ==> text == Join(gathered.value))
    ensures Gathers(gathered) && Answers(provider) ==>
      && (taskID in tracer.Value().local ==> tracer.Value().local[taskID].output == text)
      && (taskID !in tracer.Value().local && taskID in tracer.Value().given ==> tracer.Value().given[taskID].output == text)
      && tracer.Value() == Stored(old(tracer.Value()), taskID, text)
      && (sent == [] || sent == [PlanResult(PlanOK, text)])
    ensures Gathers(gathered) && Answers(provider) ==>
      var done := Driven(s, taskID, now + 30, text, stop);
      manager.Shows(done.st) && sent == done.sent && result == if done.reply.Ok? then Reduced else NotCompleted(done.reply.error)
  {
    hide manager.Shows, Driven, CollectedBy, Stored, Fitted;
    gathered, ids := Gather(manager, tracer, taskID, s);
    sent, notes, stop, text := [], [], taskID, "";
    var refusal := Refusal(gathered, provider);
    if refusal.Some? {
      result := refusal.value;
    } else {
      var output;
      output, notes := Combine(provider.value, gathered.value);
      text := output;
      result, sent, stop := Deliver(manager, tracer, taskID, output, ctx, now, s);
      StoredReads(old(tracer.Value()), taskID, text);
    }
  }
}
