# Verification of the Lucinda task pipeline

Lucinda turns a user request into a plan: a graph of sub-tasks with dependencies, closed by one system-added reduce node.
The planner builds the plan from a language model's answer, the state manager runs it under leases and a deadline, the board
awards ready tasks to bidders, the tracer keeps outputs, the reducer combines them, and the event bus carries the
notifications between them. This project models these parts in Dafny and proves what each promises and what they promise
together.

## How the model is built

- **Values and runs.** `task_types`, `plan_model` and `manager_model` give every locked region of the state manager as a
  function on the manager's whole state. `manager_runs` puts these regions, the lease watchdogs, the two halves of the
  deadline goroutine, the reader of the callback channel and a clock into one transition system. A *guarded run* is any
  interleaving of its steps over any number of plans with two guards: a newly ingested plan shares no node id with the plans
  already known, and `Failed` is applied only to claimed or running nodes (the code has no guard). `Failed`, `Abandon` and
  `Dispose` are called by nothing but tests; they are steps all the same. `plan_runs` is the same system seen from one plan;
  `ManagerRuns.Isolation` and `ToldTheorems.SentAgrees` prove the two views agree.
- **Leases.** A watchdog is *stale* once its node was open for a new claim while the watchdog was still pending.
  `lease_theorems` proves for every plan that only stale watchdogs revoke early, and `abandon_theorems` and `mixed_runs` prove
  exactly where stale watchdogs come from.
- **Objects.** `state_manager` and `manager` are the manager's own mutable nodes, plans and maps. Every method changes them in
  place, with the source's branches and loops, and its contract says that the objects then hold exactly the state the model's
  function computes, with the same reply, the same published events in order and the same result sent. Reply, node, claims and
  spawned goroutine are also stated outright from the objects before the call. A ghost parameter `s`
  names the state before; `Shows(s)` says the objects hold it. Published events, sent results and spawned goroutines are
  out-parameters.
- **Planner.** `planner_model` is the loop structure of `parse`; `planner` runs the same loops on mutable maps and nodes;
  `planner_theorems` proves which decoded lists yield plans that can finish.
- **Pipeline.** `pipeline` adds the tracer, the planner's imports, the two halves of the board's TaskDone handler and the
  reducer's write to the runs of the manager; `reduction` proves what the reducer then sees and does.
- **Completion.** `finish` proves that a plan whose dependencies can be met can be finished from every state in which nothing
  of it has failed or been disposed, by building the run node by node; mixed ids do not prevent it.
- **Board and bus.** `board_runs` and `eventbus` are independent of the manager; an interview claims the task at the manager's
  object. The bus keeps ghost histories: what was published to each topic and when each channel was subscribed.

An id is *mixed* if the decoded list has it both with and without dependencies. A list has *sound dependencies* if all are
listed, there is no cycle, and no id and no dependency is called "reduce". A *well-formed* list has at least one entry, sound
dependencies and no mixed id; ids may repeat. `SoundPlan` is what parse builds from sound dependencies: an acyclic graph
over the plan's own nodes, every node without predecessors a root, and counters that count the edges. `SinkPlan` is what the
manager trusts of a plan: moreover no root has predecessors, and there is one sink. A name is *doomed* if an
entry of it has an unlisted dependency, lies on a cycle, or is downstream of such an entry.

## What the proofs found

- `Abandon` does not stop the watchdog of the lease it ends. If the node is claimed again, the old watchdog takes the new
  lease away before it expires. On a node without stale watchdogs, in a plan with exact counters, Abandon can have this effect
  exactly if the node is claimed and a watchdog of it is pending (`AbandonTheorems.AbandonEndangersIff`).
- Mixed ids are not refused. Their node is a root and a dependent; it runs as a root, and when the last node it waits for
  completes, the cascade makes it Ready again, whatever its state. So it can be started twice, and a claim of it can be cut
  short by the watchdog of an earlier one, without any Abandon. For lists with sound dependencies both happen exactly if some
  id is mixed (`MixedRuns.LedgerIffUnmixed`, `MixedRuns.LeasesIffUnmixed`). Repeating an id is harmless as long as it is not
  mixed, since the counters stay exact (`PlannerTheorems.ParseCounted`).
- The comment on `PlanResult` (`api/v1/domain/task/task_plan.go:18-20`) promises one result on every termination path. A closed,
  unfinished plan with a callback has been or can still be told exactly if it has a deadline (`ToldTheorems.ToldIffDeadline`);
  disposing a plan without one leaves it untold for good (`ToldTheorems.DisposedUntold`). The planner sets a deadline on every
  plan it builds (`internal/task_workflow_layer/task_planner/planner.go:268` and `:287`), so such a plan can only come through
  the manager's interface.
- The TaskDone handler ignores the error of `SetOutput`. What the tracer has for a completed node is the last output some
  handler could store with the imported task; if all its handlers came before the import, it is only the imported spec's
  output (`Pipeline.DoneIsStored`), and any root of any plan can end like that (`Pipeline.EarlyOutputIsLost`).
- Once an interview ends without an award to a bidder, its bids stay, so no later bid is the first and the task is never
  interviewed again (`BoardRuns.SpentForever`, `BoardRuns.FruitlessIsSpent`).
- A list with a cycle or an unlisted dependency is accepted. Its sound entries run, the others wait until the plan is disposed
  (`EndToEnd.DoomedNeverRuns`). An empty list is accepted too, and its lone reduce node never becomes ready
  (`Finish.EmptyListNeverRuns`). Checking the decoded list before ingesting it would catch all of these and nothing else:
  among lists with no mixed id and "reduce" unused, the well-formed ones are exactly those that can
  finish (`Finish.FinishableIffWellFormed`).

## Model

| member | source | states |
|---|---|---|
| Manager.TaskStateManager.Ingest | internal/task_management_layer/task_state_manager/manager.go:66-102 | A known plan id is answered PlanExists and nothing changes. Otherwise the answer is Ok, the plan and all its nodes enter the maps, roots are Ready and the rest Pending, the roots are announced, and a deadline watch is spawned exactly if there is a deadline and a callback |
| Manager.TaskStateManager.Claim | internal/task_management_layer/task_state_manager/manager.go:107-153 | Only a Ready node is leased, to the given peer until now plus the lease, and then one watchdog is spawned; each refusal gives its reason and changes nothing in any plan |
| Manager.TaskStateManager.LeaseExpired | internal/task_management_layer/task_state_manager/manager.go:137-148 | The fired watchdog returns a claimed node to Ready, drops the claim and republishes it; it does nothing in any other state |
| Manager.TaskStateManager.Start | internal/task_management_layer/task_state_manager/manager.go:157-173 | Claimed becomes Running and Running stays, both answered Ok; an unknown node and any other state are refused with their reason and nothing changes |
| Manager.TaskStateManager.Complete | internal/task_management_layer/task_state_manager/manager.go:178-220 | Ok for a Running and for a Done node, refused with its reason otherwise. Only a Running one changes anything: it becomes Done, its claim goes, the successors of some plan holding it are counted down, each one that reaches zero becomes Ready and is announced, and OK with the given output is sent exactly if that plan is then all Done and has a callback |
| Manager.TaskStateManager.SearchPlan | internal/task_management_layer/task_state_manager/manager.go:196-199 | Whatever the map order, the search stops at a plan that has the node, or there is none |
| Manager.TaskStateManager.Failed | internal/task_management_layer/task_state_manager/manager.go:224-239 | Any known node becomes Failed, unleased and unclaimed, and is republished |
| Manager.TaskStateManager.Abandon | internal/task_management_layer/task_state_manager/manager.go:243-261 | Only a claimed node is returned to Ready, unleased and unclaimed, and republished |
| Manager.TaskStateManager.Dispose | internal/task_management_layer/task_state_manager/manager.go:265-287 | In a known plan every node not Done, Failed or Disposed becomes Disposed, loses holder, expiry and claim, and the rest is untouched; an unknown plan is refused |
| Manager.TaskStateManager.DeadlinePassed | internal/task_management_layer/task_state_manager/manager.go:386-401 | If some node is not Done the plan is disposed and a timeout is owed; a finished plan is left alone |
| Manager.TaskStateManager.Expired | internal/task_management_layer/task_state_manager/manager.go:291-303 | Lists exactly the claimed nodes with a positive expiry before now, each once, as copies |
| StateManager.TaskPlan.AllNodesDone | internal/task_management_layer/task_state_manager/manager.go:350-357 | True exactly if every node of the plan is Done |
| StateManager.TaskPlan.OpenNodes | internal/task_management_layer/task_state_manager/manager.go:75-90 | The two loops of Ingest on the shared node objects: Pending everywhere, then Ready at the listed roots that exist, and the index grown by exactly these nodes |
| StateManager.TaskPlan.ReleaseSuccessors | internal/task_management_layer/task_state_manager/manager.go:200-211 | The loop over a successor list on the shared node objects and counters yields the cascade and its announcements |
| StateManager.TaskPlan.DisposeNodes | internal/task_management_layer/task_state_manager/manager.go:274-284 | The loop in arbitrary map order disposes exactly the live nodes and removes exactly their claims |
| PlanModel.CascadeEffect | internal/task_management_layer/task_state_manager/manager.go:200-211 | Closed form of the cascade: each counter drops by its number of occurrences in the list, a listed node ends Ready exactly if its counter ends at zero or below, nothing else changes |
| PlanModel.CascadeOrderFree | internal/task_management_layer/task_state_manager/manager.go:200-211 | Lists with the same occurrences in any order leave the same nodes and counters |
| PlanModel.ReadiedOnce | internal/task_management_layer/task_state_manager/manager.go:205-209 | With a sufficient counter a successor is announced once if its last occurrence brings it to zero, else never, however often it is listed |
| PlanModel.ReadiedInOrder | internal/task_management_layer/task_state_manager/manager.go:200-211 | The announcements follow the successor list: one for each entry that brings its counter to zero or below, in list order |
| ManagerModel.RootsInOrder | internal/task_management_layer/task_state_manager/manager.go:80-100 | The announcements of Ingest follow the root list, in order, leaving out roots that name no node |
| ManagerRuns.Isolation | internal/task_management_layer/task_state_manager/manager.go:107-287 | In a state whose index is the disjoint union of its plans, a step changes each plan and its claims exactly as its own one-plan operation says |
| ToldTheorems.SentAgrees | internal/task_management_layer/task_state_manager/manager.go:213-215 | Every step appends to a plan's log exactly the results the manager's locked region, or the deadline goroutine after it, sends for that plan |
| ToldTheorems.TimeoutSays | internal/task_management_layer/task_state_manager/manager.go:402-406 | The result the deadline goroutine sends is a timeout that names the plan |
| ManagerTheorems.PlanIsolation | internal/task_management_layer/task_state_manager/manager.go:196-217 | In every guarded run a node id has one plan, the search of Complete can only stop there, and a step on the node leaves every other plan as it was |
| ManagerTheorems.ExactlyOnce | internal/task_management_layer/task_state_manager/manager.go:213-215 | In every guarded run a non-empty plan with a callback is told at most once: OK exactly if all nodes are Done, a timeout only when closed unfinished, and exactly one result once the deadline goroutine has ended |
| ManagerTheorems.SendFindsRoom | internal/task_management_layer/task_state_manager/manager.go:402-406 | Whenever a result is sent, nothing was sent before and the callback buffer is empty, so no send to the capacity-1 channel blocks |
| ManagerTheorems.NoDeadlineNeverTold | internal/task_management_layer/task_state_manager/manager.go:372-375 | A closed, unfinished plan with a callback but no deadline gets no result in any continuation of the run |
| ToldTheorems.ToldIffDeadline | internal/task_management_layer/task_state_manager/manager.go:372-409 | In every reachable state a closed, unfinished plan with a callback has been or can still be told exactly if it has a deadline |
| ToldTheorems.DisposedUntold | internal/task_management_layer/task_state_manager/manager.go:265-287 | Ingesting any non-empty plan with a callback and no deadline, and disposing it, gives a closed, unfinished plan that can never be told |
| ManagerTheorems.DisposalCloses | internal/task_management_layer/task_state_manager/manager.go:274-284 | After Dispose, or after the deadline found the plan unfinished, every node is Done, Failed or Disposed |
| ManagerTheorems.DisposalIsFinal | internal/task_management_layer/task_state_manager/manager.go:139-148 | No continuation of a guarded run changes a closed plan in any way: no late watchdog, Complete or release |
| ManagerTheorems.CounterRefinement | internal/task_management_layer/task_state_manager/manager.go:196-211 | A running counter is the number of edge occurrences from sources not Done; never negative, zero exactly if all sources are Done, positive on Pending nodes with predecessors, zero on Ready, Claimed, Running, Done and Failed nodes |
| ManagerTheorems.LooseHere | internal/task_management_layer/task_state_manager/manager.go:196-211 | In every guarded run of a plan that started with edge counts and its starts as roots, roots that wait included, no counter exceeds the number of edge occurrences from sources not Done, and every Pending node's counter is positive |
| DagTheorems.PendingWaits | internal/task_management_layer/task_state_manager/manager.go:196-211 | In a sink plan every Pending node's counter is positive and some predecessor of it is not Done |
| ManagerTheorems.CountersFollowDone | internal/task_management_layer/task_state_manager/manager.go:196-211 | Two runs of the same plan that completed the same nodes, in any order, agree on every counter |
| ManagerTheorems.TopologicalExecution | internal/task_management_layer/task_state_manager/manager.go:178-211 | The completes list exactly the Done nodes, none twice, each after all its predecessors; all nodes once the plan is done |
| ManagerTheorems.LeaseLedger | internal/task_management_layer/task_state_manager/manager.go:107-258 | Per node of a plan with exact counters: claims = starts + abandons + expiries + dropped + one if now Claimed; completes <= starts <= 1; one complete exactly if Done; the claimed index has it exactly if Claimed or Running, with the holder the node names |
| MixedRuns.LedgerIffUnmixed | internal/task_management_layer/task_state_manager/manager.go:205-209 | For a list with sound dependencies, that ledger holds for every node in every guarded run of its plan exactly if no id is mixed |
| MixedRuns.WaitingRootRunsTwice | internal/task_management_layer/task_state_manager/manager.go:205-209 | Any plan with sound dependencies, exact counts and a root that waits for something has a guarded run that starts that root twice |
| EventTheorems.AnnouncedOnce | internal/task_management_layer/task_state_manager/manager.go:205-209 | In a plan with exact counters a root is announced ready exactly as often as it is listed, any other node at most once, never while Pending and always once past it; every node is republished exactly once for each abandon, expiry and failure |
| LeaseTheorems.OneWatchdog | internal/task_management_layer/task_state_manager/manager.go:130-150 | In every guarded run, of any plan, a pending watchdog that is not stale is the one of its node's latest claim, and the node has not been reopened since |
| LeaseTheorems.LeaseTiming | internal/task_management_layer/task_state_manager/manager.go:124-148 | In every guarded run, of any plan, a watchdog that fires on a claimed node reopens it; the latest claim's own does so only after the lease expired, and any other is stale |
| LeaseTheorems.LiveClaimIsWatched | internal/task_management_layer/task_state_manager/manager.go:130-137 | In every guarded run, of any plan, a claimed node whose claim context is not cancelled has that claim's watchdog pending |
| LeaseTheorems.ClaimArms | internal/task_management_layer/task_state_manager/manager.go:124-137 | In every guarded run a claim of a ready node leases it for that many seconds from now and leaves exactly one new watchdog, due when they are over |
| AbandonTheorems.NewStale | internal/task_management_layer/task_state_manager/manager.go:139-148 | In a plan with exact counters a watchdog becomes stale only when its claimed node is reopened by Abandon or by a watchdog that was stale before |
| AbandonTheorems.UnabandonedIsStaleFree | internal/task_management_layer/task_state_manager/manager.go:130-150 | In a plan with exact counters a node nobody calls Abandon on never has a stale watchdog pending |
| AbandonTheorems.AbandonRevokesEarly | internal/task_management_layer/task_state_manager/manager.go:243-261 | From any state with a claimed node and a pending watchdog of it, due or not, Abandon and a new claim by any peer that outlasts the watchdog are followed by that watchdog revoking the new lease early |
| AbandonTheorems.AbandonEndangersIff | internal/task_management_layer/task_state_manager/manager.go:243-261 | In a plan with exact counters and on a node without stale watchdogs, Abandon can be followed by an early revocation exactly if the node is claimed and a watchdog of it is pending |
| MixedRuns.LeasesIffUnmixed | internal/task_management_layer/task_state_manager/manager.go:139-148 | For a list with sound dependencies, no lease of its plan is revoked early in any guarded run without Abandon exactly if no id is mixed |
| MixedRuns.OneDogIffUnmixed | internal/task_management_layer/task_state_manager/manager.go:130-150 | For such a list, no node ever has two pending watchdogs in any guarded run without Abandon exactly if no id is mixed |
| MixedRuns.WaitingRootLosesLease | internal/task_management_layer/task_state_manager/manager.go:205-209 | The witness: a claim, the cascade, a longer claim, and the first watchdog about to revoke the second lease halfway |
| MixedIds.UntilReopened | internal/task_management_layer/task_state_manager/manager.go:200-211 | A node that is claimed or done while it still waits is made Ready again by running, in some order, only nodes that wait for nothing, and is not started meanwhile |
| DagTheorems.NoDeadlock | internal/task_management_layer/task_state_manager/manager.go:178-211 | In a guarded run, an unfinished sound plan with nothing failed or disposed has a node that is Ready, Claimed or Running |
| DagTheorems.ExactWork | internal/task_management_layer/task_state_manager/manager.go:107-220 | State-changing claims, starts and completes never exceed three a node plus the reopenings, and a finished plan took exactly that many |
| DagTheorems.SinkLast | internal/task_management_layer/task_state_manager/manager.go:178-217 | The step that makes a sink plan all Done is the sink's Complete, nothing was sent before, and the OK result is that Complete's output |
| DagTheorems.StuckNeverRuns | internal/task_management_layer/task_state_manager/manager.go:201-215 | A node of a set whose members all wait for members or for ids outside the plan is only ever Pending or Disposed, and its plan is never reported OK |
| Planner.Parse | internal/task_workflow_layer/task_planner/planner.go:199-271 | The decoder sees the extracted text. If it fails the plan is the fallback with the raw answer as prompt; else a parsed plan for some order of the leaves, on fresh nodes: a node for every listed id with prompt, tools and labels of its last entry, budget 500 and nothing else, the reduce node with its own spec, and a sink plan if the list is well-formed. Either has a deadline |
| Planner.BuildNodes | internal/task_workflow_layer/task_planner/planner.go:213-228 | One fresh node object per id with prompt, tools and labels of its last entry, budget 500 and nothing else; roots and zero counters in list order |
| Planner.LinkNodes | internal/task_workflow_layer/task_planner/planner.go:230-237 | The nested loops build the model's successor lists and counters |
| Planner.FindLeaves | internal/task_workflow_layer/task_planner/planner.go:240-245 | In arbitrary map order, exactly the nodes without successors, each once |
| Planner.AppendReduce | internal/task_workflow_layer/task_planner/planner.go:246-259 | The reduce node joins every leaf's list and counts the leaves |
| Planner.Fallback | internal/task_workflow_layer/task_planner/planner.go:273-290 | A fresh single-node plan with the prompt, budget 500, its node as root and a deadline |
| PlannerModel.LinkedCounts | internal/task_workflow_layer/task_planner/planner.go:230-237 | After the second loop every counter equals the occurrences in the successor lists and the dependencies listed for the id, repeats counted |
| PlannerModel.LinkedEdges | internal/task_workflow_layer/task_planner/planner.go:230-237 | An id is listed after another exactly if an entry of that id depends on it |
| PlannerModel.LeafOrderFree | internal/task_workflow_layer/task_planner/planner.go:240-259 | The map order in which leaves are found leaves no trace in the plan |
| PlannerModel.NodeCarriesEntry | internal/task_workflow_layer/task_planner/planner.go:213-222 | The node of an entry whose id is not repeated later has its prompt, tools and labels, budget 500, and nothing else set |
| PlannerModel.RawRootsInOrder | internal/task_workflow_layer/task_planner/planner.go:224-227 | The roots are the entries without dependencies, in list order |
| PlannerModel.SuccessorsInOrder | internal/task_workflow_layer/task_planner/planner.go:230-237 | The successors of a node are the entries that depend on it, in list order, each as often as it lists it |
| PlannerTheorems.ParseCarries | internal/task_workflow_layer/task_planner/planner.go:208-270 | The plan holds a node for every listed id, with the contents of its last entry, the reduce node with its prompt, budget 1000, label and stage, no other node, and a deadline |
| PlannerTheorems.ParseCounted | internal/task_workflow_layer/task_planner/planner.go:208-270 | With "reduce" unused, every counter of the built plan is the in-degree with multiplicity and every root's in-degree is zero exactly if no id is mixed, whatever else is wrong with the list |
| PlannerTheorems.ParseSound | internal/task_workflow_layer/task_planner/planner.go:208-270 | From any non-empty list with sound dependencies, repeated and mixed ids included, parse builds a sound plan |
| PlannerTheorems.ParseEstablishesSinkPlan | internal/task_workflow_layer/task_planner/planner.go:208-270 | From a well-formed list parse builds a sink plan: acyclic, reduce the only sink, roots exactly the zero in-degree nodes, each once if the ids are distinct, exact counters |
| PlannerTheorems.SinkPlanReaches | internal/task_workflow_layer/task_planner/planner.go:239-259 | Every node of a sink plan leads to its sink |
| PlannerTheorems.FallbackIsSinkPlan | internal/task_workflow_layer/task_planner/planner.go:273-290 | The fallback plan is a sink plan with its single node as sink |
| PlannerTheorems.OnCycleDoomed | internal/task_workflow_layer/task_planner/planner.go:230-237 | Every entry on a dependency cycle is doomed |
| PlannerTheorems.MissingDepDoomed | internal/task_workflow_layer/task_planner/planner.go:230-237 | Every entry with an unlisted dependency is doomed |
| PlannerTheorems.DownstreamDoomed | internal/task_workflow_layer/task_planner/planner.go:230-237 | Every entry that depends on a doomed one is doomed |
| PlannerTheorems.SoundIffNoneDoomed | internal/task_workflow_layer/task_planner/planner.go:230-237 | For every list: no entry is doomed exactly if all dependencies are listed and there is no cycle |
| EndToEnd.ReduceFinishes | internal/task_workflow_layer/task_planner/planner.go:239-259 | In every guarded run a plan parsed from a well-formed list is finished by its reduce node's Complete and no other step, and the one result sent is that output |
| EndToEnd.ParsedNoDeadlock | internal/task_management_layer/task_state_manager/manager.go:178-211 | A plan from a non-empty list with sound dependencies, mixed ids or not, always has a node at work while it is unfinished and nothing failed or was disposed |
| EndToEnd.ReduceWaitsForAll | internal/task_management_layer/task_state_manager/manager.go:200-211 | When its reduce node is anything but Pending or Disposed, every other node is Done |
| EndToEnd.DoomedNeverRuns | internal/task_workflow_layer/task_planner/planner.go:230-237 | In every guarded run of a plan from a list with no mixed id and "reduce" unused, a doomed entry's node is only ever Pending or Disposed, the plan is never all Done and never reported OK |
| EndToEnd.PlannerIdsAreDisjoint | internal/task_workflow_layer/task_planner/planner.go:214-214 | Among plans with the wrapper's ids whose node ids extend the plan id, the disjointness guard on Ingest always holds |
| EndToEnd.PlannedOwnIds | internal/task_workflow_layer/task_planner/planner.go:246-246 | Every node id of a parsed or fallback plan extends the plan id |
| Finish.CanFinish | internal/task_management_layer/task_state_manager/manager.go:107-220 | From every reachable state with nothing of a sound plan failed or disposed, mixed ids or not, there is a continuation that makes it all Done and, if it was unfinished and has a callback, sends OK with a freely chosen output |
| Finish.SoundCanFinish | internal/task_workflow_layer/task_planner/planner.go:208-270 | The same for the plan of any non-empty list with sound dependencies, mixed ids included |
| Finish.EveryPlanCanFinish | internal/task_workflow_layer/task_planner/planner.go:129-134 | At any point of any guarded run, ingesting a plan parsed from a non-empty list with sound dependencies, mixed ids or not, can be continued to all Done, reported OK once with the chosen output |
| Finish.EmptyListNeverRuns | internal/task_workflow_layer/task_planner/planner.go:240-259 | The plan of an empty list stays Pending or Disposed in every guarded run and is never all Done |
| Finish.FinishableIffWellFormed | internal/task_workflow_layer/task_planner/planner.go:208-270 | In every reachable state, a plan parsed from a list with no mixed id and "reduce" unused, with nothing failed or disposed, has a continuation to all Done exactly if the list is well-formed |
| PlanIds.PlansDisjoint | internal/task_wrapper/wrapper.go:25-25 | Ids built on different "plan-" plus digits ids differ, whatever the node names |
| PlanIds.ParentRoundTrip | internal/task_workflow_layer/task_reducer/reducer.go:189-196 | The parent of plan id, dash, name is the plan id exactly if the plan id has a dash and the name has none |
| PlanIds.ReduceFindsPlan | internal/task_workflow_layer/task_reducer/reducer.go:189-196 | For the wrapper's plan ids the reduce node's parent is its plan |
| ExtractJson.Extract | internal/task_workflow_layer/task_planner/planner.go:310-329 | Returns the balanced object at the first opening brace if there is one, else the input |
| ExtractJson.ObjectUnique | internal/task_workflow_layer/task_planner/planner.go:310-329 | A text holds at most one such object: its start and end are forced |
| ExtractJson.ExtractsObject | internal/task_workflow_layer/task_planner/planner.go:310-329 | A balanced object after brace-free text and before anything is what is extracted |
| ExtractJson.ExtractIdempotent | internal/task_workflow_layer/task_planner/planner.go:310-329 | Extracting twice is extracting once |
| Tracer.TaskTracer.Import | internal/task_management_layer/task_tracer/tracer.go:41-49 | Adds an own task unless one of that id is there, which then stays with its output |
| Tracer.TaskTracer.Assigned | internal/task_management_layer/task_tracer/tracer.go:51-59 | The same for tasks assigned by peers |
| Tracer.TaskTracer.SetOutput | internal/task_management_layer/task_tracer/tracer.go:61-73 | Writes the output through the pointer of the own task, else of the assigned one, and changes nothing else; fails exactly if neither exists |
| Tracer.TaskTracer.Remove | internal/task_management_layer/task_tracer/tracer.go:75-87 | Removes the own task, else the assigned one; fails exactly if neither exists |
| Pipeline.DoneIsStored | internal/task_workflow_layer/task_board/board.go:164-172 | In every pipeline run and any plan, a reader of the tracer finds for a Done node that is not a reduce node the output last stored with the imported task, and if none was stored, which happens only to tasks handled before their import, the imported spec's output |
| Pipeline.ToldMeans | internal/task_workflow_layer/task_board/board.go:164-172 | In any sequence of moves, what counts as stored for a task is the output of the last store, by handler or reducer, after its import |
| Pipeline.ImportedIsFirst | internal/task_management_layer/task_tracer/tracer.go:41-49 | What counts as imported is the spec of the first import |
| Pipeline.EarlyOutputIsLost | internal/task_workflow_layer/task_board/board.go:169-171 | For any root of any plan, not its own successor, and any output there is a run whose handler comes before the imports and that ends with the node Done, no output stored, and the imported spec's output in the tracer |
| Pipeline.OutputsPrecedeReduction | internal/task_workflow_layer/task_planner/planner.go:120-129 | When the reduce node of a well-formed plan is past Pending, every other node is Done and a reader finds its last stored output, or the imported one if all its handlers came before the import |
| Reducer.Collect | internal/task_workflow_layer/task_reducer/reducer.go:100-114 | One entry for every node that is not a reduce node and has a non-empty output in the tracer, and no other, whatever the map order |
| Reducer.Prompt | internal/task_workflow_layer/task_reducer/reducer.go:130-154 | Unshortened notes if they fit the budget; else each note whole or cut to its share plus dots, and the joined notes within max(budget - 100, 50n) + 4n - 1 |
| Reducer.FittedMeans | internal/task_workflow_layer/task_reducer/reducer.go:130-150 | Nothing is cut up to 256 bytes or three bytes a token; beyond that a note is whole or cut, with dots, to its share of three bytes a token less 100, at least 50 bytes |
| Reducer.JoinSplits | internal/task_workflow_layer/task_reducer/reducer.go:136-136 | Joined text cut anywhere between two pieces is the joined halves with one line break between them |
| Reducer.JoinKeeps | internal/task_workflow_layer/task_reducer/reducer.go:136-136 | Every piece stands whole in the joined text, in order, between line breaks |
| Reducer.Drive | internal/task_workflow_layer/task_reducer/reducer.go:176-184 | Claim, Start and Complete in turn, only the last one's refusal counting |
| Reducer.Reduce | internal/task_workflow_layer/task_reducer/reducer.go:93-187 | The refusals in order, each changing nothing; else the text is what the first model answers to the instruction and the fitted notes or, if it fails, the joined unshortened outputs; that text is stored for the reduce node, and it is what a sent OK carries |
| Reduction.ReduceSeesEveryOutput | internal/task_workflow_layer/task_reducer/reducer.go:100-114 | When the reduce node of a well-formed plan is Ready, what is collected is one entry for each other node whose last stored or imported output is non-empty, holding that output; a node without a stored output was handled before its import |
| Reduction.DriveFinishes | internal/task_workflow_layer/task_reducer/reducer.go:175-184 | From a Ready reduce node of a well-formed plan the three calls succeed, leave it Done with holder "local", make the plan all Done and send OK with the output if there is a callback |
| Capability.Match | api/v1/domain/capability/cv.go:21-57 | The loops compute -1 if the peer lacks memory, model, a tool or every label, and otherwise the free gibibytes, fraction dropped, minus the priority, which may be negative too |
| Capability.Truncated | api/v1/domain/capability/cv.go:54-54 | The quotient lies between zero and the exact one and differs from it by less than one |
| Capability.SumSplits | api/v1/domain/capability/cv.go:24-27 | The total over two lists is the sum of their totals, and of one value that value |
| Board.TaskBoard.Advertise | internal/task_workflow_layer/task_board/board.go:214-234 | Inserts an advertisement, without the prompt, exactly if none is up, the tracer has the task and it is no reduce node, and returns it; else nothing changes |
| Board.TaskBoard.ListAd | internal/task_workflow_layer/task_board/board.go:191-197 | Keeps the first advertisement of an id and tells whether it was new |
| Board.TaskBoard.TakeBid | internal/task_workflow_layer/task_board/board.go:250-253 | Appends the bid behind the earlier ones and tells whether it is the only one |
| Board.TaskBoard.Interview | internal/task_workflow_layer/task_board/board.go:263-334 | Nothing without own task, bids or advertisement; the board itself if nobody qualifies, leaving the lists as they are; else a qualified bid of the highest score, and the advertisement and its bids come down. The winner, or the board itself, is the receiver of the assignment and, if the node was Ready, holds it for 30 seconds from now |
| BoardRuns.OneAwardPerAd | internal/task_workflow_layer/task_board/board.go:249-259 | In every run at most one interview is pending for a task, and its awards, self-assignments included, are at most its advertisements and at least one fewer |
| BoardRuns.BidsAreHandouts | internal/task_workflow_layer/task_board/board.go:249-253 | In every run the bids on a task are all those handed out since it was last awarded, in order |
| BoardRuns.AwardIsBest | internal/task_workflow_layer/task_board/board.go:263-334 | In every run an award goes to a qualified bid handed out since the last award and no other of them scores higher; the board takes a task itself only if there were bids and none qualifies; nothing happens exactly without own task, bids or advertisement |
| BoardRuns.AdIsFirstOffer | internal/task_workflow_layer/task_board/board.go:214-234 | In every run a task is advertised exactly if it was offered since its last award, as it was offered first, without its prompt |
| BoardRuns.FirstAdStays | internal/task_workflow_layer/task_board/board.go:191-197 | In every run a peer task stays listed as it was first advertised |
| BoardRuns.FruitlessIsSpent | internal/task_workflow_layer/task_board/board.go:294-303 | An interview leaves bids behind that nobody will interview exactly if it does not award the task to a bidder |
| BoardRuns.SpentForever | internal/task_workflow_layer/task_board/board.go:249-259 | After that no continuation awards the task again or takes its advertisement down |
| BoardRuns.AdsAreDiscreet | api/v1/domain/task/task_ad.go:9-17 | No advertisement of any run carries a prompt or offers a reduce node |
| EventBus.FanOut | pkg/infrastructure_layer/eventbus/eventbus.go:72-79 | What was read from a bounded channel and what waits in it are, in order, the offered events that found room; one is missing exactly if the channel was full at that moment |
| EventBus.InMemoryEventBus.SubscriberGets | pkg/infrastructure_layer/eventbus/eventbus.go:36-83 | For every channel the bus handed out, in any valid state: what its reader got and what waits are, in order, those events published to its topic between its subscription and its end that found room; one is missing exactly if the channel was full when it was offered |
| EventBus.InMemoryEventBus.Received | pkg/infrastructure_layer/eventbus/eventbus.go:36-43 | A reader taking an event from a channel leaves the bus valid |
| EventBus.Channel.TrySend | pkg/infrastructure_layer/eventbus/eventbus.go:74-78 | A send that does not wait: queued at the end exactly if there is room, else dropped |
| EventBus.Channel.TryReceive | pkg/infrastructure_layer/eventbus/eventbus.go:39-39 | A read takes the oldest queued event and no other, if there is one |
| EventBus.Remove | pkg/infrastructure_layer/eventbus/eventbus.go:53-58 | Ranging over the slice while it is shifted in place removes exactly the target, keeps the others' order and closes it once |
| EventBus.WithoutKeepsOthers | pkg/infrastructure_layer/eventbus/eventbus.go:53-58 | What is left is everybody but the target, still without duplicates, one fewer if it was there |
| EventBus.InMemoryEventBus.UnSubscribe | pkg/infrastructure_layer/eventbus/eventbus.go:49-60 | The topic loses the target, which is closed and its window ended, no other topic changes, and the bus stays valid |
| EventBus.InMemoryEventBus.Subscribe | pkg/infrastructure_layer/eventbus/eventbus.go:36-43 | A new open channel whose window starts now joins the end of the topic's list, no other topic changes, and the bus stays valid |
| EventBus.InMemoryEventBus.Publish | pkg/infrastructure_layer/eventbus/eventbus.go:66-83 | The event joins the topic's history, every subscriber is offered it once and nobody else is, no list changes, no send meets a closed channel, and the bus stays valid |

## Left out

- ManagerTheorems.LeaseLedger: stated, like CounterRefinement, TopologicalExecution and ExactWork, for plans whose counters are exact; `PlannerTheorems.ParseCounted` says which lists give them, and `MixedRuns.LedgerIffUnmixed` that the ledger fails for the others.
- Finish.FinishableIffWellFormed: assumes that no id is mixed and "reduce" is unused. With mixed ids only one half is stated, that sound dependencies suffice (`Finish.SoundCanFinish`).
- EndToEnd.DoomedNeverRuns: assumes the same; a name listed without dependencies as well runs as a root.
- Node state before Ingest: a node object the planner built has the empty state in the source and is Pending here; nothing reads it before Ingest sets it.
- Locks and goroutines: each locked region is one step of a run or one method call; the methods themselves are proved for calls that do not overlap.
- Reducer.Reduce: proved for a call with no other step in between; `Reduction.ReduceSeesEveryOutput` and the manager's runs cover what may happen around it.
- Events: published events are recorded in order and not routed to the handlers; a handler's call is a step that may happen at any time.
- Wall clock: a counter in nanosecond ticks that never goes back; leases and expiries are whole seconds of it. Overflow of `int64` seconds and durations is not modelled.
- Deadline times: whether a plan has a deadline is modelled, when it passes is left open, so the deadline may fire at any time.
- TaskSpec: the unused fields `Deadline` and `CreatedAt` are omitted, as are a plan's `Owner` and `CreatedAt`.
- JSON decoding and the language model: parameters; any decoded list, any answer and any failure is covered.
- Strings are sequences of characters; byte lengths and UTF-8 boundaries of cut notes are not distinguished from characters.
- Remote execution: the executor, the transport and assignments to other nodes; completion facts are about tasks completed through the TaskDone handler and the reducer.
- Tracer removal by the executor is a method of the tracer and not a step of the pipeline's runs.
- Board: building one's own capability record (hardware, models) is a parameter; the delivery of the assignment message is not modelled; `Ripup`, interviews called from outside and the heartbeat are not in its runs.
- EventBus: `Release`, overlapping calls, and unbuffered channels with a waiting reader; a channel of length zero is always full here.
- Queries (`Plan`, `Status`, `IsComplete`, listings) and registration of modules: easy members.
- System-wide liveness: bus sends may be dropped and peer advertisements are never cleared, so only the manager's own progress is stated.
