# Aegis authorisation and vehicle model

Aegis is a two-service protocol: an agent proposes a vehicle action, a guardrail decides it against policy and a
state snapshot and issues a single-use permit, and the agent's gateway runs the actuator handler. This project models
that protocol, the vehicle state machine behind it, the registry of long-running actions and the ordered event stream,
and proves properties of the model over all inputs, all interleavings and all runs.

| file | what it models |
|---|---|
| EventDelivery.dfy | replay-then-follow event subscriptions: watermark, bounded queue, elected drainer, re-entrant callbacks |
| KeyedLocks.dfy, ResultCache.dfy, AgentRuntime.dfy | reference-counted keyed locks, the LRU result cache, duplicate suppression |
| Conditions.dfy, PolicyEngine.dfy | the condition evaluator and policy resolution, with the service's fail-closed wrapper |
| Wire.dfy | the contract: JSON objects, digests, validators on the agent's side, builders on the guardrail's |
| ToolRegistry.dfy, ToolMapping.dfy | tool-call validation, the schemas shown to models, intent mapping on both sides |
| PermitGateway.dfy | permit store, verifier, executions and resets around the re-entrant lifecycle lock |
| Confirmation.dfy | the agent's pending confirmations under confirm, cancel, expiry, reset and lost replies |
| GuardrailService.dfy, GuardrailVerdicts.dfy | action, query, confirm and monitor requests, confirmation tokens; what each route answers, field by field |
| EndToEnd.dfy, Accountability.dfy, Progress.dfy | turns, confirmations, guardrail and gateway composed into one system; who confirmed an action, and when; what is allowed gets done |
| VehicleModel.dfy, StateMachine.dfy, Simulation.dfy | the validated vehicle state, the versioned machine with its log, operator batches and compound behaviours |
| ActiveActions.dfy, Cascade.dfy, Orphans.dfy, Interleaving.dfy | the action registry, starts and stop handlers across state and registry: where the two agree, where not, and under interleaving |
| VehicleEffects.dfy | what starts, stops and resets leave of the vehicle state, field by field |
| Monitor.dfy | the fail-safe monitor |
| RateLimit.dfy | the rate-limited model transport |

Conventions. A digest is the value that was hashed, so it is injective; ids from uuid are fresh; times are integers (or
reals) supplied by the caller; a reply of a remote service is any reply. Concurrency is a state machine whose steps are
the critical sections of the source, so theorems about runs cover every interleaving of them. An exception is an error
value. Methods of the source's classes are methods with loops, proved equal to functions; what the source promises is
proved of those functions and of the runs.

Where the source does less than a reader may expect, the condition is exact: `EventDelivery.ExactIffContiguous` (order
of notifies), `Confirmation.ResetSettlesUnlessInFlight` (a reset does not stop a confirmation being answered),
`StateMachine.AtomicExceptNonUtc` (a non-UTC clock commits a state without its event), `Wire.DecisionAccepted` (a rule
id or intent over 128 characters is sent but refused by the agent), `ToolMapping.SidesAgree` (`*` rows),
`Cascade.ForgedRestartReason` and `Cascade.CompletionLeavesEntry` (entries without a running record),
`Orphans.StartOrphans`, `Orphans.RollbackOrphans` and `Orphans.AacStopOrphans` (running records without an entry),
`Interleaving.RecordArrives` and `Interleaving.OrphanExactly` (the same with other threads in between),
`VehicleEffects.RollbackEffect` (a rolled-back start leaves camp mode on), `ToolRegistry.PairAgreesExactly` (overlapping
signatures), `Monitor.RaiseAbortsTheRest` (an incomplete snapshot or an
untyped client error leaves later actions unevaluated), `ActiveActions.StartIndexExactly` (reused ids),
`ToolRegistry.MixedLosesFreeText` (Gemini's flat schema).

## Model

| member | source | states |
|---|---|---|
| `EventDelivery.DeliverySafety` | agent/src/vehicle_agent/events/adapters.py:58-149 | In every reachable state of every interleaving: one drainer per subscription and one whenever something waits, at most 256 pending, and delivered plus in flight plus pending are its own session's stored events in strictly increasing sequence |
| `EventDelivery.ExactIffContiguous` | agent/src/vehicle_agent/events/adapters.py:58-82 | Replay and live events join without gap or duplicate exactly when no accepted notify skipped past `high_watermark + 1` |
| `EventDelivery.InOrderIsExact` | agent/src/vehicle_agent/events/pipeline.py:32-36 | With notifies in append order per session every live subscription holds exactly the stored run after `since_sequence` up to its watermark |
| `EventDelivery.StartedIsGapless` | agent/src/vehicle_agent/events/adapters.py:58-149 | Under the same order every subscription, also one dropped on overflow or failure or unsubscribed, had received a gapless run of its session's events right after `since_sequence` |
| `EventDelivery.NotifyEffect` | agent/src/vehicle_agent/events/adapters.py:58-82 | What a notify does to each live subscription: an event of its session past its watermark drops it exactly when 256 events wait, and is queued otherwise; anything else leaves it as it was; the notifier becomes drainer exactly of the idle ones that queued it |
| `EventDelivery.SurvivesExactly` | agent/src/vehicle_agent/events/adapters.py:58-149 | Over all runs a subscription is live later exactly when no step in between was its unsubscribe, a raising callback of its own, or a notify with news that found 256 events waiting |
| `EventDelivery.QuietMeansDelivered` | agent/src/vehicle_agent/events/adapters.py:58-149 | With notifies in append order, a live subscription nobody drains has been called back with exactly the stored events after `since_sequence`, up to its watermark and at least to the last one notified |
| `EventDelivery.NotifiedIsLast` | agent/src/vehicle_agent/events/pipeline.py:32-36 | What append order of notifies is measured by: one past the index of the session's last notify in the run |
| `EventDelivery.StoreGrowsBounded` | agent/src/vehicle_agent/events/store.py:27-51 | In every run no session holds more than 4096 events, and stored events are never lost or changed |
| `EventDelivery.DrainerCanStep` | agent/src/vehicle_agent/events/adapters.py:127-149 | Whoever has something to drain can go on |
| `EventDelivery.OutOfOrderLosesAnEvent` | agent/src/vehicle_agent/events/pipeline.py:32-36 | A run with two producers whose notifies overtake each other loses event 1 for good, so the order is needed |
| `EventDelivery.StreamStep` | agent/src/vehicle_agent/events/adapters.py:58-149 | Every critical section keeps order, session, bound and watermark of all subscriptions |
| `EventDelivery.DrainStep` | agent/src/vehicle_agent/events/adapters.py:127-149 | Every critical section keeps the election: `delivering` is set exactly while a drainer exists |
| `EventDelivery.AckStep` | agent/src/vehicle_agent/events/adapters.py:127-149 | Every critical section keeps `last_sequence` behind the started callbacks by exactly the one in flight |
| `EventDelivery.RunInvariant` | agent/src/vehicle_agent/events/adapters.py:40-149 | The three invariants hold in every state of every run |
| `EventDelivery.OrderedSpan` | agent/src/vehicle_agent/events/adapters.py:58-82 | An ordered stream is the full window of the store exactly when its length equals the sequence distance it covers |
| `EventDelivery.AgentEventStore.Append` | agent/src/vehicle_agent/events/store.py:27-51 | Appends one event numbered one past the session's last, or nothing: empty session, full session and refused events leave every stream alone |
| `EventDelivery.AgentEventStore.GetEvents` | agent/src/vehicle_agent/events/store.py:53-62 | The filtering loop returns exactly the stored suffix after the sequence number |
| `EventDelivery.EventStreamAdapter.NotifyLocked` | agent/src/vehicle_agent/events/adapters.py:58-82 | The locked loop queues the event for every subscription it is news to, drops exactly those of them with 256 waiting, leaves all others alone and elects exactly the idle accepting ones, each once |
| `EventDelivery.EventStreamAdapter.SubscribeLocked` | agent/src/vehicle_agent/events/adapters.py:84-112 | The replay is read and the subscriber registered in one locked section: it holds exactly the stored events after `since_sequence`; an oversized replay or an empty session changes nothing |
| `EventDelivery.EventStreamAdapter.UnsubscribeSession` | agent/src/vehicle_agent/events/adapters.py:114-117 | Removes exactly this subscription |
| `EventDelivery.EventStreamAdapter.DrainTake` | agent/src/vehicle_agent/events/adapters.py:127-139 | The locked head of the drain loop takes the oldest pending event or gives up the election |
| `EventDelivery.EventStreamAdapter.DrainAcknowledge` | agent/src/vehicle_agent/events/adapters.py:140-149 | After a callback only `last_sequence` of that subscription moves, if it still exists |
| `KeyedLocks.StepInv` | agent/src/vehicle_agent/runtime.py:177-209 | Creating, acquiring, releasing and deleting lock objects keeps the user counts, the owners and the nesting order |
| `KeyedLocks.MutualExclusion` | agent/src/vehicle_agent/runtime.py:177-209 | Although lock objects are deleted with their last user, no two threads are ever inside the same key |
| `KeyedLocks.TableExact` | agent/src/vehicle_agent/orchestrator/orchestrator.py:466-484 | The table lists exactly the keys in use, each with its number of users |
| `KeyedLocks.NoDeadlock` | agent/src/vehicle_agent/runtime.py:125-209 | Request, then session, then turn locks cannot deadlock: somebody inside can always move |
| `KeyedLocks.KeyedLockTable.Enter` | agent/src/vehicle_agent/runtime.py:178-186 | Finds or creates the key's lock object and counts one more user |
| `KeyedLocks.KeyedLockTable.Leave` | agent/src/vehicle_agent/runtime.py:187-193 | Counts one user less and deletes the entry with the last one |
| `ResultCache.KeptWhileRecent` | agent/src/vehicle_agent/runtime.py:129-168 | LRU law: a result stays cached while fewer than the limit of other keys have been used since |
| `AgentRuntime.StepInv` | agent/src/vehicle_agent/runtime.py:113-209 | Every step of interleaved `handle_text` calls keeps locks, cache and the account of runs |
| `AgentRuntime.RunsAccounted` | agent/src/vehicle_agent/runtime.py:125-168 | Conservation in every run: agent runs of a request are its failures plus its removals from the cache plus one if it runs or is cached now; never two at once |
| `AgentRuntime.OnceWhileCached` | agent/src/vehicle_agent/runtime.py:129-168 | While a request stays cached nobody runs it again and every lookup finds the same result |
| `AgentRuntime.DuplicateAnswered` | agent/src/vehicle_agent/runtime.py:129-141 | A duplicate of a cached request is answered with the stored result |
| `AgentRuntime.StaysCached` | agent/src/vehicle_agent/runtime.py:129-168 | In every run a finished request stays cached while its session is not reset and fewer than the limit of other requests are looked up or finished |
| `AgentRuntime.RecentDuplicateAnswered` | agent/src/vehicle_agent/runtime.py:129-168 | So a duplicate in that time receives the first run's result and the request is not run again |
| `AgentRuntime.SomeCallCanStep` | agent/src/vehicle_agent/runtime.py:113-209 | No deadlock: while a call is unfinished some call can take its next step |
| `AgentRuntime.StepsTowardsEnd` | agent/src/vehicle_agent/runtime.py:113-168 | Every own step of a call, those on the orchestrator's lock aside, brings it nearer to its end, and nobody else's step sets it back |
| `AgentRuntime.CallsAreFinite` | agent/src/vehicle_agent/runtime.py:113-209 | Under every interleaving a call takes at most twelve such steps from its begin to its return, so with no deadlock all calls under way return |
| `AgentRuntime.LeftMeansUnderWay` | agent/src/vehicle_agent/runtime.py:113-128 | A call has steps left exactly from its begin to its return |
| `AgentRuntime.LastMessagesAreLast` | agent/src/vehicle_agent/runtime.py:165-167 | The kept history is the newest messages in order, as many as the bound allows |
| `AgentRuntime.Runtime.Lookup` | agent/src/vehicle_agent/runtime.py:129-143 | A hit moves the entry to the recent end and returns it; a miss changes nothing and returns the session's bounded history to run with |
| `AgentRuntime.Runtime.Store` | agent/src/vehicle_agent/runtime.py:150-168 | Stores a result, evicts oldest entries down to the limit and keeps the bounded history |
| `AgentRuntime.Runtime.ResetSession` | agent/src/vehicle_agent/runtime.py:170-176 | Drops exactly this session's history and cached results |
| `Conditions.Visit` | guardrail/policy/conditions.py:82-109 | The recursive walk with its loops computes the condition's value or its first fault |
| `Conditions.BoolOpStrict` | guardrail/policy/conditions.py:94-96 | `and` and `or` evaluate every operand: a fault anywhere is a fault, otherwise they are all and any |
| `Conditions.ChainMeaning` | guardrail/policy/conditions.py:99-111 | A comparison chain is true exactly when every link between neighbours is |
| `Conditions.FirstLinkDecides` | guardrail/policy/conditions.py:99-111 | The first link that does not hold decides the chain: unsupported operator, its operand's fault, a type fault, or false |
| `Conditions.FirstFaultWins` | guardrail/policy/conditions.py:94-96 | `and` and `or` report their leftmost fault |
| `Conditions.ComparisonsCohere` | guardrail/policy/conditions.py:35-44 | On comparable values exactly one of <, ==, > holds and the other operators are their negations; comparability is symmetric |
| `Conditions.NumbersCompare` | guardrail/policy/conditions.py:35-44 | On numbers, and on bools as zero and one, the six operators are those of the reals, in their direction |
| `Conditions.StringsCompare` | guardrail/policy/conditions.py:35-44 | Strings are ordered by their first difference, a proper prefix being the smaller |
| `Conditions.KindsApart` | guardrail/policy/conditions.py:35-44 | Values of different kinds are unequal and have no order; `is` tells a bool from its number |
| `Conditions.OneSidedBound` | guardrail/policy/conditions.py:99-111 | A bound such as `speed <= 80`, in all four directions: true exactly of the numbers on its side, a type fault on anything else, an unknown name without a value |
| `Conditions.TwoSidedBound` | guardrail/policy/conditions.py:99-111 | `low < x < high` holds exactly of the values strictly between, `low <= x <= high` of those between |
| `Conditions.TruthOfValues` | guardrail/policy/conditions.py:92-117 | None, False, zero and the empty string are false, all else true; `not` turns a verdict round and passes a fault on |
| `Conditions.EvalLocal` | guardrail/policy/conditions.py:82-117 | Evaluation depends only on the names the condition mentions |
| `PolicyEngine.Evaluate` | guardrail/policy/engine.py:75-157 | The engine's loops compute the specified decision, including which errors escape |
| `PolicyEngine.Scan` | guardrail/policy/engine.py:106-115 | Collects the firing rules in order and stops at the first fault |
| `PolicyEngine.Resolution` | guardrail/policy/engine.py:117-157 | An outcome (in gate mode: ALLOW) is decided exactly when no candidate faults, something fires, and all firing rules say it or all firing rules of the highest, positive priority do |
| `PolicyEngine.ExclusionResolves` | guardrail/policy/engine.py:27-31 | The same by rule id: conflicting rules are decided exactly by the mode-exclusion rules R034, R038 and R041 that fire, if they agree |
| `PolicyEngine.ParamsOverride` | guardrail/policy/engine.py:97-104 | Request parameters are refused exactly when one is no condition variable; otherwise each overrides the state, the last of a name winning |
| `PolicyEngine.DecisionNames` | guardrail/policy/engine.py:137-157 | A decision names, in table order, exactly the firing rules that take part in it; the first gives rule id and outcome; the note lists exactly the overruled ones; `relevant_state` is theirs |
| `PolicyEngine.RecordedNames` | guardrail/policy/engine.py:58-64 | `relevant_state` holds the values of exactly the names the recorded rules mention |
| `PolicyEngine.CauseOfSilence` | guardrail/policy/engine.py:75-157 | Each reason code without an outcome has its own exact condition, from an unknown intent to a conflict nobody wins; the first faulting candidate decides which evaluation error |
| `PolicyEngine.SilenceRecords` | guardrail/policy/engine.py:117-147 | Without an outcome no rule is named, and the recorded values are those of all candidates, of the conflicting rules, or none |
| `PolicyEngine.FailClosed` | guardrail/service/app.py:62-85 | Everything without an outcome fails closed, except a monitor check none of whose rules fires; which of the two is characterised |
| `PolicyEngine.OrderIrrelevant` | guardrail/policy/engine.py:106-157 | Permuting or repeating rules changes neither outcome nor fail-closed status |
| `PolicyEngine.DecisionEvidence` | guardrail/policy/engine.py:149-165 | Each matched rule fires again on `relevant_state` alone and has the decided outcome; the named rule is one of them |
| `PolicyEngine.SilenceEvidence` | guardrail/policy/engine.py:117-131 | When nothing fires every candidate is false again on `relevant_state` alone |
| `Wire.PermitExactlyOnAllow` | agent/src/vehicle_agent/authorization/contract.py:178-267 | Whatever JSON arrives, an accepted body carries a permit exactly on ALLOW, closed in its fields and repeating the decision |
| `Wire.ResultAccepted` | agent/src/vehicle_agent/authorization/contract.py:178-267 | The agent accepts a body exactly when it is of this contract version and an error of the error shape or a decision of the decision shape, with a permit of the permit shape exactly on ALLOW |
| `Wire.FaultCodes` | agent/src/vehicle_agent/authorization/contract.py:178-267 | Another contract version is reported first; a missing permit and a permit out of place exactly on otherwise well-shaped decisions |
| `Wire.ProposalAccepted` | agent/src/vehicle_agent/authorization/contract.py:129-150 | A proposal is accepted exactly with the eight fields, this contract version, an arguments object and six identifiers |
| `Wire.IdentifierMeaning` | agent/src/vehicle_agent/authorization/contract.py:101-107 | Identifiers are the nonempty strings of at most 128 characters |
| `Wire.ReasonToken` | guardrail/service/envelope.py:340-345 | The reason token is never empty and at most 128 characters |
| `Wire.TokenMeaning` | guardrail/service/envelope.py:340-345 | The token is what stands before the first blank, stripped; a fixed word if that is empty; cut at 128 characters |
| `Wire.ErrorSays` | guardrail/service/envelope.py:153-167 | An error body says its code, message and retryability, and details exactly when there are any |
| `Wire.EnvelopeFails` | guardrail/service/envelope.py:188-239 | Building a decision fails exactly without a rule, a policy digest, a confirmation block on CONFIRM or a valid proposal on ALLOW |
| `Wire.ErrorAccepted` | guardrail/service/envelope.py:153-167 | An error body, retryable or not and with or without details, is accepted exactly when its strings are in range, and has no permit |
| `Wire.DecisionAccepted` | guardrail/service/envelope.py:188-239 | A decision body is accepted by the agent exactly when request id, intent and rule id are in range; permit exactly on ALLOW, bound to the proposal digest |
| `Wire.QueryAccepted` | guardrail/service/envelope.py:242-274 | A query body is accepted on the same terms and never carries a permit |
| `Wire.MonitorAccepted` | guardrail/service/envelope.py:288-337 | A monitor body is accepted on the same terms; only keep-running carries a permit, bound to the monitor request |
| `ToolRegistry.ModelSchema` | agent/src/vehicle_agent/tools/registry/registry.py:93-116 | The loop emits one schema variant per signature, with `*` as an unconstrained string |
| `ToolRegistry.ValidatedMeaning` | agent/src/vehicle_agent/tools/registry/registry.py:139-198 | A string call is validated exactly when it is closed, hits a signature, and its value fits the union of the hit signatures |
| `ToolRegistry.UnpresentableVerdict` | agent/src/vehicle_agent/tools/registry/registry.py:139-165 | Arguments with a forbidden or unknown field, or a field that is not a nonempty string, or an overlong value, are refused by the first of these reasons whatever the tool |
| `ToolRegistry.CallVerdict` | agent/src/vehicle_agent/tools/registry/registry.py:166-198 | The verdict on all other arguments: action, target and value are looked up among the signatures that fit so far, a missing one is asked for, an unfit one refused by its own code, and what passes is passed on unchanged |
| `ToolRegistry.SchemaRefines` | agent/src/vehicle_agent/tools/registry/registry.py:93-198 | On a tool whose overlapping signatures are separable the `oneOf` schema accepts exactly the validated calls |
| `ToolRegistry.DisjointSeparable` | agent/src/vehicle_agent/tools/registry/registry.py:93-116 | Disjoint (action, target) pairs are such a tool |
| `ToolRegistry.SharedValueRefused` | agent/src/vehicle_agent/tools/registry/registry.py:93-198 | Any value two overlapping signatures share is validated but refused by `oneOf`; the exact condition is PairAgreesExactly |
| `ToolRegistry.OverlapLosesACall` | agent/src/vehicle_agent/tools/registry/registry.py:93-198 | A parsed tool with overlapping enumerations and a validated call its schema refuses |
| `ToolRegistry.PairAgreesExactly` | agent/src/vehicle_agent/tools/registry/registry.py:93-198 | For one action and target, schema and validator accept the same string calls exactly when: no signature, or one valueless one alone, or not exactly one valueless one and the values are a single `*` or enumerations disjoint up to 512 characters |
| `ToolRegistry.ToolAgreesExactly` | agent/src/vehicle_agent/tools/registry/registry.py:93-198 | For the whole tool they accept the same string calls exactly when every pair is so |
| `ToolRegistry.FlatIsWeaker` | agent/src/vehicle_agent/model_providers/adapters.py:269-299 | Gemini's flat declaration accepts every validated call of a tool that does not mix `*` with concrete values |
| `ToolRegistry.FlatRecombines` | agent/src/vehicle_agent/model_providers/adapters.py:269-299 | The flat declaration accepts exactly the recombinations of an action, a target and a value that the tool knows somewhere, free text only if it lists nothing but `*` |
| `ToolRegistry.MixedLosesFreeText` | agent/src/vehicle_agent/model_providers/adapters.py:269-299 | On a mixed tool exactly the free-text calls outside the concrete values are lost |
| `ToolRegistry.MixedLosesACall` | agent/src/vehicle_agent/model_providers/adapters.py:269-299 | A parsed tool and a validated call that its flat declaration refuses |
| `ToolMapping.BuildCoverageReport` | agent/src/vehicle_agent/tools/mapping/mapper.py:136-166 | Duplicate keys are the repeated, non-conflicting ones, ambiguous keys the conflicting ones, missing intents the unreached ones |
| `ToolMapping.ValidateRules` | agent/src/vehicle_agent/tools/mapping/mapper.py:290-348 | Accepted exactly when nonempty, every row admissible, no key repeated and every manifest intent reached; otherwise the first defect in order |
| `ToolMapping.RowInOrder` | agent/src/vehicle_agent/tools/mapping/mapper.py:290-348 | A row by itself is admissible exactly when its intent is in the manifest under the row's own tool and that tool validates the row's own call; four codes for what is wrong first |
| `ToolMapping.ByNameFinds` | agent/src/vehicle_agent/tools/registry/registry.py:133-137 | A tool is found by its name, the first of that name |
| `ToolMapping.GateMatchesReport` | agent/src/vehicle_agent/tools/mapping/mapper.py:136-348 | On admissible rows the gate accepts exactly the rule sets whose coverage report is complete |
| `ToolMapping.Index` | guardrail/service/tool_map.py:175-188 | The guardrail's table is built exactly when no key repeats |
| `ToolMapping.MapVerdict` | agent/src/vehicle_agent/tools/mapping/mapper.py:350-391 | The agent maps exactly the valid proposals with a validated call and a row: the exact one, else the `*` row for a call with a value; each failure has its code |
| `ToolMapping.ResolveVerdict` | guardrail/service/tool_map.py:201-223 | The guardrail resolves exactly the calls of strings that have a row of their own; each failure has its code |
| `ToolMapping.CanonicalIsRaw` | agent/src/vehicle_agent/tools/mapping/mapper.py:350-391 | Normalizing accepted arguments changes nothing: the canonical digest is the raw proposal's digest |
| `ToolMapping.SidesAgree` | guardrail/service/tool_map.py:201-223 | Outside the capability tool the guardrail resolves the agent's intent exactly when the agent used an exact row; always, if that tool alone has `*` rows |
| `ToolMapping.WildcardRowDisagrees` | guardrail/service/tool_map.py:201-223 | A concrete `*` row and proposal: the agent maps it, the guardrail refuses it |
| `ToolMapping.ResolvedIsMapped` | guardrail/service/tool_map.py:201-223 | Conversely, whatever the guardrail resolves the agent has mapped to the same intent |
| `PermitGateway.PermitStore.MarkUsed` | agent/src/vehicle_agent/vehicle/execution/verifier.py:51-61 | Consumes an id once; a second time is a replay |
| `PermitGateway.PermitStore.RevokeBefore` | agent/src/vehicle_agent/vehicle/execution/verifier.py:77-87 | Moves one cutoff forward, never back |
| `PermitGateway.PermitStore.IsRevoked` | agent/src/vehicle_agent/vehicle/execution/verifier.py:89-97 | Revoked exactly when issued at or before a cutoff of its session or of everybody |
| `PermitGateway.RevokeExact` | agent/src/vehicle_agent/vehicle/execution/verifier.py:77-97 | A revocation hits exactly the permits of its scope issued at or before it, besides those already hit |
| `PermitGateway.VerifySound` | agent/src/vehicle_agent/vehicle/execution/verifier.py:120-209 | What passes verification is bound to this proposal, inside its life time, unused and not revoked |
| `PermitGateway.VerifyExactly` | agent/src/vehicle_agent/vehicle/execution/verifier.py:120-209 | Verification passes exactly when the payload is an ALLOW decision with its permit or a bare permit, the proposal is valid, the permit is complete, single-use, unused, bound to this digest and to its decision, not revoked, and now is between its two times in order |
| `PermitGateway.RefusalExactly` | agent/src/vehicle_agent/vehicle/execution/verifier.py:120-209 | Replay, substitution and expiry are each reported exactly when the checks before them pass and theirs does not |
| `PermitGateway.SameMeaning` | agent/src/vehicle_agent/vehicle/execution/verifier.py:177-191 | When a permit's field counts as its decision's: strings and objects only if equal, numbers by value whatever their kind |
| `PermitGateway.ExtractCarries` | agent/src/vehicle_agent/vehicle/execution/gateway.py:106-170 | Which permit a payload carries: an ALLOW decision's own or a bare one; a decision other than ALLOW is denied |
| `PermitGateway.ShapeStep` | agent/src/vehicle_agent/vehicle/execution/verifier.py:99-107 | Every step keeps the re-entrant lock: one owner, its depth, and only outer frames that call out |
| `PermitGateway.StepInv` | agent/src/vehicle_agent/vehicle/execution/gateway.py:98-298 | Every step of interleaved executions and resets keeps the permit invariants |
| `PermitGateway.CutoffsOnlyGrow` | agent/src/vehicle_agent/vehicle/execution/verifier.py:77-97 | Over a run consumption and revocation only grow |
| `PermitGateway.PermitStartsOnce` | agent/src/vehicle_agent/vehicle/execution/gateway.py:186-217 | Each permit id starts at most one handler over all runs |
| `PermitGateway.StartsAreSound` | agent/src/vehicle_agent/vehicle/execution/gateway.py:172-248 | Every start is on a digest-bound, unexpired permit |
| `PermitGateway.NoStartAfterReset` | agent/src/vehicle_agent/operations/runtime.py:137-164 | Once a reset at time T has finished no handler starts on a permit of its scope issued at or before T |
| `PermitGateway.VerifiedPermitRuns` | agent/src/vehicle_agent/vehicle/execution/gateway.py:172-248 | A permit that passes verification starts its handler and is a replay from then on |
| `PermitGateway.ExecutionReturns` | agent/src/vehicle_agent/vehicle/execution/gateway.py:98-104 | The whole execution of a verified permit can run to its end, handler included, and gives the lifecycle lock back as it found it, re-entrant or not |
| `PermitGateway.ResetRuns` | agent/src/vehicle_agent/operations/runtime.py:137-164 | A reset that may enter runs to its end with nobody able to begin another in between; it revokes exactly its scope up to the time it read, is on record, and gives the lock back as it found it |
| `PermitGateway.NoOverlap` | agent/src/vehicle_agent/vehicle/execution/gateway.py:98-104 | Executions and resets of different threads never overlap |
| `Confirmation.ConfirmationManager.RegisterPending` | agent/src/vehicle_agent/confirmation/manager.py:33-74 | Stores a pending record for the confirmation's id, with session and expiry as the decision and the proposal give them; without a confirmation block and its ids it raises and stores nothing |
| `Confirmation.BoundToOwnSession` | agent/src/vehicle_agent/confirmation/manager.py:44-56 | For a decision the agent accepts the record is bound to the proposal's own session |
| `Confirmation.PendingMeaning` | agent/src/vehicle_agent/confirmation/manager.py:33-74 | What is registered: the block's id, the first session named by decision or proposal, the block's expiry if it is a time, and the proposal, pending |
| `Confirmation.ConfirmationManager.BeginConfirm` | agent/src/vehicle_agent/confirmation/manager.py:186-271 | The locked part of confirm, with the exact condition of every refusal and what each leaves of the table |
| `Confirmation.ConfirmationManager.CancelOne` | agent/src/vehicle_agent/confirmation/manager.py:356-435 | The locked part of cancel in the same terms, then CANCELLED |
| `Confirmation.ConfirmDecides` | agent/src/vehicle_agent/confirmation/manager.py:189-271 | Each refusal of confirm has its exact condition: a foreign session exactly when the record's known, nonempty session differs, and then nothing changes; overdue records are marked; it succeeds exactly on a pending record, in time, in its own session, uncancelled |
| `Confirmation.CancelDecides` | agent/src/vehicle_agent/confirmation/manager.py:356-435 | The same for cancel |
| `Confirmation.ConfirmationManager.CancelPendingForReset` | agent/src/vehicle_agent/confirmation/manager.py:81-92 | The loop cancels and counts exactly the pending records in scope |
| `Confirmation.StepInv` | agent/src/vehicle_agent/confirmation/manager.py:189-435 | Every step keeps one call per record, and the record's status in line with it |
| `Confirmation.ConfirmedMeansInFlight` | agent/src/vehicle_agent/confirmation/manager.py:268-299 | CONFIRMED means exactly one call is waiting for the guardrail's answer |
| `Confirmation.FinalStays` | agent/src/vehicle_agent/confirmation/manager.py:81-92 | CANCELLED, EXPIRED and CONSUMED are never left by any step |
| `Confirmation.FinalForever` | agent/src/vehicle_agent/confirmation/manager.py:189-435 | ...nor in any run |
| `Confirmation.ExecutedOnceAfterOwnAllow` | agent/src/vehicle_agent/confirmation/manager.py:296-344 | At most one execution per confirmation, only on the ALLOW this very call received, never after a cancel, with lost replies and retries |
| `Confirmation.ExecutedOnOwnConfirm` | agent/src/vehicle_agent/confirmation/manager.py:189-344 | Over all runs each execution goes back to one confirm on that record: by the record's own session unless it has none, no later than its expiry, on a record pending then |
| `Confirmation.WithdrawnNeverExecutes` | agent/src/vehicle_agent/confirmation/manager.py:81-92 | A confirmation withdrawn while pending, by an accepted cancel or a reset in its scope, executes in no state of the run |
| `Confirmation.CallMoves` | agent/src/vehicle_agent/confirmation/manager.py:271-344 | A call gets one answer or loses it, and answered it executes on ALLOW or returns; no other step touches it |
| `Confirmation.StatusMoves` | agent/src/vehicle_agent/confirmation/manager.py:81-435 | Every way a record's status moves, each with its exact step and condition; session, expiry and proposal never change |
| `Confirmation.SettledForever` | agent/src/vehicle_agent/confirmation/manager.py:81-92 | A settled confirmation never executes later |
| `Confirmation.ResetSettlesUnlessInFlight` | agent/src/vehicle_agent/confirmation/manager.py:81-92 | A reset settles a confirmation of its scope exactly when no call on it is in flight |
| `Confirmation.ResetMissesInFlight` | agent/src/vehicle_agent/confirmation/manager.py:81-92 | Whenever a call is waiting for its answer, a reset in between does not stop the execution |
| `Confirmation.ResetThenExecution` | agent/src/vehicle_agent/confirmation/manager.py:81-92 | A concrete run: register a valid proposal, confirm, reset everything, receive an ALLOW the agent accepts with a permit bound to the proposal, and the action executes |
| `GuardrailService.PendingConfirmationStore.Create` | guardrail/service/confirmations.py:45-61 | Parks the proposal with its session and a thirty-second expiry |
| `GuardrailService.PendingConfirmationStore.Take` | guardrail/service/confirmations.py:63-84 | Wrong session leaves the token; everyone else uses it up, in time or too late |
| `GuardrailService.TakenOnce` | guardrail/service/confirmations.py:63-84 | A taken token is unknown to every later request |
| `GuardrailVerdicts.TakeExactly` | guardrail/service/confirmations.py:63-84 | A token is live exactly for its own session and in time, too late after that, left alone by every other session |
| `GuardrailVerdicts.CreateExactly` | guardrail/service/confirmations.py:45-61 | A new token is the proposal's own session's, for thirty seconds, and the others stay |
| `GuardrailService.ActionGood` | guardrail/service/app.py:138-212 | Every action reply is accepted by the agent; a permit is present exactly with a mint for the submitted proposal |
| `GuardrailService.ConfirmGood` | guardrail/service/app.py:215-309 | The same for confirm replies, with the proposal stored behind the token |
| `GuardrailService.MonitorGood` | guardrail/service/app.py:312-372 | Monitor replies are accepted; their permit is bound to the monitor request |
| `GuardrailService.QueryGood` | guardrail/service/app.py:375-428 | Query replies are accepted and never carry a permit |
| `GuardrailService.RoundTrip` | guardrail/service/app.py:103-428 | Every body of the four routes passes the agent's validator; permit exactly on ALLOW, bound to the submitted or stored proposal's digest |
| `GuardrailService.MintJustified` | guardrail/service/app.py:138-285 | A permit is minted only for the intent the guardrail itself resolves from this call, after evaluating the query of this call (with its own request parameters, without any on a re-evaluation) on this snapshot to ALLOW, or to CONFIRM by the rule the driver confirmed; a confirmed mint takes a live token of its session and repeats its proposal, intent and rule |
| `GuardrailService.HandleTokens` | guardrail/service/app.py:138-309 | A request takes at most one token and leaves the others as they are; what it parks is the resolved call of an evaluation to CONFIRM under the rule that asked, and the reply shows exactly that token |
| `GuardrailVerdicts.ActionVerdict` | guardrail/service/app.py:138-212 | What the action route answers, field by field: errors by their codes for a malformed proposal, an unmapped call and a failed evaluation; otherwise the verdict itself, with a permit exactly on ALLOW and a new token exactly on CONFIRM |
| `GuardrailVerdicts.ConfirmVerdict` | guardrail/service/app.py:215-309 | What the confirm route answers: a foreign session leaves the token, a late one uses it up, a live one is used up and evaluated afresh; a permit exactly on ALLOW or CONFIRM by the confirmed rule, a new token on CONFIRM by another |
| `GuardrailVerdicts.MonitorVerdict` | guardrail/service/app.py:312-372 | What the monitor route answers: on the state sent along or the snapshot; keep running exactly when no rule fires or those that do allow, with a permit bound to this request; everything else without |
| `GuardrailVerdicts.QueryVerdict` | guardrail/service/app.py:375-428 | What the query route answers: only read-only intents, only ANSWER and UNKNOWN, no permit, token or block |
| `GuardrailVerdicts.HandleVerdict` | guardrail/service/app.py:103-135 | What is no object or of another contract version is refused; everything else goes to its route under the request's identifier |
| `GuardrailVerdicts.ParamsOfCall` | guardrail/service/answer_facts.py:38-43 | An evaluation sees the snapshot's values, and for a question about a feature whether that feature is known; a re-evaluation sees the snapshot alone |
| `GuardrailVerdicts.WiredLossless` | guardrail/service/envelope.py:188-239 | The recorded values go onto the wire without loss |
| `GuardrailVerdicts.TokenOfWord` | guardrail/service/envelope.py:340-345 | A reason of one word, with or without a remark after it, is reported by that word |
| `EndToEnd.ServeStep` | guardrail/service/app.py:103-309 | Serving any request keeps every reply explained: its permit by a mint or a monitor request, its confirmation block by a parked call |
| `EndToEnd.StepInv` | agent/src/vehicle_agent/orchestrator/orchestrator.py:228-398 | Every step of turns, confirmations, executions, resets and requests keeps the system invariant |
| `EndToEnd.EveryStartAuthorised` | agent/src/vehicle_agent/orchestrator/orchestrator.py:267-307 | End to end over every run: each started handler, direct or confirmed, uses a permit minted for exactly this proposal; the guardrail resolved this call to the minted intent and evaluated its query to ALLOW, or it had asked the driver about this very call by a rule, that token is used up, and a fresh evaluation said ALLOW or CONFIRM by the same rule; monitor permits never start one |
| `EndToEnd.OneStartPerMint` | agent/src/vehicle_agent/vehicle/execution/gateway.py:106-248 | Each mint starts at most one handler |
| `EndToEnd.OneMintPerToken` | guardrail/service/app.py:215-285 | Each confirmation token leads to at most one mint and mints have distinct permit ids |
| `Accountability.ConfirmedBySession` | guardrail/service/app.py:215-285 | Over all runs a confirmed mint was issued on a confirm request that named the token, came from the proposal's own session, and came at most thirty seconds after the request that asked and parked it |
| `Accountability.AllowedCallRuns` | agent/src/vehicle_agent/orchestrator/orchestrator.py:267-307 | Conversely, what the guardrail resolves as the agent mapped it and evaluates to ALLOW makes the turn execute, and the gateway accepts its permit exactly while it is unused, unrevoked and within its two seconds |
| `Progress.AllowedTurnStarts` | agent/src/vehicle_agent/orchestrator/orchestrator.py:228-307 | From any state of the composed system: a call read as the same intent by both sides and evaluated to ALLOW runs from its turn through request, reply and gateway to the start of its handler for exactly this proposal, and the turn is over |
| `Progress.AskedTurnRegisters` | agent/src/vehicle_agent/orchestrator/orchestrator.py:309-318 | A call evaluated to CONFIRM is asked about: the turn registers the confirmation and is over, and record and token agree on proposal, session and the thirty seconds |
| `Progress.ConfirmedCallStarts` | agent/src/vehicle_agent/confirmation/manager.py:189-344 | The driver's yes in time, with a fresh evaluation that still permits, runs from the confirm call through request, reply and gateway to the start of the handler for exactly the registered proposal, and the record is used up |
| `Progress.ReachableIsSound` | agent/src/vehicle_agent/orchestrator/orchestrator.py:228-398 | What that needs of guardrail and manager holds in every reachable state |
| `EndToEnd.TurnExecutesItsIntent` | agent/src/vehicle_agent/orchestrator/orchestrator.py:267-307 | A turn that executes does so on such a mint for the intent the agent itself mapped |
| `EndToEnd.TurnDecides` | agent/src/vehicle_agent/orchestrator/orchestrator.py:228-464 | A turn executes exactly on an ALLOW that answers its proposal with a permit bound to the digest it proposed and mapped; asks exactly on a CONFIRM with a complete block about it; ends on other answers; fails otherwise |
| `EndToEnd.EveryStartIsMapped` | guardrail/service/tool_map.py:1-26 | With the copied table every start, confirmed ones included, is for the intent the agent mapped when the turn began |
| `EndToEnd.RegistrationIsNew` | agent/src/vehicle_agent/orchestrator/orchestrator.py:309-318 | In no run does a registration overwrite a pending confirmation: its id is one the guardrail parked for this proposal and the manager has never seen |
| `EndToEnd.RegistrationIsPending` | agent/src/vehicle_agent/orchestrator/orchestrator.py:423-464 | The registration of a validated CONFIRM reply is what `register_pending` stores |
| `EndToEnd.DigestIsInjective` | agent/src/vehicle_agent/authorization/contract.py:152-175 | Equal digests fix every field of the proposal except the model's name |
| `EndToEnd.GenuinePermitAccepted` | agent/src/vehicle_agent/vehicle/execution/verifier.py:120-209 | A genuine reply is accepted exactly while its permit is unused, unrevoked and inside its two seconds, and never for another digest |
| `VehicleModel.ValidIsCoherent` | agent/src/vehicle_agent/vehicle/state/model.py:186-515 | The validating constructors accept exactly the coherent snapshots |
| `VehicleModel.StampValid` | agent/src/vehicle_agent/vehicle/state/machine.py:228-241 | A new version, time stamp and observation times keep a valid snapshot valid |
| `VehicleModel.DefaultsValid` | agent/src/vehicle_agent/vehicle/state/model.py:601-607 | The default snapshot is valid, with any power, ADAS and mode groups that respect the rules about them |
| `StateMachine.VehicleEventStore.BuildAndAppend` | agent/src/vehicle_agent/vehicle/state/events.py:158-186 | Numbers and appends one event, or refuses it and appends nothing |
| `StateMachine.VehicleEventStore.ListSince` | agent/src/vehicle_agent/vehicle/state/events.py:203-210 | Exactly the events at or after the sequence number, in order |
| `StateMachine.VehicleStateMachine.ApplyPatch` | agent/src/vehicle_agent/vehicle/state/machine.py:141-265 | The whole call on state and log, every error included |
| `StateMachine.VehicleStateMachine.ResetTo` | agent/src/vehicle_agent/vehicle/state/machine.py:267-328 | The same for reset |
| `StateMachine.ApplyVerdict` | agent/src/vehicle_agent/vehicle/state/machine.py:141-265 | The whole verdict of `apply`: empty metadata, a stale version, the patch's failure, a naive clock, in this order and changing nothing; otherwise exactly the patched state at the next version with every reading of now, and one event with the caller's, the clock's and the version's data |
| `StateMachine.ResetVerdict` | agent/src/vehicle_agent/vehicle/state/machine.py:267-328 | The same for `reset`: exactly the preset at the next version, every reading from the preset, of now and available, and one SYSTEM event |
| `StateMachine.StepLog` | agent/src/vehicle_agent/vehicle/state/machine.py:141-328 | With a UTC clock a call extends the log by one entry or changes nothing |
| `StateMachine.LogTheorem` | agent/src/vehicle_agent/vehicle/state/machine.py:141-328 | Over any applies and resets event k leads from version v0+k-1 to v0+k, every snapshot is valid and the last one is current |
| `StateMachine.VersionsGrow` | agent/src/vehicle_agent/vehicle/state/machine.py:141-328 | Versions never go back and the log only grows |
| `StateMachine.OneWinner` | agent/src/vehicle_agent/vehicle/state/machine.py:205-213 | Of several applies with one expected version at most one commits |
| `StateMachine.AtomicExceptNonUtc` | agent/src/vehicle_agent/vehicle/state/machine.py:248-265 | Atomicity is lost exactly when an aware non-UTC clock commits the state and the event constructor then refuses |
| `StateMachine.NonUtcHalfCommits` | agent/src/vehicle_agent/vehicle/state/machine.py:248-265 | A concrete call in UTC+7: it raises, and the default state has become version 1 with an empty log |
| `Simulation.PatchControls` | agent/src/vehicle_agent/simulation/controller.py:299-303 | The batch loop computes the fold of the single controls |
| `Simulation.SpeedAlwaysApplies` | agent/src/vehicle_agent/simulation/controller.py:405-424 | Every speed from zero up can be set on every valid state; moving leaves PARK and releases the brake, and nothing else of the gear changes |
| `Simulation.ControlAccepted` | agent/src/vehicle_agent/simulation/controller.py:430-479 | Exactly these controls are refused on a valid state: PARK at speed, power off under active assistance, a negative speed |
| `Simulation.BatchSettles` | agent/src/vehicle_agent/simulation/controller.py:280-309 | After a successful batch every controllable field has the value of the last control that sets it, or its old one; a positive speed later than the last gear choice takes PARK into DRIVE, and any positive speed releases the brake; nothing else changes but version and times |
| `Simulation.ControlsSettle` | agent/src/vehicle_agent/simulation/controller.py:427-479 | The same of folding any list of controls |
| `Simulation.BatchEvent` | agent/src/vehicle_agent/simulation/controller.py:352-376 | A successful batch is one event of the operator who asked, under the operator's correlation id if there is one |
| `Simulation.BatchRefinesOneByOne` | agent/src/vehicle_agent/simulation/controller.py:280-388 | A batch succeeds exactly when its controls succeed one by one, and then leaves the same vehicle up to version and times; on failure nothing changes; a missing operator id fails both ways, a missing correlation id is replaced by a fresh one |
| `Simulation.ApplyBehavior` | agent/src/vehicle_agent/vehicle/execution/generic.py:658-722 | The recursive mutation with its loop computes the behaviour's effect |
| `Simulation.NestedIsFlat` | agent/src/vehicle_agent/vehicle/execution/generic.py:715-745 | A nested compound behaviour is the left-to-right fold of its flattened leaves |
| `ActiveActions.ActiveActionRegistry.InternalStop` | agent/src/vehicle_agent/active_actions/registry.py:483-519 | Ends one record and clears its own index entry |
| `ActiveActions.ActiveActionRegistry.Start` | agent/src/vehicle_agent/active_actions/registry.py:148-168 | Supersedes the running record of the same session and intent, stores the new one and indexes it |
| `ActiveActions.ActiveActionRegistry.Stop` | agent/src/vehicle_agent/active_actions/registry.py:257-265 | Unknown and terminal records raise and change nothing; others end |
| `ActiveActions.ActiveActionRegistry.Reset` | agent/src/vehicle_agent/active_actions/registry.py:377-388 | The loop stops the running records in scope |
| `ActiveActions.ActiveActionRegistry.QueryActions` | agent/src/vehicle_agent/active_actions/registry.py:427-467 | The filter loop returns the matching records in insertion order |
| `ActiveActions.StartIndexExactly` | agent/src/vehicle_agent/active_actions/registry.py:148-168 | A start keeps the index exact unless its id is a run of another session or intent, and then it does not |
| `ActiveActions.ReusedIdBreaksIndex` | agent/src/vehicle_agent/active_actions/registry.py:148-168 | A concrete start under a running id of another session breaks it |
| `ActiveActions.ResetIsolates` | agent/src/vehicle_agent/active_actions/registry.py:360-395 | A session reset leaves nothing running there and every other record as it was |
| `ActiveActions.LookupIsScan` | agent/src/vehicle_agent/active_actions/registry.py:402-467 | At most one run per session and intent, and the indexed lookup is the filtered scan |
| `ActiveActions.ExecuteKeeps` | agent/src/vehicle_agent/active_actions/registry.py:85-395 | Every operation keeps the index exact and no operation touches a terminal record |
| `ActiveActions.RunIndex` | agent/src/vehicle_agent/active_actions/registry.py:85-395 | Over all runs the index maps a session and intent to an id exactly when that record is running |
| `Cascade.EndShrinks` | agent/src/vehicle_agent/active_actions/registry.py:483-528 | Each end takes exactly one record out of the running ones: the measure by which re-entrant stop handlers terminate |
| `Cascade.StopCommits` | agent/src/vehicle_agent/behaviors/hero/_active_action_common.py:191-208 | A fail-safe stop transition always commits exactly one version |
| `Cascade.AacStopCascades` | agent/src/vehicle_agent/behaviors/hero/active_driving_assist.py:124-196 | Ending AAC while HDA is on commits one version, cancels ACC, turns HDA off with no HDA entry, stops the session's HDA record and leaves the others |
| `VehicleEffects.EndTurnsOff` | agent/src/vehicle_agent/behaviors/hero/autopark_campmode.py:115-177 | A real end of a running HDA, autopark or camp mode record: the feature is off, its entry gone, nothing else of the vehicle and no other record changed, and a new version unless all was off before |
| `VehicleEffects.AacEndTurnsOff` | agent/src/vehicle_agent/behaviors/hero/active_driving_assist.py:124-196 | A real end of AAC: ACC cancelled and HDA off at one version, its entry and with HDA on all HDA entries gone, nothing else of the vehicle changed |
| `VehicleEffects.ResetTurnsOff` | agent/src/vehicle_agent/active_actions/registry.py:360-395 | After a reset of a session or of all: the features of exactly the stopped records are off, exactly their entries gone, unless cancelling AAC took HDA entries along, and nothing else of the vehicle changed |
| `VehicleEffects.StartEffect` | agent/src/vehicle_agent/vehicle/execution/generic.py:618-650 | A start that commits puts one new entry behind those of other intents, switches camp mode on if that is what starts, and changes nothing else of the vehicle |
| `VehicleEffects.RollbackEffect` | agent/src/vehicle_agent/behaviors/hero/_active_action_common.py:131-166 | A rolled-back start takes the new entry out again at a second version, but neither brings the replaced entries back nor switches camp mode off |
| `Cascade.HandleAgrees` | agent/src/vehicle_agent/behaviors/hero/autopark_campmode.py:115-177 | After its handler a stopped record has no entry left and everything else still agrees |
| `Cascade.StartAgrees` | agent/src/vehicle_agent/behaviors/hero/_active_action_common.py:107-166 | A bridged start, also one rolled back, keeps every entry backed by a running record |
| `Cascade.ResetAgrees` | agent/src/vehicle_agent/active_actions/registry.py:360-395 | So does a reset with its handlers |
| `Cascade.EntriesHaveRecords` | agent/src/vehicle_agent/behaviors/hero/_active_action_common.py:70-166 | Over all runs every bridged entry of the vehicle state has a running record with the same id and intent |
| `Cascade.ForgedRestartReason` | agent/src/vehicle_agent/behaviors/hero/_active_action_common.py:47-57 | A stop with the restart reason loses this exactly when the record has an entry |
| `Cascade.CompletionLeavesEntry` | agent/src/vehicle_agent/active_actions/registry.py:321-357 | `complete_action` loses it exactly when the record has an entry |
| `Orphans.CompletedEntryStays` | agent/src/vehicle_agent/active_actions/registry.py:321-357 | A concrete action for which both lose it |
| `Orphans.StartPatchValid` | agent/src/vehicle_agent/vehicle/execution/generic.py:620-650 | A bridged start is accepted exactly on a powered vehicle where it needs power, without another special mode for camp mode, under a nonempty id no entry of another intent carries |
| `Orphans.StartOrphans` | agent/src/vehicle_agent/vehicle/execution/generic.py:618-631 | A start that goes through leaves running without an entry exactly the other sessions' runs of its intent, besides those of other intents that already were |
| `Orphans.RefusedStart` | agent/src/vehicle_agent/vehicle/state/machine.py:205-241 | A start that does not go through changes nothing |
| `Orphans.RollbackOrphans` | agent/src/vehicle_agent/behaviors/hero/_active_action_common.py:131-166 | A start whose record the registry refuses leaves every run of its intent without an entry, its own session's included |
| `Orphans.AacStopOrphans` | agent/src/vehicle_agent/behaviors/hero/active_driving_assist.py:124-196 | Ending AAC while HDA is on leaves HDA running exactly for the HDA records of other sessions, all without an entry |
| `Orphans.EndOrphansNothing` | agent/src/vehicle_agent/active_actions/registry.py:257-265 | Every other end orphans nothing |
| `Orphans.OneSessionIsExact` | agent/src/vehicle_agent/behaviors/hero/_active_action_common.py:70-166 | In every run with a single session and no refused record the bridged entries are at each moment exactly the running bridged records |
| `Orphans.SecondSessionOrphans` | agent/src/vehicle_agent/vehicle/execution/generic.py:618-631 | Two concrete starts of camp mode in two sessions: the first record runs on without an entry |
| `Orphans.RefusedRecordOrphans` | agent/src/vehicle_agent/behaviors/hero/_active_action_common.py:131-166 | A concrete restart the registry refuses does the same to the earlier run |
| `Orphans.OtherSessionLeftRunning` | agent/src/vehicle_agent/behaviors/hero/active_driving_assist.py:172-196 | A concrete AAC stop leaves another session's HDA record running with HDA off and no entry |
| `Interleaving.StepInv` | agent/src/vehicle_agent/behaviors/hero/_active_action_common.py:107-166 | Each vehicle transition and each locked registry operation, interleaved in any order with the halves of a start and the stop handlers, keeps every bridged entry held |
| `Interleaving.EveryEntryIsHeld` | agent/src/vehicle_agent/behaviors/hero/_active_action_common.py:70-166 | Under every interleaving a bridged entry is that of the one start in progress, of a running record with its intent, or of a record whose stop handler is still to come |
| `Interleaving.QuietAgrees` | agent/src/vehicle_agent/behaviors/hero/_active_action_common.py:70-166 | Whenever no start and no stop is under way, every bridged entry has a running record |
| `Interleaving.EntryStep` | agent/src/vehicle_agent/vehicle/execution/generic.py:618-638 | Every step, for every record and for the start in progress: its entry is there afterwards exactly when it was there before and the step is not a start of its intent that goes through, its own stop or rollback, an AAC stop while HDA is on if it is HDA, or a transition that leaves it out |
| `Interleaving.EntryBetween` | agent/src/vehicle_agent/behaviors/hero/_active_action_common.py:70-166 | Over a run a known id has its entry exactly when it had it and no step in between lost it |
| `Interleaving.RecordArrives` | agent/src/vehicle_agent/behaviors/hero/_active_action_common.py:107-145 | Under every interleaving a started record arrives with its entry exactly when no step between the halves of its start lost it: an AAC stop while HDA is on, if it is HDA, or a transition that leaves it out |
| `Interleaving.OrphanExactly` | agent/src/vehicle_agent/behaviors/hero/_active_action_common.py:70-166 | A running bridged record started in the run has no entry if and only if some step since its start lost it |
| `Interleaving.EndedForever` | agent/src/vehicle_agent/active_actions/registry.py:483-519 | Under every interleaving a record that has ended never runs again |
| `Interleaving.LateRecord` | agent/src/vehicle_agent/behaviors/hero/active_driving_assist.py:124-147 | A witness of the loss: when an AAC stop is handled between the halves of an HDA start, the new record comes without an entry |
| `Interleaving.LateRecordRun` | agent/src/vehicle_agent/behaviors/hero/active_driving_assist.py:124-147 | A concrete run that ends so, with no start and no stop under way |
| `Monitor.GuardrailMonitorAdapter.EvaluateSingle` | agent/src/vehicle_agent/integrations/aegis/monitor.py:113-222 | One evaluation: counters, stop and result for every kind of answer |
| `Monitor.GuardrailMonitorAdapter.EvaluateActiveActions` | agent/src/vehicle_agent/integrations/aegis/monitor.py:85-101 | The loop over the queried records skips the unmonitored ones and computes the tick and its counters |
| `Monitor.SnapshotIsComplete` | agent/src/vehicle_agent/integrations/aegis/monitor.py:91-97 | A snapshot holds exactly the running records in scope of the five monitored intents |
| `Monitor.StillRunningWasAllowed` | agent/src/vehicle_agent/integrations/aegis/monitor.py:85-255 | A tick without untyped exceptions covers its snapshot despite cascades, and what still runs was answered ALLOW |
| `Monitor.OnlyAllowedKeepRunning` | agent/src/vehicle_agent/integrations/aegis/monitor.py:85-255 | After a tick over all sessions without untyped exceptions every monitored action still running ran before, unchanged, and was answered ALLOW |
| `Monitor.OthersKeepRunning` | agent/src/vehicle_agent/integrations/aegis/monitor.py:85-255 | A tick ends nothing else: a running action out of scope or not answered with a stop goes on unchanged, unless it is HDA and an AAC action of its session was stopped |
| `Monitor.TickEnds` | agent/src/vehicle_agent/integrations/aegis/monitor.py:113-255 | A record answered with a refusal is stopped for its reason, one answered with an error is failed, unless a cascade reached it before |
| `Monitor.StoppedForGood` | agent/src/vehicle_agent/integrations/aegis/monitor.py:85-255 | With any steps of other threads between the evaluations of a tick, a record of its snapshot answered other than ALLOW does not run at its end or ever after |
| `Monitor.OnlyAllowedOrNew` | agent/src/vehicle_agent/integrations/aegis/monitor.py:85-255 | After such a tick over all sessions without untyped exceptions, a monitored action that runs was started since the snapshot or was running in it and answered ALLOW |
| `Monitor.TickCanRun` | agent/src/vehicle_agent/integrations/aegis/monitor.py:85-101 | From every reachable state a tick can evaluate any prefix of its snapshot with whatever answers, each acted on, in snapshot order |
| `Monitor.MetricsBalance` | agent/src/vehicle_agent/integrations/aegis/monitor.py:131-196 | Evaluations are allows plus stops, except for one crashing client call; errors are fail-safe stops |
| `Monitor.TickCounts` | agent/src/vehicle_agent/integrations/aegis/monitor.py:131-196 | Each counter grows by exactly the number of its answers; an evaluation a client crash cuts short counts as begun only |
| `Monitor.RaiseAbortsTheRest` | agent/src/vehicle_agent/integrations/aegis/monitor.py:113-136 | An exception that leaves an evaluation ends the tick there: later records stay as they are |
| `RateLimit.RateLimitedTransport.BeginAttempt` | agent/src/vehicle_agent/model_providers/transports.py:73-78 | Sleeps exactly up to the interval, not at all without need, and records the start |
| `RateLimit.RateLimitedTransport.Call` | agent/src/vehicle_agent/model_providers/transports.py:70-84 | At most `max_attempts` attempts, retrying only retryable failures, each recorded |
| `RateLimit.RateLimitedTransport.RateBound` | agent/src/vehicle_agent/model_providers/transports.py:57-84 | Over all calls and retries k consecutive attempts span at least (k-1)*60/rpm seconds |

## Left out

- HTTP servers and clients, JSON and CSV loading, provider payloads and environment configuration: plumbing.
- SHA-256, uuid and ISO time parsing: a digest is injective, ids are fresh, a time stamp either parses or does not.
- Python parsing and the text rewriting of conditions: evaluation starts from the parsed tree. `is` on values other than `None` and booleans is taken as equality, and NaN is not a value.
- The 109 workbook rows and the mapping and behaviour tables: theorems are over arbitrary rule and mapping lists. The bound of 128 characters on rule ids and intents, which the workbook meets, is an assumption of `GuardrailService.RoundTrip`.
- Classifiers, response texts, persona, knowledge base, query answers (the answer block is a parameter), traces and evaluation scripts.
- `agent_ui/v1/contract.py` is not part of this model: its `validate_next_event` is an arbitrary verdict on each event.
- Clearing the event store while subscribers are live, `PermitStore.clear`, and the lookup order of `HandlerRegistry`.
- `UIConnectionRegistry`, the building of deterministic routes and `_bounded_messages`: they would add only easy members.
- EventDelivery.EventStreamAdapter.NotifyLocked: the subscriber objects are values in a map, so aliasing of `_SessionSubscriber` is not captured.
- Confirmation.ConfirmationManager.RegisterPending: prompt, turn and request ids and the creation time are stored for display only and left out.
- Confirmation.ConfirmationManager.BeginConfirm: a record is found by its id at each step, not held by reference; ids are unique, so both name the same record.
- PermitGateway.VerifySound: an explicit `current_time` override and naive clock readings are not modelled; the wall clock may jump either way.
- Cascade.EntriesHaveRecords: operations are taken one after the other; `Interleaving.EveryEntryIsHeld` is the statement with other threads between their halves. Stop handlers and the bridge work on values rather than on the machine and registry objects.
- Orphans.OneSessionIsExact: sequential operations only; with other threads in between the exact statement is `Interleaving.OrphanExactly`.
- Monitor.StillRunningWasAllowed: no other thread runs between the evaluations of the tick; `Monitor.StoppedForGood` and `Monitor.OnlyAllowedOrNew` are the statements with any others in between.
- Simulation.BatchRefinesOneByOne: no monitor adapter is attached, as its stops would change the state between single controls.
- Simulation.ApplyBehavior: a leaf is an arbitrary patch of the state, so the six leaf kinds are not spelled out.
- ToolRegistry.ModelSchema: the alphabetical order of targets and value lists, which the meaning of `enum` does not depend on, is not modelled.
- ToolRegistry.ValidatedMeaning: when several arguments are bad the source reports the first in the caller's order; the model reports a missing string before an overlong value.
- ToolMapping.BuildCoverageReport: findings are sets; the sorted order of the report is presentation.
- Wire.DecisionAccepted: strings that happen to spell one of the contract's words, a time stamp or a digest are represented by their own constructors.
