# OpsPilot: the durable investigation and remediation protocol

This project models the part of OpsPilot that has to survive crashes and stay honest: the incident API, the
investigation graph it drives over a durable checkpoint, the idempotency table that guards remediations, the audit
log and timeline, and the service memory fed at close. Two smaller imperative units go with it: the sliding-window
rate limiter and the bounded retry around the model call.

How it is laid out, bottom up:

- `CanonicalJson`, `Policy`, `Remediation`, `Schemas`, `ChatClient`: values. JSON with its sorted-key printer and a
  parser for it, the policy table, argument schemas and handlers, the graph state and its reducers, retry and cost.
- `Idempotency`, `KeyText`, `GuardSchedules`: the guard as a class over its table, the text behind its key, and the same
  guard cut into look-up, executor and commit under every interleaving and crash.
- `Nodes`, `Durable`: what each node writes, and the graph over a checkpoint. An attempt either completes its node or
  stops before the executor, after it, or after the row's commit.
- `Investigation`, `CrashTransparency`, `Permission`, `Deduplication`: what holds of one thread on every schedule of
  attempts, crash points, answers and other threads' commits.
- `Memory`, `MemoryLedger`: the memory table's writes, deletes and consolidation, refined to a count per pattern.
- `Incidents`: the handlers as methods of an incident's record, each equal to a function of the incident row, audit
  log, thread, remediation store and memory.
- `World`, `Lifecycle`, `Histories`, `Guarantees`, `Provenance`, `Reproducible`, `SlaSafety`, `Requests`, `Stamps`,
  `Timeline`: all incidents over the shared stores, under every sequence of requests, crashes inside them and
  re-entries; the invariants and what follows from them.
- `Witness`: one concrete history for the two promises that do not hold as documented.
- `RateLimit`: the limiter.

Assumptions about what lies below, stated where they are used:

- LangGraph checkpoints a node's writes together with the edge taken; an entry starts its node from the top; an
  interrupt that was answered replays its first recorded answer; a finished thread is left as it is
  (`src/opspilot/agent/nodes.py:365-372`, `src/opspilot/agent/idempotency.py:3-14`).
- `_apply_result` is one transaction. The guard's commit is immediate and its key is unique.
- The model's reply is an arbitrary function of the messages and the attempt number; a read-only tool is an arbitrary
  function of its name and input. Incidents are served one request at a time.
- SHA-256 has no collisions, so the key is taken to be the payload text.
- Of two memory rows of one service the one with the larger id is the more recent.

Where the code does not do what its documentation says, the model follows the code:

- "At most once per key, ever" (`src/opspilot/agent/idempotency.py:53`) fails when an attempt is lost, or overlaps
  another, between running the executor and committing its row. `GuardSchedules.RunsAccountedFor` is the exact account
  and `GuardSchedules.SecondRunExactlyWhen` the exact condition; `Permission.ExecutionsExact` counts it per thread.
- The timeout is meant to deny. It resumes with a denial, but an approval recorded by a request that then died is
  replayed instead, and the timeout carries it out. `SlaSafety.TimeoutRunsExactlyWhen` is the exact condition.
- Audit rows of tool calls and of approvals share one name column, and the model may call a tool that does not exist
  by an approval row's name. By position the log is always right (`Guarantees.AuditAgrees`); by name it is right exactly
  when no tool call used such a name (`Guarantees.EvidenceByName`).
- Memory's outcome `executed` is also given to `no_action`, where nothing ran (`Guarantees.OutcomeIsTrue`).

## Model

| member | source | states |
|---|---|---|
| CanonicalJson.RoundTrip | src/opspilot/agent/idempotency.py:41-47 | the text of a normalised JSON value, whatever follows it, parses back to that value: keys, escapes, surrogate pairs and numbers included |
| CanonicalJson.SortedSpec | src/opspilot/agent/idempotency.py:44 | sorting keys at every depth gives a normal form that denotes the same dict |
| CanonicalJson.NormalUnique | src/opspilot/agent/idempotency.py:44 | two normal forms that denote the same value are the same |
| CanonicalJson.DumpsCanonical | src/opspilot/agent/idempotency.py:41-47 | two payloads print alike if and only if they are the same JSON value, whatever the order of their keys |
| Idempotency.KeyInjective | src/opspilot/agent/idempotency.py:41-47 | two attempts share a key if and only if thread, action, target and params all agree |
| KeyText.PayloadPrints | src/opspilot/agent/idempotency.py:41-47 | the exact text behind a key: the four fields in sorted order with the standard separators, the params printed in their place |
| Idempotency.RemediationLedger.ExecuteIdempotently | src/opspilot/agent/idempotency.py:50-93 | a key already in the table returns its recorded result and runs nothing; a new one runs the executor once and commits its row |
| Idempotency.SerialAttemptsRunOnce | src/opspilot/agent/idempotency.py:50-57 | any number of undisturbed attempts run the executor once and all return the first result, even if later runs would answer differently |
| Idempotency.RepeatsChangeNothing | src/opspilot/agent/idempotency.py:61-75 | once a row is there, attempts leave table and world as they are |
| GuardSchedules.RunsAccountedFor | src/opspilot/agent/idempotency.py:59-93 | under every interleaving and crash: runs of a key = its committed row + runs not yet committed + runs lost, and exactly one attempt claims each row |
| GuardSchedules.AnswersAgree | src/opspilot/agent/idempotency.py:61-75 | on every schedule a committed row never changes and every answer given is the committed one |
| GuardSchedules.AtMostOnceWhenSettled | src/opspilot/agent/idempotency.py:53 | with nothing lost or open a remediation ran once if anyone claims it, and never otherwise |
| GuardSchedules.SecondRunExactlyWhen | src/opspilot/agent/idempotency.py:77-90 | the next executor run repeats a remediation if and only if a row is there by now or an earlier run is uncommitted |
| GuardSchedules.TwoRunsAfterCrash | src/opspilot/agent/idempotency.py:53-90 | a crash between executor and commit, then a second attempt, runs the remediation twice |
| GuardSchedules.TwoRunsWhenOverlapping | src/opspilot/models.py:244 | two overlapping attempts run it twice with no crash; the unique key makes the second fail |
| GuardSchedules.SoloAttempt | src/opspilot/agent/idempotency.py:59-93 | an attempt no other interleaves with does, step by step, what the guard's one-step description says |
| GuardSchedules.CutShortLeaves | src/opspilot/agent/idempotency.py:59-93 | what an attempt that crashes after its look-up, its executor or its commit leaves in the table and in the world |
| Remediation.PlannedCallIsPermitted | src/opspilot/agent/nodes.py:283-357 | what a verdict asks to run is permitted by policy, and nothing permitted is left out |
| Remediation.ValidParamsWf | src/opspilot/agent/remediation_tools.py:31-45 | validated params are a well-formed dict, so the key's guarantees apply to them |
| Policy.FailsClosed | src/opspilot/agent/policy.py:37-65 | by action name, policy and the display tier are table look-ups, and a name outside the table is blocked |
| Remediation.ExecutableByPolicy | src/opspilot/agent/nodes.py:54-68 | the actions that have anything to run are exactly those policy lets run, and the approvable ones exactly those that need approval |
| Remediation.RollbackParams | src/opspilot/agent/remediation_tools.py:31-32 | a rollback takes exactly the dicts with a non-empty target version, and keeps that field |
| Remediation.ToggleParams | src/opspilot/agent/remediation_tools.py:43-45 | a toggle takes exactly the dicts with a non-empty flag name and a coercible `enabled`, which defaults to false |
| Remediation.LookupIsDict | src/opspilot/agent/remediation_tools.py:31-45 | reading a key of an argument dict gives what the dict holds under it |
| Remediation.ApprovedCallReports | src/opspilot/agent/remediation_tools.py:48-85 | an approvable handler reports itself simulated, with its action, service, own arguments and outcome |
| Remediation.AutoCallReports | src/opspilot/agent/remediation_tools.py:58-74 | restart and scale run alone, with default arguments and an empty key dict, and report the same way |
| ChatClient.CallWithRetries | src/opspilot/agent/client.py:104-133 | returns the first reply that is not transient, gives up after exactly max_retries + 1 failures, and sleeps backoff times 1 + 2 + ... between attempts |
| ChatClient.SettlesAtSpec | src/opspilot/agent/client.py:117-133 | every attempt before the settling one was transient, and settling on a failure means the retries are used up |
| ChatClient.TriangleClosed | src/opspilot/agent/client.py:133 | the total sleep after r retries is backoff * r * (r + 1) / 2 |
| ChatClient.CostAdds | src/opspilot/agent/client.py:62-64 | cost is additive in the tokens and never negative |
| ChatClient.PriceList | src/opspilot/agent/client.py:54-64 | the price of every listed model, and the default, per input and output token |
| RateLimit.RateLimiter.Check | src/opspilot/auth.py:25-36 | pops stale timestamps even when it refuses, accepts exactly when fewer than the limit are left, and touches no other identity |
| RateLimit.SlidingWindow | src/opspilot/auth.py:25-36 | against the full history of accepted requests: refused if and only if the limit already lies in the closed window ending now, and no closed interval of that length ever holds more than the limit |
| Nodes.GatherContext | src/opspilot/agent/nodes.py:87-225 | one model call and its tool round, block by block, including invalid submissions and unknown tools, and how many provider calls it took |
| Nodes.ReplyIsFirstSettled | src/opspilot/agent/nodes.py:98-118 | a visit works with the first of the provider's answers to its prompt that is not transient, or with the failure that uses up the retries |
| Nodes.ExecuteApprovedAction | src/opspilot/agent/nodes.py:283-310 | runs an approvable action through the guard when the params validate, and else does nothing |
| Nodes.ResolveVerdict | src/opspilot/agent/nodes.py:313-357 | the update and the table after a verdict, with or without a decision |
| Durable.RunToRest | src/opspilot/agent/graph.py:96-110 | an undisturbed invocation ends at a pause, the end or an exception, with every provider call it made, those of a visit that raises included |
| Durable.NodesBounded | src/opspilot/agent/graph.py:209-215 | however often it crashes and is entered again, a thread completes no more nodes than its rank |
| Durable.ProviderCallsBounded | src/opspilot/agent/nodes.py:98-118 | at most one bounded-retry call per remaining step, whether or not the last one raises, and none past the gather loop, so a resume past the interrupt makes none |
| Investigation.InvestigationBounded | src/opspilot/agent/graph.py:209-215 | at most max_steps + 4 nodes (for max_steps >= 1), always under the recursion limit, at most max_steps * (max_retries + 1) provider calls, and every invocation comes to rest or raises |
| Investigation.StatusIsTheCause | src/opspilot/agent/nodes.py:396-419 | on every schedule the final status names the true cause, and a diagnosis and a provider error never coexist |
| Investigation.CostConservedAndBounded | src/opspilot/agent/nodes.py:120-125 | on every schedule the token totals are the sums over the turns of the tokens of the reply to each turn's own prompt, the cost is their price, and it exceeds the ceiling by at most the last call |
| Investigation.TranscriptWellFormed | src/opspilot/agent/nodes.py:132-225 | roles alternate from the opening message to a user message; every turn is what the model answered to everything before it; each tool call among its blocks, wherever it stands, is answered once, in order, with its own result; the evidence trail is exactly the records of the calls, each under its turn's number with its own arguments, result and error; the diagnosis is the last valid submission of the last turn; a provider error is the provider's |
| Investigation.RunBlocksSpec | src/opspilot/agent/nodes.py:157-213 | each block's own result and record, in order, and the last valid submission wins |
| Investigation.CallByCall | src/opspilot/agent/nodes.py:135-213 | position by position: each tool call of a turn has exactly the result and the record that its rank among the calls says, and there are no others |
| Investigation.FindingsKept | src/opspilot/agent/nodes.py:260-280 | from their nodes on, the groundedness findings and the risk tier are those of the diagnosis the thread carries |
| CrashTransparency.CrashTransparent | src/opspilot/agent/nodes.py:283-393 | from any point of any schedule of attempts, crash points, answers and other threads' commits, finishing gives the state and own rows of the undisturbed run, but for the deduplicated flag |
| CrashTransparency.CompletedRunTransparent | src/opspilot/agent/graph.py:86-110 | the same for a run from the start that completed |
| CrashTransparency.NonInterference | src/opspilot/agent/nodes.py:313-419 | two threads anywhere past the loop with the same action and answer keep the same verdict, table, result and status on every schedule, whatever their diagnosis text, evidence, confidence or cost |
| Permission.OnlyPermittedRuns | src/opspilot/agent/nodes.py:54-68 | on every schedule each run of a thread is of the action its checkpoint names, permitted by policy on the recorded answer |
| Permission.ExecutionsExact | src/opspilot/agent/nodes.py:283-357 | a thread's runs are its committed row plus one per attempt lost between executor and commit; a finished thread records a remediation if and only if its row is committed, with the row's result |
| Permission.StopIsGuardCrash | src/opspilot/agent/idempotency.py:59-93 | stopping inside the node at each point leaves exactly the store of the guard's attempt crashed at that step |
| Deduplication.FlagTellsOfACut | src/opspilot/agent/nodes.py:297-355 | on every schedule a recorded remediation is the handler's result for the plan, flagged deduplicated if and only if an earlier attempt had committed the row and stopped before its checkpoint |
| Memory.ServiceMemory.WriteConfirmed | src/opspilot/memory.py:57-99 | writes one row, or nothing for a missing, escalated or unconfident diagnosis |
| Memory.ConfirmedExactly | src/opspilot/memory.py:57-84 | exactly the diagnoses that are confident enough and do not escalate are written, with what was diagnosed and a count of one |
| Memory.JoinAppends | src/opspilot/memory.py:78 | the symptom text is the evidence joined by a semicolon and a space |
| Memory.ServiceMemory.DeleteEntry | src/opspilot/routers/memory.py:28-34 | removes that row and no other |
| Memory.ServiceMemory.GroupRows | src/opspilot/memory.py:176-179 | one group per pattern of the service, holding exactly its rows, newest first |
| Memory.ServiceMemory.Consolidate | src/opspilot/memory.py:165-193 | leaves each pattern's newest row with the group's sum and maximum, and returns the number of rows removed |
| Memory.ServiceMemory.MergeGroup | src/opspilot/memory.py:181-191 | merges one group into its first row and deletes the rest |
| MemoryLedger.OtherServicesUntouched | src/opspilot/memory.py:165-193 | consolidating a service leaves every row of every other service |
| MemoryLedger.TotalsConserved | src/opspilot/memory.py:186-187 | per pattern the sum of counts and the best confidence are conserved |
| MemoryLedger.ConsolidatedClean | src/opspilot/memory.py:165-193 | afterwards no two rows of the service share a pattern |
| MemoryLedger.ConsolidationIdempotent | src/opspilot/memory.py:165-193 | consolidating again changes nothing |
| MemoryLedger.ConsolidationAbsorbed | src/opspilot/routers/incidents.py:168-173 | whether a service was consolidated before a write does not show after the next consolidation |
| MemoryLedger.OnceAtTheEnd | src/opspilot/routers/incidents.py:168-173 | consolidating after every write, however the writes of different services interleave, equals consolidating each written service once at the end, in any order |
| MemoryLedger.OnceForService | src/opspilot/routers/incidents.py:168-173 | whatever other services write in between, each service stands as if it were consolidated once at the end, or as written if it never was |
| MemoryLedger.MemoryIsACount | src/opspilot/memory.py:57-193 | after any closes and deletes: one row per pattern, there if and only if it was confirmed since its last deletion, with that count and the highest confidence, and otherwise the latest of those confirmations |
| Incidents.IncidentRecord.PersistNewEvidence | src/opspilot/routers/incidents.py:89-108 | appends the part of the trail past the number of rows already written, in order, each row with its record's step, tool, arguments, result and error and the time of writing |
| Incidents.IncidentRecord.ApplyResult | src/opspilot/routers/incidents.py:111-175 | the incident row, audit log and memory after a pause or a close |
| Incidents.IncidentRecord.Resume | src/opspilot/agent/graph.py:223-264 | records an answer, runs the graph on, and applies the result |
| Incidents.IncidentRecord.MaybeApplyApprovalTimeout | src/opspilot/routers/incidents.py:178-207 | a pause whose age has reached the SLA is resumed with the timeout's denial; anything else is left alone |
| Incidents.IncidentRecord.RunIncident | src/opspilot/routers/incidents.py:246-280 | runs an open incident from the start, and refuses any other |
| Incidents.IncidentRecord.DecideApproval | src/opspilot/routers/incidents.py:283-327 | checks the timeout, answers a conflict when nothing awaits approval, refuses exactly the approvals whose params do not validate, else resumes |
| World.ThreadIdInjective | src/opspilot/routers/incidents.py:58-59 | two incidents never share a thread id |
| World.OthersKeepAccount | src/opspilot/agent/idempotency.py:41-47 | what one thread adds to the shared store changes no other thread's account |
| Lifecycle.ServedOk | src/opspilot/routers/incidents.py:89-327 | every request, however far it got, keeps an incident's row, log and thread in the shape its status demands |
| Histories.HistoryOk | src/opspilot/routers/incidents.py:89-327 | the whole invariant, incidents, shared store and memory, after any history |
| Guarantees.StampsMatchStatus | src/opspilot/models.py:138-166 | after any history started_at, pending_approval, awaiting_since and completed_at are set exactly at the statuses that mean them |
| Guarantees.ClosedFaithfully | src/opspilot/routers/incidents.py:156-163 | a closed incident shows its thread's diagnosis, steps, cost and the true cause as status |
| Guarantees.OnlyForward | src/opspilot/models.py:140-142 | across any further requests status only moves open, running, awaiting approval, terminal |
| Guarantees.ClosedForever | src/opspilot/routers/incidents.py:253-297 | a closed incident and its thread never change again |
| Guarantees.StartsAtMostOnce | src/opspilot/routers/incidents.py:253-263 | in any history an investigation starts at most once |
| Guarantees.EveryRunPermitted | src/opspilot/agent/nodes.py:54-68 | every remediation ever run, in any history, is justified by an incident whose checkpoint names that action: auto-executable, or approvable with an approval and valid params |
| Provenance.ApprovalCameFirst | src/opspilot/routers/incidents.py:283-313 | in any history a run of an action that needs approval was preceded by a request approving that incident, with params that validate to the run's, no answer having been recorded before it and the run not yet made |
| Provenance.ApprovalHasARequest | src/opspilot/routers/incidents.py:308-312 | an approval on record is that of a request in the history; the timeout only ever records a denial |
| Provenance.ServedIsSched | src/opspilot/agent/graph.py:188-264 | whatever a request does to its thread, crashes included, is a schedule of answers and attempts |
| Reproducible.HistoryReplays | src/opspilot/agent/graph.py:86-110 | in any history, finishing an incident's thread gives what the undisturbed investigation gives on an empty store with the same answer |
| Reproducible.ClosesReproduce | src/opspilot/routers/incidents.py:111-175 | any two histories that close an incident on the same answer leave the same thread, remediation rows, incident row and log, but for timestamps, process ids and the deduplicated flag |
| Guarantees.AuditAgrees | src/opspilot/routers/incidents.py:89-154 | after any history the log of a paused or closed incident repeats its evidence trail record by record and field by field, whole and in order, then the request and the decision if there were any |
| Guarantees.EvidenceByName | src/opspilot/routers/incidents.py:115-154 | in any history filtering a paused or closed incident's log by tool name gives exactly its evidence if and only if no tool call used an approval row's name |
| Stamps.RunIsCarriedOut | src/opspilot/routers/incidents.py:252-266 | in any history a run of an open incident starts it with that request's stamps, and leaves it running if and only if the invocation died or raised; a run of any other incident changes nothing |
| Stamps.StampsAreRequests | src/opspilot/routers/incidents.py:111-175 | in any history started_at is the time of the request that found the incident open; awaiting_since, the evidence and request rows and their process id are those of that same request; completed_at and the decision row are stamped by the request that closed it |
| Guarantees.MemoryRefines | src/opspilot/routers/incidents.py:165-173 | the memory table is what the closes and deletions of the history say |
| Guarantees.CloseIsNoted | src/opspilot/memory.py:57-84 | in any history the request that closes an incident notes its diagnosis exactly when the write gate lets it: once, with the diagnosis's own fields and the time of the close |
| Guarantees.MemoryCountsCloses | src/opspilot/memory.py:57-193 | after any history each pattern's row counts the incidents that closed with it since its last deletion, and is the latest of them |
| Guarantees.OutcomeIsTrue | src/opspilot/memory.py:40-54 | a memory row says approved and executed if and only if its source incident has a remediation result under approval, denied if and only if the answer was a denial or the timeout, and executed for every auto verdict, with a result unless the action was no_action |
| SlaSafety.NothingOverdueAfterRead | src/opspilot/routers/incidents.py:178-207 | in any history, after a read whose check came back no overdue pause is left, and an overdue one is closed |
| Requests.EarlyReadChangesNothing | src/opspilot/routers/incidents.py:182-187 | in any history a read of anything but a pause whose age has reached the SLA leaves the world as it is |
| Requests.DueReadCloses | src/opspilot/routers/incidents.py:189-203 | in any history a read of a pause whose age has reached the SLA, if its check comes back, closes the incident on the timeout's denial, or on the answer recorded before; on the denial nothing runs |
| Requests.UnacceptableChangesNothing | src/opspilot/routers/incidents.py:298-306 | in any history, within the SLA, an approval whose params do not validate changes nothing |
| Requests.DecisionNeedsAPause | src/opspilot/routers/incidents.py:292-296 | in any history a decision on anything but a pause changes nothing |
| Requests.DecisionCloses | src/opspilot/routers/incidents.py:308-314 | in any history a denial, or an approval with valid params, within the SLA and coming back, closes the incident on that decision, or on the answer recorded before, with one decision row stamped by the request |
| Requests.DenialIsCarriedOut | src/opspilot/routers/incidents.py:308-314 | on a pause nobody had answered, a denial is recorded and runs nothing |
| Requests.ApprovalIsCarriedOut | src/opspilot/routers/incidents.py:308-314 | on a pause nobody had answered, an approval runs the paused action exactly once with the validated params, commits its row and records its result |
| SlaSafety.LateDecisionIsARead | src/opspilot/routers/incidents.py:290-297 | in any history a human decision past the SLA leaves the whole world exactly as a read would, when the timeout's own resume comes back |
| SlaSafety.LateApprovalRunsOnlyIf | src/opspilot/routers/incidents.py:195-201 | when that resume fails, a late approval runs a remediation only if it failed before its denial was recorded, or an earlier approval was outstanding |
| SlaSafety.TimeoutRunsExactlyWhen | src/opspilot/routers/incidents.py:178-207 | in any history a read runs a remediation only for an outstanding approval, however far its timeout got; one that comes back does so if and only if such a pause is overdue |
| SlaSafety.CrashedApprovalIsCarriedOut | src/opspilot/routers/incidents.py:283-313 | an approval whose request dies after its answer was recorded is carried out by the next overdue check |
| Timeline.ByStepSorts | src/opspilot/routers/incidents.py:348-353 | the query's order: the same rows, by step |
| Timeline.Build | src/opspilot/routers/incidents.py:338-412 | each entry from its row and from the last request row before it |
| Timeline.GetTimeline | src/opspilot/routers/incidents.py:330-414 | checks the timeout first, then renders what it left |
| Timeline.TimelineIsFaithful | src/opspilot/routers/incidents.py:348-401 | in any history step order is append order, there is at most one decision row, right after the only request row, and it is labelled a restart if and only if the two process ids differ |
| Timeline.TimelineShowsTheLog | src/opspilot/routers/incidents.py:338-412 | in any history the timeline is the opening, one entry per row of the log in order, and the outcome of a closed incident; each decision is shown as the approval, denial or timeout it was, and as deduplicated if it was |
| Timeline.DecisionLabels | src/opspilot/routers/incidents.py:369-389 | in any history a decision is shown exactly at the real decision row if and only if no tool call used that row's name |
| Witness.ConcreteHistory | src/opspilot/routers/incidents.py:178-207 | one configuration in which an overdue read runs a remediation, and in which tool names do not tell evidence from approval rows |

## Left out

- RateLimit.SlidingWindow: the clock is taken never to run back and to be an integer; `time.monotonic` is a float.
- Durable.ProviderCallsBounded: counts an undisturbed invocation; a crash inside a model call pays for that call again.
- Investigation.CostConservedAndBounded: exact reals; neither float rounding nor the rounding to six places on display.
- MemoryLedger.MemoryIsACount: rows of one service with equal `created_at` are ordered by id, where the query leaves it open.
- Timeline.Build: labels are structured values, not rendered text; Python's equality of `1` and `True` in forged ids is not modelled.
- Incidents.IncidentRecord.DecideApproval: pydantic's coercion of `enabled` is a parameter; other coercions do not arise for these schemas.
- Concurrent API requests: requests come one after another; overlap is modelled for the guard alone.
- LangGraph, the Postgres checkpointer and SQLAlchemy: only the checkpoint, replay and transaction contracts above.
- Database limits, such as the 64-character tool name column, and errors of the database itself other than a request dying.
- JSON floats and lone surrogates in payloads; params that reach the key have neither.
- The evidence-grounding check: `hypothesize` writes its two fields from an arbitrary function.
- Listing incidents: the same timeout check for each, so a sequence of reads.
- Retrieval ranking and prompt text: the model's reply is arbitrary, so what memory it was shown does not matter.
- Read-only tools, seed data, the evaluation harness, tracing, API-key comparison, response models and the web interface.
