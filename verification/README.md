# A verified model of the Sky customer-service agent

The agent answers customers, and may cancel an order or request a refund for them. This project
models the parts of it that must not go wrong, and proves what they promise. It is checked with
`dafny verify dfyconfig.toml`; nothing in it is executed.

## What is modelled

**The confirmation protocol.** A conversation is a state machine whose steps are the nodes of the
graph. A destructive call is captured as a pending action, confirmed in a later turn, restored,
compiled again, compared with what was captured, revalidated, and executed through a write that
leaves a receipt under the action's id. A run may crash after any node, go back to any earlier
checkpoint, and lose the answer of a commit; the language model may propose anything.
`Domain`, `Compiler`, `Agent` and `Graph` hold the values, the decision compiler, the nodes and the
runs; `Safety` shows that every node keeps one invariant, `Conversations` what follows for whole
runs, and `Overlap` what is left of it when turns of one thread run at the same time, which nothing
in the code prevents. `Completion` says exactly when a yes ends with the action executed, and `Turns`
follows a request and a yes through whole turns; `Reuse`, `Stall` and `DoubleCall` are runs from a new
thread that end in a way one would not expect. Actions are told apart by the event of their creation,
since their ids are not always new.

**The idempotent write.** `Database` holds the rows and the schema's constraints, `Transactions` any
number of sessions interleaved statement by statement, `Sessions` one session in the form of the
code, and `Execution` the node that records the attempt, calls the tool and commits.

**The captured payload.** `PolicyInputs` and `PendingPayload` flatten, compare and restore trees;
`Ordering` is `sorted`.

**The resilience layer.** `Windows` has the sliding-window limiters against the full history,
`Control` the controller with its circuit breaker, `Retry` the retry loop, `RetryBounds` its bounds,
`Probes` what aborted calls leave in the circuit, and `RetryTraffic` the retry budget under sequences
that overlap. Time is real. The clock is read outside the lock, so the properties about limiters ask for
times that do not decrease from one critical section to the next.

**Knowledge.** `Snapshots` and `SnapshotStore` build, validate, activate and roll back immutable
snapshots over a client whose every call may fail before or after taking effect; `Chunking` cuts
documents, `Lexical` encodes them as sparse vectors, and `Grounding` is the gate for answers.

**Memory.** `Memory` is the service over its table, `MemoryRuns` the map it amounts to, and
`MemorySessions` several sessions at once.

## What does not hold

Some properties one would expect are not true of the code. For each, one lemma gives a case that
fails, and others say when the property does hold.

- An action id is not new for each request. A second, different cancellation or refund in the same
  conversation is refused as a duplicate (`SecondCancellationIsRefused` is such a run;
  `ConfirmedOutcomeExact` and `YesIsCarriedOutExact` say when an action is executed).
- A confirmed action is not always called: the compiler reads the whole conversation again, and what
  was said since the capture can make it ask back; the action then stays confirmed, and no further
  yes reaches it (`WaveringRunStalls` is such a run; `WaveringStallsTheAction` and
  `YesIsCarriedOutExact` say when).
- A captured action can be called twice when two turns of its thread overlap and both say yes
  (`OverlappingYesesCallTwice`). It changes rows once all the same (`OverlappingAtMostOneEffect`),
  each yes causes one call at most (`EachYesCallsOnce`), and turns one after another, from the latest
  checkpoint, call it once (`SequentialAtMostOneCall`, `AtMostOneCall`).
- A rate limit can be exceeded when requests of one principal overlap and one is rolled back
  (`OverlapBreaksTheLimit`, `RunExact`).
- The failure count is not the number of failures since the last success once a probe has failed
  (`FailedProbeIsNotCounted`, `CircuitExact`).
- A `BaseException` out of an operation while its circuit is half open leaves the probe in flight;
  once all probes allowed are lost in this way, the service is refused for ever
  (`AbortedProbesBlock`, `NoProbeIsLeft`, `BlockedExact`).
- The deadline of a retry sequence costs a call when the timeout is zero, or when there is something
  to retry and the backoff is zero (`DeadlineCanCut`, `DeadlineInert`).
- A refund does not protect the order's status until its commit (`LateRefundCommits`,
  `CommitIsAtomic`).
- The flattening forgets dotted keys and empty objects; captured trees have neither
  (`ShapeIsNeeded`, `FlattenInjective`, `NormalisedShape`).
- Two sections with one slug give one chunk id twice (`TwiceFaqCollides`, `ChunkIdsExact`).
- With a threshold of zero an answer without claims passes the gate (`EmptyAnswerPasses`,
  `Validate`).
- Two `remember` calls at once can leave two active rows, which compaction repairs
  (`InterleavedRemembersNeedCompaction`, `UniqueExact`, `OverstepsExact`).

## Model

| member | source | states |
|---|---|---|
| `Conversations.WhatRunsWasConfirmed` | sky-agent/app/agent/nodes/revalidate.py:105-250 | in every state of every run, each `cancel_order` or `request_refund` call belongs to an action captured in an earlier turn; tool, arguments and idempotency key are the captured ones; the context is the owner's and one the policy cannot tell from the captured one; a yes was given in the turn of the call, before expiry; under the semantic contract the order number, and the reason of a refund, are the user's own words. No other write tool but ticket and escalation is ever called without that |
| `Conversations.AtMostOneEffect` | sky-agent/app/agent/nodes/execute_tool.py:76-117 | over every run with crashes after any node, returns to any earlier checkpoint and commits whose outcome is lost, two calls of one captured action, or of one idempotency scope, that both changed rows are the same call |
| `Conversations.AtMostOneCall` | sky-agent/app/agent/nodes/check_pending.py:115-148 | when the turns of the thread come one after another, without a return to an earlier checkpoint, each captured action is called at most once |
| `Overlap.OverlappingRunsConfirmed` | sky-agent/app/agent/runtime.py:165-280 | however turns of one thread overlap, over shared rows and checkpoints, with turns that die, start from any checkpoint, or lose the answer of a commit: each call of a write tool is the captured one, confirmed in the turn of the call |
| `Overlap.OverlappingAtMostOneEffect` | sky-agent/app/agent/runtime.py:165-280 | however they overlap, two calls of one captured action, or of one idempotency scope, that both changed rows are the same call |
| `Overlap.ThreadRunKeeps` | sky-agent/app/agent/runtime.py:165-280 | the protocol's invariant holds for every turn in flight and every checkpoint, in every state of every such run |
| `Overlap.EachYesCallsOnce` | sky-agent/app/agent/runtime.py:165-280 | however they overlap, an action is called twice only in two different turns, with a yes of its own in each |
| `Overlap.SequentialAtMostOneCall` | sky-agent/app/agent/runtime.py:165-280 | as long as no turn has begun beside another or from an earlier checkpoint, each captured action is called at most once |
| `Overlap.OverlappingSlots` | sky-agent/app/agent/runtime.py:165-280 | however they overlap, in each turn an action is never both pending and suspended, and both are as they were captured |
| `DoubleCall.OverlappingYesesCallTwice` | sky-agent/app/agent/runtime.py:165-280 | finding: a run in which every turn begins from the latest checkpoint, and two overlapping turns both say yes to one waiting cancellation; it is called twice, and the second call finds the receipt of the first and changes no row |
| `Conversations.RunKeeps` | sky-agent/app/agent/graph.py:777-875 | the protocol's invariant (slots, records, armed actions, receipts, database constraints) holds in every state of every run |
| `Conversations.NodeKeeps` | sky-agent/app/agent/graph.py:57-252 | every node, with the edge taken after it, keeps that invariant |
| `Conversations.SlotsExclusive` | sky-agent/app/agent/nodes/workflow_lifecycle.py:430-459 | the suspended action is exactly the captured one, still waiting, and never also the pending one, neither as an action nor under its id; the pending one is the captured one up to its status, and carries the current action id |
| `Conversations.SuspendResumeRoundTrip` | sky-agent/app/agent/nodes/workflow_lifecycle.py:280-427 | suspended and later waiting again, an action is the identical one with its own id, whatever happened in between |
| `Conversations.ResumeExact` | sky-agent/app/agent/nodes/workflow_lifecycle.py:347-427 | a suspended action becomes pending again if and only if it belongs to the context; then it is the captured action itself, waiting; otherwise the slots stay as they were; and the turn goes to the response without executing |
| `Conversations.DeadStaysDead` | sky-agent/app/agent/nodes/check_pending.py:92-148 | an action that was waiting, confirmed or suspended and no longer is (rejected, expired, failed, superseded, dropped, executed) is never called in the rest of the run, as long as no earlier checkpoint is restored |
| `Conversations.SpentNeverCalled` | sky-agent/app/agent/nodes/check_pending.py:92-148 | once spent, an action is in no later call |
| `Conversations.ConfirmedOutcomeExact` | sky-agent/app/agent/nodes/confirmed.py:29-40 | when nothing breaks, a confirmed action ends executed if and only if its key has the receipt of the same payload, or has no receipt and the tool's own check passes |
| `Conversations.ActionIdIsReused` | sky-agent/app/agent/graph.py:298-348 | the action id survives the turn and is used for the next request; only suspending, superseding and resuming change it |
| `Conversations.ReusedKeyIsRefused` | sky-agent/app/agent/nodes/evaluate_policy.py:91-92 | confirming another cancellation, or another refund, under a key already used by an effective one changes no row and ends failed |
| `Reuse.SecondCancellationIsRefused` | sky-agent/app/agent/graph.py:298-348 | finding: a run from a new thread, with nothing failing, in which a customer cancels order 7, asks to cancel order 8 and confirms in time; the second call passes the tool's own check for order 8, but the receipt of the first is under its key: it is refused as a duplicate, no row changes, and the action ends failed |
| `Turns.RequestIsCaptured` | sky-agent/app/agent/graph.py:255-348 | from the start of any turn, in any set of worlds that no node leaves, such as the reachable ones, with nothing waiting: an owner's message that names an order in digits, sets off no alarm, is no reply, and is not two requests at once, with a proposal to cancel the order, ends in one turn with exactly that cancellation waiting, created now, under the id that is there or a new one |
| `Turns.YesReachesExecution` | sky-agent/app/agent/graph.py:75-252 | from the start of any turn, an owner's yes in time that sets off no alarm, whatever else the phrase lists find in it, brings an action that compiles again and is still valid to its execution, with its own arguments and nothing else changed |
| `Completion.YesIsCarriedOutExact` | sky-agent/app/agent/graph.py:75-252 | from the reply to the executed action, over seven nodes and when nothing breaks: a pending action ends executed if and only if the reply is a yes, in time, from its owner, to an action still waiting; it compiles again on all that was said; nothing the policy reads changed and the tool's check passes; and its key is free or has the receipt of this very request |
| `Completion.GetsThroughExact` | sky-agent/app/agent/nodes/revalidate.py:105-250 | a confirmed action reaches its execution if and only if it compiles again and is still valid |
| `Completion.CompiledAgainExact` | sky-agent/app/agent/nodes/compile_decision.py:27-55 | restored, compiled and selected again, the captured call goes on to validation with its own order and reason if and only if the compiler accepts it; otherwise the turn ends and the action stays confirmed |
| `Completion.RestoredExact` | sky-agent/app/agent/nodes/restore_pending.py:13-55 | the compiler is offered the captured call: its intent, order, reason and recorded grounding, whatever entities were collected |
| `Completion.WaveringStallsTheAction` | sky-agent/app/agent/decision_compiler.py:261-266 | after a wavering reply in between, a confirmed cancellation is asked about again; it is neither called nor waiting any more |
| `Stall.WaveringRunStalls` | sky-agent/app/agent/decision_compiler.py:174-266 | finding: a run from a new thread with nothing failing, in which a customer asks for a cancellation, wavers, says yes, and goes on saying yes any number of times; the action is confirmed and nothing is ever called |
| `Completion.ReplyExact` | sky-agent/app/agent/nodes/check_pending.py:108-148 | what each reply makes of an action: expired, confirmed, rejected, still waiting, untouched, forgotten or recognised as a replay, and exactly when |
| `Completion.InterruptionExact` | sky-agent/app/agent/nodes/workflow_lifecycle.py:280-344 | a new request leaves the waiting action in place, drops it or keeps it aside unchanged, and exactly when |
| `Safety.CheckPendingExact` | sky-agent/app/agent/nodes/check_pending.py:92-148 | an action becomes confirmed if and only if it is waiting, unexpired, of this very tenant, actor, customer and conversation, and the reply is a yes; which other outcome each other case has |
| `Safety.CaptureExact` | sky-agent/app/agent/nodes/create_pending.py:9-69 | the captured action is the validated call in the current context, under the current action id, created now, and nothing else of the state changes |
| `Safety.RevalidateExact` | sky-agent/app/agent/nodes/revalidate.py:105-250 | revalidation passes if and only if the action belongs to the context, no policy-relevant field drifted, the customer is the trusted one, the policy still wants a confirmation and the business state passes the tool's check; the arguments that run are the captured ones |
| `Safety.ValidateExact` | sky-agent/app/agent/nodes/validate_tool.py:7-61 | without an error the arguments are those of the input model with the authenticated customer put in, and validating them again changes nothing |
| `Safety.PolicyExact` | sky-agent/app/policies/rules.py:12-72 | exactly when the default policy allows, asks for a confirmation, asks for a human |
| `Safety.EvaluatePolicyExact` | sky-agent/app/agent/nodes/evaluate_policy.py:19-137 | an id that is there is kept; there is no error if and only if there was none, a tool is selected, the engine works and does not deny; then the decision is the policy's |
| `Safety.CallIsAuthorised` | sky-agent/app/agent/nodes/execute_tool.py:31-117 | the confirmed path calls only the action that was captured and confirmed; the other execution nodes only tools that need no confirmation, with nothing pending |
| `Safety.WroteExact` | sky-agent/app/services/idempotency.py:30-68 | a call that changed rows was one of the two confirmed tools, its scope had no receipt before and has its own afterwards, and every schema constraint still holds |
| `Safety.ExecutesDisarms` | sky-agent/app/agent/nodes/confirmed.py:29-40 | after an execution the called action is no longer armed: it ends executed or failed |
| `Safety.InterruptionGood` | sky-agent/app/agent/nodes/workflow_lifecycle.py:280-344 | handling an interruption keeps the invariant of the slots and gives the next node what it relies on, with no action newly armed |
| `Safety.RestorePendingGood` | sky-agent/app/agent/nodes/restore_pending.py:13-55 | restoring a confirmed action keeps it confirmed, the invariant, and what the compiler relies on |
| `Safety.LoadContextGood` | sky-agent/app/agent/graph.py:255-348 | a turn starts with the slots as they were and nothing planned, confirmed or restored |
| `Execution.ToolExecutor.ExecuteTool` | sky-agent/app/agent/nodes/execute_tool.py:31-240 | the node, with one session and an audit trail, is the atomic call of the conversation model, branch by branch; no tool runs before its attempt is recorded; the last event of a write says success, unknown or failure as the caller is told; a read leaves no event |
| `Execution.ToolExecutor.ExecuteConfirmed` | sky-agent/app/agent/nodes/confirmed.py:29-40 | the same with the action marked executed or failed by the outcome; a node that raised leaves it as it was |
| `Execution.ToolExecutor.AttemptOnce` | sky-agent/app/agent/nodes/execute_tool.py:104-116 | tool, then one commit: rows change only if the commit took effect; a lost answer is an unknown outcome, never a failure |
| `Execution.ExecuteAll` | sky-agent/app/agent/nodes/execute_tool.py:92-240 | over any sequence of executions, however each ends: every change of business rows has an attempt of its own action in the trail, and there are no more changes than attempts; every recorded outcome stands right behind the attempt of its own action; the schema's constraints still hold |
| `Execution.RanAlone` | sky-agent/app/services/idempotency.py:30-68 | the lookup, savepoint, writes and receipt of an undisturbed session amount to one atomic write |
| `Transactions.RunKeeps` | sky-agent/app/services/idempotency.py:30-68 | for any interleaving of sessions: at most one receipt for each tenant, actor, operation and key; refund rows and refund receipts correspond one to one; no order has two active refunds; receipts are never lost |
| `Transactions.AtMostOneWrite` | sky-agent/app/services/idempotency.py:55-68 | in a whole run at most one commit writes the rows of a scope, however many sessions send it, fail, are lost or retry |
| `Transactions.OnlyWritesChangeRows` | sky-agent/app/services/idempotency.py:40-54 | only the writing commit of a scope without a receipt changes rows: not a replay, a refusal, a rollback |
| `Transactions.SameAnswer` | sky-agent/app/services/idempotency.py:106-108 | two sessions told of success under one scope sent the same payload and were told the same result |
| `Transactions.CommitIsAtomic` | sky-agent/app/tools/refunds.py:46-75 | in every run, a writing commit is one atomic write on the database it commits to if and only if it cancels, or the refunded order is still delivered; only the order's status can have changed since the check; where it has, the atomic write would have been refused as an invalid state, and the refund is made all the same |
| `Transactions.LateRefundCommits` | sky-agent/app/tools/refunds.py:46-75 | finding: a run in which the order is cancelled elsewhere between the check of a refund and its commit; the customer is told of success, and an order that is not delivered has a refund |
| `Transactions.NextKeeps` | sky-agent/app/models/entities.py:129-191 | every statement, commit, rollback and outside change keeps the schema's unique constraints and what each open transaction relies on |
| `Database.ExecuteKeeps` | sky-agent/app/services/idempotency.py:30-68 | a write keeps every constraint, removes or changes no receipt, writes rows only for a scope without one, and leaves one |
| `Database.RetryIsReplay` | sky-agent/app/services/idempotency.py:40-46 | a retry changes nothing and returns the recorded result; with another payload it is refused as a duplicate |
| `Sessions.Session.ExecuteIdempotent` | sky-agent/app/services/idempotency.py:30-68 | one session's control flow (lookup, savepoint, write, receipt, second lookup after an integrity error) is exactly the statement sequence of the interleaving model, whatever others commit in between |
| `Sessions.Session.CommitBusinessWrite` | sky-agent/app/services/idempotency.py:71-81 | the rows become visible unless the database never got the commit; a lost answer is an unknown outcome |
| `Sessions.Session.CancelPerform` | sky-agent/app/tools/orders.py:78-111 | the cancellation's statement under the row lock, with its errors |
| `Sessions.Session.RefundPerform` | sky-agent/app/tools/refunds.py:46-75 | the check, then the insert that the partial unique index may refuse |
| `Sessions.Session.GetReceipt` | sky-agent/app/services/idempotency.py:84-103 | the receipt of a scope, or none |
| `PolicyInputs.Flatten` | sky-agent/app/agent/nodes/pending_payload.py:133-142 | for any tree: the path texts of the leaves, each with a leaf of that text; on captured trees exactly the leaves |
| `PolicyInputs.FlattenInjective` | sky-agent/app/agent/nodes/pending_payload.py:133-142 | trees of the captured shape with equal flattenings are equal |
| `PolicyInputs.ShapeIsNeeded` | sky-agent/app/agent/nodes/pending_payload.py:133-142 | finding: with a dotted key, or an empty object, different trees flatten alike |
| `PendingPayload.PolicyInputDiff` | sky-agent/app/agent/nodes/pending_payload.py:117-130 | what is missing, added and changed; on captured trees the diff is empty if and only if the trees are equal |
| `PendingPayload.DriftExact` | sky-agent/app/agent/nodes/pending_payload.py:57-88 | the check at revalidation passes if and only if the restored arguments, the tool and every policy-relevant context field equal what was captured |
| `PendingPayload.CaptureRestoreRoundTrip` | sky-agent/app/agent/nodes/pending_payload.py:19-73 | capture then restore gives the arguments back whatever entities were collected, so an unchanged context yields an empty diff |
| `PendingPayload.RestorePendingArguments` | sky-agent/app/agent/nodes/pending_payload.py:19-30 | captured arguments win over collected entities, which only fill what is absent |
| `PendingPayload.NormalisedShape` | sky-agent/app/agent/nodes/validate_tool.py:7-61 | validated arguments have the captured shape |
| `Domain.NormaliseIdempotent` | sky-agent/app/agent/nodes/validate_tool.py:7-61 | the later validations of one call's arguments cannot change them, and no extra key reaches the tool |
| `Ordering.SortedCanonical` | sky-agent/app/agent/nodes/pending_payload.py:86-87 | `sorted` roles and groups are equal if and only if they hold the same elements as often |
| `Ordering.SortByPermutation` | sky-agent/app/rag/storage/qdrant.py:587-588 | sorting by a key that tells the elements apart forgets the order and nothing else |
| `Compiler.NoInventedOrder` | sky-agent/app/agent/decision_compiler.py:231-388 | a fresh decision compiles to a cancellation or a refund if and only if it names an explicit order whose number stands alone in the user's words, the cancellation is not contradicted, the refund's reason is the user's; never for the latest order |
| `Compiler.OrderActionExact` | sky-agent/app/agent/decision_compiler.py:278-388 | when an order action compiles, and to which tool and arguments |
| `Compiler.OnlyDestructiveIntents` | sky-agent/app/agent/decision_compiler.py:231-276 | no intent but the two compiles to a destructive tool, whatever the grounding, the text and the restoration |
| `Compiler.UserDomainIdsExact` | sky-agent/app/agent/semantic_grounding.py:49-56 | an id is recognised if and only if its digits stand alone somewhere in the text |
| `Windows.TakeRefines` | sky-agent/app/resilience/control.py:177-187 | a try is admitted if and only if fewer than the limit were admitted in the window that ends now; the queue goes on standing for the full history |
| `Windows.PopRefines` | sky-agent/app/resilience/control.py:189-194 | taking back the latest admission leaves the queue of the history without it |
| `Windows.RunExact` | sky-agent/app/resilience/control.py:177-194 | over any run of tries and rollbacks, however requests overlap: the queue stands for the admissions not taken back in all its states if and only if every rollback finds the queue empty or takes out its own time |
| `Windows.RunKeepsLimit` | sky-agent/app/resilience/control.py:177-194 | then no window, wherever it starts, holds more admissions than the limit |
| `Windows.UnmixedIsOwn` | sky-agent/app/resilience/control.py:64-78 | requests of one key that do not overlap meet that condition |
| `Windows.DecisionsExact` | sky-agent/app/resilience/control.py:177-187 | and every decision is that of the full history |
| `Windows.WindowBound` | sky-agent/app/resilience/control.py:177-187 | a history admitted in this way has at most the limit in any window |
| `Windows.RefusalTimeExact` | sky-agent/app/resilience/control.py:177-187 | a queue that refuses with a time to wait refuses at every moment before it is over and admits at every moment from then on |
| `Windows.Expire` | sky-agent/app/resilience/control.py:206-208 | the loop drops exactly the leading entries at or before the cutoff |
| `Windows.RollbackExact` | sky-agent/app/resilience/control.py:189-194 | one rollback leaves what stands for the other admissions if and only if the queue is empty or its own time is that of the latest admission, whether it has expired or not |
| `Windows.OverlapBreaksTheLimit` | sky-agent/app/resilience/control.py:64-78 | finding: with overlapping requests of one principal a rollback removes another request's time, and a window then holds more admitted requests than the limit |
| `Control.EnforcedExact` | sky-agent/app/resilience/control.py:64-78 | a request is accepted if and only if both its principal and its customer are below their limits; accepted, both histories gain it; refused by either, no history changes |
| `Control.RequestsExact` | sky-agent/app/resilience/control.py:64-78 | over any sequence of requests of any principals and customers, one after the other, each is accepted if and only if the full histories of both its keys allow it |
| `Control.RequestsKeepLimits` | sky-agent/app/resilience/control.py:64-78 | and for no key does any window, wherever it starts, hold more admitted requests than its limit |
| `Control.ServeRequests` | sky-agent/app/resilience/control.py:64-78 | the controller, serving such a sequence, answers each request so, and every queue stands for its history |
| `Control.ConsumedRefines` | sky-agent/app/resilience/control.py:177-187 | one key's decision is that of its own history, and no other key's history changes |
| `Control.CircuitExact` | sky-agent/app/resilience/control.py:93-137 | over any interleaving of the atomic methods: closed if and only if the count is below the threshold; probes in flight are bounded and none outside half-open; the count plus the failed probes is the number of failures since the last success, so the two agree if and only if no probe failed since |
| `Control.FailedProbeIsNotCounted` | sky-agent/app/resilience/control.py:128-137 | finding: one failed probe makes the count differ from the failures since the last success |
| `Control.EnteredExact` | sky-agent/app/resilience/control.py:93-108 | when a call is let through; with no probe under way never later than the recovery time; cancelling gives the probe back |
| `Control.ReliabilityController.EnforceRequestLimits` | sky-agent/app/resilience/control.py:64-78 | the new queues and the verdict are those of the specification of two limits with a rollback |
| `Control.ReliabilityController.ConsumeRateLimit` | sky-agent/app/resilience/control.py:177-187 | the queue of the key and the verdict are those of one try |
| `Control.ReliabilityController.RollbackRateLimit` | sky-agent/app/resilience/control.py:189-194 | the last entry of the key is gone, if there is one, and nothing else changes |
| `Control.ReliabilityController.ConsumeRetryBudget` | sky-agent/app/resilience/control.py:83-91 | the budget's queue and the grant are those of one try |
| `Control.ReliabilityController.BeforeCall` | sky-agent/app/resilience/control.py:93-108 | the circuit's record and the answer, for this service only |
| `Control.ReliabilityController.RecordSuccess` | sky-agent/app/resilience/control.py:110-118 | the record of the service is that of a recovered circuit |
| `Control.ReliabilityController.CancelCall` | sky-agent/app/resilience/control.py:120-126 | a probe under way is given back |
| `Control.ReliabilityController.RecordFailure` | sky-agent/app/resilience/control.py:128-137 | a failure counts, and a failed probe opens the circuit again |
| `Retry.RunWithRetry` | sky-agent/app/resilience/retry.py:25-149 | the loop over the controller's real records ends as the recursive specification, and always inside the loop; other services' records are untouched |
| `Retry.RunPass` | sky-agent/app/resilience/retry.py:59-149 | one pass of the loop, with its circuit, budget and sleep |
| `Retry.TryOnce` | sky-agent/app/resilience/retry.py:64-80 | one attempt up to the end of the operation: circuit, bulkhead, call, record |
| `Retry.HandleFailure` | sky-agent/app/resilience/retry.py:81-149 | what is done with a failed attempt: give up, or grant a delay |
| `RetryBounds.CallsExact` | sky-agent/app/resilience/retry.py:59-149 | at most `max_retries` + 1 calls, at most one for a write; every pass but the last saw a failure that is safe to replay, so never an unknown write or an abort; the reported attempts are the calls |
| `RetryBounds.EndsInTime` | sky-agent/app/resilience/retry.py:152-167 | with each attempt within its timeout the whole sequence ends within timeout times attempts plus the total backoff, whatever jitter or Retry-After (section 10.2.3 of RFC 9110) ask for |
| `RetryBounds.EndsByDeadline` | sky-agent/app/resilience/retry.py:104-121 | under any deadline, the end is at most the deadline, or one timeout after the start |
| `RetryBounds.DeadlineInert` | sky-agent/app/resilience/retry.py:152-185 | with no jitter, no Retry-After, a positive timeout and a positive backoff, the run under the deadline is the run without it, call for call and second for second |
| `RetryBounds.DeadlineCanCut` | sky-agent/app/resilience/retry.py:152-167 | finding: with a timeout of zero, or with something to retry and a backoff of zero, the deadline costs a call that the run without it makes |
| `RetryBounds.NoProbeIsLeft` | sky-agent/app/resilience/retry.py:64-102 | a sequence that finds no probe in flight leaves none, if and only if its operation was not aborted by a `BaseException` while half open; then the next call is refused only while the recovery time runs |
| `Probes.AbortedProbesBlock` | sky-agent/app/resilience/retry.py:64-102 | finding: on every configuration a run of as many unknown outcomes as the threshold and then as many aborted calls as probes are allowed leaves the service refused at all times; no later sequence calls its operation |
| `Probes.BlockedExact` | sky-agent/app/resilience/control.py:93-108 | the circuit refuses at all times if and only if it is half open with all allowed probes in flight |
| `Probes.BlockedForEver` | sky-agent/app/resilience/retry.py:59-149 | a blocked service stays so whatever sequences follow, and none of them makes a call |
| `Probes.BlockedNeedsAbandonments` | sky-agent/app/resilience/retry.py:59-149 | over any sequences, one after another, the probes in flight are at most the aborted calls, so a service is blocked only after as many of these as it allows probes |
| `RetryBounds.RetriesWithinBudget` | sky-agent/app/resilience/control.py:83-91 | after any history of grants, one whole sequence of a service keeps every window within the budget, and each pass after the first was granted one |
| `RetryTraffic.OverlappingRetriesWithinBudget` | sky-agent/app/resilience/retry.py:93-139 | however the sequences of a service overlap, no window holds more grants of all of them together than the budget, and each pass of a sequence after its first was granted its own |
| `RetryTraffic.GrantedExact` | sky-agent/app/resilience/control.py:83-91 | however they overlap, a failure that may be retried is granted if and only if the window that ends at it holds fewer grants of all sequences than the budget |
| `RetryBounds.TryReplays` | sky-agent/app/resilience/classification.py:8-61 | what the controller itself refuses is never classified as safe to replay |
| `SnapshotStore.RunOperations` | sky-agent/app/rag/storage/qdrant.py:157-578 | for any sequence of builds, activations and rollbacks in which any client call may fail before or after taking effect: at every moment the alias is unset or names an existing complete collection with exactly its corpus, and the aliased collection is never deleted, written or marked |
| `SnapshotStore.QdrantKnowledgeStore.BuildSnapshot` | sky-agent/app/rag/storage/qdrant.py:157-333 | only the collection of that name is touched, never the aliased one; a returned snapshot is complete, valid and exact, and aliased if asked for; with a client that does not fail it succeeds if and only if the name is free, replaceable or already a valid snapshot |
| `SnapshotStore.QdrantKnowledgeStore.ClearTheWay` | sky-agent/app/rag/storage/qdrant.py:214-267 | reuse of a valid snapshot, deletion of a managed unfinished one of the same identity, refusal otherwise |
| `SnapshotStore.QdrantKnowledgeStore.BuildNew` | sky-agent/app/rag/storage/qdrant.py:271-331 | created, loaded, checked and only then marked complete; marked failed otherwise |
| `SnapshotStore.QdrantKnowledgeStore.Load` | sky-agent/app/rag/storage/qdrant.py:282-296 | batch by batch, the points are exactly those of the corpus when every batch succeeds |
| `SnapshotStore.QdrantKnowledgeStore.ValidateSnapshot` | sky-agent/app/rag/storage/qdrant.py:335-446 | a yes means a collection that agrees with the snapshot in every checked field; with a client that does not fail, exactly then |
| `SnapshotStore.QdrantKnowledgeStore.Activate` | sky-agent/app/rag/storage/qdrant.py:448-476 | only the alias may change, and only to a validated exact collection; with a client that does not fail, exactly when there is one |
| `SnapshotStore.QdrantKnowledgeStore.Rollback` | sky-agent/app/rag/storage/qdrant.py:478-505 | the same, for a snapshot named by the caller |
| `SnapshotStore.QdrantKnowledgeStore.MarkBuildFailed` | sky-agent/app/rag/storage/qdrant.py:541-563 | touches at most this build's own collection, and then marks it failed |
| `SnapshotStore.QdrantKnowledgeStore.UpdateProvenance` | sky-agent/app/rag/storage/qdrant.py:532-539 | replaces the mark of one collection that is not aliased |
| `SnapshotStore.QdrantKnowledgeStore.DeleteInactive` | sky-agent/app/rag/storage/qdrant.py:565-578 | never deletes the aliased collection or one of another identity |
| `Snapshots.OrderIsIrrelevant` | sky-agent/app/rag/storage/qdrant.py:587-594 | reordering the chunks gives the same specification, so the same snapshot, or the same refusal |
| `Snapshots.LoadedExact` | sky-agent/app/rag/storage/qdrant.py:697-708 | one point for each chunk, with its payload and vector, and no other |
| `Snapshots.ValidatesItself` | sky-agent/app/rag/storage/qdrant.py:626-650 | a collection valid for some snapshot is valid for the one read back from it |
| `Snapshots.AliasedIsImmutable` | sky-agent/app/rag/storage/qdrant.py:541-578 | while a collection stays aliased it does not change in any respect |
| `Snapshots.ReadersSeeTheCorpus` | sky-agent/app/rag/storage/qdrant.py:448-476 | a reader that follows the alias always finds every chunk of its corpus with its own vector, and nothing else |
| `Chunking.Sections` | sky-agent/app/rag/ingestion/chunking.py:24-37 | the loop finds the sections of the document: under each heading, and under `overview`, its own lines up to the next heading, in order, and no empty ones |
| `Chunking.SectionsExact` | sky-agent/app/rag/ingestion/chunking.py:24-37 | these hold every line that is no heading exactly once, in order, and none of them is empty |
| `Chunking.ChunkDocument` | sky-agent/app/rag/ingestion/chunking.py:5-21 | the chunks hold all the text of the lines that are no headings, in order and once, but for white space; each section's are its greedy packing, numbered from zero |
| `Chunking.Pack` | sky-agent/app/rag/ingestion/chunking.py:9-20 | the loop over paragraphs is the greedy packing |
| `Chunking.GreedyExact` | sky-agent/app/rag/ingestion/chunking.py:13-20 | the packing keeps the paragraphs and their order, and each chunk fits the bound or is one paragraph |
| `Chunking.GreedyOptimal` | sky-agent/app/rag/ingestion/chunking.py:13-20 | no order-preserving partition into chunks that fit, or are one paragraph, has fewer chunks |
| `Chunking.SectionIsPackedBest` | sky-agent/app/rag/ingestion/chunking.py:5-21 | both together, for the paragraphs of a section |
| `Chunking.ParagraphsExact` | sky-agent/app/rag/ingestion/chunking.py:9 | splitting at blank lines and stripping loses nothing but white space, and no paragraph is blank |
| `Chunking.ChunkIdsExact` | sky-agent/app/rag/ingestion/chunking.py:44-54 | the chunk ids of a document are distinct if and only if no two of its sections with text have titles of one slug |
| `Chunking.SameTitleCollides` | sky-agent/app/rag/ingestion/chunking.py:24-37 | two sections of one title, both with text, give one chunk id twice |
| `Chunking.TwiceFaqCollides` | sky-agent/app/rag/ingestion/chunking.py:24-54 | finding: a document of four lines for which this happens |
| `Grounding.Validate` | sky-agent/app/rag/answer_generator.py:74-149 | an answer is accepted if and only if it is grounded: there is evidence, every citation quotes the retrieved chunk it names, nothing is unsupported, each claim is marked and quoted right after it stands in the answer, and there are claims or the threshold is zero; when each reason is given; what the coverage is |
| `Grounding.GroundedIsSound` | sky-agent/app/rag/answer_generator.py:74-149 | each claim of an accepted answer is, up to normalisation, in a retrieved chunk of the document that a citation names, even when ids repeat |
| `Grounding.ThresholdIsInert` | sky-agent/app/rag/answer_generator.py:128-149 | with claims, every threshold decides alike, and accepted means a coverage of exactly one |
| `Grounding.EmptyAnswerPasses` | sky-agent/app/rag/answer_generator.py:130-149 | finding: with a threshold of zero any answer without claims is accepted, at coverage zero |
| `Grounding.CheckCitations` | sky-agent/app/rag/answer_generator.py:88-99 | which citation ids are usable, and when each reason is given |
| `Grounding.CheckClaims` | sky-agent/app/rag/answer_generator.py:103-126 | how many claims are supported, and which join the unsupported ones |
| `Grounding.IsBacked` | sky-agent/app/rag/answer_generator.py:110-126 | a claim is backed if and only if a usable citation marked within 160 characters of its first occurrence quotes it |
| `Lexical.SparseScoreExact` | sky-agent/app/rag/retrieval/lexical.py:25-52 | the sparse dot product of an encoded query and document is the sum, over every token of the query as it comes, of the products of the weights |
| `Lexical.IndicesIncrease` | sky-agent/app/rag/retrieval/lexical.py:25-52 | encoded indices are positive and strictly increasing |
| `Lexical.Encode` | sky-agent/app/rag/retrieval/lexical.py:25-39 | the loop keeps the known terms in order, each with its index and its document weight |
| `Lexical.EncodeQuery` | sky-agent/app/rag/retrieval/lexical.py:41-52 | the same with the query weights |
| `Lexical.BuiltExact` | sky-agent/app/rag/retrieval/lexical.py:99-116 | the index knows exactly the tokens of the corpus, numbers them from one to n in their order, and gives each a weight of at least one |
| `Lexical.FromMetadata` | sky-agent/app/rag/retrieval/lexical.py:63-96 | an index is read if and only if the metadata is well formed; it holds the stored indices and weights, of the vocabulary only |
| `Lexical.RestoreIndex` | sky-agent/app/rag/retrieval/lexical.py:54-96 | an index written as metadata is read back unchanged if and only if it has a document, its indices and weights are positive, and they belong to the same tokens; a built index has all this |
| `MemoryRuns.RunMemory` | sky-agent/app/memory/service.py:82-163 | over every sequential run from an empty table each slot has at most one active row, with what was last remembered there and not forgotten since |
| `MemoryRuns.Perform` | sky-agent/app/memory/service.py:82-182 | each operation does to the rows what it does to the map from slots to contents; compaction, in such a run, changes nothing |
| `MemoryRuns.CompactionKeepsNewest` | sky-agent/app/memory/compaction.py:20-32 | from any state, of the active rows of a slot exactly the one with the greatest time of update, then id, stays active, untouched; no slot is lost |
| `MemoryRuns.CompactionIsConfined` | sky-agent/app/memory/compaction.py:20-32 | rows outside the tenant and customer, or not active, are left alone; afterwards the scope has one active row for each slot |
| `MemoryRuns.CompactionIsIdle` | sky-agent/app/memory/compaction.py:20-32 | with one active row for each slot there is nothing to do |
| `MemorySessions.UniqueExact` | sky-agent/app/memory/service.py:114-163 | over any interleaving of sessions that remember, forget and compact, each reading first and committing later: every slot has at most one active row in all states if and only if no commit adds a row over an active one that its call did not know |
| `MemorySessions.OverstepsExact` | sky-agent/app/memory/service.py:114-142 | a commit does so if and only if, between its call's read and itself, another commit added a row at its slot that is still active |
| `MemorySessions.WriteExact` | sky-agent/app/memory/service.py:117-142 | one commit keeps one active row in each slot if and only if it adds none over a row its call did not know |
| `MemorySessions.UndisturbedIsService` | sky-agent/app/memory/service.py:114-163 | with nothing in between, reading and committing is what the service does in one go: refresh, or supersede and add, forget, compact |
| `MemorySessions.InterleavedRemembersNeedCompaction` | sky-agent/app/memory/service.py:114-142 | finding: a run from the empty table in which two calls both read before either commits, and two active rows are in one slot; compaction afterwards keeps the later |
| `MemoryRuns.RefreshRefines` | sky-agent/app/memory/service.py:117-122 | remembering the same content again refreshes one row, but not its expiry |
| `Memory.MemoryService.Remember` | sky-agent/app/memory/service.py:82-143 | every refusal and its order; the row refreshed, or the rows superseded and the row added, from any state |
| `Memory.MemoryService.Forget` | sky-agent/app/memory/service.py:145-163 | the active rows of the slot are marked deleted and counted, no other row changes |
| `Memory.MemoryService.Compact` | sky-agent/app/memory/compaction.py:12-32 | a row is superseded if and only if a newer active row has its slot; the result is the active rows minus the distinct keys |
| `Memory.MemoryService.ActiveByKey` | sky-agent/app/memory/repository.py:29-42 | exactly the active rows of the slot |

## Left out

- The language model, identity provider, HTTP routes, health, settings, metrics, tracing, demo,
  projections and the Java services: input and output without state to reason about; the provider's
  answer is any proposal.
- The phrase lists (confirmation words, override and cross-customer markers, generic reason words,
  contradictory cancellations, personal-data patterns): predicates over the message.
- Response wording in `respond.py`, retrieval of knowledge and of memories: no invariant behind them.
- The contents of the responses of read tools; tickets and escalations keep no rows here, since no
  confirmation guards them.
- SHA-256, UUIDs and JSON text: injective, so the value stands for its hash. `policy_inputs_hash` is
  therefore not modelled; the code records it but lets only the diff decide.
- The name of a physical collection is any function of the specification, and may collide.
- Floating point: times, weights and confidences are reals; NaN and infinities are left out, and so
  is the rounding of coverage.
- White space is the ASCII blank, tab, line feed and carriage return; case folding and the
  tokeniser's pattern are parameters or done beforehand.
- Input models are projections on the declared fields with their types, ranges and lengths.
- Metrics and the time spent in them. In the retry loop a `BaseException` is modelled where it comes
  out of the operation; elsewhere, as between the admission of a probe and its call, it is not.
- True parallelism of half-open probes: every method of the controller is atomic, and the number of
  outstanding probes is bounded only by their counter.
- Several builders of one snapshot store at once: the check and the deletion are not one step in the
  code either.
- Sparse vectors inside points, paging of `list_snapshots`, and the compatibility entry point
  `upsert`, which calls `build_snapshot`.
- Gaps in the id sequences of a session that rolled back, in `Execution`; `Transactions` has them.
- `evaluate_policy` is modelled on values: the append to its policy audit, which stops the node when
  it fails, is one of the crashes a run may have.
- The audit repository is taken to be there; without one the execution node records nothing.
- The graph's nodes that only compute a change of state (routers, capture, restoration, compilation)
  are functions from state to state; LangGraph's merge of their partial updates is not modelled.
- Embeddings, cosine, BM25 ranking, rank fusion, reranking and the choice of excerpts: numeric
  ranking with only easy claims about its shape.
- The personal-data check of memory candidates: its judgement is a parameter of `Remember`.
- Windows.RunKeepsLimit: it and Windows.DecisionsExact ask for the condition that
  Windows.RunExact shows to be needed.
- Conversations.AtMostOneCall: it takes the turns of a thread to come one after another, which nothing
  in the code ensures; Overlap.SequentialAtMostOneCall and DoubleCall.OverlappingYesesCallTwice say
  what holds and what does not when they may overlap.
- Conversations.DeadStaysDead: it, Conversations.SpentNeverCalled, Conversations.ResumeExact and
  Conversations.SuspendResumeRoundTrip follow turns that come one after another.
- In `Overlap`, each node of a turn is one step, and so is the write of a tool; `Transactions` takes
  the writes of several sessions apart.
- Outside code is taken not to remove orders, and not to move them to another tenant or customer.
- Memory sessions commit column by column on what they read, as at the isolation level read
  committed; a level that refuses such a commit is not modelled.
- Memory.MemoryService.Remember: from a state with several active rows in the slot, which of them is
  refreshed is left open, as the query has no order.
