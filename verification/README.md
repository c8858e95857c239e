# Nyanya agent: verified model

Nyanya agent runs requests of several owners through shared workers. Controllers and workers
of any number of processes meet in one SQLite ledger, and files are changed only through
reviewed plans. This project models that ledger as a protocol, the journaled file apply that
runs against it, the two evidence-retention engines, the package tiling check, the writer
leases and the topic Wiki, and proves what they keep over whole runs.

## How it is built

- `LedgerTypes`, `Transactions`: the rows and, for each `BEGIN IMMEDIATE` block, its effect as
  a function from ledger to ledger. A refused or rolled-back transaction is the identity.
- `LedgerInvariants`: what every reachable ledger satisfies, row by row and pair by pair, and
  how one state may follow another. `LedgerProofs`, `CalmProofs`, `StepProofs`, `CreateProofs`:
  every transaction keeps it. `Protocol`: steps, runs, and the two induction theorems.
- `Safety`, `Effects`, `Scheduling`, `Leaks`, `Fencing`, `Threads`, `Causes`, `ClosingCauses`,
  `WorkCauses`: the main results, over runs and over every transaction.
- `IntakeLaws`, `QueueLaws`, `AttemptLaws`, `ControlLaws`, `ReviewLaws`, `ApplyLaws`,
  `DeliveryLaws`, `ThreadLaws`: what each transaction does, in the fields of the rows and in both
  directions, and what that means over runs.
- `Paths`, `Survival`, `Reach`, `Stops`: from which states a plan's files can still be changed.
  `Survival` states the condition and proves that no transaction makes it true again; `Reach`
  constructs, from every state that meets it, a run to a file mutation. `Frames`: which tables
  a group of transactions leaves alone.
- `LedgerStore` (class `Ledger`): the transactions as methods with the loops of the source,
  each proved equal to its specification, whose properties are the results above; the table
  lists the methods with loops or several statements. `Controllers`: the object performs every
  protocol step, and the sender loop runs among all others.
- `Proposals`, `WorkspaceFiles`, `WorkspaceLocks`, `ReviewedApply`: plans, files, the lock and
  the apply process, with other transactions, outside edits, short writes, failures and death
  between any two guarded sections.
- `AuditArchive`, `ServiceStream`, `ServiceLogs`, `MonthText`, `ZipCover`, `WriterLeases`,
  `Wiki`: the remaining engines.

Time is an integer that does not go back in the ledger; identifiers are numbers; a digest is
represented by the content it is the digest of. A `World` value or a parameter stands for what
the code cannot choose: the clock, other processes, failing calls, accepted bytes, death.

## Promises the code does not keep

The code is modelled as it is. Three expected properties fail; each has a concrete run and an
exact condition.

1. Closing or resolving a plan whose request still has an expired, unrecovered claim holds the
   request and makes it ineligible without releasing the claim. Recovery skips ineligible
   tasks, cancellation answers "blocked", renewal and commit need an unexpired claim: the slot
   is lost for good (`Leaks`, `Counterexamples.RevokingLeaks`, `Counterexamples.ExpiringLeaks`).
2. Settling a closed plan withdraws every queued child, also a draft whose own lost attempts
   are unresolved, and declares it cancelled (`Effects.SettleWrongExactly`,
   `Effects.ClosePlanWrongExactly`, `Counterexamples.RevokingCancelsUncertainDraft`).
3. A cancellation that returns early (failed, finished, or blocked with unresolved effects)
   does not stop the approved apply of a plan that has not begun, and neither does a recovery
   that interrupts only the request of such a plan: if the request is resumed, that apply runs.
   Exactly when that can still happen is `Stops.CancelStopsExactly` and
   `Stops.RecoverStopsExactly`, over the condition `Survival.Alive`; two runs are
   `Counterexamples.CancelledRequestStillApplies` and `RecoveredRequestStillApplies`.

The documentation string of `_settle_closed_plan` speaks of checking all plans, children and
effect evidence first; the code cancels the children before it looks at the evidence, and the
model follows the code.

## Model

| member | source | states |
|---|---|---|
| `Protocol.NextKeeps` | src/nyanya_agent/operation_store.py:313-346 | Each of the 29 transactions, from any state with the ledger invariant, keeps it and moves every task, attempt, plan and result row only forward; `recover` is one of them. |
| `Protocol.Reachable` | src/nyanya_agent/operation_store.py:349-424 | The invariant that ties tasks, claims, attempts, plans, results, locks, turns and sessions together holds in every state of every run from the empty ledger. |
| `Protocol.Later` | src/nyanya_agent/reviewed_changes.py:357-387 | In any run every later state is an evolution of any earlier one: identities stay, terminal attempts and saved results are fixed, plans and deliveries only move forward. |
| `StepProofs.SettleKeeps` | src/nyanya_agent/reviewed_changes.py:390-441 | Settling a closed plan keeps the whole invariant, in the branch for ended tasks and in the branch that stops children. |
| `StepProofs.CancelKeeps` | src/nyanya_agent/operation_store.py:771-851 | Cancellation keeps the whole invariant in all its branches: early returns, revoked plans and children, live attempt asked to stop, task closed at once. |
| `StepProofs.ResolveKeeps` | src/nyanya_agent/reviewed_changes.py:682-766 | Resolving a plan keeps the whole invariant, although the parent may still hold an expired claim. |
| `StepProofs.SettleExpiredKeeps` | src/nyanya_agent/reviewed_changes.py:458-492 | An expiry pass over any number of plans and stale reviews, in any row order, keeps the whole invariant. |
| `CreateProofs.ClaimNextKeeps` | src/nyanya_agent/operation_store.py:349-424 | Starting an attempt keeps reader/apply exclusion, one running turn a conversation, and the attempt count. |
| `CreateProofs.FinishKeeps` | src/nyanya_agent/work_queue.py:79-178 | A commit, with its parent, claim, result and conversation rows, keeps the whole invariant. |
| `CreateProofs.BindKeeps` | src/nyanya_agent/conversation_store.py:53-86 | A new turn keeps the numbering of its conversation gapless and linked. |
| `CreateProofs.BeginKeeps` | src/nyanya_agent/reviewed_changes.py:568-588 | Journaling a plan and marking it applying keeps the invariant, including one unsettled plan a workspace. |
| `Reach.TouchableExactly` | src/nyanya_agent/reviewed_changes.py:524-566 | From any state with the ledger invariant, some continuation of the run reaches a mutation of the plan's files if and only if an explicit condition on that state holds: the plan is unexpired and either its holder would pass the guard as soon as its worker reports, or it is pending or approved and its apply and request are claimed live, queued, or can still be brought to run (attempts left, no begun plan, no lost claim in the way, siblings able to finish). |
| `Survival.AliveBack` | src/nyanya_agent/reviewed_changes.py:549-554 | Nothing brings a plan back: if that condition holds after any of the 29 transactions, it held before. |
| `Stops.StopsExactly` | src/nyanya_agent/operation_store.py:313-346 | In any run, a cancellation of a plan's request or apply, or a recovery, stops the plan if and only if no continuation of the run mutates its files. |
| `Stops.StopIsFinal` | src/nyanya_agent/reviewed_changes.py:524-566 | Once a cancellation or a recovery has stopped a plan, no later step of the run is one of its file mutations. |
| `Safety.TouchIsLive` | src/nyanya_agent/reviewed_changes.py:549-554 | Whenever the guard lets a mutation through, the plan is applying and unexpired, its request is queued, running or awaiting approval, the apply task, attempt, claim and worker are live, no other operation of the workspace is claimed and no other plan of it is unsettled. |
| `Stops.CancelStopsExactly` | src/nyanya_agent/operation_store.py:780-794 | After a cancellation of its request or apply the plan's files can still be changed if and only if the cancellation returned early and the plan was alive before the call. |
| `Stops.RecoverStopsExactly` | src/nyanya_agent/operation_store.py:313-346 | After a recovery the plan's files can still be changed if and only if the plan was alive and the recovery interrupts neither its apply nor that of a sibling with unsettled effects, and its request only where that can be requeued while the plan waits unclaimed. |
| `Safety.ReaderApplyExclusion` | src/nyanya_agent/operation_store.py:369-377 | In every reachable state two unreleased claims on one workspace are both requests. |
| `Safety.OneHeldPlan` | src/nyanya_agent/reviewed_changes.py:574-579 | In every reachable state at most one plan of a workspace is applying or uncertain. |
| `Safety.PlansMoveForward` | src/nyanya_agent/reviewed_changes.py:364-374 | A plan keeps its reviewed content, its status only moves forward, revoked and expired are sinks, and a begun plan keeps its journaled preimages. |
| `Safety.ApplyOnce` | src/nyanya_agent/operation_store.py:41-59 | Under any approvals, submissions and resumes a plan has one apply task, which is started at most once in the whole run. |
| `Safety.ResumeRefusedForever` | src/nyanya_agent/operation_store.py:736-744 | Once a plan has entered applying, resuming its request is refused in every later state. |
| `Safety.FailureOnlyMarksApplying` | src/nyanya_agent/reviewed_changes.py:645-648 | The status update of the exception branch, which looks at no status, can only turn applying into uncertain. |
| `Counterexamples.CancelledRequestStillApplies` | src/nyanya_agent/operation_store.py:793-794 | A run in which the owner cancels a held request (answered "blocked") and the apply of its approved plan later changes files. |
| `Counterexamples.RecoveredRequestStillApplies` | src/nyanya_agent/operation_store.py:313-346 | A run in which a recovery interrupts the request of an approved plan and the apply of that plan later changes files. |
| `Causes.PlanMovesHaveCauses` | src/nyanya_agent/reviewed_changes.py:357-374 | Whatever transaction moves a plan, the move has its cause: approval of the unexpired plan by its owner with the reviewed content while the request still accepts changes; applying only by the claimed live apply in a free workspace; applied by that holder or by the owner's resolution of a quiet plan; uncertain, reconciled, revoked and expired likewise. |
| `Causes.NewPlansAreProposed` | src/nyanya_agent/reviewed_changes.py:279-303 | A plan row appears only as its owner's valid proposal for its own request, unapproved unless it is no draft and only creates files. |
| `Causes.TouchesWereReviewed` | src/nyanya_agent/reviewed_changes.py:524-553 | In any run, before any mutation of a plan's files there is a begin of that plan with every preimage intact and, before that, the consent of its owner to exactly the changes being applied, both before the plan expired; only plans that purely create files need no approval. |
| `ApplyLaws.PlanMovesExactly` | src/nyanya_agent/reviewed_changes.py:357-374 | In any of the 29 transactions a plan moves into a given status if and only if the step decides so, with the condition written out in the fields of the rows for each status: both directions of the causes. |
| `ApplyLaws.BeginExactly` | src/nyanya_agent/reviewed_changes.py:568-588 | An apply begins if and only if the guard is open on the approved plan, every preimage is intact and no plan of the workspace is held; it journals each change with its preimage, marks the plan and takes the lock. |
| `WorkCauses.ClaimMovesHaveCauses` | src/nyanya_agent/operation_store.py:353-408 | Whatever transaction writes a claim row: it is created for the first claimable task with a free slot, extended by its own holder while live, or released by its holder's commit, by the recovery of an interrupted task, or by the owner's cancellation of an attempt that can no longer acknowledge. |
| `WorkCauses.TaskMovesHaveCauses` | src/nyanya_agent/work_queue.py:131-139 | Whatever transaction moves a task: requeued only by its owner as a clean request with attempts left; running only by a claim that finds it first in order; completed, failed or awaiting approval only by the fenced commit of an attempt that was not asked to stop, by its applied plan or by a complete resolution; stopped, held and cancelled only by a fenced commit, its own recovery, or the closing of a plan or task it belongs to. |
| `ClosingCauses.ClosingMovesHaveCauses` | src/nyanya_agent/reviewed_changes.py:390-441 | Every task that a revocation, an expiry pass, a cancellation or a resolution moves is tied to it: the request of the closed plan without a live attempt, all its other plans closed or expired; a queued or active child of it; the cancelled task or the apply of a plan it revokes; the request or the blocked apply of the resolved plan, each at the hand of its owner. |
| `ControlLaws.CancelExactly` | src/nyanya_agent/operation_store.py:771-851 | A cancellation ends early exactly in the stated cases; otherwise it revokes exactly the plans under review, stops exactly their applies, and asks the task to stop if its attempt can answer or closes task, claim and open attempts at once, held if an effect is uncertain. |
| `ControlLaws.SettleExactly` | src/nyanya_agent/reviewed_changes.py:390-441 | Closing a plan settles its task exactly when no plan of it is open or applying and no attempt is at work: held if an effect is uncertain, else cancelled unless it had ended; waiting attempts end, and the children of a live task stop. |
| `ControlLaws.RevokeExactly` | src/nyanya_agent/reviewed_changes.py:357-387 | A revocation closes exactly a plan of the owner under review and settles its task. |
| `ReviewLaws.ProposeExactly` | src/nyanya_agent/reviewed_changes.py:279-303 | An acceptable proposal for a request of the owner adds one plan for an hour, approved at once exactly if it is no draft and only creates files, and replaces the request's plans under review; any other changes nothing. |
| `ReviewLaws.PassExpiresExactly` | src/nyanya_agent/reviewed_changes.py:471-476 | An expiry pass expires every plan that is due and no other. |
| `ReviewLaws.PassCloses` | src/nyanya_agent/reviewed_changes.py:471-482 | An expiry pass closes every request without an attempt at work whose last plans under review are due. |
| `ReviewLaws.PassEndsReviews` | src/nyanya_agent/reviewed_changes.py:483-491 | After an expiry pass no ended task has an attempt that waits for a finished review. |
| `ReviewLaws.ResolveExactly` | src/nyanya_agent/reviewed_changes.py:682-766 | A resolution is accepted exactly for a held plan, or an applied one of an incomplete request, with nothing at work; it records the plan's end and exactly the acknowledged lost attempts, and judges request and apply by the evidence that remains. |
| `WorkCauses.NewTasksAreAdmitted` | src/nyanya_agent/operation_store.py:72-149 | A task row appears only by an admission through a ready worker, with that worker, the intake's workspace and exactly its source, and with the common priority; the source was not seen before; an apply only for a plan without one, approved or approved in the same commit. |
| `WorkCauses.SourceAdmittedOnce` | src/nyanya_agent/operation_store.py:80-98 | In every reachable state two tasks have different sources. |
| `IntakeLaws.SubmitExactly` | src/nyanya_agent/operation_store.py:72-160 | A request is admitted if and only if its worker reports, its message is new and its parent is known; the new row has exactly the intake's owner, workspace, source, parent and worker and joins its conversation as the next turn; a refused one changes nothing. |
| `IntakeLaws.SubmitApplyExactly` | src/nyanya_agent/operation_store.py:41-59 | The same for an apply, exactly for an approved plan of its owner and workspace without an apply, as a child of the plan's request. |
| `IntakeLaws.ApproveAndSubmitExactly` | src/nyanya_agent/operation_store.py:163-183 | Approval and admission happen together exactly when the owner may approve and the apply may be admitted, and otherwise nothing happens. |
| `IntakeLaws.MessageAdmittedOnce` | src/nyanya_agent/operation_store.py:80-98 | However often a message arrives, at most one intake of a whole run adds a task for it. |
| `Effects.CancelNeverWrong` | src/nyanya_agent/operation_store.py:793-844 | No cancellation moves a task into cancelled while effects of it or its children are unresolved afterwards. |
| `Effects.FinishNeverWrong` | src/nyanya_agent/work_queue.py:111-129 | No commit moves a task into cancelled while effects are unresolved afterwards. |
| `Effects.ResolveNeverWrong` | src/nyanya_agent/reviewed_changes.py:733-757 | No resolution moves a task into cancelled while effects are unresolved afterwards. |
| `Effects.QueuedApplyIsClean` | src/nyanya_agent/operation_store.py:593-636 | A queued apply task has no unresolved effect, so withdrawing it is always safe. |
| `Effects.SettleWrongExactly` | src/nyanya_agent/reviewed_changes.py:417-436 | Settling a live task declares some task cancelled with unresolved effects if and only if one of its children is a queued draft whose own earlier attempts are unresolved. |
| `Effects.ClosePlanWrongExactly` | src/nyanya_agent/reviewed_changes.py:371-376 | The same for revoking or expiring a plan, read off the state before the call: it is the last review of a live task that has such a draft. |
| `Effects.SettleExpiredNeverWrong` | src/nyanya_agent/reviewed_changes.py:458-492 | If the ledger holds no drafts, a whole expiry pass declares no task cancelled with unresolved effects. |
| `Counterexamples.RevokingCancelsUncertainDraft` | src/nyanya_agent/reviewed_changes.py:421-426 | A run that ends in a revocation which marks a draft cancelled while its lost attempt is unresolved. |
| `Scheduling.ClaimsMatchAttempts` | src/nyanya_agent/operation_store.py:378-408 | In every reachable state running and stopping tasks hold an unreleased claim on their current attempt, and every unreleased claim is on a running or stopping attempt. |
| `Scheduling.ClaimNeverConflicts` | src/nyanya_agent/operation_store.py:393-403 | The claim insert never meets an existing row, so the chosen task is always started. |
| `Scheduling.ClaimProgress` | src/nyanya_agent/operation_store.py:353-377 | With nothing claimed, a free slot and all ready tasks on this worker, a claim finds a task exactly when one is ready; turn order and exclusion never deadlock it. |
| `Scheduling.FirstTurnIsFree` | src/nyanya_agent/conversation_store.py:89-99 | With nothing claimed, a ready turn can be claimed exactly when no ready turn of its conversation comes before it, and otherwise an earlier one can. |
| `Scheduling.OnlyClaimOpens` | src/nyanya_agent/operation_store.py:353-403 | No other transaction adds an unreleased claim, and a claim adds one only below its slot count. |
| `Scheduling.ClaimsWithinSlots` | src/nyanya_agent/operation_store.py:353-357 | Unreleased claims never outnumber the largest slot count used in the run. |
| `QueueLaws.ClaimStartsExactly` | src/nyanya_agent/operation_store.py:353-408 | With a free slot a claim starts exactly the task that may start and comes first by priority number, then age, then row; it writes the whole attempt, a thirty-second claim and the next attempt number. |
| `QueueLaws.AheadStartsFirst` | src/nyanya_agent/operation_store.py:361 | If a claim starts a task while another may start on the same worker, the started one has the smaller priority number, or the same and is older, or the same age and the earlier row. |
| `QueueLaws.OldestFirst` | src/nyanya_agent/operation_store.py:361 | Over runs: of two tasks of equal priority that may both start, the one admitted by the earlier step is started first. |
| `QueueLaws.ReportsExactly` | src/nyanya_agent/operation_store.py:30-38 | Over all transactions: the clock never goes back, and a worker's row changes only when it registers for the first time or reports. |
| `Leaks.ClosePlanLeaksExactly` | src/nyanya_agent/reviewed_changes.py:402-439 | Revoking or expiring a plan leaves a claim that nothing releases if and only if it is the last review of a task that is still running or stopping with an expired claim. |
| `Leaks.ResolveLeaksExactly` | src/nyanya_agent/reviewed_changes.py:694-750 | Resolving a plan leaves such a claim if and only if its request is still running or stopping. |
| `Leaks.SettleExpiredLeaksExactly` | src/nyanya_agent/reviewed_changes.py:458-492 | A whole expiry pass, in whatever row order, leaves such a claim on a task if and only if the task is still running or stopping with an expired claim, one of its plans has expired, and so has every plan of it that is not finished. |
| `Leaks.OnlyClosingLeaks` | src/nyanya_agent/operation_store.py:313-346 | No transaction other than revoke, expire and resolve leaves such a claim. |
| `Leaks.LeakedSlotsStarve` | src/nyanya_agent/operation_store.py:353-357 | Such a claim stays for the rest of the run, and once they fill the slots no task is ever claimed again with that many slots. |
| `Counterexamples.RevokingLeaks` | src/nyanya_agent/reviewed_changes.py:357-387 | A six-step run that leaves such a claim. |
| `Counterexamples.ExpiringLeaks` | src/nyanya_agent/reviewed_changes.py:458-492 | A run in which the expiry pass leaves such a claim. |
| `Fencing.WritersAreFenced` | src/nyanya_agent/work_queue.py:87-96 | A new result is written only by the worker holding the unreleased, unexpired claim of the current attempt, or records a failed worker start of a held task. |
| `Fencing.OneResultEach` | src/nyanya_agent/execution_store.py:279-289 | At most one step of a run writes the result of an attempt. |
| `Fencing.ResultIsFinal` | src/nyanya_agent/work_queue.py:140-144 | A saved result keeps its task and outcome in every later state. |
| `Fencing.LateCommitChangesNothing` | src/nyanya_agent/work_queue.py:92-96 | After a recovery, a release or a newer attempt, commit and renewal by the old worker change nothing in any later state. |
| `Fencing.AttemptsEnd` | src/nyanya_agent/work_queue.py:125-134 | Terminal attempts never change, and one once asked to stop ends cancelled or lost with a cancelled or blocked result. |
| `Fencing.AttemptsAreBounded` | src/nyanya_agent/operation_store.py:358-408 | Attempts started by claims equal the attempt counter and are never more than three. |
| `Fencing.SentAtMostOnce` | src/nyanya_agent/operation_store.py:465-481 | With any number of senders, at most one claim of a result for sending succeeds, and it never returns to pending. |
| `Fencing.OutdatedNeverSent` | src/nyanya_agent/operation_store.py:465-481 | Once another attempt is current, the earlier one's result is never claimed for sending. |
| `Fencing.AcknowledgedStays` | src/nyanya_agent/operation_store.py:672-697 | An acknowledged delivery survives every later step, a late settlement included. |
| `AttemptLaws.FinishExactly` | src/nyanya_agent/work_queue.py:79-178 | A commit of the live claim's holder ends its attempt with the outcome the rules give (a stop is believed only without open effects, a stopped attempt ends only so, a success of an apply needs its applied plan), writes the result unsent, releases the claim and completes a waiting request; anybody else's changes nothing. |
| `AttemptLaws.UnresolvedExactly` | src/nyanya_agent/operation_store.py:593-636 | The evidence query, for a reachable ledger, in terms of attempts at work, losses nobody acknowledged and plans begun but not settled. |
| `AttemptLaws.RecoverExactly` | src/nyanya_agent/operation_store.py:313-346 | Recovery holds exactly the eligible tasks whose worker closed, fell silent or let the claim run out, releases their claims and marks their current attempts lost. |
| `AttemptLaws.ResumeExactly` | src/nyanya_agent/operation_store.py:717-768 | A resumption requeues a task if and only if it is the owner's held or failed request with attempts left, no ambiguous delivery, nothing at work, no plan that ever began, and a reporting worker. |
| `AttemptLaws.AmbiguousIsRefused` | src/nyanya_agent/operation_store.py:727-731 | While a delivery is ambiguous no resumption is accepted, and the acknowledgement lifts exactly that. |
| `DeliveryLaws.DeliveryMovesExactly` | src/nyanya_agent/operation_store.py:465-489 | In any of the 29 transactions the delivery of a result becomes another if and only if its cause is there: claimed while unsent and current, settled as the sender reports, or acknowledged by the owner. |
| `DeliveryLaws.SettledWasReported` | src/nyanya_agent/operation_store.py:484-489 | Over runs: a delivered result was claimed while current and its sender reported success; one whose delivery is uncertain was claimed and its sender reported failure; nothing else happened to it. |
| `Threads.TurnsAreNumbered` | src/nyanya_agent/conversation_store.py:70-86 | The live generation numbers its turns 1 to next-1, each number once, each turn linked to the one before it. |
| `Threads.OneTurnRuns` | src/nyanya_agent/conversation_store.py:89-99 | At most one turn of a generation is running or stopping. |
| `Threads.TurnsStartInOrder` | src/nyanya_agent/conversation_store.py:89-99 | A claim that starts a turn leaves no earlier turn of the generation queued and eligible, and none running. |
| `Threads.PendingIsNewest` | src/nyanya_agent/conversation_store.py:102-129 | A pending question belongs to the newest turn and to that turn's own succeeded attempt. |
| `ThreadLaws.SessionMovesExactly` | src/nyanya_agent/conversation_store.py:102-129 | Each of the 29 transactions leaves a conversation exactly so: a new turn and a reset clear the question, a result of the last turn sets it if and only if it is a success whose reply is a question, and nothing else touches it. |
| `ThreadLaws.TurnMovesExactly` | src/nyanya_agent/conversation_store.py:117-121 | What a turn says of its answer changes only by a saved result of it while its generation is live. |
| `ThreadLaws.QuestionStaysPending` | src/nyanya_agent/conversation_store.py:122-129 | Over runs: a success of the last turn whose reply is a question is pending, with that task and attempt, until the next turn, a reset, or a further result of that turn. |
| `ThreadLaws.PendingWasAsked` | src/nyanya_agent/conversation_store.py:122-129 | Over runs: a pending question was left by such a success, and nothing of the kind has happened since. |
| `LedgerStore.Ledger.Recover` | src/nyanya_agent/operation_store.py:313-346 | The row-by-row loop has the effect of interrupting all affected tasks at once, and counts them. |
| `LedgerStore.Ledger.Claim` | src/nyanya_agent/operation_store.py:349-424 | The loop over rows in queue order starts the first task that is not held back, or answers nothing only if every ready task is held back or the slots are full. |
| `LedgerStore.Ledger.Finish` | src/nyanya_agent/work_queue.py:79-178 | The reassigned outcome and the sequence of row updates commit as one step or roll back as a whole. |
| `LedgerStore.Ledger.Cancel` | src/nyanya_agent/operation_store.py:771-851 | The loops over open plans and their children revoke and stop exactly those, and the answer tells exactly whether it was refused, had nothing to do, asked or closed. |
| `LedgerStore.Ledger.StopChild` | src/nyanya_agent/reviewed_changes.py:421-431 | A queued child is withdrawn and an active one with its running attempts is asked to stop, nothing else. |
| `LedgerStore.Ledger.CloseReviewAttempts` | src/nyanya_agent/reviewed_changes.py:444-455 | Exactly the review attempts of the task end, lost or cancelled. |
| `LedgerStore.Ledger.SettleClosedPlan` | src/nyanya_agent/reviewed_changes.py:390-441 | The loop over children followed by the effect check has the effect of the settlement specification. |
| `LedgerStore.Ledger.Revoke` | src/nyanya_agent/reviewed_changes.py:357-376 | A revocation closes the plan and settles its request. |
| `LedgerStore.Ledger.SettleExpired` | src/nyanya_agent/reviewed_changes.py:458-492 | The two loops settle every expired plan and then every stale review in the order of the rows. |
| `LedgerStore.Ledger.Resolve` | src/nyanya_agent/reviewed_changes.py:682-766 | The parent and then each child get the verdict that the evidence before any of these updates gives them. |
| `LedgerStore.Ledger.Submit` | src/nyanya_agent/operation_store.py:72-160 | A request is admitted once a source, by a ready worker, with its conversation turn in the same commit. |
| `LedgerStore.Ledger.BindTurn` | src/nyanya_agent/conversation_store.py:53-86 | The newest turn found by the query is the unique last one, and the new turn links to it. |
| `LedgerStore.Ledger.ApproveAndSubmit` | src/nyanya_agent/operation_store.py:163-183 | Approval and admission commit together or not at all. |
| `LedgerStore.Ledger.Resume` | src/nyanya_agent/operation_store.py:717-768 | Recovery first, then one requeue of an eligible request. |
| `LedgerStore.StopPlan` | src/nyanya_agent/operation_store.py:799-805 | Revoking one plan leaves its children as the only ones still to stop. |
| `LedgerStore.VerdictsKeepEvidence` | src/nyanya_agent/reviewed_changes.py:751-757 | Passing verdicts changes no effect evidence, so their order does not matter. |
| `Controllers.Perform` | src/nyanya_agent/operation_store.py:313-346 | Every protocol step is the effect of a call of the ledger object, so the object's histories are the protocol's runs. |
| `Controllers.Deliver` | src/nyanya_agent/operation_service.py:162-190 | Whatever other threads and controllers do between its steps, a watcher runs the responder at most once, only after winning the claim of the watched attempt's unsent result; the result is then settled as the responder ended, unless the owner acknowledged it first. It gives up early only if there is nothing left to wait for or somebody else was faster; if nobody else moves, it sends exactly the current unsent result. |
| `Controllers.Respond` | src/nyanya_agent/operation_service.py:180-186 | While others move, the result stays claimed or is acknowledged; then a failure of the responder leaves it uncertain and a success delivered. |
| `Controllers.SecondSenderLoses` | src/nyanya_agent/operation_store.py:465-481 | After one thread has claimed a result, no later claim of it by anyone succeeds. |
| `Proposals.Prepare` | src/nyanya_agent/reviewed_changes.py:226-281 | A change list is accepted exactly when every item is acceptable, no file is named twice and the size bounds hold; the plan is then well formed and its preimages hold now. |
| `ReviewedApply.ApplyPlan` | src/nyanya_agent/reviewed_changes.py:512-649 | From any start, with any ledger activity, outside edits, short writes, failures and death at any section: it begins exactly when the ledger and the preimages allow; the ending matches the plan status; every file mutation is one the plan allows there; a completed apply leaves no temporary file and any other ending at most that of the change it stopped at; without outside edits the files are at a frontier of the plan, a completed apply is the plan's meaning, and the journal rebuilds the original workspace. The journal marks exactly the changes carried out and the lock is dropped. An apply that nothing disturbs, whatever condition the others keep that opens the guard, is completed. |
| `ReviewedApply.Conclude` | src/nyanya_agent/reviewed_changes.py:633-648 | The last transaction commits if and only if the process lives, every change was carried out and the guard is still open; it marks nothing if and only if the process is dead. |
| `ReviewedApply.LeasedIsUndisturbed` | src/nyanya_agent/reviewed_changes.py:549-554 | Such conditions exist: while only time passes, and not past the worker's leases, nothing disturbs an apply. |
| `ReviewedApply.WritesOwnFile` | src/nyanya_agent/reviewed_changes.py:602-606 | A creation never overwrites: whatever the apply writes to such a path, outside edits or not, goes to the file it created there itself, without a gap. |
| `ReviewedApply.Process.Guard` | src/nyanya_agent/reviewed_changes.py:549-554 | A section goes on if and only if the process lives, is not cancelled and the ledger lets this holder touch files. |
| `ReviewedApply.Process.DeleteFile` | src/nyanya_agent/reviewed_changes.py:597-601 | A file is unlinked only while it holds its reviewed preimage, and then exactly that is what the apply did; undisturbed it succeeds. |
| `ReviewedApply.Process.CreateFile` | src/nyanya_agent/reviewed_changes.py:602-606 | A new file is opened exclusively; however the writes are cut and whatever else is edited, as long as nobody edits that path it holds a prefix of its content, and all of it at the end. |
| `ReviewedApply.Process.WriteNew` | src/nyanya_agent/reviewed_changes.py:556-566 | The write loop ends and, unless somebody else edits that path, writes exactly the content or, when it stops, a prefix; every write lengthens what the last one left. |
| `ReviewedApply.Process.ModifyFile` | src/nyanya_agent/reviewed_changes.py:607-626 | The file is at its preimage or its new content at every stop, never between; a live process leaves the temporary file, with a beginning of the new content, only if it may no longer touch anything, and success leaves none. |
| `ReviewedApply.Process.ReplaceFile` | src/nyanya_agent/reviewed_changes.py:611-620 | Replacement happens in one section after the whole new content was written and the preimage compared again, and is then the only mutation; undisturbed it succeeds. |
| `ReviewedApply.Process.ChangeAll` | src/nyanya_agent/reviewed_changes.py:590-632 | The loop over the plan leaves the files at the frontier of the change it stopped at, with exactly the journal rows before it marked; undisturbed it carries all of them out. |
| `ReviewedApply.EndingStatus` | src/nyanya_agent/reviewed_changes.py:633-648 | While the lock is held the plan is applying, so the final updates have the status they assume. |
| `WorkspaceLocks.OthersKeepLock` | src/nyanya_agent/reviewed_changes.py:495-509 | Nothing other processes do takes the workspace lock from its holder. |
| `WorkspaceFiles.JournalRebuilds` | src/nyanya_agent/reviewed_changes.py:580-587 | At every interruption point the journaled preimages rebuild the whole original workspace. |
| `WorkspaceFiles.ObservedFrontier` | src/nyanya_agent/reviewed_changes.py:769-775 | Without outside edits only a file caught while being created can look diverged, and the observation is complete exactly when the plan's meaning is reached. |
| `AuditArchive.AuditStore.DeleteBatch` | src/nyanya_agent/log_archive.py:310-329 | A batch is all or nothing: each deleted row equals its archived preimage, is gone from the table and is counted once; undisturbed it deletes the whole batch. |
| `AuditArchive.AuditStore.Prune` | src/nyanya_agent/log_archive.py:300-329 | Only housekeeping rows older than 90 days are deleted, within the remaining budget, and every other row is kept; undisturbed it deletes all of them, or the first by identifier as far as the budget goes. |
| `AuditArchive.AuditStore.ArchiveMonth` | src/nyanya_agent/log_archive.py:358-423 | Existing archives are never changed; a month past the floor is dropped only if it holds housekeeping alone and no row of it is left; a conflicting month is not touched. Undisturbed, the outcome of a month is determined in every field. |
| `AuditArchive.AuditStore.Run` | src/nyanya_agent/log_archive.py:332-424 | One run, however many months are blocked and wherever it dies: at most 10,000 deletions, `deleted` is the number of rows removed, every deletion is justified, conflicting months are whole. An undisturbed run blocks exactly the months that conflict or are too large, archives every other one, and leaves a due row only if the budget is used up, which goes to the oldest months first. |
| `AuditArchive.AuditStore.RunAll` | src/nyanya_agent/log_archive.py:427-462 | The same over any sequence of runs with a clock that does not go back. |
| `AuditArchive.NothingIsLost` | src/nyanya_agent/log_archive.py:337-339 | Whoever wrote a row last, before or during the runs: if pinned it is in the table, and if it is at or after the twelve-month floor it is in the table or verbatim in its archive. |
| `ServiceStream.Stream.Write` | src/nyanya_agent/service_logs.py:176-189 | For any data, short writes, failures and clock jumps the closed segments and the current one are exactly the bytes written, in order; a failure leaves a prefix; the nested loops end; no segment exceeds the limit; if nothing fails everything is written. A new day closes the segment of the last one, and within a day only full segments are closed. |
| `ServiceStream.Stream.WriteSome` | src/nyanya_agent/service_logs.py:178-189 | One turn of the outer loop: a rotation exactly if the segment is full or its day is over, and then exactly the bytes that fit. |
| `ServiceStream.Stream.constructor` | src/nyanya_agent/service_logs.py:136-159 | Taking over after a crash, also between publishing a segment and removing the current name, loses and repeats no byte, closes what was left and starts an empty segment. |
| `ServiceStream.Stream.Rotate` | src/nyanya_agent/service_logs.py:168-174 | Rotation keeps the recorded bytes whatever step fails; if none does, the current segment is closed and an empty one of the day is open. |
| `ServiceStream.Stream.Close` | src/nyanya_agent/service_logs.py:191-200 | Closing keeps the recorded bytes, publishes exactly a segment that has bytes and leaves no current file; after a failed rotation it raises, and a second close does nothing. |
| `ServiceStream.Stream.CloseSegment` | src/nyanya_agent/service_logs.py:161-166 | Publishing a segment keeps the recorded bytes on both sides of the crash window. |
| `ServiceLogs.MakePlan` | src/nyanya_agent/service_logs.py:499-531 | A plan is made exactly when every archive verifies and no finished month has a late or changed segment; it archives, retires and expires exactly what is due. |
| `ServiceLogs.LogStore.Maintain` | src/nyanya_agent/service_logs.py:462-587 | One run: a disagreement fails it before anything is created or removed; archives at or after the floor stay unchanged; every segment stays raw or, past the raw cutoff, in a verified archive or past the floor. An undisturbed run does exactly all that is due. |
| `ServiceLogs.LogStore.RunAll` | src/nyanya_agent/service_logs.py:462-587 | The same over any sequence of runs with a clock that does not go back. |
| `ServiceLogs.LogStore.RetireRaw` | src/nyanya_agent/service_logs.py:427-446 | A raw segment is removed only while it equals what its archive holds, and undisturbed exactly then. |
| `MonthText.FloorAgrees` | src/nyanya_agent/service_logs.py:130-133 | Comparing "YYYY-MM" text with `_months_before` agrees with calendar arithmetic across years. |
| `MonthText.TextOrder` | src/nyanya_agent/service_logs.py:126-127 | The text order of months is their calendar order. |
| `MonthText.MonthsBeforeIsExact` | src/nyanya_agent/service_logs.py:130-133 | `_months_before` is exact subtraction of months. |
| `ZipCover.CheckPackage` | src/nyanya_agent/upload_document_privacy.py:319-329 | A package is accepted if and only if its last end record fits the members and the file, the directory has exactly one entry a member and the rest of the file exactly one local record a member; then the records tile the whole file and every header field both records carry agrees with the listed member. |
| `ZipCover.CoverCentral` | src/nyanya_agent/upload_document_privacy.py:258-272 | Succeeds if and only if some sequence of entries, one a member, fills the directory exactly. |
| `ZipCover.CoverLocals` | src/nyanya_agent/upload_document_privacy.py:273-300 | Succeeds if and only if some sequence of local records, one a member, fills the file up to the directory exactly; the ranges are their payloads. |
| `ZipCover.ReadLocal` | src/nyanya_agent/upload_document_privacy.py:277-296 | No field is read outside the file, and a record is accepted if and only if it matches its member, starts at the cursor and ends before the directory. |
| `ZipCover.FindEnd` | src/nyanya_agent/upload_document_privacy.py:322-324 | The end record found is the last one. |
| `ZipCover.PackageIsTiled` | src/nyanya_agent/upload_document_privacy.py:251-300 | Every byte of an accepted file lies in exactly one record and payloads are pairwise disjoint. |
| `ZipCover.DirectoryIsComplete` | src/nyanya_agent/upload_document_privacy.py:259-267 | Every central entry points at a local record and every local record is pointed at. |
| `WriterLeases.LeaseTable.Acquire` | src/nyanya_agent/execution_store.py:1820-1864 | An acquisition fails exactly against another owner's running lease, and otherwise gets the next token and keeps exactly the others out for the time asked for, at least ten seconds. |
| `WriterLeases.LeaseTable.Renew` | src/nyanya_agent/execution_store.py:1867-1895 | Only the current owner and token of a running lease can renew, and then the others are kept out for the new time. |
| `WriterLeases.LeaseTable.Release` | src/nyanya_agent/execution_store.py:1898-1912 | Only the current owner and token can release, and then nobody is kept out. |
| `WriterLeases.PerformAll` | src/nyanya_agent/execution_store.py:1838-1912 | Over any mixture of calls and clock readings the successful acquisitions of a resource carry consecutive tokens, from 1; a pair that was current stays so exactly if nobody acquired meanwhile, a superseded pair never can again, and at most one pair can at any instant. |
| `Wiki.WikiStore.Capture` | src/nyanya_agent/wiki_store.py:65-107 | Captured notes are pending entries of the attempt's generation with exactly the note's content; of an attempt since the reset every note gets its entry or something stands in its place; one from before leaves nothing. |
| `Wiki.WikiStore.CaptureNote` | src/nyanya_agent/wiki_store.py:84-107 | A note becomes an entry exactly if it repeats none that is shown and its attempt has none for the topic; the entry has the note's content, its source and the next revision of its topic. |
| `Wiki.WikiStore.Review` | src/nyanya_agent/wiki_store.py:235-278 | A review succeeds exactly for the visible active entry at the named version, uses the version up and changes the other entries exactly as the decision says: superseded, emptied or untouched. |
| `Wiki.PerformAll` | src/nyanya_agent/wiki_store.py:235-278 | Over any mixture of captures, reviews and resets the store stays ordered with one approved visible version a topic, no entry is dropped, and no review version of an entry is consumed twice. |

## Left out

- Effects.SettleExpiredNeverWrong: one way only, for ledgers without drafts; with drafts the outcome of a pass depends on the row order, and the exact condition is proved plan by plan in `Effects.ClosePlanWrongExactly`.
- Causes.NewPlansAreProposed: a plan belongs to a request, as the worker proposes it; the code of `propose` checks only the owner of the task.
- Fencing.WritersAreFenced: expiry is judged at the commit. `finish`, `renew` and `settle_expired` read the clock just before they take the write lock and may then wait for it, so a commit can pass the fence that much after the lease ran out; the same holds for "unexpired" and "for good" in `Leaks`, `WorkCauses` and `Survival`.
- Counterexamples.RevokingLeaks: one run; the general statement is `Leaks.ClosePlanLeaksExactly`.
- LedgerStore.Ledger.Propose: does not model the `work_drafts` link; `draft` is a guard that can only refuse, here and in approval and apply. Plans belong to requests, as the worker proposes them.
- LedgerStore.Ledger.Submit: does not adopt intake rows imported by an older connector; a repeated source returns the existing task and changes nothing.
- LedgerStore.Ledger.Cancel: dismissal marks and the `approvals` table are not modelled; `selected` stands for the expected execution, status and time stamp agreeing.
- LedgerStore.Ledger.Claim: the fresh attempt identifier is a parameter that must be new.
- ReviewedApply.ApplyPlan: a guarded section is atomic, an outside edit of a file being created replaces it rather than writing into it, and outside editors leave temporary files alone. Directories, links, file modes, inode fences and hash collisions are not modelled, nor the helper path without a worker record.
- Proposals.Prepare: text encodings and the shape checks of the JSON items are not modelled.
- AuditArchive.AuditStore.Run: hard-link publication, fingerprints and compression are one verified write; dry runs are not modelled.
- ServiceLogs.LogStore.Maintain: pins, quarantine names, fingerprints and tar encoding are one verified comparison; dry runs are not modelled.
- ServiceStream.Stream.Write: the order of segments is the order in which they were closed, which file names need not show when the clock jumps.
- ZipCover.CheckPackage: what the ZIP library lists is an input; path, compression and XML checks after it are not modelled.
- Wiki.WikiStore.Review: the joins of the visibility rule other than scope, generation and status are one condition that can only refuse.
- Writers outside these modules (forced transitions, execution adapters, legacy upgrade) change the ledger outside the protocol modelled here.
- Chat and web interfaces, provider processes, model prompts, redaction and event wording: no state that these properties read.
- Liveness of real workers: only the single-step progress of a claim and the completion of an undisturbed apply, delivery or maintenance run are proved.
