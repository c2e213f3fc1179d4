# Disbursements: a verified model

The repository pays people out of a program's fund. An API authorizes transfers, a worker that may die at any moment
hands them to an external provider, a sweeper and a person can give the worker's unfinished work back to a queue, and a
reconciliation pass compares both sides. Every movement of money is double-entry. No single file guards a transfer:
`mark_processing` checks nothing and `mark_succeeded` and `mark_failed` check only their own status, so what keeps money
from being moved twice is spread over claims, row locks, dead letters and the order of commits. This project states what
that adds up to and proves it, for every run.

## How it is laid out

* `Records`, `Database`: the rows, and a session that sees committed rows plus its own writes.
* `Ledger`, `TransferService`, `TaskService`, `Provider`, `RunService`, `Reconciler`, `Handlers`, `WorkerLoop`,
  `Idempotency`: the services as code. Methods change a session or the provider in place. Each is proved equal to a
  function of the old state, which the theorems about runs use, and separately to what it owes its caller, told from the
  fields of the rows alone.
* `Reconciliation`, `Disburse`: those functions for a pass and for the two payment handlers.
* `Accounting`: what the books must say about the transfers, and why each lifecycle move keeps it true.
* `PassTheorems`: what one pass does, for any transfers and any provider list.
* `Protocol`, `Invariance`: every process as one state machine of twenty steps, and its inductive invariant.
* `RunTheorems`, `OperationsTheorems`, `RunSummaries`: what holds in every state of every run.
* `Outcomes`: what each step leaves, field by field, and why a row of the queue ended or when a transfer was made.
* `LostPayment`, `UnreachedPayment`: two runs that show what does not hold.
* `Paths`, `Handlers`, `WorkerLoop`: the worker's code takes only steps of that state machine, so the theorems about runs
  are theorems about the code.
* `LedgerTriggers`, `FundLock`: the database triggers and the fund's row lock, each against any interleaving of writers.
* `Sse`: the event stream's printer and its incremental parser.

## Assumptions

The theorems need these, and each is what the code relies on.

* Settling one payment is one step, and so is a whole reconciliation pass. Both read transfers without a row lock
  (backend/app/worker/disburse.py:41-46, backend/app/services/reconciliation_service.py:296-298), so two that overlap on
  one transfer could both post.
* The sweeper takes only rows whose worker is dead, as backend/app/config.py:26-28 asks of `task_stale_seconds`.
* The clock never goes back, so a payment is never older than its transfer. `WorkerLoop.Drain` also takes the clock as
  standing still while it drains, with nobody else enqueueing.
* The provider is driven only by the handlers and by its own settlement, where a theorem speaks of the whole system. The
  theorems in `PassTheorems` assume nothing about the provider's list.
* Two request bodies have one fingerprint only when they are equal.
* A transfer's recipient exists: the foreign key.

## What turned out false

* "A failed transfer was never paid." `LostPayment.ReversedPaidAndSilent` reaches a state in which a reversed transfer
  was paid and a full pass reports nothing. `RunTheorems.FailedMeansUnpayableIff` says exactly when a run avoids this: no
  worker in it dies or raises between the provider's yes and writing it down, where the send is later given up and that
  payment has not bounced.
* "Every pass ends with nothing unresolved." `UnreachedPayment.PassLeavesAnUnknown` reaches a state in which a pass reports
  one of our own payments as unknown. `OperationsTheorems.UnresolvedIsZeroIff` gives the exact condition: no listed payment
  belongs to a transfer that has no reference and is older than the window.
* "The ledger is append-only." Both triggers are row triggers, which TRUNCATE does not fire, and the integration tests
  truncate between one another (backend/tests/integration/conftest.py:80-88). `LedgerTriggers.TruncateErasesTheLedger` is
  such a history, and `LedgerTriggers.AppendOnlyIff` says that a history is append-only exactly when no transaction that
  truncated a ledger with rows in it commits. Zero sums survive truncation too.
* "The commit-time trigger keeps every journal in one currency." Two writers can get round it
  (`LedgerTriggers.TwoWritersCanMixCurrencies`); `LedgerTriggers.CommitKeepsRuleIff` says when a commit keeps it. Zero sums,
  per currency, cannot be got round.
* "A chunk boundary never matters to the event parser." `Sse.CutIsSafeIff`: it is safe exactly when it does not follow a
  CR. The server sends only LF, and for what it prints every cutting is safe (`Sse.StreamRoundTrip`).
* "The parser reads what the WHATWG HTML Standard, section 9.2.6, would." `Sse.ReadsAsStandardIff`: it does exactly on the
  streams in which no block with a `data` line ends its `event` lines with an empty value. `Sse.EmptyNameDiffers` is one in
  which a block does.

## Model

Whole runs come first, then passes and books, then writers that interleave, then the worker's code against the protocol,
the event stream, and last the single operations they rest on.

| member | source | states |
|---|---|---|
| Invariance.StepKeepsInvariant | backend/app/worker/disburse.py:49-180 | Every step of every process, crashes included, keeps the invariant that ties transfers, books, queue, workers and provider together |
| Invariance.StepMovesForward | backend/app/services/transfer_service.py:119-186 | A step moves a transfer along one edge of its lifecycle or not at all; only a pass can take two |
| Invariance.StepOnlyAppends | backend/app/services/ledger_service.py:63-122 | No step changes or takes back a posted journal or an idempotency key |
| Invariance.RecordPaymentOk | backend/app/worker/disburse.py:78-91 | Recording an accepted payment never meets a taken reference, and keeps the invariant |
| Invariance.PassNeverRaises | backend/app/services/reconciliation_service.py:40-127 | In a sound state a pass over the window and the provider's listing always goes through: the unique index refuses nothing |
| Invariance.ReconcilePassOk | backend/app/services/reconciliation_service.py:40-127 | In a sound state every pass over the window and the provider's listing goes through, keeps the invariant, only moves transfers forward, and its visits leave nothing unhealed |
| RunTheorems.HistoriesAreExact | backend/app/services/transfer_service.py:119-186 | In every state of every run each transfer's journals are exactly those of its status, and between any two states its status only moved forward |
| RunTheorems.LedgerOnlyGrows | backend/app/services/ledger_service.py:63-122 | What any state of a run has posted, every later state still has, in place |
| RunTheorems.BooksAlwaysAgree | backend/app/services/ledger_service.py:125-170 | In every state of every run balances are status sums, fund plus payables is the float, nothing is overdrawn and the trial balance is zero |
| RunTheorems.SendsOnlyWhilePending | backend/app/worker/disburse.py:49-80 | In every state of every run: every send, first or repeated, accepted or refused, happens while its transfer is pending and held by that worker alone |
| RunTheorems.OnePaymentEach | backend/app/provider/mock.py:56-87 | In every state of every run: at most one payment per transfer, for its amount, currency and phone number; a set reference is that payment's, is held by the provider, and is nobody else's |
| RunTheorems.SucceededMeansPaid | backend/app/worker/disburse.py:121-156 | In every state of every run a succeeded transfer has a payment at the provider, and it succeeded there |
| RunTheorems.ReversalsAreSafe | backend/app/worker/disburse.py:121-156 | What settlement or a pass reverses was not paid, in that state or in any later state of the run |
| RunTheorems.UnpayableForever | backend/app/provider/mock.py:111-131 | A failed transfer without a live payment can never be paid afterwards |
| RunTheorems.FailedMeansUnpayableIff | backend/app/worker/disburse.py:159-180 | A run fails no transfer the provider paid or may pay, exactly when no worker in it dies or raises with an accepted send in hand whose transfer is later given up, that payment not bounced |
| RunTheorems.OutstandingWasLost | backend/app/worker/disburse.py:68-91 | A payment is outstanding when its send gives up only because an earlier step of the run lost the provider's answer about it |
| RunTheorems.NoAnswerLostNoneFailed | backend/app/worker/disburse.py:68-91 | Where no answer is ever lost between the provider's commit and the handler's, no payable transfer is ever failed |
| OperationsTheorems.PendingIsNeverForgotten | backend/app/services/transfer_service.py:101-116 | In every state of every run a pending transfer has exactly one send, and it never finished |
| OperationsTheorems.CountsAreOfSteps | backend/app/services/task_service.py:24-43 | In every state of every run a row's attempts are the number of times it was claimed, and its requeues the number of times it was retried |
| OperationsTheorems.BudgetsHold | backend/app/services/task_service.py:277-288 | In every state of every run: a row waits only when it was claimed fewer times than its budget, never more often than that, and at most three times plus three for each retry by a person |
| OperationsTheorems.ProviderErrorNeverStrands | backend/app/worker/handlers.py:95-108 | In every state of every run the handler's last attempt is the queue's: a provider error dead-letters a send only after its transfer was reversed, and a retryable one is always retried |
| OperationsTheorems.UnresolvedIsZeroIff | backend/app/services/reconciliation_service.py:35-112 | In every state of every run every pass leaves nothing unresolved exactly when its window reaches the transfer of every listed payment that no reference leads back to; no finding but an unknown payment can be left |
| OperationsTheorems.PassStrandsNothing | backend/app/services/reconciliation_service.py:207-267 | In every state of every run every pass goes through, and after it no transfer of the window waits on a dead send or is processing with a settled payment |
| Outcomes.LoadingOnTheRows | backend/app/worker/disburse.py:32-66 | A send goes ahead exactly when its row names a transfer that is pending; a transfer already handed over ends it well, and a row that names none ends it for good |
| Outcomes.RecordingOnTheRows | backend/app/worker/disburse.py:78-91 | In every state of every run an accepted payment is recorded: its transfer is processing against it, exactly one check on it is queued for three seconds later, and the send is done |
| Outcomes.RefusalOnTheRows | backend/app/worker/disburse.py:159-180 | In every state of every run a refused send is left for another try exactly while the provider allows it and attempts remain; otherwise its transfer fails with its reversing journal |
| Outcomes.SettlementFollowsTheProvider | backend/app/worker/disburse.py:121-156 | In every state of every run a processing transfer that is checked on ends as the provider says: paid, succeeded with its settling journal; bounced, failed with its reversing journal; pending, unchanged with one more check due in three seconds; and the check itself succeeds |
| Outcomes.PassingOnTheRows | backend/app/services/reconciliation_service.py:40-127 | In every state of every run a pass goes through and shows for every transfer exactly the row, journals and findings its rows call for |
| Outcomes.FinishingOnTheRows | backend/app/worker/handlers.py:95-108 | A finished handler's row is finished exactly when it was fine, waits again for the backoff exactly when it failed retryably with attempts left, and is a dead letter otherwise; no other row moves |
| Outcomes.QueueOnTheRows | backend/app/services/task_service.py:24-57 | Claims, sweeps and retries leave exactly the rows they should, field by field |
| Outcomes.AuthorizingOnTheRows | backend/app/services/transfer_service.py:78-116 | A transfer, or each item of a run, is a pending row of the asked recipient, amount, currency and run, without a reference, created now, with its journal and a send due now |
| Outcomes.PaymentsBeginPending | backend/app/provider/mock.py:56-87 | In every state of every run a new payment is the pending payment of a pending transfer's own send, for what that transfer says, made at that moment |
| Outcomes.RowsEndForAReason | backend/app/services/task_service.py:45-57 | In every state of every run a dead letter comes from a handler that ended badly, for good or out of attempts, or from a sweep that found its attempts spent; a finished row from a handler that ended well |
| Outcomes.VisitedIffMadeSince | backend/app/services/reconciliation_service.py:296-298 | In every state of every run a pass visits a transfer exactly when its window starts no later than the clock at which that transfer was authorized |
| LostPayment.ReversedPaidAndSilent | backend/app/worker/disburse.py:167-180 | A reachable state with a reversed transfer that was paid, over which a full pass finds nothing |
| UnreachedPayment.PassLeavesAnUnknown | backend/app/services/reconciliation_service.py:95-112 | A reachable state in which a pass reports one of our own payments as unknown, and leaves one finding unresolved |
| RunSummaries.Summarize | backend/app/services/run_service.py:125-149 | Accumulating the groups gives each run its number of transfers, their total, and its share of every status |
| RunSummaries.RunTotalsNeverChange | backend/app/services/run_service.py:125-149 | Between any two states of a run of the system, a payment run's count and total are the same, however its transfers moved |
| RunSummaries.SummaryIsTheRunsOwn | backend/app/services/run_service.py:87-149 | In every state after it was made, a payment run shows as many transfers as it had items and the total they asked |
| PassTheorems.PassIsPointwise | backend/app/services/reconciliation_service.py:63-93 | A pass gives each transfer its own verdict, independently of the others; it raises exactly on a recovery whose reference is taken |
| PassTheorems.PassTellsOfEach | backend/app/services/reconciliation_service.py:63-267 | For any transfers and list: of each transfer in the window, the row it is left as, the journals posted and the findings made, in order, told from its row, its send and their records; nothing of any other |
| PassTheorems.FindingsAreMadeIff | backend/app/services/reconciliation_service.py:66-267 | For any transfers and list, each kind of finding about a transfer is made exactly when amounts, currencies, statuses and membership call for it |
| PassTheorems.PassRaisesIff | backend/app/services/reconciliation_service.py:207-267 | A pass is rolled back exactly when some abandoned transfer would be given a reference another one holds |
| PassTheorems.AgreeingKeysNeverRaise | backend/app/services/reconciliation_service.py:56-93 | It never is, when each referenced payment carries its own transfer's key |
| PassTheorems.ReportAddsUp | backend/app/services/reconciliation_service.py:27-112 | `healed` counts the healed findings, `unresolved` the others, and each listed payment is matched, owned, or reported unknown exactly once |
| PassTheorems.ReportedIsNotTouched | backend/app/services/reconciliation_service.py:73-204 | A transfer reported missing, mismatched or contradicted keeps its row, or was just followed by a recovery and then only became processing against its payment; no journal is posted for it |
| PassTheorems.PassReversesOnlyTheUnpaid | backend/app/services/reconciliation_service.py:154-177 | Whatever a pass reverses, their list shows as failed or does not have |
| PassTheorems.NothingStrandedAfterPass | backend/app/services/reconciliation_service.py:63-93 | No transfer of the window is left pending with a dead send, nor processing against a settled payment that agrees |
| PassTheorems.FindingsInAnyOrder | backend/app/services/reconciliation_service.py:296-298 | The findings, as a multiset, do not depend on the order the query returned the transfers |
| PassTheorems.PassIsIdempotent | backend/app/services/reconciliation_service.py:40-127 | A second pass over the same list heals nothing, changes no row and posts nothing, and reports exactly the first one's unhealed findings as a multiset |
| Accounting.MarksKeepAudit | backend/app/services/transfer_service.py:129-186 | Closing an unfinished transfer, either way, keeps balances, histories and coverage exact |
| Accounting.MarksAreNotGuarded | backend/app/services/transfer_service.py:129-186 | Marking a finished transfer the other way always leaves the books wrong: the guards do not prevent it |
| Accounting.InitiateKeepsAudit | backend/app/services/transfer_service.py:64-99 | Authorizing a transfer keeps the books exact and the fund covered |
| Accounting.FollowKeepsAudit | backend/app/services/transfer_service.py:119-126 | Becoming processing needs no journal |
| Accounting.FundPlusPayablesIsFloat | backend/app/services/transfer_service.py:89-181 | If balances are status sums, the fund and all payables together are the float |
| Accounting.FloatNeverOverdrawn | backend/app/services/transfer_service.py:64-181 | In audited books the float is at least the fund and the fund at least zero, though nothing checks the float |
| LedgerTriggers.StatementKeepsSound | backend/alembic/versions/20260919_0052_ledger_schema.py:226-311 | Any statement of any open transaction, TRUNCATE included, keeps committed journals zero-sum per currency |
| LedgerTriggers.CheckedIsSound | backend/alembic/versions/20260919_0052_ledger_schema.py:226-284 | Rows that pass the deferred check, seen only beside what was committed then, are zero-sum on their own, so the commit may come later |
| LedgerTriggers.LedgerAlwaysBalances | backend/alembic/versions/20260919_0052_ledger_schema.py:226-284 | Over every history of interleaved transactions that insert, update, delete or truncate, every journal and the whole ledger sum to zero in every currency |
| LedgerTriggers.AppendOnlyIff | backend/alembic/versions/20260919_0052_ledger_schema.py:286-311 | Whatever was committed at any point of a history stays, in place, at every later point, exactly when no transaction that truncated a ledger with rows commits |
| LedgerTriggers.TruncateErasesTheLedger | backend/alembic/versions/20260919_0052_ledger_schema.py:295-311 | A history of two writers after which committed rows are gone |
| LedgerTriggers.TwoWritersCanMixCurrencies | backend/alembic/versions/20260919_0052_ledger_schema.py:226-284 | A history after which a committed journal breaks the trigger's own one-currency rule |
| LedgerTriggers.CommitKeepsRuleIff | backend/alembic/versions/20260919_0052_ledger_schema.py:226-284 | A commit keeps a journal's whole rule exactly when what others committed there meanwhile is in the same currency |
| FundLock.FundNeverOverdrawn | backend/app/services/ledger_service.py:224-230 | Under every interleaving of locks, reads, posts, commits and rollbacks no fund is ever below zero |
| FundLock.ReadsHoldUntilCommit | backend/app/services/transfer_service.py:64-72 | A lock holder's last read stays a lower bound of the fund until it commits |
| FundLock.WriteSkewWithoutLock | backend/app/services/run_service.py:72-80 | Without the lock there is an interleaving that overdraws the fund |
| Idempotency.CreationIsExactlyOnce | backend/app/services/idempotency_service.py:57-125 | Over any interleaved requests, any two answers to one key are one stored response to one request, created at most once; "in flight" is never answered; two keys never share rows |
| Idempotency.AnsweredKeyIsFinal | backend/app/services/idempotency_service.py:70-106 | Whatever has moved since, the same request gets the first response and changes nothing, and any other request is refused |
| Idempotency.CompletionAnswersForItself | backend/app/api/routes/transfers.py:45-71 | A request that claimed a new key is answered with its own rows, or with the rule it broke and nothing changed, however others interleave |
| Idempotency.RunAnswerIsItsSummary | backend/app/api/routes/runs.py:36-68 | The count and total a new run is answered with are those its summary shows |
| Idempotency.ProtocolStepsAreMeanwhile | backend/app/api/routes/transfers.py:37-71 | Every step of the disbursement protocol is harmless to keys and to the rows they name |
| Idempotency.ClaimKey | backend/app/services/idempotency_service.py:57-106 | A new key is taken; a known one is replayed, in flight, or in conflict with another body or endpoint, and nothing changes |
| Idempotency.RecordResponse | backend/app/services/idempotency_service.py:109-125 | Stores the response under a known key and changes nothing else |
| Idempotency.Create | backend/app/api/routes/transfers.py:22-71 | One transaction: the answer shows the very rows made, as asked, and is stored with them under the key; a refusal names the rule broken and changes nothing; a known key is answered from its row |
| WorkerLoop.Round | backend/app/worker/loop.py:29-35 | One claim and one execution: that row leaves the due set, no row joins it, no other row changes |
| WorkerLoop.Drain | backend/app/worker/loop.py:26-36 | Ends, and has run the due rows oldest first, each exactly once; stopped early, a prefix of that order |
| WorkerLoop.EnsureScheduled | backend/app/worker/reconcile.py:41-52 | Adds a pass due in half a minute exactly when none is waiting or running, so that afterwards one is |
| WorkerLoop.Prepare | backend/app/worker/loop.py:39-44 | Sweeping and reseeding are protocol steps when no live worker's row is stale |
| WorkerLoop.Tick | backend/app/worker/loop.py:39-45 | From a state of some run to a state of some run, with every due row run once unless stopped |
| Handlers.DisburseTransferTask | backend/app/worker/disburse.py:49-91 | Takes exactly the steps load, send and record, or load, refusal and its handling, or just load, and leaves the rows those owe; asks the provider for what the transfer says, or not at all; from a state of any run it never raises |
| Handlers.SettleTransferTask | backend/app/worker/disburse.py:94-156 | Takes the provider's settlements and one settling step, and leaves the rows as the provider's answer calls for |
| Handlers.ReconcileBooksTask | backend/app/worker/reconcile.py:21-38 | Looks at everything of the last day, each transfer left as its rows call for, and schedules the next pass half a minute later unless another is coming, in one transaction; raises, undone, exactly when the pass does, which from a state of any run it never does |
| Handlers.RunHandler | backend/app/worker/handlers.py:55-59 | Runs the handler registered for the kind, with what that handler leaves of the rows, and fails a kind that has none; from a state of any run no handler raises |
| Handlers.Execute | backend/app/worker/handlers.py:62-110 | What the handler left of the rows stays, and only its own row is then finished as its outcome says, in a second commit; one attempt is spent, and anything it queued is for later |
| Paths.PathReaches | backend/app/worker/loop.py:26-45 | Any sequence of protocol steps from a state of some run ends in a state of some run |
| Paths.AdvanceIsPath | backend/app/provider/mock.py:111-131 | Letting the provider's clock pass is one settlement after another |
| Sse.ParseSse | frontend/src/sse.ts:19-43 | The loops over blocks and lines compute the specified messages and remainder |
| Sse.ParseJoins | frontend/src/sse.ts:22-24 | In LF text, reading on with the remainder is reading the joined text |
| Sse.FieldsAreSplitAtTheColon | frontend/src/sse.ts:32-35 | A line's name ends at its first colon, one space after it is dropped, and without a colon the value is empty |
| Sse.LinesAreTheText | frontend/src/sse.ts:30 | Lines hold no line feed, and joined by line feeds they are the text again |
| Sse.ChunksReadAsWhole | frontend/src/api/events.ts:113-135 | However a stream is cut, if no chunk but the last ends in CR, the chunks read as the whole |
| Sse.CutIsSafeIff | frontend/src/sse.ts:20-24 | A cut is safe for every continuation exactly when it does not follow a CR |
| Sse.StreamRoundTrip | backend/app/api/routes/events.py:39-58 | However the printed frames and heartbeats are cut, the console gets exactly the frames, in order, with nothing left over, and at any moment a prefix of them |
| Sse.ReadsAsStandard | frontend/src/sse.ts:25-42 | For any stream, the messages are those of the Standard's line-by-line algorithm, up to the default for an empty event name |
| Sse.ReadsAsStandardIff | frontend/src/sse.ts:28-40 | The two agree exactly on the streams in which no block with a data line ends its `event` lines with an empty value |
| Sse.EmptyNameDiffers | frontend/src/sse.ts:36-40 | A stream on which they differ |
| Reconciler.Report.Record | backend/app/services/reconciliation_service.py:270-293 | One more finding, unhealed, and no count changed |
| Reconciler.Report.Compare | backend/app/services/reconciliation_service.py:130-204 | A mismatched amount or currency is reported and nothing else happens; a processing transfer follows a settled payment with its journal; a contradiction is reported; other rows stay, and the findings and journals added are exactly these |
| Reconciler.Report.RecoverIfAbandoned | backend/app/services/reconciliation_service.py:207-267 | Acts only on a pending transfer whose send is dead-lettered: follows their payment, or reverses when they have none |
| Reconciler.IndexBoth | backend/app/services/reconciliation_service.py:56-59 | Both dictionaries of their list, the first in the order a dictionary keeps |
| Reconciler.OurTransfers | backend/app/services/reconciliation_service.py:296-298 | Every transfer created in the window, once each |
| Reconciler.IsOwned | backend/app/services/reconciliation_service.py:301-303 | Whether any transfer at all, inside the window or not, holds the reference |
| Reconciler.ReportUnknowns | backend/app/services/reconciliation_service.py:95-112 | Reports each listed payment that no visit matched and no transfer owns |
| Reconciler.Run | backend/app/services/reconciliation_service.py:40-127 | The loops, in place, do what the specification of a pass says, counts included, and for every transfer leave the row, journals and findings its rows call for |
| Reconciliation.Index | backend/app/services/reconciliation_service.py:56-59 | The two dictionaries agree with each other, whatever the list repeats |
| Reconciliation.ListedLast | backend/app/services/reconciliation_service.py:56-57 | A reference stands for the last payment listed under it |
| Reconciliation.ListedFirst | backend/app/services/reconciliation_service.py:56-57 | References keep the order in which the list first names them |
| Reconciliation.KeyedLast | backend/app/services/reconciliation_service.py:58 | A key stands for the last payment that carries it, in that order |
| Reconciliation.VisitFollowsVerdict | backend/app/services/reconciliation_service.py:63-93 | What a visit does to rows, journals and counts is decided by that transfer and their records alone |
| RunService.InitiateRun | backend/app/services/run_service.py:50-103 | The whole list is authorized, or the first refusal is returned, with nothing committed either way |
| RunService.RunAcceptedIff | backend/app/services/run_service.py:59-94 | Accepted exactly when the list is not empty, names nobody twice and only known recipients, asks positive amounts and totals no more than the fund |
| RunService.RunRefusals | backend/app/services/run_service.py:59-94 | A refused run is told the rule it broke: the list's, the account's, the total's, or the first bad item's, judged on what the fund has left by then |
| RunService.RunAuthorizes | backend/app/services/run_service.py:82-94 | An accepted run adds, item by item, its pending row made now, its journal and its send, under one new run, and nothing else |
| RunService.ItemsNeverShort | backend/app/services/run_service.py:72-94 | Once the total passed, no item fails its own fund check |
| RunService.RunMovesExactly | backend/app/services/run_service.py:72-94 | The fund falls by the total, each payable rises by its item, every other account stays, and each item has its pending transfer |
| RunService.RunKeepsAudit | backend/app/services/run_service.py:72-94 | The books stay exact over a run |
| TransferService.BalanceOf | backend/app/services/ledger_service.py:139-149 | The balance derived from the lines of every journal |
| TransferService.Initiate | backend/app/services/transfer_service.py:42-116 | Adds a pending row created now, its journal and its send to the caller's transaction; or tells the rule the request broke and changes nothing |
| TransferService.InitiatedIsAsAsked | backend/app/services/transfer_service.py:56-116 | Which refusal answers which request, nothing else is refused, and the three rows an accepted one adds, field by field |
| TransferService.MarkProcessing | backend/app/services/transfer_service.py:119-126 | Sets status and reference whatever the status was; refused, and nothing changed, exactly when another transfer holds the reference |
| TransferService.MarkSucceeded | backend/app/services/transfer_service.py:129-156 | Unless the loaded copy had succeeded: the row succeeds, and one settling journal moves what was owed out of the float |
| TransferService.MarkFailed | backend/app/services/transfer_service.py:159-186 | Unless the loaded copy had failed: the row fails, and one reversing journal returns what was owed to the fund |
| TaskService.Enqueue | backend/app/services/task_service.py:83-107 | One more row, waiting, with no attempt spent, due at the given time or now |
| TaskService.ClaimNext | backend/app/services/task_service.py:24-43 | Takes the oldest due row for this worker, now, spending one attempt, and commits; takes none exactly when none is due |
| TaskService.SettleRow | backend/app/worker/handlers.py:95-108 | The row is finished exactly when the handler was fine; waits again, unclaimed, for the capped backoff exactly when it failed retryably with attempts left; is a dead letter otherwise; no other row changes |
| TaskService.RetryDelaySeconds | backend/app/services/task_service.py:162-167 | For any base and cap: never above the cap, and never below the lesser of the two |
| TaskService.BackoffDoubles | backend/app/services/task_service.py:162-167 | For any base and cap, the first delay is the base and each later one twice the last, up to the cap |
| TaskService.SweepStale | backend/app/services/task_service.py:45-57 | Every row running longer than the limit goes back to the queue, or to the dead letters when its attempts are spent; no other row changes; the answer is the number of such rows |
| TaskService.DeadLetterFor | backend/app/services/task_service.py:217-233 | Finds a dead-lettered send of the transfer exactly when there is one |
| TaskService.Retry | backend/app/services/dead_letter_service.py:34-58 | Refused exactly when it is no dead letter, or its transfer succeeded or failed; otherwise due now with three attempts more than it has spent; a refusal changes nothing |
| TaskService.ScheduleOnce | backend/app/services/task_service.py:303-328 | Adds a row due then exactly when no other row of its kind is waiting or running, the one scheduling its successor not counted |
| Provider.MockProvider.SendPayment | backend/app/provider/mock.py:43-87 | A repeated key gives the original payment and adds none; a new key adds one pending payment under an unused reference |
| Provider.MockProvider.AdvancePending | backend/app/provider/mock.py:111-131 | Every pending payment made long enough ago is paid, or bounced when told to fail; no other changes; the answer is how many those were |
| Provider.MockProvider.GetPayment | backend/app/provider/mock.py:89-94 | What the provider holds under the reference once time has passed |
| Provider.MockProvider.ListPayments | backend/app/provider/mock.py:96-104 | Every payment made since then, once each, in the order of their creation, once time has passed |
| Ledger.PostJournal | backend/app/services/ledger_service.py:63-122 | Appends one journal made of the given lines, or reports the first rule they break and appends nothing |
| Ledger.PostAcceptsWhatTheTriggerAccepts | backend/app/services/ledger_service.py:77-112 | For any postings, `post` accepts exactly those the CHECK on amounts and the commit-time trigger accept |
| Ledger.PostRefusals | backend/app/services/ledger_service.py:77-122 | Which refusal answers which postings, and the lines of what is accepted |
| Ledger.MovesEffect | backend/app/services/ledger_service.py:125-149 | Each journal of a transfer takes its amount from one account and puts it in another, in the natural direction of each, and touches no other account |
| Ledger.BalancedBooksTrialZero | backend/app/services/ledger_service.py:152-170 | If every journal balances, the trial balance is zero |

## Left out

- Handlers.Execute: does not model a row deleted while its handler runs, because nothing in the repository deletes rows of the queue.
- TaskService.RetryDelaySeconds: takes whole seconds, where the two settings may be fractions.
- LedgerTriggers.AppendOnlyIff: does not model statements that drop or disable a trigger or the table, nor the table lock TRUNCATE takes; without the lock more histories are covered, not fewer.
- WorkerLoop.Drain: does not model a clock that moves or other processes that act while it drains; between them the protocol's runs cover those interleavings. A stop request is a number of rounds.
- TaskService.ClaimNext: does not model `skip locked`, because a claim is one atomic step; a row another claim holds is simply not due.
- Provider.MockProvider.SendPayment: does not model two sends of one key racing on the provider's unique index; `RunTheorems.SendsOnlyWhilePending` shows one worker at a time holds a transfer.
- Reconciler.OurTransfers: returns the window in order of creation, where the query promises none; `PassTheorems.FindingsInAnyOrder` and `PassTheorems.PassIsIdempotent` hold for every order.
- Two settlements, or a settlement and a pass, overlapping on one transfer: the code takes no lock there, so it is an assumption above.
- `schedule_once` as a promise that there is never no chain: two passes running at once can each see the other and both end; only `ensure_scheduled` restores it.
- The counts of the queue, the recent lists and `currently_reported`: reports over rows whose meaning is stated here already.
- Widths: amounts are `bigint` in the database and unbounded here; the limits on one payment and on the size of a run are input validation.
- Free text (memos, failure reasons, the detail of a finding), list order by creation time, and request ids.
- UUIDs, reference generation and fingerprints: identifiers are fresh positions or tokens, and bodies are compared instead of their hashes.
- HTTP status codes, authentication, the notification bus, logging, the console's components, seeding and deployment.
- A byte order mark, which the decoder removes before the parser sees it, and the `id` and `retry` fields, which the parser skips.
