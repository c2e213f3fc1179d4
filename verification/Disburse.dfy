/** The two payment handlers (worker/disburse.py), cut at every commit and every answer. */
module Disburse {
  import opened Records
  import opened TaskService
  import opened TransferService

  const SETTLE_CHECK_DELAY_SECONDS: nat := 3

  /** Where a worker stands between two commits; a crash forgets it. */
  datatype Phase =
    | HasClaimed(task: Id)
    | HasLoaded(task: Id, transfer: Id, copy: Transfer)
    | WasAccepted(task: Id, transfer: Id, copy: Transfer, payment: Payment)
    | WasRefused(task: Id, transfer: Id, copy: Transfer, retryable: bool)
    | HasEnded(task: Id, outcome: TaskOutcome)

  predicate NamesTransfer(db: Db, x: Task) {
    x.transfer.Some? && x.transfer.value < |db.transfers|
  }

  /** `disburse`, up to the send. */
  function AfterLoad(db: Db, k: Id): Phase
    requires k < |db.tasks|
  {
    var x := db.tasks[k];
    if !NamesTransfer(db, x) then HasEnded(k, Failure(BadPayload, false))
    else
      var t := x.transfer.value;
      if db.transfers[t].status != Pending then HasEnded(k, DONE) else HasLoaded(k, t, db.transfers[t])
  }

  function WithSettleCheck(db: Db, t: Id): Db {
    Enqueued(db, SettleTransfer, Some(t), Some(db.now + SETTLE_CHECK_DELAY_SECONDS))
  }

  /** `disburse`, once the provider has accepted: the handler's own commit. */
  function AfterAccept(db: Db, t: Id, payment: Payment): (Db, TaskOutcome)
    requires t < |db.transfers|
  {
    if ReferenceTaken(db.transfers, t, payment.reference) then (db, Failure(Raised, true))
    else (WithSettleCheck(MarkedProcessing(db, t, payment.reference), t), DONE)
  }

  predicate IsLastAttempt(x: Task) {
    x.attempts >= x.maxAttempts
  }

  /** `_handle_provider_error`: the last attempt reverses the transfer. */
  function AfterRefusal(db: Db, k: Id, t: Id, copy: Transfer, retryable: bool): (Db, TaskOutcome)
    requires k < |db.tasks| && t < |db.transfers|
  {
    if !retryable || IsLastAttempt(db.tasks[k]) then (MarkedFailed(db, t, copy), Failure(ProviderSaid, false))
    else (db, Failure(ProviderSaid, true))
  }

  /** `settle` and `_apply`; `error` is a provider error's `retryable`. */
  function AfterSettle(db: Db, k: Id, payments: map<Reference, Payment>, error: Option<bool>): (Db, TaskOutcome)
    requires k < |db.tasks|
  {
    var x := db.tasks[k];
    if !NamesTransfer(db, x) then (db, Failure(BadPayload, false))
    else
      var t := x.transfer.value;
      var transfer := db.transfers[t];
      if transfer.status.Succeeded? || transfer.status.Failed? then (db, DONE)
      else if transfer.reference.None? then (db, Failure(NoReference, false))
      else if error.Some? then (db, Failure(ProviderSaid, error.value))
      else if transfer.reference.value !in payments then (db, Failure(NotAtProvider, false))
      else
        match payments[transfer.reference.value].status
        case Accepted => (WithSettleCheck(db, t), DONE)
        case Paid => (MarkedSucceeded(db, t, transfer), DONE)
        case Bounced => (MarkedFailed(db, t, transfer), DONE)
  }

  // ------------------------------------------------- the same, told from the rows alone

  /** `_load` and the first check: no such transfer, one already handed over, or one to send. */
  predicate LoadsAs(db: Db, k: Id, phase: Phase)
    requires k < |db.tasks|
  {
    var t := db.tasks[k].transfer;
    if t.None? || t.value >= |db.transfers| then phase == HasEnded(k, TaskOutcome(false, Some(BadPayload), false))
    else if db.transfers[t.value].status == Pending then phase == HasLoaded(k, t.value, db.transfers[t.value])
    else phase == HasEnded(k, TaskOutcome(true, None, false))
  }

  /** One more check on this transfer, three seconds from now, and nothing else. */
  predicate LooksAgain(before: Db, t: Id, after: Db) {
    after == before.(tasks := before.tasks + [Task(SettleTransfer, Some(t), Queued, 0, 3, None, before.now + 3, 0)])
  }

  /** Processing against the payment, with a check to come; or, where another transfer has it, nothing. */
  predicate RecordsAs(before: Db, t: Id, payment: Payment, after: Db, o: TaskOutcome)
    requires t < |before.transfers|
  {
    var x := before.transfers[t];
    var followed := Transfer(x.recipient, x.amount, x.currency, Processing, Some(payment.reference), x.run, x.createdAt);
    if forall u :: 0 <= u < |before.transfers| && u != t ==> before.transfers[u].reference != Some(payment.reference) then
      o == TaskOutcome(true, None, false)
      && LooksAgain(before.(transfers := before.transfers[t := followed]), t, after)
    else o == TaskOutcome(false, Some(Raised), true) && after == before
  }

  /** Another try while the provider allows one and attempts are left; otherwise the money goes back. */
  predicate GivesUpAs(before: Db, k: Id, t: Id, copy: Transfer, retryable: bool, after: Db, o: TaskOutcome)
    requires k < |before.tasks| && t < |before.transfers|
  {
    if retryable && before.tasks[k].attempts < before.tasks[k].maxAttempts then
      o == TaskOutcome(false, Some(ProviderSaid), true) && after == before
    else
      && o == TaskOutcome(false, Some(ProviderSaid), false)
      && if copy.status == Failed then after == before else ReversesBooks(before, t, copy, after)
  }

  /** The provider's answer about an unfinished transfer with a reference, written down; anything else
      changes nothing. */
  predicate SettlesAs(
    before: Db, k: Id, payments: map<Reference, Payment>, error: Option<bool>, after: Db, o: TaskOutcome)
    requires k < |before.tasks|
  {
    var t := before.tasks[k].transfer;
    if t.None? || t.value >= |before.transfers| then o == TaskOutcome(false, Some(BadPayload), false) && after == before
    else
      var x := before.transfers[t.value];
      if x.status == Succeeded || x.status == Failed then o == TaskOutcome(true, None, false) && after == before
      else if x.reference == None then o == TaskOutcome(false, Some(NoReference), false) && after == before
      else if error.Some? then o == TaskOutcome(false, Some(ProviderSaid), error.value) && after == before
      else if x.reference.value !in payments then o == TaskOutcome(false, Some(NotAtProvider), false) && after == before
      else
        && o == TaskOutcome(true, None, false)
        && match payments[x.reference.value].status
           case Accepted => LooksAgain(before, t.value, after)
           case Paid => SettlesBooks(before, t.value, x, after)
           case Bounced => ReversesBooks(before, t.value, x, after)
  }

  lemma LoadIsAsAsked(db: Db, k: Id)
    requires k < |db.tasks|
    ensures LoadsAs(db, k, AfterLoad(db, k))
  {
  }

  lemma AcceptIsAsAsked(db: Db, t: Id, payment: Payment)
    requires t < |db.transfers|
    ensures RecordsAs(db, t, payment, AfterAccept(db, t, payment).0, AfterAccept(db, t, payment).1)
  {
  }

  lemma RefusalIsAsAsked(db: Db, k: Id, t: Id, copy: Transfer, retryable: bool)
    requires k < |db.tasks| && t < |db.transfers|
    ensures var (after, o) := AfterRefusal(db, k, t, copy, retryable); GivesUpAs(db, k, t, copy, retryable, after, o)
  {
    MarksAreAsAsked(db, t, copy, 0);
  }

  lemma SettleIsAsAsked(db: Db, k: Id, payments: map<Reference, Payment>, error: Option<bool>)
    requires k < |db.tasks|
    ensures var (after, o) := AfterSettle(db, k, payments, error); SettlesAs(db, k, payments, error, after, o)
  {
    hide MarkedSucceeded, MarkedFailed, SettlesBooks, ReversesBooks;
    if NamesTransfer(db, db.tasks[k]) {
      var t := db.tasks[k].transfer.value;
      MarksAreAsAsked(db, t, db.transfers[t], 0);
    }
  }
}
