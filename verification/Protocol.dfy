/** Every process that can touch a transfer, as one state machine, and what all its runs keep.

    The provider's commit, the handler's commit and the queue's commit are separate steps, and a
    worker may die between any two. Settling and a reconciliation pass are one step each, and the
    sweeper only takes tasks no live worker holds. */
module Protocol {
  import opened Records
  import opened Ledger
  import opened TaskService
  import opened TransferService
  import opened Accounting
  import opened Provider
  import opened Disburse
  import opened Reconciliation
  import opened RunService

  datatype Sys = Sys(db: Db, payments: map<Reference, Payment>, workers: map<Id, Phase>)

  datatype Step =
    | Deposit(currency: Currency, amount: Amount)
    | Authorize(recipient: Id, asked: int, currency: Currency)
    | AuthorizeRun(items: seq<Item>, currency: Currency)
    | ScheduleReconcile(delay: nat)
    | ClaimTask(worker: Id, task: Id)
    | LoadTransfer(worker: Id)
    | ProviderAccepts(worker: Id, view: Payment)
    | ProviderRefuses(worker: Id, retryable: bool)
    | RecordPayment(worker: Id)
    | HandleRefusal(worker: Id)
    | SettlePayment(worker: Id, error: Option<bool>)
    | RunOtherTask(worker: Id, outcome: TaskOutcome)
    | HandlerRaises(worker: Id)
    | FinishTask(worker: Id)
    | WorkerDies(worker: Id)
    | Sweep(staleSeconds: nat)
    | RetryDeadLetter(task: Id)
    | ReconcilePass(ours: seq<Id>, list: seq<Payment>, since: Time)
    | ProviderSettles(reference: Reference, paid: bool)
    | Wait(seconds: nat)

  function Sent(payments: map<Reference, Payment>, view: Payment): map<Reference, Payment> {
    payments[view.reference := view]
  }

  predicate At(s: Sys, w: Id) {
    w in s.workers && s.workers[w].task < |s.db.tasks|
  }

  ghost predicate Enabled(s: Sys, step: Step) {
    match step
    case Deposit(c, _) => c in s.db.chart
    case Authorize(r, n, c) => Initiated(s.db, r, n, c, None).Ok?
    case AuthorizeRun(items, c) => RunInitiated(s.db, items, c).Ok?
    case ScheduleReconcile(_) => true
    case ClaimTask(w, k) => w !in s.workers && k < |s.db.tasks| && Due(s.db.tasks[k], s.db.now)
    case LoadTransfer(w) =>
      At(s, w) && s.workers[w].HasClaimed? && s.db.tasks[s.workers[w].task].kind.DisburseTransfer?
    case ProviderAccepts(w, view) =>
      && At(s, w) && s.workers[w].HasLoaded? && s.workers[w].copy.recipient in s.db.recipients
      && Sends(s.payments, Sent(s.payments, view), view, s.workers[w].transfer,
               s.db.recipients[s.workers[w].copy.recipient], s.workers[w].copy.amount,
               s.workers[w].copy.currency, s.db.now)
    case ProviderRefuses(w, _) => At(s, w) && s.workers[w].HasLoaded?
    case RecordPayment(w) => At(s, w) && s.workers[w].WasAccepted? && s.workers[w].transfer < |s.db.transfers|
    case HandleRefusal(w) => At(s, w) && s.workers[w].WasRefused? && s.workers[w].transfer < |s.db.transfers|
    case SettlePayment(w, _) =>
      At(s, w) && s.workers[w].HasClaimed? && s.db.tasks[s.workers[w].task].kind.SettleTransfer?
    case RunOtherTask(w, _) =>
      && At(s, w) && s.workers[w].HasClaimed?
      && (s.db.tasks[s.workers[w].task].kind.ReconcileBooks? || s.db.tasks[s.workers[w].task].kind.UnregisteredKind?)
    case HandlerRaises(w) => At(s, w) && !s.workers[w].HasEnded?
    case FinishTask(w) => At(s, w) && s.workers[w].HasEnded?
    case WorkerDies(w) => w in s.workers
    case Sweep(stale) =>
      forall w :: w in s.workers ==>
        s.workers[w].task < |s.db.tasks| ==> !Stale(s.db.tasks[s.workers[w].task], s.db.now, stale)
    case RetryDeadLetter(k) => Retried(s.db, k).Ok?
    case ReconcilePass(ours, list, since) =>
      && Window(s.db, ours, since)
      && IsListing(list, s.payments, since)
      && !Reconciled(s.db, ours, list).raised
    case ProviderSettles(r, _) => r in s.payments && s.payments[r].status.Accepted?
    case Wait(_) => true
  }

  function Now(s: Sys, w: Id, phase: Phase): Sys {
    s.(workers := s.workers[w := phase])
  }

  ghost function Apply(s: Sys, step: Step): Sys
    requires Enabled(s, step)
  {
    match step
    case Deposit(c, n) => s.(db := s.db.(journals := s.db.journals + [DepositJournal(c, n)]))
    case Authorize(r, n, c) => s.(db := Initiated(s.db, r, n, c, None).value)
    case AuthorizeRun(items, c) => s.(db := RunInitiated(s.db, items, c).value)
    case ScheduleReconcile(delay) => s.(db := Enqueued(s.db, ReconcileBooks, None, Some(s.db.now + delay)))
    case ClaimTask(w, k) => Now(s, w, HasClaimed(k)).(db := Claimed(s.db, k, w))
    case LoadTransfer(w) => Now(s, w, AfterLoad(s.db, s.workers[w].task))
    case ProviderAccepts(w, view) =>
      var p := s.workers[w];
      Now(s, w, WasAccepted(p.task, p.transfer, p.copy, view)).(payments := Sent(s.payments, view))
    case ProviderRefuses(w, retryable) =>
      var p := s.workers[w];
      Now(s, w, WasRefused(p.task, p.transfer, p.copy, retryable))
    case RecordPayment(w) =>
      var p := s.workers[w];
      var (db, outcome) := AfterAccept(s.db, p.transfer, p.payment);
      Now(s, w, HasEnded(p.task, outcome)).(db := db)
    case HandleRefusal(w) =>
      var p := s.workers[w];
      var (db, outcome) := AfterRefusal(s.db, p.task, p.transfer, p.copy, p.retryable);
      Now(s, w, HasEnded(p.task, outcome)).(db := db)
    case SettlePayment(w, error) =>
      var p := s.workers[w];
      var (db, outcome) := AfterSettle(s.db, p.task, s.payments, error);
      Now(s, w, HasEnded(p.task, outcome)).(db := db)
    case RunOtherTask(w, outcome) => Now(s, w, HasEnded(s.workers[w].task, outcome))
    case HandlerRaises(w) => Now(s, w, HasEnded(s.workers[w].task, Failure(Raised, true)))
    case FinishTask(w) =>
      s.(db := TaskSettled(s.db, s.workers[w].task, s.workers[w].outcome), workers := s.workers - {w})
    case WorkerDies(w) => s.(workers := s.workers - {w})
    case Sweep(stale) => s.(db := Swept(s.db, stale))
    case RetryDeadLetter(k) => s.(db := Retried(s.db, k).value)
    case ReconcilePass(ours, list, _) => s.(db := Reconciled(s.db, ours, list).db)
    case ProviderSettles(r, paid) =>
      s.(payments := s.payments[r := s.payments[r].(status := if paid then Paid else Bounced)])
    case Wait(seconds) => s.(db := s.db.(now := s.db.now + seconds))
  }

  // -------------------------------------------------------------------- invariant

  predicate TransferOk(x: Transfer, t: Id, db: Db, payments: map<Reference, Payment>) {
    && x.recipient in db.recipients
    && x.currency in db.chart
    && x.createdAt <= db.now
    && (x.status.Pending? ==> x.reference.None?)
    && (x.status.Processing? || x.status.Succeeded? ==> x.reference.Some?)
    && (x.reference.Some? ==>
          && x.reference.value in payments
          && payments[x.reference.value].key == t
          && (x.status.Succeeded? ==> payments[x.reference.value].status.Paid?)
          && (x.status.Failed? ==> payments[x.reference.value].status.Bounced?))
  }

  ghost predicate TransfersOk(db: Db, payments: map<Reference, Payment>) {
    forall t :: 0 <= t < |db.transfers| ==> TransferOk(db.transfers[t], t, db, payments)
  }

  predicate PaymentOk(p: Payment, r: Reference, db: Db) {
    && p.reference == r
    && p.key < |db.transfers|
    && p.amount == db.transfers[p.key].amount
    && p.currency == db.transfers[p.key].currency
    && db.transfers[p.key].recipient in db.recipients
    && p.msisdn == db.recipients[db.transfers[p.key].recipient]
    && db.transfers[p.key].createdAt <= p.createdAt
  }

  ghost predicate PaymentsOk(db: Db, payments: map<Reference, Payment>) {
    && (forall r :: r in payments ==> PaymentOk(payments[r], r, db))
    && KeysUnique(payments)
  }

  predicate TaskOk(x: Task, ts: seq<Transfer>) {
    && (x.transfer.Some? ==> x.transfer.value < |ts|)
    && (x.kind.DisburseTransfer? || x.kind.SettleTransfer? ==> x.transfer.Some?)
    && (x.status.Queued? ==> x.attempts < x.maxAttempts)
    && x.attempts <= x.maxAttempts <= DEFAULT_ATTEMPTS + EXTRA_ATTEMPTS * x.requeues
    && (x.kind.DisburseTransfer? && x.status.Finished? ==> !ts[x.transfer.value].status.Pending?)
  }

  ghost predicate TasksOk(db: Db) {
    forall k :: 0 <= k < |db.tasks| ==> TaskOk(db.tasks[k], db.transfers)
  }

  /** Each transfer has one send task, and no other. */
  ghost predicate OneSendEach(db: Db) {
    && (forall k, l, t :: IsSend(db.tasks, k, t) && IsSend(db.tasks, l, t) ==> k == l)
    && (forall t :: 0 <= t < |db.transfers| ==> HasSend(db.tasks, t))
  }

  ghost predicate HasSend(tasks: seq<Task>, t: Id) {
    exists k :: IsSend(tasks, k, t)
  }

  predicate HoldsTransfer(phase: Phase) {
    phase.HasLoaded? || phase.WasAccepted? || phase.WasRefused?
  }

  /** What an ended send says about its transfer. */
  predicate OutcomeOk(x: Task, o: TaskOutcome, ts: seq<Transfer>) {
    x.kind.DisburseTransfer? ==>
      && x.transfer.Some? && x.transfer.value < |ts|
      && (o.ok ==> !ts[x.transfer.value].status.Pending?)
      && (!o.ok && !o.retryable ==> ts[x.transfer.value].status.Failed?)
      && (!o.ok && o.retryable && o.error == Some(ProviderSaid) ==> x.attempts < x.maxAttempts)
  }

  ghost predicate WorkerOk(w: Id, phase: Phase, db: Db, payments: map<Reference, Payment>) {
    && phase.task < |db.tasks|
    && db.tasks[phase.task].status.Running?
    && db.tasks[phase.task].claim.Some?
    && db.tasks[phase.task].claim.value.worker == w
    && (HoldsTransfer(phase) ==>
          && IsSend(db.tasks, phase.task, phase.transfer)
          && phase.transfer < |db.transfers|
          && phase.copy == db.transfers[phase.transfer]
          && phase.copy.status.Pending?)
    && (phase.WasAccepted? ==>
          phase.payment.reference in payments && payments[phase.payment.reference].key == phase.transfer)
    && (phase.HasEnded? ==> OutcomeOk(db.tasks[phase.task], phase.outcome, db.transfers))
  }

  ghost predicate WorkersOk(s: Sys) {
    forall w :: w in s.workers ==> WorkerOk(w, s.workers[w], s.db, s.payments)
  }

  ghost predicate Inv(s: Sys) {
    && TransfersOk(s.db, s.payments)
    && PaymentsOk(s.db, s.payments)
    && TasksOk(s.db)
    && OneSendEach(s.db)
    && WorkersOk(s)
    && DbAudited(s.db)
  }

  ghost predicate Init(s: Sys) {
    s.db.transfers == [] && s.db.journals == [] && s.db.tasks == [] && s.payments == map[] && s.workers == map[]
  }

  lemma InitInv(s: Sys)
    requires Init(s)
    ensures Inv(s)
  {
    EmptyBooksAudited();
  }
}
