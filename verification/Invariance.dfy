/** Every step of the protocol keeps its invariant. */
module Invariance {
  import opened Records
  import opened Ledger
  import opened TaskService
  import opened TransferService
  import opened Accounting
  import opened Provider
  import opened Disburse
  import opened Reconciliation
  import opened PassTheorems
  import opened RunService
  import opened Protocol

  // ------------------------------------------------------------ how a transfer moves

  /** Forward only: a finished transfer is final, and nothing becomes pending again. */
  predicate Forward(a: TransferStatus, b: TransferStatus) {
    || a == b
    || (a.Pending? && !b.Pending?)
    || (a.Processing? && (b.Succeeded? || b.Failed?))
  }

  ghost predicate Moved(ts: seq<Transfer>, us: seq<Transfer>) {
    && |ts| == |us|
    && forall t :: 0 <= t < |ts| ==> SameIntent(ts[t], us[t]) && Forward(ts[t].status, us[t].status)
  }

  // ------------------------------------------------------------------- the workers

  lemma DropWorker(s: Sys, w: Id)
    requires Inv(s)
    ensures Inv(s.(workers := s.workers - {w}))
  {
  }

  lemma SetWorker(s: Sys, w: Id, phase: Phase)
    requires Inv(s) && WorkerOk(w, phase, s.db, s.payments)
    ensures Inv(Now(s, w, phase))
  {
  }

  /** Claims are exclusive: no two live workers hold one task. */
  lemma OneHolder(s: Sys, w: Id, v: Id)
    requires WorkersOk(s) && w in s.workers && v in s.workers && s.workers[w].task == s.workers[v].task
    ensures w == v
  {
  }

  // --------------------------------------------------------------------- the queue

  predicate SameWork(xs: seq<Task>, ys: seq<Task>) {
    && |xs| <= |ys|
    && forall k :: 0 <= k < |xs| ==> xs[k].kind == ys[k].kind && xs[k].transfer == ys[k].transfer
  }

  lemma ChangeTasks(s: Sys, tasks: seq<Task>)
    requires Inv(s) && SameWork(s.db.tasks, tasks) && |tasks| == |s.db.tasks|
    requires forall k :: 0 <= k < |tasks| ==> TaskOk(tasks[k], s.db.transfers)
    requires forall w :: w in s.workers ==> tasks[s.workers[w].task] == s.db.tasks[s.workers[w].task]
    ensures Inv(s.(db := s.db.(tasks := tasks)))
  {
    hide Audited;
    var db' := s.db.(tasks := tasks);
    forall t | 0 <= t < |db'.transfers| ensures HasSend(tasks, t) {
      assert HasSend(s.db.tasks, t);
      var k :| IsSend(s.db.tasks, k, t);
      assert IsSend(tasks, k, t);
    }
    forall k, l, t | IsSend(tasks, k, t) && IsSend(tasks, l, t) ensures k == l {
      assert IsSend(s.db.tasks, k, t) && IsSend(s.db.tasks, l, t);
    }
  }

  lemma ChangeTask(s: Sys, k: Id, x: Task)
    requires Inv(s) && k < |s.db.tasks|
    requires x.kind == s.db.tasks[k].kind && x.transfer == s.db.tasks[k].transfer && TaskOk(x, s.db.transfers)
    requires forall w :: w in s.workers ==> s.workers[w].task != k
    ensures Inv(s.(db := s.db.(tasks := s.db.tasks[k := x])))
  {
    ChangeTasks(s, s.db.tasks[k := x]);
  }

  lemma AddTask(s: Sys, x: Task)
    requires Inv(s) && !x.kind.DisburseTransfer? && TaskOk(x, s.db.transfers)
    ensures Inv(s.(db := s.db.(tasks := s.db.tasks + [x])))
  {
    hide Audited;
    var tasks := s.db.tasks + [x];
    forall k, t ensures IsSend(tasks, k, t) <==> IsSend(s.db.tasks, k, t) {
    }
    forall t | 0 <= t < |s.db.transfers| ensures HasSend(tasks, t) {
      assert HasSend(s.db.tasks, t);
      var k :| IsSend(s.db.tasks, k, t);
      assert IsSend(tasks, k, t);
    }
  }

  // ----------------------------------------------------------------- the transfers

  /** Moving transfers forward, with books to match, disturbs nobody who is not holding one. */
  lemma MoveTransfers(s: Sys, ts: seq<Transfer>, js: seq<Journal>)
    requires Inv(s) && Moved(s.db.transfers, ts) && Audited(js, ts)
    requires TransfersOk(s.db.(transfers := ts), s.payments)
    requires forall w :: w in s.workers && HoldsTransfer(s.workers[w]) ==>
               ts[s.workers[w].transfer] == s.db.transfers[s.workers[w].transfer]
    ensures Inv(s.(db := s.db.(transfers := ts, journals := js)))
  {
    hide Audited;
    var db' := s.db.(transfers := ts, journals := js);
    forall r | r in s.payments ensures PaymentOk(s.payments[r], r, db') {
      assert PaymentOk(s.payments[r], r, s.db);
    }
    forall k | 0 <= k < |db'.tasks| ensures TaskOk(db'.tasks[k], ts) {
      assert TaskOk(s.db.tasks[k], s.db.transfers);
    }
    forall w | w in s.workers ensures WorkerOk(w, s.workers[w], db', s.payments) {
      assert WorkerOk(w, s.workers[w], s.db, s.payments);
    }
  }

  lemma MoveOne(s: Sys, t: Id, x: Transfer, js: seq<Journal>)
    requires Inv(s) && t < |s.db.transfers|
    requires SameIntent(s.db.transfers[t], x) && Forward(s.db.transfers[t].status, x.status)
    requires TransferOk(x, t, s.db, s.payments) && Audited(js, s.db.transfers[t := x])
    requires forall w :: w in s.workers && HoldsTransfer(s.workers[w]) ==> s.workers[w].transfer != t
    ensures Inv(s.(db := s.db.(transfers := s.db.transfers[t := x], journals := js)))
  {
    hide Audited;
    var ts := s.db.transfers[t := x];
    forall u | 0 <= u < |ts| ensures TransferOk(ts[u], u, s.db.(transfers := ts), s.payments) {
      assert TransferOk(s.db.transfers[u], u, s.db, s.payments);
    }
    MoveTransfers(s, ts, js);
  }

  /** Only the holder of the one send task can be holding its transfer. */
  lemma NobodyElseHolds(s: Sys, k: Id, t: Id)
    requires Inv(s) && IsSend(s.db.tasks, k, t)
    requires forall w :: w in s.workers ==> s.workers[w].task != k
    ensures forall w :: w in s.workers && HoldsTransfer(s.workers[w]) ==> s.workers[w].transfer != t
  {
  }

  lemma FollowOk(s: Sys, t: Id, reference: Reference)
    requires Inv(s) && t < |s.db.transfers| && s.db.transfers[t].status.Pending?
    requires reference in s.payments && s.payments[reference].key == t
    requires forall w :: w in s.workers && HoldsTransfer(s.workers[w]) ==> s.workers[w].transfer != t
    ensures Inv(s.(db := MarkedProcessing(s.db, t, reference)))
    ensures !ReferenceTaken(s.db.transfers, t, reference)
  {
    var x := s.db.transfers[t].(status := Processing, reference := Some(reference));
    FollowKeepsAudit(s.db.journals, s.db.transfers, t, x);
    MoveOne(s, t, x, s.db.journals);
    forall u | 0 <= u < |s.db.transfers| && u != t ensures s.db.transfers[u].reference != Some(reference) {
      assert TransferOk(s.db.transfers[u], u, s.db, s.payments);
    }
  }

  /** What must hold of the provider before a transfer may be settled or reversed. */
  predicate MayClose(s: Sys, t: Id, status: TransferStatus) {
    && t < |s.db.transfers|
    && Unfinished(s.db.transfers[t])
    && (status.Succeeded? || status.Failed?)
    && (s.db.transfers[t].reference.Some? ==>
          && s.db.transfers[t].reference.value in s.payments
          && s.payments[s.db.transfers[t].reference.value].status == if status.Succeeded? then Paid else Bounced)
    && (s.db.transfers[t].reference.None? ==> status.Failed?)
  }

  lemma CloseOk(s: Sys, t: Id, status: TransferStatus)
    requires Inv(s) && MayClose(s, t, status)
    requires forall w :: w in s.workers && HoldsTransfer(s.workers[w]) ==> s.workers[w].transfer != t
    ensures var copy := s.db.transfers[t];
            Inv(s.(db := if status.Succeeded? then MarkedSucceeded(s.db, t, copy) else MarkedFailed(s.db, t, copy)))
  {
    var copy := s.db.transfers[t];
    var x := copy.(status := status);
    var j := if status.Succeeded? then SettledJournal(t, copy) else ReversedJournal(t, copy);
    assert TransferOk(copy, t, s.db, s.payments);
    CloseKeepsAudit(s.db.journals, s.db.transfers, t, x, j);
    MoveOne(s, t, x, s.db.journals + [j]);
  }

  // ------------------------------------------------------- the API and the clock

  lemma AuthorizeOk(s: Sys, r: Id, n: int, c: Currency, run: Option<Id>)
    requires Inv(s) && Initiated(s.db, r, n, c, run).Ok?
    ensures Inv(s.(db := Initiated(s.db, r, n, c, run).value))
  {
    hide Audited;
    var db' := Initiated(s.db, r, n, c, run).value;
    InitiateKeepsAudit(s.db, r, n, c, run);
    var t := |s.db.transfers|;
    assert IsSend(db'.tasks, |s.db.tasks|, t);
    forall k, u ensures IsSend(db'.tasks, k, u) <==>
                        IsSend(s.db.tasks, k, u) || (k == |s.db.tasks| && u == t) {
    }
    forall k: Id, l: Id, u | IsSend(db'.tasks, k, u) && IsSend(db'.tasks, l, u) ensures k == l {
      if IsSend(s.db.tasks, k, u) {
        assert TaskOk(s.db.tasks[k], s.db.transfers);
      }
      if IsSend(s.db.tasks, l, u) {
        assert TaskOk(s.db.tasks[l], s.db.transfers);
      }
    }
    forall u | 0 <= u < |db'.transfers| ensures HasSend(db'.tasks, u) {
      if u < t {
        assert HasSend(s.db.tasks, u);
        var k :| IsSend(s.db.tasks, k, u);
        assert IsSend(db'.tasks, k, u);
      }
    }
    AuthorizeRows(s, db');
  }

  lemma {:induction false} AuthorizeItemsOk(s: Sys, items: seq<Item>, c: Currency, run: Id)
    requires Inv(s) && InitiatedAll(s.db, items, c, run).Ok?
    ensures Inv(s.(db := InitiatedAll(s.db, items, c, run).value))
  {
    hide Inv, Initiated;
    if |items| > 0 {
      var n := |items| - 1;
      AuthorizeItemsOk(s, items[..n], c, run);
      AuthorizeOk(s.(db := InitiatedAll(s.db, items[..n], c, run).value),
                  items[n].recipient, items[n].amount, c, Some(run));
    }
  }

  lemma AuthorizeRunOk(s: Sys, items: seq<Item>, c: Currency)
    requires Inv(s) && RunInitiated(s.db, items, c).Ok?
    ensures Inv(s.(db := RunInitiated(s.db, items, c).value))
  {
    hide Audited, InitiatedAll;
    var begun := s.(db := s.db.(runs := s.db.runs + 1));
    assert Inv(begun) by { CountRun(s); }
    AuthorizeItemsOk(begun, items, c, s.db.runs);
  }

  lemma CountRun(s: Sys)
    requires Inv(s)
    ensures Inv(s.(db := s.db.(runs := s.db.runs + 1)))
  {
    hide Audited;
    var db' := s.db.(runs := s.db.runs + 1);
    forall t | 0 <= t < |db'.transfers| ensures TransferOk(db'.transfers[t], t, db', s.payments) {
      assert TransferOk(s.db.transfers[t], t, s.db, s.payments);
    }
    forall r | r in s.payments ensures PaymentOk(s.payments[r], r, db') {
      assert PaymentOk(s.payments[r], r, s.db);
    }
    forall w | w in s.workers ensures WorkerOk(w, s.workers[w], db', s.payments) {
      assert WorkerOk(w, s.workers[w], s.db, s.payments);
    }
  }

  /** A run only appends transfers, all of them pending. */
  lemma RunOnlyAppends(db: Db, items: seq<Item>, c: Currency)
    requires RunInitiated(db, items, c).Ok?
    ensures var us := RunInitiated(db, items, c).value.transfers;
            && |db.transfers| <= |us| && us[..|db.transfers|] == db.transfers
            && RunInitiated(db, items, c).value.runs == db.runs + 1
            && forall t :: |db.transfers| <= t < |us| ==> us[t].status.Pending? && us[t].run == Some(db.runs)
  {
    hide Balance, InitiatedAll;
    RunAcceptedIff(db, items, c);
    ItemsNeverShort(db.(runs := db.runs + 1), items, c, db.runs);
  }

  lemma AuthorizeRows(s: Sys, db': Db)
    requires Inv(s) && |db'.transfers| == |s.db.transfers| + 1 && |db'.tasks| == |s.db.tasks| + 1
    requires db'.transfers[..|s.db.transfers|] == s.db.transfers && db'.tasks[..|s.db.tasks|] == s.db.tasks
    requires db'.recipients == s.db.recipients && db'.chart == s.db.chart && db'.now == s.db.now
    requires TransferOk(db'.transfers[|s.db.transfers|], |s.db.transfers|, db', s.payments)
    requires TaskOk(db'.tasks[|s.db.tasks|], db'.transfers)
    ensures TransfersOk(db', s.payments) && PaymentsOk(db', s.payments) && TasksOk(db')
    ensures forall w :: w in s.workers ==> WorkerOk(w, s.workers[w], db', s.payments)
  {
    hide Audited;
    forall t | 0 <= t < |s.db.transfers| ensures db'.transfers[t] == s.db.transfers[t] {
      assert db'.transfers[..|s.db.transfers|][t] == db'.transfers[t];
    }
    forall k | 0 <= k < |s.db.tasks| ensures db'.tasks[k] == s.db.tasks[k] && TaskOk(s.db.tasks[k], s.db.transfers) {
      assert db'.tasks[..|s.db.tasks|][k] == db'.tasks[k];
    }
    forall t | 0 <= t < |s.db.transfers| ensures TransferOk(db'.transfers[t], t, db', s.payments) {
      assert TransferOk(s.db.transfers[t], t, s.db, s.payments);
    }
    forall r | r in s.payments ensures PaymentOk(s.payments[r], r, db') {
      assert PaymentOk(s.payments[r], r, s.db);
    }
    forall w | w in s.workers ensures WorkerOk(w, s.workers[w], db', s.payments) {
      assert WorkerOk(w, s.workers[w], s.db, s.payments);
    }
  }

  lemma DepositOk(s: Sys, c: Currency, n: Amount)
    requires Inv(s)
    ensures Inv(s.(db := s.db.(journals := s.db.journals + [DepositJournal(c, n)])))
  {
    var js := s.db.journals + [DepositJournal(c, n)];
    DepositKeepsAudit(s.db.journals, s.db.transfers, c, n);
    MoveTransfers(s, s.db.transfers, js);
  }

  lemma WaitOk(s: Sys, seconds: nat)
    requires Inv(s)
    ensures Inv(s.(db := s.db.(now := s.db.now + seconds)))
  {
    hide Audited;
    var db' := s.db.(now := s.db.now + seconds);
    forall t | 0 <= t < |db'.transfers| ensures TransferOk(db'.transfers[t], t, db', s.payments) {
      assert TransferOk(s.db.transfers[t], t, s.db, s.payments);
    }
    forall r | r in s.payments ensures PaymentOk(s.payments[r], r, db') {
      assert PaymentOk(s.payments[r], r, s.db);
    }
    forall w | w in s.workers ensures WorkerOk(w, s.workers[w], db', s.payments) {
      assert WorkerOk(w, s.workers[w], s.db, s.payments);
    }
  }

  // ------------------------------------------------------------------ the provider

  lemma PaymentsChange(s: Sys, payments: map<Reference, Payment>)
    requires Inv(s) && PaymentsOk(s.db, payments)
    requires forall r :: r in s.payments ==>
               && r in payments && payments[r].key == s.payments[r].key
               && (!s.payments[r].status.Accepted? ==> payments[r].status == s.payments[r].status)
    ensures Inv(s.(payments := payments))
  {
    hide Audited;
    forall t | 0 <= t < |s.db.transfers| ensures TransferOk(s.db.transfers[t], t, s.db, payments) {
      assert TransferOk(s.db.transfers[t], t, s.db, s.payments);
    }
    forall w | w in s.workers ensures WorkerOk(w, s.workers[w], s.db, payments) {
      assert WorkerOk(w, s.workers[w], s.db, s.payments);
    }
  }

  lemma ProviderSettlesOk(s: Sys, r: Reference, paid: bool)
    requires Inv(s) && Enabled(s, ProviderSettles(r, paid))
    ensures Inv(Apply(s, ProviderSettles(r, paid)))
  {
    hide Audited;
    var payments := Apply(s, ProviderSettles(r, paid)).payments;
    forall q | q in payments ensures PaymentOk(payments[q], q, s.db) {
      assert PaymentOk(s.payments[q], q, s.db);
    }
    PaymentsChange(s, payments);
  }

  lemma ProviderAcceptsOk(s: Sys, w: Id, view: Payment)
    requires Inv(s) && Enabled(s, ProviderAccepts(w, view))
    ensures Inv(Apply(s, ProviderAccepts(w, view)))
  {
    hide Audited;
    var p := s.workers[w];
    var payments := Sent(s.payments, view);
    assert WorkerOk(w, p, s.db, s.payments);
    assert TransferOk(s.db.transfers[p.transfer], p.transfer, s.db, s.payments);
    forall q | q in payments ensures PaymentOk(payments[q], q, s.db) {
      if q in s.payments {
        assert PaymentOk(s.payments[q], q, s.db);
      }
    }
    PaymentsChange(s, payments);
    SetWorker(s.(payments := payments), w, WasAccepted(p.task, p.transfer, p.copy, view));
  }

  // -------------------------------------------------------------------- the worker

  lemma ClaimTaskOk(s: Sys, w: Id, k: Id)
    requires Inv(s) && Enabled(s, ClaimTask(w, k))
    ensures Inv(Apply(s, ClaimTask(w, k)))
  {
    assert TaskOk(s.db.tasks[k], s.db.transfers);
    forall v | v in s.workers ensures s.workers[v].task != k {
      assert WorkerOk(v, s.workers[v], s.db, s.payments);
    }
    ChangeTask(s, k, ClaimedTask(s.db.tasks[k], w, s.db.now));
    SetWorker(s.(db := Claimed(s.db, k, w)), w, HasClaimed(k));
  }

  lemma LoadTransferOk(s: Sys, w: Id)
    requires Inv(s) && Enabled(s, LoadTransfer(w))
    ensures Inv(Apply(s, LoadTransfer(w)))
  {
    var k := s.workers[w].task;
    assert WorkerOk(w, s.workers[w], s.db, s.payments);
    assert TaskOk(s.db.tasks[k], s.db.transfers);
    SetWorker(s, w, AfterLoad(s.db, k));
  }

  /** The acting worker aside, nobody holds the transfer it is about to change. */
  lemma StepAside(s: Sys, w: Id)
    requires Inv(s) && w in s.workers && HoldsTransfer(s.workers[w])
    ensures var rest := s.(workers := s.workers - {w});
            Inv(rest) &&
            forall v :: v in rest.workers && HoldsTransfer(rest.workers[v]) ==> rest.workers[v].transfer != s.workers[w].transfer
  {
    hide Audited;
    DropWorker(s, w);
    forall v | v in s.workers && v != w ensures s.workers[v].task != s.workers[w].task {
      if s.workers[v].task == s.workers[w].task {
        OneHolder(s, w, v);
      }
    }
    assert WorkerOk(w, s.workers[w], s.db, s.payments);
    NobodyElseHolds(s.(workers := s.workers - {w}), s.workers[w].task, s.workers[w].transfer);
  }

  lemma ComeBack(s: Sys, rest: Sys, w: Id, phase: Phase)
    requires rest.workers == s.workers - {w} && w in s.workers && Inv(rest)
    requires WorkerOk(w, phase, rest.db, rest.payments)
    ensures Inv(rest.(workers := s.workers[w := phase]))
  {
    hide Audited;
    SetWorker(rest, w, phase);
    assert rest.workers[w := phase] == s.workers[w := phase];
  }

  lemma RecordPaymentOk(s: Sys, w: Id)
    requires Inv(s) && Enabled(s, RecordPayment(w))
    ensures Inv(Apply(s, RecordPayment(w)))
    ensures !ReferenceTaken(s.db.transfers, s.workers[w].transfer, s.workers[w].payment.reference)
  {
    hide Audited;
    var p := s.workers[w];
    var t, k := p.transfer, p.task;
    assert WorkerOk(w, p, s.db, s.payments);
    StepAside(s, w);
    var rest := s.(workers := s.workers - {w});
    FollowOk(rest, t, p.payment.reference);
    var followed := rest.(db := MarkedProcessing(s.db, t, p.payment.reference));
    AddTask(followed, NewTask(followed.db, SettleTransfer, Some(t), Some(s.db.now + SETTLE_CHECK_DELAY_SECONDS)));
    var after := followed.(db := WithSettleCheck(followed.db, t));
    ComeBack(s, after, w, HasEnded(k, DONE));
  }

  lemma HandleRefusalOk(s: Sys, w: Id)
    requires Inv(s) && Enabled(s, HandleRefusal(w))
    ensures Inv(Apply(s, HandleRefusal(w)))
  {
    hide Audited;
    var p := s.workers[w];
    var t, k := p.transfer, p.task;
    assert WorkerOk(w, p, s.db, s.payments);
    StepAside(s, w);
    var rest := s.(workers := s.workers - {w});
    if !p.retryable || IsLastAttempt(s.db.tasks[k]) {
      assert TransferOk(s.db.transfers[t], t, s.db, s.payments);
      CloseOk(rest, t, Failed);
      ComeBack(s, rest.(db := MarkedFailed(s.db, t, p.copy)), w, HasEnded(k, Failure(ProviderSaid, false)));
    } else {
      ComeBack(s, rest, w, HasEnded(k, Failure(ProviderSaid, true)));
    }
  }

  lemma SettleAsideOk(s: Sys, k: Id, error: Option<bool>)
    requires Inv(s) && k < |s.db.tasks| && s.db.tasks[k].kind.SettleTransfer?
    ensures Inv(s.(db := AfterSettle(s.db, k, s.payments, error).0))
  {
    hide Audited;
    assert TaskOk(s.db.tasks[k], s.db.transfers);
    var t := s.db.tasks[k].transfer.value;
    var transfer := s.db.transfers[t];
    assert TransferOk(transfer, t, s.db, s.payments);
    if transfer.status.Processing? && error.None? {
      forall v | v in s.workers && HoldsTransfer(s.workers[v]) ensures s.workers[v].transfer != t {
        assert WorkerOk(v, s.workers[v], s.db, s.payments);
      }
      match s.payments[transfer.reference.value].status
      case Accepted =>
        AddTask(s, NewTask(s.db, SettleTransfer, Some(t), Some(s.db.now + SETTLE_CHECK_DELAY_SECONDS)));
      case Paid => CloseOk(s, t, Succeeded);
      case Bounced => CloseOk(s, t, Failed);
    }
  }

  lemma SettlePaymentOk(s: Sys, w: Id, error: Option<bool>)
    requires Inv(s) && Enabled(s, SettlePayment(w, error))
    ensures Inv(Apply(s, SettlePayment(w, error)))
  {
    hide Audited, MarkedSucceeded, MarkedFailed;
    var k := s.workers[w].task;
    assert WorkerOk(w, s.workers[w], s.db, s.payments);
    DropWorker(s, w);
    var rest := s.(workers := s.workers - {w});
    SettleAsideOk(rest, k, error);
    var (db, outcome) := AfterSettle(s.db, k, s.payments, error);
    assert db.tasks[k] == s.db.tasks[k] by { SettleKeepsTask(s.db, k, s.payments, error); }
    ComeBack(s, rest.(db := db), w, HasEnded(k, outcome));
  }

  lemma SettleKeepsTask(db: Db, k: Id, payments: map<Reference, Payment>, error: Option<bool>)
    requires k < |db.tasks|
    ensures k < |AfterSettle(db, k, payments, error).0.tasks|
    ensures AfterSettle(db, k, payments, error).0.tasks[k] == db.tasks[k]
  {
  }

  lemma EndOk(s: Sys, w: Id, outcome: TaskOutcome)
    requires Inv(s) && At(s, w)
    requires s.db.tasks[s.workers[w].task].kind.DisburseTransfer? ==> outcome == Failure(Raised, true)
    ensures Inv(Now(s, w, HasEnded(s.workers[w].task, outcome)))
  {
    assert WorkerOk(w, s.workers[w], s.db, s.payments);
    assert TaskOk(s.db.tasks[s.workers[w].task], s.db.transfers);
    SetWorker(s, w, HasEnded(s.workers[w].task, outcome));
  }

  lemma FinishTaskOk(s: Sys, w: Id)
    requires Inv(s) && Enabled(s, FinishTask(w))
    ensures Inv(Apply(s, FinishTask(w)))
  {
    hide Audited;
    var k, o := s.workers[w].task, s.workers[w].outcome;
    assert WorkerOk(w, s.workers[w], s.db, s.payments);
    assert TaskOk(s.db.tasks[k], s.db.transfers);
    DropWorker(s, w);
    var rest := s.(workers := s.workers - {w});
    forall v | v in rest.workers ensures rest.workers[v].task != k {
      if s.workers[v].task == k {
        OneHolder(s, w, v);
      }
    }
    ChangeTask(rest, k, SettledTask(s.db.tasks[k], o, s.db.now));
  }

  // ------------------------------------------------------------- sweeper and retry

  lemma SweepOk(s: Sys, stale: nat)
    requires Inv(s) && Enabled(s, Sweep(stale))
    ensures Inv(Apply(s, Sweep(stale)))
  {
    hide Audited;
    var tasks := Swept(s.db, stale).tasks;
    forall k | 0 <= k < |tasks| ensures TaskOk(tasks[k], s.db.transfers) {
      assert TaskOk(s.db.tasks[k], s.db.transfers);
    }
    forall w | w in s.workers ensures tasks[s.workers[w].task] == s.db.tasks[s.workers[w].task] {
      assert WorkerOk(w, s.workers[w], s.db, s.payments);
    }
    ChangeTasks(s, tasks);
  }

  lemma RetryOk(s: Sys, k: Id)
    requires Inv(s) && Enabled(s, RetryDeadLetter(k))
    ensures Inv(Apply(s, RetryDeadLetter(k)))
  {
    assert TaskOk(s.db.tasks[k], s.db.transfers);
    forall w | w in s.workers ensures s.workers[w].task != k {
      assert WorkerOk(w, s.workers[w], s.db, s.payments);
    }
    ChangeTask(s, k, RequeuedTask(s.db.tasks[k], s.db.now));
  }

  // ----------------------------------------------------------- a reconciliation pass

  /** Their side as a listing of the window gives it. */
  ghost predicate Lists(theirs: Theirs, payments: map<Reference, Payment>, since: Time) {
    && WellIndexed(theirs)
    && (forall r :: r in theirs.byReference <==> r in payments && payments[r].createdAt >= since)
    && (forall r :: r in theirs.byReference ==> theirs.byReference[r] == payments[r])
  }

  lemma ListingIndexed(list: seq<Payment>, payments: map<Reference, Payment>, since: Time)
    requires IsListing(list, payments, since)
    requires forall r :: r in payments ==> payments[r].reference == r
    ensures Lists(Index(list), payments, since)
  {
    OrderCovers(list);
    forall r | r in payments && payments[r].createdAt >= since ensures r in ByReference(list) {
      assert payments[r] in list;
    }
  }

  /** The verdict on one transfer, carried out. */
  function Carried(db: Db, t: Id, v: Verdict): Db
    requires t < |db.transfers|
  {
    db.(transfers := db.transfers[t := v.after], journals := db.journals + v.posts)
  }

  ghost predicate Heals(s: Sys, t: Id, v: Verdict)
    requires t < |s.db.transfers|
  {
    && Inv(s.(db := Carried(s.db, t, v)))
    && Forward(s.db.transfers[t].status, v.after.status)
    && Unhealed(v.findings) == []
  }

  lemma NothingToHeal(s: Sys, t: Id, v: Verdict)
    requires Inv(s) && t < |s.db.transfers| && v.after == s.db.transfers[t] && v.posts == [] && v.findings == []
    ensures Heals(s, t, v)
  {
    hide Inv;
    assert Carried(s.db, t, v) == s.db;
  }

  lemma AbandonedUnsentOk(s: Sys, t: Id, v: Verdict)
    requires Inv(s) && t < |s.db.transfers| && s.db.transfers[t].status.Pending?
    requires forall w :: w in s.workers && HoldsTransfer(s.workers[w]) ==> s.workers[w].transfer != t
    requires v.after == s.db.transfers[t].(status := Failed) && v.posts == [ReversedJournal(t, s.db.transfers[t])]
    requires v.findings == [Finding(SendAbandoned, Some(t), None, true)]
    ensures Heals(s, t, v)
  {
    hide Audited;
    assert TransferOk(s.db.transfers[t], t, s.db, s.payments);
    CloseOk(s, t, Failed);
    FewFindings(v.findings[0], v.findings[0]);
  }

  lemma AbandonedSentOk(s: Sys, t: Id, r: Reference)
    requires Inv(s) && t < |s.db.transfers| && s.db.transfers[t].status.Pending?
    requires r in s.payments && s.payments[r].key == t
    requires forall w :: w in s.workers && HoldsTransfer(s.workers[w]) ==> s.workers[w].transfer != t
    ensures var x := s.db.transfers[t].(status := Processing, reference := Some(r));
            var v := CompareVerdict(t, x, s.payments[r]);
            Heals(s, t, v.(findings := [Finding(SendAbandoned, Some(t), Some(r), true)] + v.findings))
  {
    hide Audited, TransfersOk, TasksOk, OneSendEach, WorkersOk, CompareVerdict;
    var x := s.db.transfers[t].(status := Processing, reference := Some(r));
    assert PaymentOk(s.payments[r], r, s.db);
    FollowOk(s, t, r);
    var followed := s.(db := MarkedProcessing(s.db, t, r));
    var v := CompareVerdict(t, x, s.payments[r]);
    CompareOk(followed, t, s.payments[r]);
    HealedFirst(Finding(SendAbandoned, Some(t), Some(r), true), v.findings);
    assert Carried(followed.db, t, v) == Carried(s.db, t, v);
  }

  lemma DeadSendHeldByNobody(s: Sys, t: Id)
    requires Inv(s) && SendIsDead(s.db.tasks, t)
    ensures forall w :: w in s.workers && HoldsTransfer(s.workers[w]) ==> s.workers[w].transfer != t
  {
    hide Audited;
    var k :| 0 <= k < |s.db.tasks| && IsSend(s.db.tasks, k, t) && s.db.tasks[k].status.DeadLettered?;
    forall w | w in s.workers ensures s.workers[w].task != k {
      assert WorkerOk(w, s.workers[w], s.db, s.payments);
    }
    NobodyElseHolds(s, k, t);
  }

  lemma ReferencedHeldByNobody(s: Sys, t: Id)
    requires Inv(s) && t < |s.db.transfers| && s.db.transfers[t].reference.Some?
    ensures forall w :: w in s.workers && HoldsTransfer(s.workers[w]) ==> s.workers[w].transfer != t
  {
    hide Audited;
    assert TransferOk(s.db.transfers[t], t, s.db, s.payments);
    forall w | w in s.workers && HoldsTransfer(s.workers[w]) ensures s.workers[w].transfer != t {
      assert WorkerOk(w, s.workers[w], s.db, s.payments);
    }
  }

  lemma VisitOk(s: Sys, t: Id, theirs: Theirs, since: Time)
    requires Inv(s) && t < |s.db.transfers| && s.db.transfers[t].createdAt >= since
    requires Lists(theirs, s.payments, since)
    ensures Heals(s, t, VerdictOn(s.db, t, theirs))
  {
    hide Audited, TasksOk, OneSendEach, WorkersOk, CompareVerdict, SendIsDead, Heals;
    var x, v := s.db.transfers[t], VerdictOn(s.db, t, theirs);
    assert TransferOk(x, t, s.db, s.payments);
    if x.reference.Some? {
      var r := x.reference.value;
      assert PaymentOk(s.payments[r], r, s.db);
      ReferencedHeldByNobody(s, t);
      CompareOk(s, t, s.payments[r]);
    } else if x.status.Pending? && SendIsDead(s.db.tasks, t) {
      DeadSendHeldByNobody(s, t);
      if t in theirs.byKey {
        AbandonedSentOk(s, t, theirs.byKey[t].reference);
      } else {
        AbandonedUnsentOk(s, t, v);
      }
    } else {
      NothingToHeal(s, t, v);
    }
  }

  /** Under the invariant a comparison only ever brings our side up to date. */
  lemma CompareOk(s: Sys, t: Id, payment: Payment)
    requires Inv(s) && t < |s.db.transfers| && s.db.transfers[t].reference == Some(payment.reference)
    requires payment.reference in s.payments && s.payments[payment.reference] == payment
    requires forall w :: w in s.workers && HoldsTransfer(s.workers[w]) ==> s.workers[w].transfer != t
    ensures Heals(s, t, CompareVerdict(t, s.db.transfers[t], payment))
  {
    hide Audited;
    var x := s.db.transfers[t];
    assert TransferOk(x, t, s.db, s.payments);
    assert PaymentOk(payment, payment.reference, s.db);
    var v := CompareVerdict(t, x, payment);
    if x.status.Processing? && payment.status.Paid? {
      CloseOk(s, t, Succeeded);
      FewFindings(v.findings[0], v.findings[0]);
    } else if x.status.Processing? && payment.status.Bounced? {
      CloseOk(s, t, Failed);
      FewFindings(v.findings[0], v.findings[0]);
    } else {
      NothingToHeal(s, t, v);
    }
  }

  lemma {:induction false} VisitsOk(s: Sys, ours: seq<Id>, theirs: Theirs, since: Time)
    requires Inv(s) && InRange(s.db, ours) && Lists(theirs, s.payments, since)
    requires forall i :: 0 <= i < |ours| ==> s.db.transfers[ours[i]].createdAt >= since
    requires !VisitedAll(s.db, ours, theirs).raised
    ensures var p := VisitedAll(s.db, ours, theirs);
            && Inv(s.(db := p.db))
            && Moved(s.db.transfers, p.db.transfers)
            && p.db.tasks == s.db.tasks
            && Unhealed(p.findings) == []
  {
    hide Audited, Visited, Examined, TransfersOk, PaymentsOk, TasksOk, OneSendEach, WorkersOk;
    if |ours| > 0 {
      var n := |ours| - 1;
      VisitsOk(s, ours[..n], theirs, since);
      var p := VisitedAll(s.db, ours[..n], theirs);
      VisitOk(s.(db := p.db), ours[n], theirs, since);
      VisitFollowsVerdict(p, ours[n], theirs);
      HealedConcat(p.findings, VerdictOn(p.db, ours[n], theirs).findings);
      VerdictNames(ours[n], p.db.transfers[ours[n]], SendIsDead(p.db.tasks, ours[n]), theirs);
    }
  }

  /** A sound system never asks the unique index for a reference that is taken: no pass raises. */
  lemma PassNeverRaises(s: Sys, ours: seq<Id>, list: seq<Payment>, since: Time)
    requires Inv(s) && Window(s.db, ours, since) && IsListing(list, s.payments, since)
    ensures Enabled(s, ReconcilePass(ours, list, since))
    ensures Lists(Index(list), s.payments, since)
  {
    hide Audited, TasksOk, OneSendEach, WorkersOk, VisitedAll, IsListing, Index, Unknowns;
    forall r | r in s.payments ensures s.payments[r].reference == r {
      assert PaymentOk(s.payments[r], r, s.db);
    }
    ListingIndexed(list, s.payments, since);
    forall u | 0 <= u < |s.db.transfers| && s.db.transfers[u].reference.Some?
      ensures s.payments[s.db.transfers[u].reference.value].key == u
    {
      assert TransferOk(s.db.transfers[u], u, s.db, s.payments);
    }
    AgreeingKeysNeverRaise(s.db, ours, list);
  }

  /** Over the window and the provider's listing of it, a pass goes through, keeps the invariant, only
      moves transfers forward, and leaves nothing unhealed on our side. */
  lemma ReconcilePassOk(s: Sys, ours: seq<Id>, list: seq<Payment>, since: Time)
    requires Inv(s) && Window(s.db, ours, since) && IsListing(list, s.payments, since)
    ensures Enabled(s, ReconcilePass(ours, list, since))
    ensures Inv(Apply(s, ReconcilePass(ours, list, since)))
    ensures Moved(s.db.transfers, Apply(s, ReconcilePass(ours, list, since)).db.transfers)
    ensures Unhealed(VisitedAll(s.db, ours, Index(list)).findings) == []
    ensures Lists(Index(list), s.payments, since)
  {
    hide Audited, Visited, VisitedAll, IsListing;
    PassNeverRaises(s, ours, list, since);
    VisitsOk(s, ours, Index(list), since);
  }

  // -------------------------------------------------------------------- every step

  /** How the transfers of one state become those of a later one. */
  ghost predicate Evolved(s: Sys, s': Sys) {
    && |s.db.transfers| <= |s'.db.transfers|
    && Moved(s.db.transfers, s'.db.transfers[..|s.db.transfers|])
  }

  lemma StepKeepsInvariant(s: Sys, step: Step)
    requires Inv(s) && Enabled(s, step)
    ensures Inv(Apply(s, step))
  {
    hide Inv, Sends, Initiated, RunInitiated, AfterAccept, AfterRefusal, AfterSettle, TaskSettled, Swept, Reconciled;
    match step
    case Deposit(c, n) => DepositOk(s, c, n);
    case Authorize(r, n, c) => AuthorizeOk(s, r, n, c, None);
    case AuthorizeRun(items, c) => AuthorizeRunOk(s, items, c);
    case ScheduleReconcile(delay) => AddTask(s, NewTask(s.db, ReconcileBooks, None, Some(s.db.now + delay)));
    case ClaimTask(w, k) => ClaimTaskOk(s, w, k);
    case LoadTransfer(w) => LoadTransferOk(s, w);
    case ProviderAccepts(w, view) => ProviderAcceptsOk(s, w, view);
    case ProviderRefuses(w, retryable) => ProviderRefusesOk(s, w, retryable);
    case RecordPayment(w) => RecordPaymentOk(s, w);
    case HandleRefusal(w) => HandleRefusalOk(s, w);
    case SettlePayment(w, error) => SettlePaymentOk(s, w, error);
    case RunOtherTask(w, outcome) => EndOk(s, w, outcome);
    case HandlerRaises(w) => EndOk(s, w, Failure(Raised, true));
    case FinishTask(w) => FinishTaskOk(s, w);
    case WorkerDies(w) => DropWorker(s, w);
    case Sweep(stale) => SweepOk(s, stale);
    case RetryDeadLetter(k) => RetryOk(s, k);
    case ReconcilePass(ours, list, since) => ReconcilePassOk(s, ours, list, since);
    case ProviderSettles(r, paid) => ProviderSettlesOk(s, r, paid);
    case Wait(seconds) => WaitOk(s, seconds);
  }

  lemma ProviderRefusesOk(s: Sys, w: Id, retryable: bool)
    requires Inv(s) && Enabled(s, ProviderRefuses(w, retryable))
    ensures Inv(Apply(s, ProviderRefuses(w, retryable)))
  {
    var p := s.workers[w];
    assert WorkerOk(w, p, s.db, s.payments);
    SetWorker(s, w, WasRefused(p.task, p.transfer, p.copy, retryable));
  }

  /** Outside a pass, a step moves a transfer at most one edge of its lifecycle. */
  predicate OneEdge(a: TransferStatus, b: TransferStatus) {
    || a == b
    || (a.Pending? && (b.Processing? || b.Failed?))
    || (a.Processing? && (b.Succeeded? || b.Failed?))
  }

  ghost predicate EdgeByEdge(ts: seq<Transfer>, us: seq<Transfer>) {
    && |ts| <= |us|
    && forall t :: 0 <= t < |ts| ==> SameIntent(ts[t], us[t]) && OneEdge(ts[t].status, us[t].status)
  }

  lemma MarkMovesOneEdge(s: Sys, t: Id, x: Transfer)
    requires t < |s.db.transfers| && SameIntent(s.db.transfers[t], x) && OneEdge(s.db.transfers[t].status, x.status)
    ensures EdgeByEdge(s.db.transfers, s.db.transfers[t := x])
  {
  }

  lemma SettleMovesOneEdge(s: Sys, w: Id, error: Option<bool>)
    requires Inv(s) && Enabled(s, SettlePayment(w, error))
    ensures EdgeByEdge(s.db.transfers, Apply(s, SettlePayment(w, error)).db.transfers)
  {
    hide Audited, PaymentsOk, OneSendEach, WorkersOk, EdgeByEdge;
    var k := s.workers[w].task;
    assert TaskOk(s.db.tasks[k], s.db.transfers);
    var t := s.db.tasks[k].transfer.value;
    var x := s.db.transfers[t];
    assert TransferOk(x, t, s.db, s.payments);
    MarkMovesOneEdge(s, t, x);
    assert s.db.transfers[t := x] == s.db.transfers;
    if x.status.Processing? {
      MarkMovesOneEdge(s, t, x.(status := Succeeded));
      MarkMovesOneEdge(s, t, x.(status := Failed));
    }
  }

  lemma SendMovesOneEdge(s: Sys, step: Step)
    requires Inv(s) && Enabled(s, step) && (step.RecordPayment? || step.HandleRefusal?)
    ensures EdgeByEdge(s.db.transfers, Apply(s, step).db.transfers)
  {
    hide Audited, PaymentsOk, OneSendEach, TasksOk, TransfersOk, EdgeByEdge;
    var p := s.workers[step.worker];
    assert WorkerOk(step.worker, p, s.db, s.payments);
    var x := s.db.transfers[p.transfer];
    MarkMovesOneEdge(s, p.transfer, x);
    assert s.db.transfers[p.transfer := x] == s.db.transfers;
    MarkMovesOneEdge(s, p.transfer, x.(status := Failed));
    if step.RecordPayment? {
      MarkMovesOneEdge(s, p.transfer, x.(status := Processing, reference := Some(p.payment.reference)));
    }
  }

  /** Transfers only ever move forward; outside a pass, one edge of the lifecycle at a time. */
  lemma StepMovesForward(s: Sys, step: Step)
    requires Inv(s) && Enabled(s, step)
    ensures Evolved(s, Apply(s, step))
    ensures !step.ReconcilePass? ==> EdgeByEdge(s.db.transfers, Apply(s, step).db.transfers)
  {
    hide Inv, AfterAccept, AfterRefusal, AfterSettle, AfterLoad, Reconciled, RunInitiated;
    var ts, us := s.db.transfers, Apply(s, step).db.transfers;
    match step
    case AuthorizeRun(items, c) =>
      RunOnlyAppends(s.db, items, c);
      forall t | 0 <= t < |ts| ensures us[t] == ts[t] {
        assert us[..|ts|][t] == us[t];
      }
    case ReconcilePass(ours, list, since) =>
      ReconcilePassOk(s, ours, list, since);
      assert us[..|ts|] == us;
    case RecordPayment(w) => SendMovesOneEdge(s, step);
    case HandleRefusal(w) => SendMovesOneEdge(s, step);
    case SettlePayment(w, error) => SettleMovesOneEdge(s, w, error);
    case _ =>
  }

  lemma {:induction false} VisitsOnlyAppend(db: Db, ours: seq<Id>, theirs: Theirs)
    requires InRange(db, ours) && WellIndexed(theirs) && !VisitedAll(db, ours, theirs).raised
    ensures var after := VisitedAll(db, ours, theirs).db;
            db.journals <= after.journals && after.keys == db.keys && after.runs == db.runs && after.tasks == db.tasks
  {
    hide Visited, Examined;
    if |ours| > 0 {
      var n := |ours| - 1;
      VisitsOnlyAppend(db, ours[..n], theirs);
      VisitFollowsVerdict(VisitedAll(db, ours[..n], theirs), ours[n], theirs);
    }
  }

  /** Posted journals stay in place, keys stay as they are, and no run is taken back. */
  predicate OnlyAppends(before: Db, after: Db) {
    before.journals <= after.journals && after.keys == before.keys && after.runs >= before.runs
  }

  lemma MarksOnlyAppend(db: Db, t: Id, copy: Transfer, reference: Reference)
    requires t < |db.transfers|
    ensures OnlyAppends(db, MarkedProcessing(db, t, reference))
    ensures OnlyAppends(db, MarkedSucceeded(db, t, copy)) && OnlyAppends(db, MarkedFailed(db, t, copy))
  {
    hide SettledJournal, ReversedJournal;
  }

  lemma SettleOnlyAppends(db: Db, k: Id, payments: map<Reference, Payment>, error: Option<bool>)
    requires k < |db.tasks|
    ensures OnlyAppends(db, AfterSettle(db, k, payments, error).0)
  {
    hide MarkedSucceeded, MarkedFailed;
    if NamesTransfer(db, db.tasks[k]) {
      var t := db.tasks[k].transfer.value;
      MarksOnlyAppend(db, t, db.transfers[t], 0);
    }
  }

  lemma SendOnlyAppends(db: Db, k: Id, t: Id, copy: Transfer, payment: Payment, retryable: bool)
    requires k < |db.tasks| && t < |db.transfers|
    ensures OnlyAppends(db, AfterAccept(db, t, payment).0)
    ensures OnlyAppends(db, AfterRefusal(db, k, t, copy, retryable).0)
  {
    hide MarkedProcessing, MarkedFailed;
    MarksOnlyAppend(db, t, copy, payment.reference);
  }

  /** No step changes or takes back a posted journal, and none of these touches a key. */
  lemma StepOnlyAppends(s: Sys, step: Step)
    requires Inv(s) && Enabled(s, step)
    ensures OnlyAppends(s.db, Apply(s, step).db)
  {
    hide Inv, AfterLoad, AfterAccept, AfterRefusal, AfterSettle, VisitedAll, InitiatedAll, IsListing, Sends, SendIsDead, Balance,
      WellIndexed, Unknowns, AuthorizedJournal, DepositJournal, NobodyTwice, ReferenceTaken;
    match step
    case AuthorizeRun(items, c) => ItemsOnlyAppend(s.db.(runs := s.db.runs + 1), items, c, s.db.runs);
    case RecordPayment(w) =>
      var p := s.workers[w];
      SendOnlyAppends(s.db, p.task, p.transfer, p.copy, p.payment, false);
    case HandleRefusal(w) =>
      var p := s.workers[w];
      SendOnlyAppends(s.db, p.task, p.transfer, p.copy, Payment(0, 0, 0, 1, 0, Accepted, 0), p.retryable);
    case ReconcilePass(ours, list, since) => VisitsOnlyAppend(s.db, ours, Index(list));
    case SettlePayment(w, error) => SettleOnlyAppends(s.db, s.workers[w].task, s.payments, error);
    case _ =>
  }
}
