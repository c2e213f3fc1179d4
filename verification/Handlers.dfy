/** The worker's handlers and `execute`, in code (worker/disburse.py, reconcile.py, handlers.py).

    Each method also says which steps of the protocol it took, so that what is proved of every
    run of the protocol is proved of the code. */
module Handlers {
  import opened Records
  import opened Ledger
  import opened Database
  import opened TaskService
  import opened TransferService
  import opened Provider
  import opened Disburse
  import opened Reconciliation
  import opened Reconciler
  import opened Protocol
  import opened Invariance
  import opened RunTheorems
  import opened Paths
  import opened Accounting
  import opened PassTheorems

  const RECONCILE_INTERVAL_SECONDS: nat := 30
  const WINDOW_SECONDS: nat := 86400

  /** The foreign key from transfers to recipients. */
  predicate RecipientsKnown(db: Db) {
    forall t :: 0 <= t < |db.transfers| ==> db.transfers[t].recipient in db.recipients
  }

  /** What a handler returned, as `execute` takes it: raising is a retryable failure. */
  function Outcome(r: Option<TaskOutcome>): TaskOutcome {
    if r.Some? then r.value else Failure(Raised, true)
  }

  /** Task `k` is not touched, the others are not either, and whatever was added is for later. */
  predicate OnlyAddsLater(before: Db, after: Db) {
    && after.now == before.now
    && after.recipients == before.recipients
    && |before.transfers| == |after.transfers|
    && (forall t :: 0 <= t < |before.transfers| ==> after.transfers[t].recipient == before.transfers[t].recipient)
    && |before.tasks| <= |after.tasks|
    && (forall j :: 0 <= j < |before.tasks| ==> after.tasks[j] == before.tasks[j])
    && (forall j :: |before.tasks| <= j < |after.tasks| ==> after.tasks[j].runAt > before.now)
  }

  ghost function Holding(db: Db, payments: map<Reference, Payment>, others: map<Id, Phase>, w: Id, phase: Phase): Sys {
    Sys(db, payments, others[w := phase])
  }

  lemma EndsAs(db: Db, payments: map<Reference, Payment>, others: map<Id, Phase>, w: Id, a: Phase, b: Phase)
    ensures Now(Holding(db, payments, others, w, a), w, b) == Holding(db, payments, others, w, b)
  {
  }

  // ------------------------------------------------------------------------ the send

  /** The steps a send takes, given what the provider answered. */
  ghost function SendSteps(db: Db, k: Id, w: Id, view: Option<Payment>, retryable: bool): seq<Step>
    requires k < |db.tasks|
  {
    if AfterLoad(db, k).HasEnded? then [LoadTransfer(w)]
    else if view.Some? then [LoadTransfer(w), ProviderAccepts(w, view.value), RecordPayment(w)]
    else [LoadTransfer(w), ProviderRefuses(w, retryable), HandleRefusal(w)]
  }

  /** A send, told from the rows: `view` is what the provider accepted, if it did. */
  predicate DisbursesAs(
    before: Db, k: Id, view: Option<Payment>, retryable: bool, after: Db, o: TaskOutcome)
    requires k < |before.tasks|
  {
    var t := before.tasks[k].transfer;
    if t.None? || t.value >= |before.transfers| then o == TaskOutcome(false, Some(BadPayload), false) && after == before
    else if before.transfers[t.value].status != Pending then o == TaskOutcome(true, None, false) && after == before
    else if view.Some? then RecordsAs(before, t.value, view.value, after, o)
    else GivesUpAs(before, k, t.value, before.transfers[t.value], retryable, after, o)
  }

  /** The provider's side of it: asked for what the transfer says, or not asked, or nothing made. */
  ghost predicate AsksFor(
    db: Db, k: Id, before: map<Reference, Payment>, view: Option<Payment>, after: map<Reference, Payment>)
    requires k < |db.tasks|
  {
    if view.None? then after == before
    else
      var t := db.tasks[k].transfer;
      && t.Some? && t.value < |db.transfers|
      && var x := db.transfers[t.value];
         && x.recipient in db.recipients
         && Sends(before, after, view.value, t.value, db.recipients[x.recipient], x.amount, x.currency, db.now)
  }

  /** `disburse` */
  method DisburseTransferTask(session: Session, provider: MockProvider, k: Id, ghost w: Id, ghost others: map<Id, Phase>)
    returns (r: Option<TaskOutcome>, ghost view: Option<Payment>)
    requires k < |session.tasks| && session.tasks[k].kind.DisburseTransfer?
    requires session.committed == session.Work() && provider.Valid() && RecipientsKnown(session.Work())
    modifies session, provider`payments, provider`nextReference
    ensures provider.Valid()
    ensures r.Some? ==> session.committed == session.Work()
    ensures Reachable(Holding(old(session.Work()), old(provider.payments), others, w, HasClaimed(k))) ==> r.Some?
    ensures view.Some? <==> !AfterLoad(old(session.Work()), k).HasEnded? && !provider.rejectAll && !provider.unreachable
    ensures Path(Holding(old(session.Work()), old(provider.payments), others, w, HasClaimed(k)),
                 SendSteps(old(session.Work()), k, w, view, !provider.rejectAll),
                 Holding(session.committed, provider.payments, others, w, HasEnded(k, Outcome(r))))
    ensures DisbursesAs(old(session.Work()), k, view, !provider.rejectAll, session.committed, Outcome(r))
    ensures AsksFor(old(session.Work()), k, old(provider.payments), view, provider.payments)
    ensures OnlyAddsLater(old(session.Work()), session.committed)
  {
    hide Enabled, Apply, Path, Reachable, SettledJournal, ReversedJournal, ReferenceTaken, RecipientsKnown, Sends,
      RecordsAs, GivesUpAs, FollowsAs, SettlesBooks, ReversesBooks;
    ghost var s := Holding(session.Work(), provider.payments, others, w, HasClaimed(k));
    view := None;
    EndedPath(s, others, w, k);
    var x := session.tasks[k];
    if x.transfer.None? || x.transfer.value >= |session.transfers| {
      return Some(Failure(BadPayload, false)), None;
    }
    var t := x.transfer.value;
    var transfer := session.transfers[t];
    if transfer.status != Pending {
      return Some(DONE), None;
    }
    assert transfer.recipient in session.recipients by { Known(session.Work(), t); }
    var sent := provider.SendPayment(
      t, session.recipients[transfer.recipient], transfer.amount, transfer.currency, session.now);
    if sent.Err? {
      RefusedPath(s, others, w, k, t, transfer, sent.error.retryable);
      RefusalIsAsAsked(s.db, k, t, transfer, sent.error.retryable);
      var last := x.attempts >= x.maxAttempts;
      if !sent.error.retryable || last {
        MarkFailed(session, t, transfer);
        session.Commit();
        return Some(Failure(ProviderSaid, false)), None;
      }
      return Some(Failure(ProviderSaid, true)), None;
    }
    view := Some(sent.value);
    AcceptedPath(s, others, w, k, t, transfer, sent.value, provider.payments);
    AcceptIsAsAsked(s.db, t, sent.value);
    if Reachable(s) {
      AcceptedIsNotTaken(s, others, w, k, t, transfer, sent.value, provider.payments);
    }
    var ok := MarkProcessing(session, t, sent.value.reference);
    if !ok {
      return None, view;
    }
    Enqueue(session, SettleTransfer, Some(t), Some(session.now + SETTLE_CHECK_DELAY_SECONDS));
    session.Commit();
    return Some(DONE), view;
  }

  lemma Known(db: Db, t: Id)
    requires RecipientsKnown(db) && t < |db.transfers|
    ensures db.transfers[t].recipient in db.recipients
  {
  }

  // What each step of the protocol does, one at a time.

  lemma Reassigned(s: Sys, w: Id, a: Phase, b: Phase)
    ensures Now(Now(s, w, a), w, b) == Now(s, w, b)
  {
  }

  lemma LoadStep(s: Sys, w: Id)
    requires At(s, w) && s.workers[w].HasClaimed? && s.db.tasks[s.workers[w].task].kind.DisburseTransfer?
    ensures Enabled(s, LoadTransfer(w))
    ensures Apply(s, LoadTransfer(w)) == Now(s, w, AfterLoad(s.db, s.workers[w].task))
  {
    hide AfterLoad;
  }

  lemma RefusedStep(s: Sys, w: Id, retryable: bool)
    requires At(s, w) && s.workers[w].HasLoaded?
    ensures Enabled(s, ProviderRefuses(w, retryable))
    ensures var p := s.workers[w];
            Apply(s, ProviderRefuses(w, retryable)) == Now(s, w, WasRefused(p.task, p.transfer, p.copy, retryable))
  {
  }

  lemma HandleStep(s: Sys, w: Id)
    requires At(s, w) && s.workers[w].WasRefused? && s.workers[w].transfer < |s.db.transfers|
    ensures Enabled(s, HandleRefusal(w))
    ensures var p := s.workers[w];
            var (db, o) := AfterRefusal(s.db, p.task, p.transfer, p.copy, p.retryable);
            Apply(s, HandleRefusal(w)) == Now(s, w, HasEnded(p.task, o)).(db := db)
  {
    hide AfterRefusal;
  }

  lemma AcceptedStep(s: Sys, w: Id, view: Payment, payments: map<Reference, Payment>)
    requires At(s, w) && s.workers[w].HasLoaded? && s.workers[w].copy.recipient in s.db.recipients
    requires Sends(s.payments, payments, view, s.workers[w].transfer, s.db.recipients[s.workers[w].copy.recipient],
                   s.workers[w].copy.amount, s.workers[w].copy.currency, s.db.now)
    ensures Enabled(s, ProviderAccepts(w, view))
    ensures var p := s.workers[w];
            Apply(s, ProviderAccepts(w, view)) ==
              Now(s, w, WasAccepted(p.task, p.transfer, p.copy, view)).(payments := payments)
  {
    assert payments == Sent(s.payments, view);
  }

  lemma RecordStep(s: Sys, w: Id)
    requires At(s, w) && s.workers[w].WasAccepted? && s.workers[w].transfer < |s.db.transfers|
    ensures Enabled(s, RecordPayment(w))
    ensures var p := s.workers[w];
            var (db, o) := AfterAccept(s.db, p.transfer, p.payment);
            Apply(s, RecordPayment(w)) == Now(s, w, HasEnded(p.task, o)).(db := db)
  {
    hide AfterAccept;
  }

  lemma EndedPath(s: Sys, others: map<Id, Phase>, w: Id, k: Id)
    requires s.workers == others[w := HasClaimed(k)] && k < |s.db.tasks| && s.db.tasks[k].kind.DisburseTransfer?
    ensures Path(s, [LoadTransfer(w)], Holding(s.db, s.payments, others, w, AfterLoad(s.db, k)))
  {
    hide Enabled, Apply, Path, AfterLoad;
    LoadStep(s, w);
    PathOne(s, LoadTransfer(w));
    EndsAs(s.db, s.payments, others, w, HasClaimed(k), AfterLoad(s.db, k));
  }

  lemma RefusedPath(s: Sys, others: map<Id, Phase>, w: Id, k: Id, t: Id, copy: Transfer, retryable: bool)
    requires s.workers == others[w := HasClaimed(k)] && k < |s.db.tasks| && s.db.tasks[k].kind.DisburseTransfer?
    requires AfterLoad(s.db, k) == HasLoaded(k, t, copy) && t < |s.db.transfers|
    ensures var (db, o) := AfterRefusal(s.db, k, t, copy, retryable);
            Path(s, [LoadTransfer(w), ProviderRefuses(w, retryable), HandleRefusal(w)],
                 Holding(db, s.payments, others, w, HasEnded(k, o)))
  {
    hide Enabled, Apply, Path, AfterLoad, AfterRefusal;
    var s1 := Now(s, w, HasLoaded(k, t, copy));
    var s2 := Now(s1, w, WasRefused(k, t, copy, retryable));
    LoadStep(s, w);
    RefusedStep(s1, w, retryable);
    HandleStep(s2, w);
    PathThree(s, LoadTransfer(w), ProviderRefuses(w, retryable), HandleRefusal(w));
    var (_, o) := AfterRefusal(s.db, k, t, copy, retryable);
    Reassigned(s, w, HasLoaded(k, t, copy), WasRefused(k, t, copy, retryable));
    Reassigned(s, w, WasRefused(k, t, copy, retryable), HasEnded(k, o));
    EndsAs(s.db, s.payments, others, w, HasClaimed(k), HasEnded(k, o));
  }

  lemma AcceptedPath(
    s: Sys, others: map<Id, Phase>, w: Id, k: Id, t: Id, copy: Transfer, view: Payment, payments: map<Reference, Payment>)
    requires s.workers == others[w := HasClaimed(k)] && k < |s.db.tasks| && s.db.tasks[k].kind.DisburseTransfer?
    requires AfterLoad(s.db, k) == HasLoaded(k, t, copy) && t < |s.db.transfers| && copy.recipient in s.db.recipients
    requires Sends(s.payments, payments, view, t, s.db.recipients[copy.recipient], copy.amount, copy.currency, s.db.now)
    ensures var (db, o) := AfterAccept(s.db, t, view);
            Path(s, [LoadTransfer(w), ProviderAccepts(w, view), RecordPayment(w)],
                 Holding(db, payments, others, w, HasEnded(k, o)))
  {
    hide Enabled, Apply, Path, AfterLoad, AfterAccept, Sends;
    var s1 := Now(s, w, HasLoaded(k, t, copy));
    var s2 := Now(s1, w, WasAccepted(k, t, copy, view)).(payments := payments);
    LoadStep(s, w);
    AcceptedStep(s1, w, view, payments);
    RecordStep(s2, w);
    PathThree(s, LoadTransfer(w), ProviderAccepts(w, view), RecordPayment(w));
    var (_, o) := AfterAccept(s.db, t, view);
    Reassigned(s, w, HasLoaded(k, t, copy), WasAccepted(k, t, copy, view));
    Reassigned(s, w, WasAccepted(k, t, copy, view), HasEnded(k, o));
    EndsAs(s.db, s.payments, others, w, HasClaimed(k), HasEnded(k, o));
  }

  /** In a state of any run, what the provider accepts can be recorded: the flush never fails. */
  lemma AcceptedIsNotTaken(
    s: Sys, others: map<Id, Phase>, w: Id, k: Id, t: Id, copy: Transfer, view: Payment, payments: map<Reference, Payment>)
    requires s.workers == others[w := HasClaimed(k)] && k < |s.db.tasks| && s.db.tasks[k].kind.DisburseTransfer?
    requires AfterLoad(s.db, k) == HasLoaded(k, t, copy) && t < |s.db.transfers| && copy.recipient in s.db.recipients
    requires Sends(s.payments, payments, view, t, s.db.recipients[copy.recipient], copy.amount, copy.currency, s.db.now)
    requires Reachable(s)
    ensures !ReferenceTaken(s.db.transfers, t, view.reference)
  {
    hide Enabled, Apply, Reachable, Inv, AfterLoad, AfterAccept, Sends, ReferenceTaken;
    var s1 := Now(s, w, HasLoaded(k, t, copy));
    var s2 := Now(s1, w, WasAccepted(k, t, copy, view)).(payments := payments);
    LoadStep(s, w);
    StepReaches(s, LoadTransfer(w));
    AcceptedStep(s1, w, view, payments);
    StepReaches(s1, ProviderAccepts(w, view));
    ReachableIsSound(s2);
    RecordStep(s2, w);
    RecordPaymentOk(s2, w);
  }

  // ----------------------------------------------------------------------- the check

  /** `settle` and `_apply` */
  method SettleTransferTask(session: Session, provider: MockProvider, k: Id, ghost w: Id, ghost others: map<Id, Phase>)
    returns (outcome: TaskOutcome, ghost settles: seq<Step>)
    requires k < |session.tasks| && session.tasks[k].kind.SettleTransfer?
    requires session.committed == session.Work() && provider.Valid()
    modifies session, provider`payments
    ensures provider.Valid() && session.committed == session.Work()
    ensures OnlySettles(settles)
    ensures Path(Holding(old(session.Work()), old(provider.payments), others, w, HasClaimed(k)),
                 settles + [SettlePayment(w, None)],
                 Holding(session.Work(), provider.payments, others, w, HasEnded(k, outcome)))
    ensures SettlesAs(old(session.Work()), k, provider.payments, None, session.Work(), outcome)
    ensures SettlesInTime(old(provider.payments), old(session.now), provider.settleAfterSeconds, provider.failSettlement,
                          provider.payments)
            || provider.payments == old(provider.payments)
    ensures OnlyAddsLater(old(session.Work()), session.Work())
  {
    hide Enabled, Apply, Path, SettledJournal, ReversedJournal, AllAdvanced, SettlesInTime, SettlesAs, SettlesBooks, ReversesBooks;
    SettleIsAsAsked(session.Work(), k, provider.payments, None);
    ghost var s := Holding(session.Work(), provider.payments, others, w, HasClaimed(k));
    settles := [];
    PathNone(s);
    SettlePath(s, others, w, k, [], s);
    var x := session.tasks[k];
    if x.transfer.None? || x.transfer.value >= |session.transfers| {
      return Failure(BadPayload, false), settles;
    }
    var t := x.transfer.value;
    var transfer := session.transfers[t];
    if transfer.status == Succeeded || transfer.status == Failed {
      return DONE, settles;
    }
    if transfer.reference.None? {
      return Failure(NoReference, false), settles;
    }
    var payment := provider.GetPayment(transfer.reference.value, session.now);
    SettleIsAsAsked(session.Work(), k, provider.payments, None);
    settles := AdvanceIsPath(s, session.now - provider.settleAfterSeconds, provider.failSettlement);
    SettlePath(s, others, w, k, settles, s.(payments := provider.payments));
    if payment.None? {
      return Failure(NotAtProvider, false), settles;
    }
    match payment.value.status {
      case Accepted => Enqueue(session, SettleTransfer, Some(t), Some(session.now + SETTLE_CHECK_DELAY_SECONDS));
      case Paid => MarkSucceeded(session, t, transfer);
      case Bounced => MarkFailed(session, t, transfer);
    }
    session.Commit();
    return DONE, settles;
  }

  lemma SettleStep(s: Sys, w: Id)
    requires At(s, w) && s.workers[w].HasClaimed? && s.db.tasks[s.workers[w].task].kind.SettleTransfer?
    ensures Enabled(s, SettlePayment(w, None))
    ensures var k := s.workers[w].task;
            var (db, o) := AfterSettle(s.db, k, s.payments, None);
            Apply(s, SettlePayment(w, None)) == Now(s, w, HasEnded(k, o)).(db := db)
  {
    hide AfterSettle;
  }

  lemma SettlePath(s: Sys, others: map<Id, Phase>, w: Id, k: Id, settles: seq<Step>, mid: Sys)
    requires s.workers == others[w := HasClaimed(k)] && k < |s.db.tasks| && s.db.tasks[k].kind.SettleTransfer?
    requires Path(s, settles, mid) && mid == s.(payments := mid.payments)
    ensures var (db, o) := AfterSettle(s.db, k, mid.payments, None);
            Path(s, settles + [SettlePayment(w, None)], Holding(db, mid.payments, others, w, HasEnded(k, o)))
  {
    hide Enabled, Apply, Path, AfterSettle;
    var (db, o) := AfterSettle(s.db, k, mid.payments, None);
    SettleStep(mid, w);
    PathOne(mid, SettlePayment(w, None));
    EndsAs(db, mid.payments, others, w, HasClaimed(k), HasEnded(k, o));
    PathJoins(s, settles, mid, [SettlePayment(w, None)], Holding(db, mid.payments, others, w, HasEnded(k, o)));
  }

  // ------------------------------------------------------------------------ the pass

  /** The steps of a reconcile task, after the provider's clock has been read. */
  ghost function PassSteps(db: Db, k: Id, w: Id, ok: bool, ours: seq<Id>, list: seq<Payment>, since: Time): seq<Step> {
    if !ok then [HandlerRaises(w)]
    else if Scheduled(db.tasks, ReconcileBooks, Some(k)) then [ReconcilePass(ours, list, since), RunOtherTask(w, DONE)]
    else [ReconcilePass(ours, list, since), ScheduleReconcile(RECONCILE_INTERVAL_SECONDS), RunOtherTask(w, DONE)]
  }

  function WindowStart(now: Time): Time {
    if now >= WINDOW_SECONDS then now - WINDOW_SECONDS else 0
  }

  /** Another pass is already waiting or running. */
  predicate AnotherPass(tasks: seq<Task>, k: Id) {
    exists j :: 0 <= j < |tasks| && j != k && tasks[j].kind == ReconcileBooks &&
                (tasks[j].status == Queued || tasks[j].status == Running)
  }

  /** Everything of the last day was looked at, each transfer as its rows call for, and the next pass is
      due in half a minute unless another is coming anyway. */
  ghost predicate PassesAs(before: Db, k: Id, ours: seq<Id>, list: seq<Payment>, after: Db) {
    && InRange(before, ours)
    && (forall t :: 0 <= t < |before.transfers| ==> (t in ours <==> before.transfers[t].createdAt + 86400 >= before.now))
    && (forall t :: 0 <= t < |before.transfers| ==>
          Told(before, ours, list, t, after, Reconciled(before, ours, list).findings))
    && after.tasks == before.tasks +
         if AnotherPass(before.tasks, k) then []
         else [Task(ReconcileBooks, None, Queued, 0, 3, None, before.now + 30, 0)]
  }

  /** `reconcile`: the pass and its successor, in one transaction. */
  method ReconcileBooksTask(session: Session, provider: MockProvider, k: Id, ghost w: Id, ghost others: map<Id, Phase>)
    returns (r: Option<TaskOutcome>, ghost settles: seq<Step>, ghost ours: seq<Id>, ghost list: seq<Payment>)
    requires k < |session.tasks| && session.tasks[k].kind.ReconcileBooks?
    requires session.committed == session.Work() && provider.Valid()
    modifies session, provider`payments
    ensures provider.Valid()
    ensures r.Some? ==> session.committed == session.Work()
    ensures Reachable(Holding(old(session.Work()), old(provider.payments), others, w, HasClaimed(k))) ==> r.Some?
    ensures OnlySettles(settles)
    ensures InRange(old(session.Work()), ours) && (r.Some? <==> !Reconciled(old(session.Work()), ours, list).raised)
    ensures Path(Holding(old(session.Work()), old(provider.payments), others, w, HasClaimed(k)),
                 settles + PassSteps(old(session.Work()), k, w, r.Some?, ours, list, WindowStart(old(session.now))),
                 Holding(session.committed, provider.payments, others, w, HasEnded(k, Outcome(r))))
    ensures IsListing(list, provider.payments, WindowStart(old(session.now)))
    ensures if r.Some? then r == Some(TaskOutcome(true, None, false)) && PassesAs(old(session.Work()), k, ours, list, session.Work())
            else session.committed == old(session.Work())
    ensures OnlyAddsLater(old(session.Work()), session.committed)
  {
    hide Enabled, Apply, Path, Reachable, AllAdvanced, IsListing, Reconciled, Scheduled, Told;
    ghost var db := session.Work();
    ghost var s := Holding(db, provider.payments, others, w, HasClaimed(k));
    settles := AdvanceIsPath(s, session.now - provider.settleAfterSeconds, provider.failSettlement);
    var ok, report;
    ok, report, ours, list := Run(session, provider, WindowStart(session.now));
    ghost var mid := s.(payments := provider.payments);
    if Reachable(s) {
      PathReaches(s, settles, mid);
      ReachablePassesGoThrough(mid, ours, list, WindowStart(db.now));
    }
    if !ok {
      RaisedPath(mid, others, w, k);
      PathJoins(s, settles, mid, [HandlerRaises(w)], Holding(db, mid.payments, others, w, HasEnded(k, Failure(Raised, true))));
      return None, settles, ours, list;
    }
    PassKeepsRows(db, ours, list);
    var _ := ScheduleOnce(session, ReconcileBooks, session.now + RECONCILE_INTERVAL_SECONDS, Some(k));
    session.Commit();
    PassPath(mid, others, w, k, ours, list, WindowStart(db.now));
    PathJoins(s, settles, mid, PassSteps(db, k, w, true, ours, list, WindowStart(db.now)),
              Holding(session.Work(), mid.payments, others, w, HasEnded(k, DONE)));
    PassedAs(db, k, ours, list, session.Work());
    return Some(DONE), settles, ours, list;
  }

  lemma ScheduledIsAnother(tasks: seq<Task>, k: Id)
    ensures Scheduled(tasks, ReconcileBooks, Some(k)) <==> AnotherPass(tasks, k)
  {
    ScheduledIsLiteral(tasks, ReconcileBooks, Some(k));
  }

  /** Scheduling the next pass changes nothing of what this one has to show. */
  lemma PassedAs(db: Db, k: Id, ours: seq<Id>, list: seq<Payment>, after: Db)
    requires Window(db, ours, WindowStart(db.now)) && !Reconciled(db, ours, list).raised
    requires after == ScheduledOnce(
               Reconciled(db, ours, list).db, ReconcileBooks, db.now + RECONCILE_INTERVAL_SECONDS, Some(k))
    ensures PassesAs(db, k, ours, list, after)
  {
    hide Reconciled, Told, Scheduled;
    PassKeepsRows(db, ours, list);
    ScheduledIsAnother(db.tasks, k);
    assert db.tasks + [] == db.tasks;
    var p := Reconciled(db, ours, list);
    forall t | 0 <= t < |db.transfers| ensures Told(db, ours, list, t, after, p.findings) {
      PassTellsOfEach(db, ours, list, t);
      ToldBySameRows(db, ours, list, t, p.db, after, p.findings);
    }
  }

  lemma ToldBySameRows(db: Db, ours: seq<Id>, list: seq<Payment>, t: Id, a: Db, b: Db, fs: seq<Finding>)
    requires t < |db.transfers| && Told(db, ours, list, t, a, fs)
    requires a.transfers == b.transfers && a.journals == b.journals
    ensures Told(db, ours, list, t, b, fs)
  {
    hide TellsOf, About, JournalsOf;
  }

  lemma ReachablePassesGoThrough(s: Sys, ours: seq<Id>, list: seq<Payment>, since: Time)
    requires Reachable(s) && Window(s.db, ours, since) && IsListing(list, s.payments, since)
    ensures !Reconciled(s.db, ours, list).raised
  {
    hide Reachable, Inv, IsListing, Reconciled;
    ReachableIsSound(s);
    PassNeverRaises(s, ours, list, since);
  }

  lemma PassKeepsRows(db: Db, ours: seq<Id>, list: seq<Payment>)
    requires InRange(db, ours) && Distinct(ours) && !Reconciled(db, ours, list).raised
    ensures var after := Reconciled(db, ours, list).db;
            after.tasks == db.tasks && OnlyAddsLater(db, after)
  {
    hide Examined, VisitedAll;
    var theirs := Index(list);
    PassIsPointwise(db, ours, theirs);
    var after := Reconciled(db, ours, list).db;
    forall t | 0 <= t < |db.transfers| ensures after.transfers[t].recipient == db.transfers[t].recipient {
      VerdictNames(t, db.transfers[t], SendIsDead(db.tasks, t), theirs);
    }
  }

  lemma RaisedPath(s: Sys, others: map<Id, Phase>, w: Id, k: Id)
    requires s.workers == others[w := HasClaimed(k)] && k < |s.db.tasks|
    ensures Path(s, [HandlerRaises(w)], Holding(s.db, s.payments, others, w, HasEnded(k, Failure(Raised, true))))
  {
    hide Path;
    PathOne(s, HandlerRaises(w));
    EndsAs(s.db, s.payments, others, w, HasClaimed(k), HasEnded(k, Failure(Raised, true)));
  }

  lemma PassStep(s: Sys, ours: seq<Id>, list: seq<Payment>, since: Time)
    requires Window(s.db, ours, since) && IsListing(list, s.payments, since) && !Reconciled(s.db, ours, list).raised
    ensures Enabled(s, ReconcilePass(ours, list, since))
    ensures Apply(s, ReconcilePass(ours, list, since)) == s.(db := Reconciled(s.db, ours, list).db)
  {
    hide Window, IsListing, Reconciled;
  }

  lemma ScheduleStep(s: Sys, delay: nat)
    ensures Enabled(s, ScheduleReconcile(delay))
    ensures Apply(s, ScheduleReconcile(delay)) == s.(db := Enqueued(s.db, ReconcileBooks, None, Some(s.db.now + delay)))
  {
  }

  lemma OtherStep(s: Sys, w: Id, o: TaskOutcome)
    requires At(s, w) && s.workers[w].HasClaimed?
    requires s.db.tasks[s.workers[w].task].kind.ReconcileBooks? || s.db.tasks[s.workers[w].task].kind.UnregisteredKind?
    ensures Enabled(s, RunOtherTask(w, o))
    ensures Apply(s, RunOtherTask(w, o)) == Now(s, w, HasEnded(s.workers[w].task, o))
  {
  }

  lemma PassPath(
    s: Sys, others: map<Id, Phase>, w: Id, k: Id, ours: seq<Id>, list: seq<Payment>, since: Time)
    requires s.workers == others[w := HasClaimed(k)] && k < |s.db.tasks| && s.db.tasks[k].kind.ReconcileBooks?
    requires Window(s.db, ours, since) && IsListing(list, s.payments, since) && !Reconciled(s.db, ours, list).raised
    ensures var db := ScheduledOnce(
                        Reconciled(s.db, ours, list).db, ReconcileBooks, s.db.now + RECONCILE_INTERVAL_SECONDS, Some(k));
            Path(s, PassSteps(s.db, k, w, true, ours, list, since), Holding(db, s.payments, others, w, HasEnded(k, DONE)))
  {
    hide Enabled, Apply, Path, Window, IsListing, Reconciled, Scheduled;
    Windowed(s.db, ours, since);
    var passed := Reconciled(s.db, ours, list).db;
    PassKeepsRows(s.db, ours, list);
    var s1 := s.(db := passed);
    PassStep(s, ours, list, since);
    if Scheduled(s.db.tasks, ReconcileBooks, Some(k)) {
      OtherStep(s1, w, DONE);
      PathTwo(s, ReconcilePass(ours, list, since), RunOtherTask(w, DONE));
      EndsAs(passed, s.payments, others, w, HasClaimed(k), HasEnded(k, DONE));
    } else {
      ScheduleStep(s1, RECONCILE_INTERVAL_SECONDS);
      var s2 := Apply(s1, ScheduleReconcile(RECONCILE_INTERVAL_SECONDS));
      OtherStep(s2, w, DONE);
      PathThree(s, ReconcilePass(ours, list, since), ScheduleReconcile(RECONCILE_INTERVAL_SECONDS), RunOtherTask(w, DONE));
      EndsAs(s2.db, s.payments, others, w, HasClaimed(k), HasEnded(k, DONE));
    }
  }

  lemma Windowed(db: Db, ours: seq<Id>, since: Time)
    requires Window(db, ours, since)
    ensures Distinct(ours) && InRange(db, ours)
  {
  }

  // ------------------------------------------------------------------------- execute

  /** The steps a handler takes from the claim of its task to its own last commit. */
  ghost predicate HandlerSteps(db: Db, k: Id, w: Id, willSend: bool, retryable: bool, steps: seq<Step>)
    requires k < |db.tasks|
  {
    match db.tasks[k].kind
    case DisburseTransfer =>
      exists view: Option<Payment> ::
        && (view.Some? <==> !AfterLoad(db, k).HasEnded? && willSend)
        && steps == SendSteps(db, k, w, view, retryable)
    case SettleTransfer =>
      exists settles: seq<Step> :: OnlySettles(settles) && steps == settles + [SettlePayment(w, None)]
    case ReconcileBooks =>
      exists settles: seq<Step>, ours, list ::
        && OnlySettles(settles) && InRange(db, ours)
        && steps == settles + PassSteps(db, k, w, !Reconciled(db, ours, list).raised, ours, list, WindowStart(db.now))
    case UnregisteredKind => steps == [RunOtherTask(w, Failure(UnknownKind, false))]
  }

  /** The row `k` used up its claim, and whatever else is now queued is for later. */
  predicate RanOnce(before: Db, after: Db, k: Id)
    requires k < |before.tasks|
  {
    && after.now == before.now
    && after.recipients == before.recipients
    && |before.transfers| == |after.transfers|
    && (forall t :: 0 <= t < |before.transfers| ==> after.transfers[t].recipient == before.transfers[t].recipient)
    && |before.tasks| <= |after.tasks|
    && (forall j :: 0 <= j < |before.tasks| && j != k ==> after.tasks[j] == before.tasks[j])
    && (forall j :: |before.tasks| <= j < |after.tasks| ==> after.tasks[j].runAt > before.now)
    && after.tasks[k].attempts == before.tasks[k].attempts
    && !after.tasks[k].status.Running?
    && (after.tasks[k].status.Queued? ==> after.tasks[k].runAt >= before.now + 5)
  }

  lemma FinishStep(s: Sys, w: Id)
    requires At(s, w) && s.workers[w].HasEnded?
    ensures Enabled(s, FinishTask(w))
    ensures Apply(s, FinishTask(w)) ==
              s.(db := TaskSettled(s.db, s.workers[w].task, s.workers[w].outcome), workers := s.workers - {w})
  {
    hide TaskSettled;
  }

  lemma FinishPath(s: Sys, steps: seq<Step>, db: Db, payments: map<Reference, Payment>, others: map<Id, Phase>, w: Id, k: Id, o: TaskOutcome)
    requires w !in others && k < |db.tasks|
    requires Path(s, steps, Holding(db, payments, others, w, HasEnded(k, o)))
    ensures Path(s, steps + [FinishTask(w)], Sys(TaskSettled(db, k, o), payments, others))
  {
    hide Enabled, Apply, Path, TaskSettled;
    var mid := Holding(db, payments, others, w, HasEnded(k, o));
    FinishStep(mid, w);
    PathOne(mid, FinishTask(w));
    assert mid.workers - {w} == others;
    PathJoins(s, steps, mid, [FinishTask(w)], Sys(TaskSettled(db, k, o), payments, others));
  }

  lemma OtherPath(s: Sys, others: map<Id, Phase>, w: Id, k: Id, o: TaskOutcome)
    requires s.workers == others[w := HasClaimed(k)] && k < |s.db.tasks| && s.db.tasks[k].kind.UnregisteredKind?
    ensures Path(s, [RunOtherTask(w, o)], Holding(s.db, s.payments, others, w, HasEnded(k, o)))
  {
    hide Enabled, Apply, Path;
    OtherStep(s, w, o);
    PathOne(s, RunOtherTask(w, o));
    EndsAs(s.db, s.payments, others, w, HasClaimed(k), HasEnded(k, o));
  }

  /** What a handler leaves of the rows, by the kind of its task. */
  ghost predicate HandlesAs(
    before: Db, k: Id, payments: map<Reference, Payment>, willSend: bool, retryable: bool, after: Db, o: TaskOutcome)
    requires k < |before.tasks|
  {
    match before.tasks[k].kind
    case DisburseTransfer =>
      exists view: Option<Payment> :: (!willSend ==> view.None?) && DisbursesAs(before, k, view, retryable, after, o)
    case SettleTransfer => SettlesAs(before, k, payments, None, after, o)
    case ReconcileBooks =>
      if o.ok then o == TaskOutcome(true, None, false) && exists ours, list :: PassesAs(before, k, ours, list, after)
      else o == TaskOutcome(false, Some(Raised), true) && after == before
    case UnregisteredKind => o == TaskOutcome(false, Some(UnknownKind), false) && after == before
  }

  /** `_run`: the registered handler, or a failure for a kind that has none. In a state of any run it
      does not raise. */
  method RunHandler(session: Session, provider: MockProvider, k: Id, ghost w: Id, ghost others: map<Id, Phase>)
    returns (r: Option<TaskOutcome>, ghost steps: seq<Step>)
    requires k < |session.tasks|
    requires session.committed == session.Work() && provider.Valid() && RecipientsKnown(session.Work())
    modifies session, provider`payments, provider`nextReference
    ensures provider.Valid()
    ensures r.Some? ==> session.committed == session.Work()
    ensures Reachable(Holding(old(session.Work()), old(provider.payments), others, w, HasClaimed(k))) ==> r.Some?
    ensures HandlerSteps(old(session.Work()), k, w, !provider.rejectAll && !provider.unreachable, !provider.rejectAll, steps)
    ensures Path(Holding(old(session.Work()), old(provider.payments), others, w, HasClaimed(k)), steps,
                 Holding(session.committed, provider.payments, others, w, HasEnded(k, Outcome(r))))
    ensures HandlesAs(old(session.Work()), k, provider.payments, !provider.rejectAll && !provider.unreachable,
                      !provider.rejectAll, session.committed, Outcome(r))
    ensures OnlyAddsLater(old(session.Work()), session.committed)
  {
    hide DisbursesAs, AsksFor, SettlesAs, PassesAs, IsListing, SettlesInTime;
    hide Enabled, Apply, Path, Reachable, RecipientsKnown, SendSteps, AfterLoad, PassSteps, Reconciled, AllAdvanced;
    ghost var s := Holding(session.Work(), provider.payments, others, w, HasClaimed(k));
    match session.tasks[k].kind {
      case DisburseTransfer =>
        ghost var view;
        r, view := DisburseTransferTask(session, provider, k, w, others);
        steps := SendSteps(s.db, k, w, view, !provider.rejectAll);
      case SettleTransfer =>
        var o: TaskOutcome;
        ghost var settles;
        o, settles := SettleTransferTask(session, provider, k, w, others);
        r, steps := Some(o), settles + [SettlePayment(w, None)];
      case ReconcileBooks =>
        ghost var settles, ours, list;
        r, settles, ours, list := ReconcileBooksTask(session, provider, k, w, others);
        steps := settles + PassSteps(s.db, k, w, r.Some?, ours, list, WindowStart(s.db.now));
      case UnregisteredKind =>
        r := Some(Failure(UnknownKind, false));
        OtherPath(s, others, w, k, r.value);
        steps := [RunOtherTask(w, r.value)];
    }
  }

  /** `execute`: the handler, whatever happens to it, and then the row, in a second commit. */
  method Execute(session: Session, provider: MockProvider, k: Id, ghost w: Id, ghost others: map<Id, Phase>)
    returns (ghost steps: seq<Step>, ghost handled: Db, ghost outcome: TaskOutcome)
    requires k < |session.tasks| && w !in others
    requires session.committed == session.Work() && provider.Valid() && RecipientsKnown(session.Work())
    modifies session, provider`payments, provider`nextReference
    ensures provider.Valid() && session.committed == session.Work()
    ensures HandlesAs(old(session.Work()), k, provider.payments, !provider.rejectAll && !provider.unreachable,
                      !provider.rejectAll, handled, outcome)
    ensures k < |handled.tasks| && k < |session.tasks| && handled.tasks[k] == old(session.tasks)[k]
    ensures FinishesAs(handled.tasks[k], outcome, handled.now, session.tasks[k])
    ensures session.Work() == handled.(tasks := handled.tasks[k := session.tasks[k]])
    ensures |steps| > 0 && steps[|steps| - 1] == FinishTask(w)
    ensures HandlerSteps(old(session.Work()), k, w, !provider.rejectAll && !provider.unreachable, !provider.rejectAll,
                         steps[..|steps| - 1])
    ensures Path(Holding(old(session.Work()), old(provider.payments), others, w, HasClaimed(k)), steps,
                 Sys(session.Work(), provider.payments, others))
    ensures RanOnce(old(session.Work()), session.Work(), k)
  {
    hide Enabled, Apply, Path, RecipientsKnown, HandlerSteps, HandlesAs;
    ghost var s := Holding(session.Work(), provider.payments, others, w, HasClaimed(k));
    var r;
    r, steps := RunHandler(session, provider, k, w, others);
    if r.None? {
      session.Rollback();
    }
    var o := if r.Some? then r.value else Failure(Raised, true);
    handled, outcome := session.Work(), o;
    FinishPath(s, steps, handled, provider.payments, others, w, k, o);
    ghost var ran := steps;
    steps := steps + [FinishTask(w)];
    assert steps[..|steps| - 1] == ran;
    SettleRow(session, k, o);
  }
}
