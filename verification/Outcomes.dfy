/** What the steps of the protocol do, told from the rows they leave, and what follows over whole runs. */
module Outcomes {
  import opened Records
  import opened Ledger
  import opened TaskService
  import opened TransferService
  import opened Accounting
  import opened Provider
  import opened Disburse
  import opened Reconciliation
  import opened PassTheorems
  import opened RunService
  import opened Protocol
  import opened Invariance
  import opened RunTheorems
  import opened RunSummaries

  // ------------------------------------------------------------------ one step at a time

  /** A worker's step: what it knows afterwards, and the rows as they are then. */
  ghost predicate EndsAs(s: Sys, after: Sys, w: Id, o: TaskOutcome) {
    && w in s.workers
    && after == s.(db := after.db, workers := s.workers[w := HasEnded(s.workers[w].task, o)])
  }

  lemma LoadingOnTheRows(s: Sys, w: Id)
    requires Enabled(s, LoadTransfer(w))
    ensures var after := Apply(s, LoadTransfer(w));
            && w in after.workers && after.db == s.db && after.payments == s.payments
            && LoadsAs(s.db, s.workers[w].task, after.workers[w])
  {
    hide AfterLoad, LoadsAs;
    LoadIsAsAsked(s.db, s.workers[w].task);
  }

  /** In a state of any run an accepted payment is always recorded: its transfer becomes processing against
      it, one check on it is queued for three seconds later, and the send is done. */
  lemma RecordingOnTheRows(s: Sys, w: Id)
    requires Reachable(s) && Enabled(s, RecordPayment(w))
    ensures var p, after := s.workers[w], Apply(s, RecordPayment(w));
            var x, t, r := s.db.transfers[p.transfer], p.transfer, p.payment.reference;
            && EndsAs(s, after, w, TaskOutcome(true, None, false))
            && after.db.transfers == s.db.transfers[t :=
                 Transfer(x.recipient, x.amount, x.currency, Processing, Some(r), x.run, x.createdAt)]
            && after.db.journals == s.db.journals
            && after.db.tasks == s.db.tasks + [Task(SettleTransfer, Some(t), Queued, 0, 3, None, s.db.now + 3, 0)]
  {
    hide Reachable, Inv, AfterAccept;
    ReachableIsSound(s);
    RecordPaymentOk(s, w);
    AcceptIsAsAsked(s.db, s.workers[w].transfer, s.workers[w].payment);
  }

  /** A refused send is tried again while the provider allows it and attempts are left; otherwise its
      pending transfer fails and the fund gets its money back. */
  lemma RefusalOnTheRows(s: Sys, w: Id)
    requires Reachable(s) && Enabled(s, HandleRefusal(w))
    ensures var p, after := s.workers[w], Apply(s, HandleRefusal(w));
            var more := p.retryable && s.db.tasks[p.task].attempts < s.db.tasks[p.task].maxAttempts;
            && EndsAs(s, after, w, TaskOutcome(false, Some(ProviderSaid), more))
            && if more then after.db == s.db
               else p.transfer < |s.db.transfers| && ReversesBooks(s.db, p.transfer, s.db.transfers[p.transfer], after.db)
  {
    hide Reachable, Audited, TransfersOk, PaymentsOk, TasksOk, OneSendEach, AfterRefusal, ReversesBooks;
    ReachableIsSound(s);
    var p := s.workers[w];
    assert WorkerOk(w, p, s.db, s.payments);
    RefusalIsAsAsked(s.db, p.task, p.transfer, p.copy, p.retryable);
  }

  lemma SettlingOnTheRows(s: Sys, w: Id, error: Option<bool>)
    requires Enabled(s, SettlePayment(w, error))
    ensures var after := Apply(s, SettlePayment(w, error));
            && w in after.workers && after.workers[w].HasEnded? && after.payments == s.payments
            && SettlesAs(s.db, s.workers[w].task, s.payments, error, after.db, after.workers[w].outcome)
            && EndsAs(s, after, w, after.workers[w].outcome)
  {
    hide AfterSettle, SettlesAs;
    SettleIsAsAsked(s.db, s.workers[w].task, s.payments, error);
  }

  /** A processing transfer that is checked on follows what the provider says of its payment: paid, it is
      settled and succeeds; bounced, it is reversed and fails; still pending, it is looked at again. */
  lemma SettlementFollowsTheProvider(s: Sys, w: Id, t: Id)
    requires Reachable(s) && Enabled(s, SettlePayment(w, None))
    requires s.db.tasks[s.workers[w].task].transfer == Some(t) && t < |s.db.transfers|
    requires s.db.transfers[t].status == Processing
    ensures var x, after := s.db.transfers[t], Apply(s, SettlePayment(w, None));
            && x.reference.Some? && x.reference.value in s.payments
            && EndsAs(s, after, w, TaskOutcome(true, None, false))
            && match s.payments[x.reference.value].status
               case Paid => SettlesBooks(s.db, t, x, after.db)
               case Bounced => ReversesBooks(s.db, t, x, after.db)
               case Accepted => LooksAgain(s.db, t, after.db)
  {
    hide Reachable, Audited, PaymentsOk, TasksOk, OneSendEach, WorkersOk, AfterSettle;
    ReachableIsSound(s);
    assert TransferOk(s.db.transfers[t], t, s.db, s.payments);
    SettlingOnTheRows(s, w, None);
  }

  lemma FinishingOnTheRows(s: Sys, w: Id)
    requires Enabled(s, FinishTask(w))
    ensures var k, after := s.workers[w].task, Apply(s, FinishTask(w));
            && |after.db.tasks| == |s.db.tasks|
            && FinishesAs(s.db.tasks[k], s.workers[w].outcome, s.db.now, after.db.tasks[k])
            && (forall j :: 0 <= j < |s.db.tasks| && j != k ==> after.db.tasks[j] == s.db.tasks[j])
            && after == s.(db := s.db.(tasks := after.db.tasks), workers := s.workers - {w})
  {
    hide FinishesAs;
    SettledFinishes(s.db.tasks[s.workers[w].task], s.workers[w].outcome, s.db.now);
  }

  lemma QueueOnTheRows(s: Sys, step: Step)
    requires Enabled(s, step)
    ensures step.ClaimTask? ==>
              var k, after := step.task, Apply(s, step).db.tasks;
              && |after| == |s.db.tasks|
              && ClaimsAs(s.db.tasks[k], step.worker, s.db.now, after[k])
              && forall j :: 0 <= j < |after| && j != k ==> after[j] == s.db.tasks[j]
    ensures step.Sweep? ==>
              var after := Apply(s, step).db.tasks;
              && |after| == |s.db.tasks|
              && forall k :: 0 <= k < |after| ==> SweepsAs(s.db.tasks[k], s.db.now, step.staleSeconds, after[k])
    ensures step.RetryDeadLetter? ==>
              RetriesAs(s.db.tasks, s.db.transfers, step.task, s.db.now, Ok(()), Apply(s, step).db.tasks)
  {
    hide AfterLoad, AfterAccept, AfterRefusal, AfterSettle, Initiated, RunInitiated, Reconciled, Sends, RetriesAs;
    if step.RetryDeadLetter? {
      RetriedIsAsAsked(s.db, step.task);
    }
  }

  lemma AuthorizingOnTheRows(s: Sys, step: Step)
    requires Enabled(s, step) && (step.Authorize? || step.AuthorizeRun?)
    ensures step.Authorize? ==>
              AuthorizesAs(s.db, step.recipient, step.asked, step.currency, None, |s.db.transfers|, Apply(s, step).db)
    ensures step.AuthorizeRun? ==> AuthorizesRunAs(s.db, step.items, step.currency, s.db.runs, Apply(s, step).db)
  {
    hide Initiated, RunInitiated, AuthorizesAs, AuthorizesRunAs, RefusesFor;
    if step.Authorize? {
      InitiatedIsAsAsked(s.db, step.recipient, step.asked, step.currency, None);
    } else {
      RunAuthorizes(s.db, step.items, step.currency);
    }
  }

  /** In a state of any run a pass shows, for each transfer, exactly what its rows call for. */
  lemma PassingOnTheRows(s: Sys, ours: seq<Id>, list: seq<Payment>, since: Time, t: Id)
    requires Reachable(s) && Window(s.db, ours, since) && IsListing(list, s.payments, since) && t < |s.db.transfers|
    ensures Enabled(s, ReconcilePass(ours, list, since))
    ensures Told(s.db, ours, list, t, Apply(s, ReconcilePass(ours, list, since)).db, Reconciled(s.db, ours, list).findings)
  {
    hide Reachable, Inv, Reconciled, Told, IsListing;
    ReachableIsSound(s);
    PassNeverRaises(s, ours, list, since);
    PassTellsOfEach(s.db, ours, list, t);
  }

  /** Every payment begins as the pending payment of a transfer's own send, made at that moment. */
  lemma PaymentsBeginPending(s: Sys, step: Step, r: Reference)
    requires Reachable(s) && Enabled(s, step) && r in Apply(s, step).payments && r !in s.payments
    ensures var p := Apply(s, step).payments[r];
            && p.key < |s.db.transfers|
            && var x := s.db.transfers[p.key];
               && x.recipient in s.db.recipients && x.status == Pending
               && p == Payment(r, p.key, s.db.recipients[x.recipient], x.amount, x.currency, Accepted, s.db.now)
  {
    hide Reachable, Audited, TransfersOk, PaymentsOk, TasksOk, OneSendEach;
    hide AfterLoad, AfterAccept, AfterRefusal, AfterSettle, TaskSettled, Swept, Reconciled, Initiated, RunInitiated;
    ReachableIsSound(s);
    if step.ProviderAccepts? {
      assert WorkerOk(step.worker, s.workers[step.worker], s.db, s.payments);
    }
  }

  // ------------------------------------------------------------- how a row of the queue ends

  /** Its handler ended badly, for good or with no attempt left. */
  ghost predicate EndsBadly(s: Sys, step: Step, k: Id) {
    && step.FinishTask? && Enabled(s, step) && s.workers[step.worker].task == k
    && var o := s.workers[step.worker].outcome;
       !o.ok && (!o.retryable || s.db.tasks[k].attempts >= s.db.tasks[k].maxAttempts)
  }

  /** Its worker was gone too long, and it had no attempt left. */
  ghost predicate SweptSpent(s: Sys, step: Step, k: Id) {
    && step.Sweep? && k < |s.db.tasks|
    && var x := s.db.tasks[k];
       && x.status == Running && x.claim.Some? && s.db.now - x.claim.value.at > step.staleSeconds
       && x.attempts >= x.maxAttempts
  }

  ghost predicate EndsWell(s: Sys, step: Step, k: Id) {
    step.FinishTask? && Enabled(s, step) && s.workers[step.worker].task == k && s.workers[step.worker].outcome.ok
  }

  predicate OnlyAddsQueued(before: seq<Task>, after: seq<Task>) {
    before <= after && forall k :: |before| <= k < |after| ==> after[k].status == Queued
  }

  lemma HandlersOnlyAddQueued(s: Sys, step: Step)
    requires Enabled(s, step) && (step.RecordPayment? || step.HandleRefusal? || step.SettlePayment?)
    ensures OnlyAddsQueued(s.db.tasks, Apply(s, step).db.tasks)
  {
    hide SettledJournal, ReversedJournal, ReferenceTaken;
  }

  lemma OthersOnlyAddQueued(s: Sys, step: Step)
    requires Enabled(s, step)
    requires !step.ClaimTask? && !step.RetryDeadLetter? && !step.FinishTask? && !step.Sweep?
    ensures OnlyAddsQueued(s.db.tasks, Apply(s, step).db.tasks)
  {
    hide AfterLoad, AfterAccept, AfterRefusal, AfterSettle, VisitedAll, InitiatedAll, IsListing, Sends, SendIsDead, Balance,
      WellIndexed, Unknowns, NobodyTwice, Initiated, Reconciled, AuthorizesItemsAs, OnlyAddsQueued;
    match step
    case Authorize(r, n, c) => OneOnlyAddsQueued(s, step);
    case AuthorizeRun(items, c) => RunOnlyAddsQueued(s, step);
    case ReconcilePass(ours, list, since) => PassAddsNone(s, step);
    case RecordPayment(w) => HandlersOnlyAddQueued(s, step);
    case HandleRefusal(w) => HandlersOnlyAddQueued(s, step);
    case SettlePayment(w, error) => HandlersOnlyAddQueued(s, step);
    case ScheduleReconcile(delay) => AddsOneQueued(s.db.tasks, NewTask(s.db, ReconcileBooks, None, Some(s.db.now + delay)));
    case _ => AddsNone(s.db.tasks);
  }

  lemma AddsNone(tasks: seq<Task>)
    ensures OnlyAddsQueued(tasks, tasks)
  {
  }

  lemma AddsOneQueued(tasks: seq<Task>, x: Task)
    requires x.status == Queued
    ensures OnlyAddsQueued(tasks, tasks + [x])
  {
  }

  lemma OneOnlyAddsQueued(s: Sys, step: Step)
    requires Enabled(s, step) && step.Authorize?
    ensures OnlyAddsQueued(s.db.tasks, Apply(s, step).db.tasks)
  {
    hide Enabled, Apply;
    AuthorizingOnTheRows(s, step);
  }

  lemma RunOnlyAddsQueued(s: Sys, step: Step)
    requires Enabled(s, step) && step.AuthorizeRun?
    ensures OnlyAddsQueued(s.db.tasks, Apply(s, step).db.tasks)
  {
    hide Enabled, Apply;
    AuthorizingOnTheRows(s, step);
    var before, after := s.db.tasks, Apply(s, step).db.tasks;
    forall k | |before| <= k < |after| ensures after[k].status == Queued {
      assert step.items[k - |before|].amount > 0;
    }
  }

  lemma PassAddsNone(s: Sys, step: Step)
    requires Enabled(s, step) && step.ReconcilePass?
    ensures OnlyAddsQueued(s.db.tasks, Apply(s, step).db.tasks)
  {
    hide VisitedAll, IsListing, Unknowns, WellIndexed;
    VisitsOnlyAppend(s.db, step.ours, Index(step.list));
  }

  /** A row ends in a step only as that step says. */
  lemma StepEnds(s: Sys, step: Step, k: Id)
    requires Enabled(s, step) && k < |Apply(s, step).db.tasks|
    ensures var y := Apply(s, step).db.tasks[k];
            && (y.status == DeadLettered ==>
                  || (k < |s.db.tasks| && s.db.tasks[k].status == DeadLettered)
                  || EndsBadly(s, step, k) || SweptSpent(s, step, k))
            && (y.status == Finished ==>
                  (k < |s.db.tasks| && s.db.tasks[k].status == Finished) || EndsWell(s, step, k))
  {
    hide Enabled, Apply;
    if step.FinishTask? {
      EndedIsAt(s, step);
      FinishingOnTheRows(s, step.worker);
    } else if step.ClaimTask? || step.Sweep? || step.RetryDeadLetter? {
      QueueOnTheRows(s, step);
    } else {
      OthersOnlyAddQueued(s, step);
    }
  }

  lemma EndedIsAt(s: Sys, step: Step)
    requires step.FinishTask? && Enabled(s, step)
    ensures At(s, step.worker) && s.workers[step.worker].HasEnded?
  {
  }

  /** In every state of every run, a dead letter was made one by a handler that ended badly, for good or
      out of attempts, or by a sweep that found its attempts spent; and a finished row by a handler that
      ended well. */
  lemma {:induction false} RowsEndForAReason(ss: seq<Sys>, steps: seq<Step>, i: nat, k: Id)
    requires IsRun(ss, steps) && i < |ss| && k < |ss[i].db.tasks|
    ensures ss[i].db.tasks[k].status == DeadLettered ==>
              exists j :: 0 <= j < i && (EndsBadly(ss[j], steps[j], k) || SweptSpent(ss[j], steps[j], k))
    ensures ss[i].db.tasks[k].status == Finished ==>
              exists j :: 0 <= j < i && EndsWell(ss[j], steps[j], k)
  {
    hide Enabled, Apply, EndsBadly, SweptSpent, EndsWell;
    if i > 0 {
      StepEnds(ss[i - 1], steps[i - 1], k);
      if k < |ss[i - 1].db.tasks| {
        RowsEndForAReason(ss, steps, i - 1, k);
      }
    }
  }

  // ---------------------------------------------------------------- when a transfer was made

  lemma OnlyAuthorizingAdds(s: Sys, step: Step)
    requires Inv(s) && Enabled(s, step) && !step.Authorize? && !step.AuthorizeRun?
    ensures |Apply(s, step).db.transfers| == |s.db.transfers|
  {
    hide Inv, AfterLoad, AfterAccept, AfterRefusal, AfterSettle, Reconciled, RunInitiated, Initiated, Sends;
    match step
    case RecordPayment(w) => SendAddsNoTransfer(s, w);
    case HandleRefusal(w) => SendAddsNoTransfer(s, w);
    case SettlePayment(w, error) => SettleAddsNoTransfer(s.db, s.workers[w].task, s.payments, error);
    case ReconcilePass(ours, list, since) => ReconcilePassOk(s, ours, list, since);
    case _ =>
  }

  /** The step that makes this transfer, at the clock it was made. */
  ghost predicate Makes(s: Sys, step: Step, t: Id) {
    && (step.Authorize? || step.AuthorizeRun?)
    && Enabled(s, step)
    && |s.db.transfers| <= t < |Apply(s, step).db.transfers|
    && Apply(s, step).db.transfers[t].createdAt == s.db.now
  }

  lemma NewIsMadeNow(s: Sys, step: Step, t: Id)
    requires Inv(s) && Enabled(s, step) && |s.db.transfers| <= t < |Apply(s, step).db.transfers|
    ensures Makes(s, step, t)
  {
    hide Inv, Enabled, Apply;
    if step.Authorize? || step.AuthorizeRun? {
      AuthorizingOnTheRows(s, step);
      if step.AuthorizeRun? {
        var i := t - |s.db.transfers|;
        assert step.items[i].amount > 0;
      }
    } else {
      OnlyAuthorizingAdds(s, step);
    }
  }

  /** A transfer's creation time is the clock of the state in which it was authorized. */
  lemma {:induction false} MadeAt(ss: seq<Sys>, steps: seq<Step>, i: nat, t: Id) returns (j: nat)
    requires IsRun(ss, steps) && i < |ss| && t < |ss[i].db.transfers|
    ensures j < i && Makes(ss[j], steps[j], t)
    ensures ss[i].db.transfers[t].createdAt == ss[j].db.now
  {
    hide Inv, Enabled, Apply, Makes;
    if t < |ss[i - 1].db.transfers| {
      j := MadeAt(ss, steps, i - 1, t);
      RunsMoveForward(ss, steps, i - 1, i);
      assert ss[i].db.transfers[..|ss[i - 1].db.transfers|][t] == ss[i].db.transfers[t];
    } else {
      j := i - 1;
      EveryStateIsSound(ss, steps, j);
      NewIsMadeNow(ss[j], steps[j], t);
      MadeNowCreatedNow(ss[j], steps[j], t);
    }
  }

  lemma MadeNowCreatedNow(s: Sys, step: Step, t: Id)
    requires Makes(s, step, t)
    ensures Enabled(s, step) && t < |Apply(s, step).db.transfers|
    ensures Apply(s, step).db.transfers[t].createdAt == s.db.now
  {
    hide Enabled, Apply;
  }

  /** So a pass visits a transfer exactly when its window does not start after the transfer was authorized. */
  lemma VisitedIffMadeSince(ss: seq<Sys>, steps: seq<Step>, i: nat, t: Id, ours: seq<Id>, since: Time) returns (j: nat)
    requires IsRun(ss, steps) && i < |ss| && t < |ss[i].db.transfers| && Window(ss[i].db, ours, since)
    ensures j < i && Makes(ss[j], steps[j], t)
    ensures t in ours <==> since <= ss[j].db.now
  {
    hide IsRun, Makes;
    j := MadeAt(ss, steps, i, t);
  }
}
