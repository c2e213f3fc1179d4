/** What holds in every state of every run, whatever crashes, sweeps, retries and passes interleave. */
module RunTheorems {
  import opened Records
  import opened Ledger
  import opened TaskService
  import opened TransferService
  import opened Accounting
  import opened Provider
  import opened Disburse
  import opened Reconciliation
  import opened PassTheorems
  import opened RunService
  import opened Protocol
  import opened Invariance

  ghost predicate IsRun(ss: seq<Sys>, steps: seq<Step>) {
    && |ss| == |steps| + 1
    && Init(ss[0])
    && forall i :: 0 <= i < |steps| ==> Enabled(ss[i], steps[i]) && ss[i + 1] == Apply(ss[i], steps[i])
  }

  lemma {:induction false} EveryStateIsSound(ss: seq<Sys>, steps: seq<Step>, i: nat)
    requires IsRun(ss, steps) && i < |ss|
    ensures Inv(ss[i])
  {
    hide Inv, Init, Enabled, Apply;
    if i == 0 {
      InitInv(ss[0]);
    } else {
      EveryStateIsSound(ss, steps, i - 1);
      StepKeepsInvariant(ss[i - 1], steps[i - 1]);
    }
  }

  /** The states some run ends in. */
  ghost predicate Reachable(s: Sys) {
    exists ss, steps :: IsRun(ss, steps) && ss[|steps|] == s
  }

  lemma InitialIsReachable(s: Sys)
    requires Init(s)
    ensures Reachable(s)
  {
    assert IsRun([s], []) && [s][0] == s;
  }

  lemma StepReaches(s: Sys, step: Step)
    requires Reachable(s) && Enabled(s, step)
    ensures Reachable(Apply(s, step))
  {
    hide Enabled, Apply, Init;
    var ss, steps :| IsRun(ss, steps) && ss[|steps|] == s;
    var ss', steps' := ss + [Apply(s, step)], steps + [step];
    forall i | 0 <= i < |steps'| ensures Enabled(ss'[i], steps'[i]) && ss'[i + 1] == Apply(ss'[i], steps'[i]) {
      if i < |steps| {
        assert ss'[i] == ss[i] && ss'[i + 1] == ss[i + 1] && steps'[i] == steps[i];
      }
    }
    assert IsRun(ss', steps') && ss'[|steps'|] == Apply(s, step);
  }

  lemma ReachableIsSound(s: Sys)
    requires Reachable(s)
    ensures Inv(s)
  {
    hide Inv, Init, Enabled, Apply;
    var ss, steps :| IsRun(ss, steps) && ss[|steps|] == s;
    EveryStateIsSound(ss, steps, |steps|);
  }

  // -------------------------------------------------------------- status and journals

  lemma EvolvedIsReflexive(s: Sys)
    ensures Evolved(s, s)
  {
    assert s.db.transfers[..|s.db.transfers|] == s.db.transfers;
  }

  lemma EvolvedChains(a: Sys, b: Sys, c: Sys)
    requires Evolved(a, b) && Evolved(b, c)
    ensures Evolved(a, c)
  {
    var n := |a.db.transfers|;
    forall t | 0 <= t < n
      ensures SameIntent(a.db.transfers[t], c.db.transfers[..n][t])
      ensures Forward(a.db.transfers[t].status, c.db.transfers[..n][t].status)
    {
      assert b.db.transfers[..n][t] == b.db.transfers[t];
      assert c.db.transfers[..|b.db.transfers|][t] == c.db.transfers[..n][t];
    }
  }

  lemma {:induction false} RunsMoveForward(ss: seq<Sys>, steps: seq<Step>, i: nat, j: nat)
    requires IsRun(ss, steps) && i <= j < |ss|
    ensures Evolved(ss[i], ss[j])
    decreases j
  {
    hide Inv, Init, Enabled, Apply, Evolved;
    if i == j {
      EvolvedIsReflexive(ss[i]);
    } else {
      RunsMoveForward(ss, steps, i, j - 1);
      EveryStateIsSound(ss, steps, j - 1);
      StepMovesForward(ss[j - 1], steps[j - 1]);
      EvolvedChains(ss[i], ss[j - 1], ss[j]);
    }
  }

  /** The ledger only grows: what one state has posted, every later state still has, in place. */
  lemma {:induction false} LedgerOnlyGrows(ss: seq<Sys>, steps: seq<Step>, i: nat, j: nat)
    requires IsRun(ss, steps) && i <= j < |ss|
    ensures ss[i].db.journals <= ss[j].db.journals
    decreases j
  {
    hide Inv, Init, Enabled, Apply;
    if i < j {
      LedgerOnlyGrows(ss, steps, i, j - 1);
      EveryStateIsSound(ss, steps, j - 1);
      StepOnlyAppends(ss[j - 1], steps[j - 1]);
    }
  }

  /** In every state each transfer's journals are exactly those its status calls for, and between
      any two states of a run its status only moved forward. */
  lemma HistoriesAreExact(ss: seq<Sys>, steps: seq<Step>, i: nat, j: nat, t: Id)
    requires IsRun(ss, steps) && i <= j < |ss| && t < |ss[i].db.transfers|
    ensures t < |ss[j].db.transfers|
    ensures JournalsOf(ss[j].db.journals, t) == ExpectedJournals(t, ss[j].db.transfers[t])
    ensures Forward(ss[i].db.transfers[t].status, ss[j].db.transfers[t].status)
    ensures SameIntent(ss[i].db.transfers[t], ss[j].db.transfers[t])
  {
    hide IsRun, Init, ExpectedJournals, JournalsOf;
    RunsMoveForward(ss, steps, i, j);
    EveryStateIsSound(ss, steps, j);
    assert ss[j].db.transfers[..|ss[i].db.transfers|][t] == ss[j].db.transfers[t];
  }

  /** Derived balances are status sums; the fund and the payables are the float; nothing is overdrawn. */
  lemma BooksAlwaysAgree(ss: seq<Sys>, steps: seq<Step>, i: nat, rs: seq<Id>, c: Currency)
    requires IsRun(ss, steps) && i < |ss| && Distinct(rs)
    requires forall t :: 0 <= t < |ss[i].db.transfers| ==> ss[i].db.transfers[t].recipient in rs
    ensures var js, ts := ss[i].db.journals, ss[i].db.transfers;
            && (forall a :: BalanceMatches(js, ts, a))
            && Balance(js, ProgramFunding(c)) + PayablesOf(js, rs, c) == Balance(js, ProviderSettlement(c))
            && 0 <= Balance(js, ProgramFunding(c)) <= Balance(js, ProviderSettlement(c))
            && TrialBalance(js) == 0
  {
    hide IsRun, Init, Balance, TrialBalance, PayablesOf, BalanceMatches, TransfersOk, PaymentsOk, TasksOk, OneSendEach, WorkersOk, Distinct;
    EveryStateIsSound(ss, steps, i);
    var js, ts := ss[i].db.journals, ss[i].db.transfers;
    FundPlusPayablesIsFloat(js, ts, rs, c);
    FloatNeverOverdrawn(js, ts, c);
  }

  // ------------------------------------------------------------------------ the sends

  /** A worker asks the provider to pay, and the provider answers one way or the other. */
  predicate IsSendStep(step: Step) {
    step.ProviderAccepts? || step.ProviderRefuses?
  }

  /** Every send, first or repeated, accepted or refused, happens while its transfer is pending and held
      by this worker alone. */
  lemma SendsOnlyWhilePending(s: Sys, step: Step)
    requires Reachable(s) && IsSendStep(step) && Enabled(s, step)
    ensures var w := step.worker;
            var t := s.workers[w].transfer;
            && t < |s.db.transfers|
            && s.db.transfers[t].status.Pending?
            && IsSend(s.db.tasks, s.workers[w].task, t)
            && forall v :: v in s.workers && HoldsTransfer(s.workers[v]) && s.workers[v].transfer == t ==> v == w
  {
    hide Reachable, Audited, TransfersOk, PaymentsOk, TasksOk;
    var w := step.worker;
    ReachableIsSound(s);
    assert WorkerOk(w, s.workers[w], s.db, s.payments);
    forall v | v in s.workers && HoldsTransfer(s.workers[v]) && s.workers[v].transfer == s.workers[w].transfer
      ensures v == w
    {
      assert WorkerOk(v, s.workers[v], s.db, s.payments);
      OneHolder(s, w, v);
    }
  }

  /** This payment is for what the transfer says, and its reference is this transfer's or nobody's. */
  ghost predicate Belongs(s: Sys, t: Id, r: Reference)
    requires t < |s.db.transfers| && r in s.payments
  {
    var x, p := s.db.transfers[t], s.payments[r];
    && p.amount == x.amount && p.currency == x.currency
    && x.recipient in s.db.recipients && p.msisdn == s.db.recipients[x.recipient]
    && (x.reference.Some? ==> x.reference == Some(r))
    && (x.status.Succeeded? ==> p.status.Paid?)
    && (forall u :: 0 <= u < |s.db.transfers| && s.db.transfers[u].reference == Some(r) ==> u == t)
  }

  lemma PaymentFacts(s: Sys, t: Id, r: Reference, q: Reference)
    requires Inv(s) && t < |s.db.transfers| && r in s.payments && s.payments[r].key == t
    ensures Belongs(s, t, r)
    ensures q in s.payments && s.payments[q].key == t ==> q == r
  {
    hide Audited, TasksOk, OneSendEach, WorkersOk;
    assert PaymentOk(s.payments[r], r, s.db);
    assert TransferOk(s.db.transfers[t], t, s.db, s.payments);
    forall u | 0 <= u < |s.db.transfers| && s.db.transfers[u].reference == Some(r) ensures u == t {
      assert TransferOk(s.db.transfers[u], u, s.db, s.payments);
    }
  }

  /** The provider holds at most one payment for a transfer, for what the transfer says; a set reference
      is that payment's, is held by the provider, and is nobody else's; a succeeded transfer was paid. */
  lemma OnePaymentEach(s: Sys, t: Id)
    requires Reachable(s) && t < |s.db.transfers|
    ensures forall r :: r in s.payments && s.payments[r].key == t ==> Belongs(s, t, r)
    ensures forall r, q :: r in s.payments && q in s.payments && s.payments[r].key == t && s.payments[q].key == t ==> r == q
    ensures var reference := s.db.transfers[t].reference;
            reference.Some? ==> reference.value in s.payments && s.payments[reference.value].key == t
  {
    hide Reachable, Audited, TasksOk, OneSendEach, WorkersOk, Belongs;
    ReachableIsSound(s);
    assert TransferOk(s.db.transfers[t], t, s.db, s.payments);
    forall r, q | r in s.payments && q in s.payments && s.payments[r].key == t && s.payments[q].key == t
      ensures Belongs(s, t, r) && r == q
    {
      PaymentFacts(s, t, r, q);
    }
  }

  /** And a succeeded transfer has such a payment. */
  lemma SucceededMeansPaid(s: Sys, t: Id)
    requires Reachable(s) && t < |s.db.transfers| && s.db.transfers[t].status.Succeeded?
    ensures Holds(s.payments, t)
    ensures forall r :: r in s.payments && s.payments[r].key == t ==> s.payments[r].status.Paid?
  {
    hide Reachable, Audited, TasksOk, OneSendEach, WorkersOk;
    ReachableIsSound(s);
    assert TransferOk(s.db.transfers[t], t, s.db, s.payments);
    var r := s.db.transfers[t].reference.value;
    forall q | q in s.payments && s.payments[q].key == t ensures q == r {
      PaymentFacts(s, t, r, q);
    }
  }

  // ------------------------------------------------------------------- safe reversals

  /** Nothing was paid for this transfer, and nothing ever can be. */
  ghost predicate Unpayable(s: Sys, t: Id) {
    && t < |s.db.transfers|
    && s.db.transfers[t].status.Failed?
    && forall r :: r in s.payments && s.payments[r].key == t ==> s.payments[r].status.Bounced?
  }

  lemma UnpayableForever(s: Sys, step: Step, t: Id)
    requires Inv(s) && Enabled(s, step) && Unpayable(s, t)
    ensures Unpayable(Apply(s, step), t)
  {
    hide Audited, TransfersOk, PaymentsOk, TasksOk, OneSendEach, AfterAccept, AfterRefusal, AfterSettle, AfterLoad, Reconciled, Initiated, RunInitiated;
    StepMovesForward(s, step);
    var after := Apply(s, step);
    assert after.db.transfers[..|s.db.transfers|][t] == after.db.transfers[t];
    if step.ProviderAccepts? {
      assert WorkerOk(step.worker, s.workers[step.worker], s.db, s.payments);
    } else if !step.ProviderSettles? {
      assert after.payments == s.payments;
    }
  }

  /** A step of settlement or reconciliation that reverses this transfer. */
  ghost predicate Reverses(s: Sys, step: Step, t: Id) {
    && Enabled(s, step)
    && (step.SettlePayment? || step.ReconcilePass?)
    && t < |s.db.transfers|
    && !s.db.transfers[t].status.Failed?
    && t < |Apply(s, step).db.transfers|
    && Apply(s, step).db.transfers[t].status.Failed?
  }

  lemma SettlementReversesTheUnpaid(s: Sys, step: Step, t: Id)
    requires Inv(s) && step.SettlePayment? && Reverses(s, step, t)
    ensures Unpayable(Apply(s, step), t)
  {
    hide Audited, OneSendEach, WorkersOk;
    var k := s.workers[step.worker].task;
    assert TaskOk(s.db.tasks[k], s.db.transfers);
    assert TransferOk(s.db.transfers[t], t, s.db, s.payments);
    assert s.db.tasks[k].transfer == Some(t);
    var r := s.db.transfers[t].reference.value;
    forall q | q in s.payments && s.payments[q].key == t ensures s.payments[q].status.Bounced? {
      PaymentFacts(s, t, r, q);
    }
  }

  lemma PassReversesTheUnpaid(s: Sys, step: Step, t: Id)
    requires Inv(s) && step.ReconcilePass? && Reverses(s, step, t)
    ensures Unpayable(Apply(s, step), t)
  {
    hide Audited, TasksOk, OneSendEach, WorkersOk, Examined, Visited, VisitedAll;
    var theirs := Index(step.list);
    var after := Apply(s, step);
    ReconcilePassOk(s, step.ours, step.list, step.since);
    PassIsPointwise(s.db, step.ours, theirs);
    PassReversesOnlyTheUnpaid(s.db, step.ours, step.list, t);
    assert t in step.ours;
    var reference := after.db.transfers[t].reference;
    forall q | q in s.payments && s.payments[q].key == t ensures s.payments[q].status.Bounced? {
      assert PaymentOk(s.payments[q], q, s.db);
      assert q in theirs.byReference;
      assert TransferOk(after.db.transfers[t], t, after.db, after.payments);
    }
  }

  lemma {:induction false} UnpayableFrom(ss: seq<Sys>, steps: seq<Step>, i: nat, j: nat, t: Id)
    requires IsRun(ss, steps) && i <= j < |ss| && Unpayable(ss[i], t)
    ensures Unpayable(ss[j], t)
    decreases j
  {
    hide Init, Inv, Unpayable, Enabled, Apply;
    if i < j {
      UnpayableFrom(ss, steps, i, j - 1, t);
      EveryStateIsSound(ss, steps, j - 1);
      UnpayableForever(ss[j - 1], steps[j - 1], t);
    }
  }

  /** Whatever settlement or reconciliation reverses was not paid, then or in any later state. */
  lemma ReversalsAreSafe(ss: seq<Sys>, steps: seq<Step>, i: nat, j: nat, t: Id)
    requires IsRun(ss, steps) && i < j < |ss| && Reverses(ss[i], steps[i], t)
    ensures Unpayable(ss[j], t)
  {
    hide Init, Inv, Unpayable;
    EveryStateIsSound(ss, steps, i);
    if steps[i].SettlePayment? {
      SettlementReversesTheUnpaid(ss[i], steps[i], t);
    } else {
      PassReversesTheUnpaid(ss[i], steps[i], t);
    }
    UnpayableFrom(ss, steps, i + 1, j, t);
  }

  // ------------------------------------------------ the reversal that is not always safe

  /** The refused send gives up for good, and so reverses its transfer. */
  ghost predicate GivesUp(s: Sys, step: Step) {
    && step.HandleRefusal?
    && Enabled(s, step)
    && (s.workers[step.worker].retryable ==> IsLastAttempt(s.db.tasks[s.workers[step.worker].task]))
  }

  /** Before giving up, the provider held no live payment from an earlier attempt. */
  ghost predicate NothingOutstanding(s: Sys, step: Step) {
    GivesUp(s, step) ==>
      forall r :: r in s.payments && s.payments[r].key == s.workers[step.worker].transfer ==> s.payments[r].status.Bounced?
  }

  ghost predicate FailedMeansUnpayable(s: Sys) {
    forall t :: 0 <= t < |s.db.transfers| && s.db.transfers[t].status.Failed? ==> Unpayable(s, t)
  }

  lemma FailedByAnotherStep(s: Sys, step: Step, t: Id)
    requires Inv(s) && Enabled(s, step) && FailedMeansUnpayable(s)
    requires !step.HandleRefusal? && !step.ReconcilePass? && !step.SettlePayment?
    requires t < |Apply(s, step).db.transfers| && Apply(s, step).db.transfers[t].status.Failed?
    ensures t < |s.db.transfers| && s.db.transfers[t].status.Failed?
  {
    hide Inv, Unpayable, FailedMeansUnpayable, AfterLoad, RunInitiated;
    if step.AuthorizeRun? {
      RunOnlyAppends(s.db, step.items, step.currency);
      assert Apply(s, step).db.transfers[..|s.db.transfers|] == s.db.transfers;
    }
  }

  lemma QuietStepKeepsUnpayable(s: Sys, step: Step)
    requires Inv(s) && Enabled(s, step) && FailedMeansUnpayable(s) && NothingOutstanding(s, step)
    ensures FailedMeansUnpayable(Apply(s, step))
  {
    hide Audited, TransfersOk, PaymentsOk, TasksOk, OneSendEach, AfterAccept, AfterSettle, AfterLoad, Reconciled, Initiated, RunInitiated, Unpayable;
    var after := Apply(s, step);
    StepMovesForward(s, step);
    forall t | 0 <= t < |after.db.transfers| && after.db.transfers[t].status.Failed? ensures Unpayable(after, t) {
      if t < |s.db.transfers| && s.db.transfers[t].status.Failed? {
        UnpayableForever(s, step, t);
      } else if step.SettlePayment? || step.ReconcilePass? {
        if step.SettlePayment? {
          assert after.db.transfers == AfterSettle(s.db, s.workers[step.worker].task, s.payments, step.error).0.transfers;
          SettleAddsNoTransfer(s.db, s.workers[step.worker].task, s.payments, step.error);
          SettlementReversesTheUnpaid(s, step, t);
        } else {
          ReconcilePassOk(s, step.ours, step.list, step.since);
          PassReversesTheUnpaid(s, step, t);
        }
      } else if step.HandleRefusal? {
        assert WorkerOk(step.worker, s.workers[step.worker], s.db, s.payments);
        RefusalIsUnpayable(s, step, t);
      } else {
        FailedByAnotherStep(s, step, t);
      }
    }
  }

  lemma SettleAddsNoTransfer(db: Db, k: Id, payments: map<Reference, Payment>, error: Option<bool>)
    requires k < |db.tasks|
    ensures |AfterSettle(db, k, payments, error).0.transfers| == |db.transfers|
  {
  }

  lemma RefusalIsUnpayable(s: Sys, step: Step, t: Id)
    requires step.HandleRefusal? && Enabled(s, step) && NothingOutstanding(s, step)
    requires t < |Apply(s, step).db.transfers| && Apply(s, step).db.transfers[t].status.Failed?
    requires !(t < |s.db.transfers| && s.db.transfers[t].status.Failed?)
    ensures Unpayable(Apply(s, step), t)
  {
  }

  lemma NoneOutstandingIff(ss: seq<Sys>, steps: seq<Step>)
    requires IsRun(ss, steps)
    ensures (forall i :: 0 <= i < |steps| ==> NothingOutstanding(ss[i], steps[i])) <==>
            (forall i :: 0 <= i < |ss| ==> FailedMeansUnpayable(ss[i]))
  {
    hide Inv, Init, NothingOutstanding, FailedMeansUnpayable;
    if forall i :: 0 <= i < |steps| ==> NothingOutstanding(ss[i], steps[i]) {
      forall i | 0 <= i < |ss| ensures FailedMeansUnpayable(ss[i]) {
        QuietRunIsUnpayable(ss, steps, i);
      }
    }
    if forall i :: 0 <= i < |ss| ==> FailedMeansUnpayable(ss[i]) {
      forall i | 0 <= i < |steps| ensures NothingOutstanding(ss[i], steps[i]) {
        EveryStateIsSound(ss, steps, i);
        assert FailedMeansUnpayable(ss[i + 1]);
        LoudGiveUpShows(ss[i], steps[i]);
      }
    }
  }

  lemma {:induction false} QuietRunIsUnpayable(ss: seq<Sys>, steps: seq<Step>, i: nat)
    requires IsRun(ss, steps) && i < |ss|
    requires forall j :: 0 <= j < |steps| ==> NothingOutstanding(ss[j], steps[j])
    ensures FailedMeansUnpayable(ss[i])
  {
    hide Inv, NothingOutstanding;
    if i > 0 {
      QuietRunIsUnpayable(ss, steps, i - 1);
      EveryStateIsSound(ss, steps, i - 1);
      QuietStepKeepsUnpayable(ss[i - 1], steps[i - 1]);
    }
  }

  lemma LoudGiveUpShows(s: Sys, step: Step)
    requires Inv(s) && Enabled(s, step) && FailedMeansUnpayable(Apply(s, step))
    ensures NothingOutstanding(s, step)
  {
    hide Audited, TransfersOk, PaymentsOk, TasksOk, OneSendEach;
    if GivesUp(s, step) {
      var p := s.workers[step.worker];
      assert WorkerOk(step.worker, p, s.db, s.payments);
      var after := Apply(s, step);
      assert after.db.transfers[p.transfer].status.Failed?;
      assert Unpayable(after, p.transfer);
    }
  }

  // -------------------------------------------------------- how one comes to be outstanding

  /** A worker dies, or its handler raises, between the provider's yes and writing it down. */
  ghost predicate LosesAnAnswer(s: Sys, step: Step) {
    && (step.WorkerDies? || step.HandlerRaises?)
    && Enabled(s, step)
    && s.workers[step.worker].WasAccepted?
  }

  ghost predicate LosesAnswer(s: Sys, step: Step, t: Id) {
    LosesAnAnswer(s, step) && s.workers[step.worker].transfer == t
  }

  ghost predicate LostBefore(ss: seq<Sys>, steps: seq<Step>, i: nat, t: Id)
    requires i <= |steps| <= |ss|
  {
    exists j :: 0 <= j < i && LosesAnswer(ss[j], steps[j], t)
  }

  ghost predicate AwaitsRecord(s: Sys, t: Id) {
    exists w :: w in s.workers && s.workers[w].WasAccepted? && s.workers[w].transfer == t
  }

  /** Somebody knows of this payment: its transfer moved on, or a live worker is about to move it on. */
  ghost predicate Known(s: Sys, r: Reference)
    requires r in s.payments
  {
    var t := s.payments[r].key;
    t < |s.db.transfers| && (!s.db.transfers[t].status.Pending? || AwaitsRecord(s, t))
  }

  lemma RecordedIsNotPending(s: Sys, w: Id)
    requires Inv(s) && Enabled(s, RecordPayment(w))
    ensures var t, after := s.workers[w].transfer, Apply(s, RecordPayment(w)).db.transfers;
            t < |after| && !after[t].status.Pending?
  {
    hide Inv, ReferenceTaken;
    RecordPaymentOk(s, w);
  }

  /** A worker that holds an answer keeps it until it records it or loses it. */
  lemma AnswersAreKept(s: Sys, step: Step, w: Id)
    requires Inv(s) && Enabled(s, step) && w in s.workers && s.workers[w].WasAccepted?
    ensures var t, after := s.workers[w].transfer, Apply(s, step);
            || (w in after.workers && after.workers[w] == s.workers[w])
            || LosesAnswer(s, step, t)
            || (t < |after.db.transfers| && !after.db.transfers[t].status.Pending?)
  {
    hide Inv, AfterLoad, AfterAccept, AfterRefusal, AfterSettle, TaskSettled, Swept, Reconciled, Initiated, RunInitiated, Sends;
    if step == RecordPayment(w) {
      RecordedIsNotPending(s, w);
    }
  }

  lemma StepKeepsKnown(s: Sys, step: Step, r: Reference)
    requires Inv(s) && Enabled(s, step) && r in s.payments && Known(s, r)
    ensures r in Apply(s, step).payments && Apply(s, step).payments[r].key == s.payments[r].key
    ensures Known(Apply(s, step), r) || LosesAnswer(s, step, s.payments[r].key)
  {
    hide Inv, Enabled, Apply;
    var t, after := s.payments[r].key, Apply(s, step);
    PaymentsStay(s, step, r);
    StepMovesForward(s, step);
    assert after.db.transfers[..|s.db.transfers|][t] == after.db.transfers[t];
    if s.db.transfers[t].status.Pending? {
      var w :| w in s.workers && s.workers[w].WasAccepted? && s.workers[w].transfer == t;
      AnswersAreKept(s, step, w);
    }
  }

  lemma PaymentsStay(s: Sys, step: Step, r: Reference)
    requires Inv(s) && Enabled(s, step) && r in s.payments
    ensures r in Apply(s, step).payments && Apply(s, step).payments[r].key == s.payments[r].key
  {
    hide Inv, AfterLoad, AfterAccept, AfterRefusal, AfterSettle, TaskSettled, Swept, Reconciled, Initiated, RunInitiated;
  }

  lemma NewPaymentIsKnown(s: Sys, step: Step, r: Reference)
    requires Inv(s) && Enabled(s, step) && r in Apply(s, step).payments && r !in s.payments
    ensures Known(Apply(s, step), r)
  {
    hide Audited, TransfersOk, PaymentsOk, TasksOk, OneSendEach;
    hide AfterLoad, AfterAccept, AfterRefusal, AfterSettle, TaskSettled, Swept, Reconciled, Initiated, RunInitiated;
    if step.ProviderAccepts? {
      assert WorkerOk(step.worker, s.workers[step.worker], s.db, s.payments);
      var after := Apply(s, step);
      assert after.workers[step.worker].WasAccepted? && after.workers[step.worker].transfer == after.payments[r].key;
    }
  }

  lemma {:induction false} PaymentsKeepKeys(ss: seq<Sys>, steps: seq<Step>, i: nat, j: nat, r: Reference)
    requires IsRun(ss, steps) && i <= j < |ss| && r in ss[i].payments
    ensures r in ss[j].payments && ss[j].payments[r].key == ss[i].payments[r].key
    decreases j
  {
    hide Inv, Init, Enabled, Apply;
    if i < j {
      PaymentsKeepKeys(ss, steps, i, j - 1, r);
      EveryStateIsSound(ss, steps, j - 1);
      PaymentsStay(ss[j - 1], steps[j - 1], r);
    }
  }

  /** Every payment is known to somebody, unless a worker lost the provider's answer about it. */
  lemma {:induction false} PaymentsAreKnown(ss: seq<Sys>, steps: seq<Step>, i: nat, r: Reference)
    requires IsRun(ss, steps) && i < |ss| && r in ss[i].payments
    ensures Known(ss[i], r) || LostBefore(ss, steps, i, ss[i].payments[r].key)
  {
    hide Inv, Enabled, Apply, Known, LosesAnAnswer;
    if i > 0 {
      EveryStateIsSound(ss, steps, i - 1);
      var s, step := ss[i - 1], steps[i - 1];
      if r in s.payments {
        PaymentsAreKnown(ss, steps, i - 1, r);
        PaymentsStay(s, step, r);
        if Known(s, r) {
          StepKeepsKnown(s, step, r);
        }
      } else {
        NewPaymentIsKnown(s, step, r);
      }
    }
  }

  /** Nobody else can be holding an answer about a transfer whose send was refused. */
  lemma RefusedIsNotAwaited(s: Sys, w: Id)
    requires Inv(s) && w in s.workers && s.workers[w].WasRefused?
    ensures var t := s.workers[w].transfer;
            t < |s.db.transfers| && s.db.transfers[t].status.Pending? && !AwaitsRecord(s, t)
  {
    hide Audited, TransfersOk, PaymentsOk, TasksOk;
    var t := s.workers[w].transfer;
    assert WorkerOk(w, s.workers[w], s.db, s.payments);
    forall v | v in s.workers && HoldsTransfer(s.workers[v]) && s.workers[v].transfer == t ensures v == w {
      assert WorkerOk(v, s.workers[v], s.db, s.payments);
      OneHolder(s, w, v);
    }
  }

  /** An answer about a transfer is lost; later its send gives up for good, and what the provider said
      yes to has still not bounced. */
  ghost predicate LostThenGivenUp(ss: seq<Sys>, steps: seq<Step>, j: nat, i: nat)
    requires |ss| == |steps| + 1 && j < i < |steps|
  {
    && GivesUp(ss[i], steps[i])
    && LosesAnswer(ss[j], steps[j], ss[i].workers[steps[i].worker].transfer)
    && var r := ss[j].workers[steps[j].worker].payment.reference;
       r in ss[i].payments && !ss[i].payments[r].status.Bounced?
  }

  /** A payment is outstanding at a give-up only because an earlier step lost the answer about it. */
  lemma OutstandingWasLost(ss: seq<Sys>, steps: seq<Step>, i: nat) returns (j: nat)
    requires IsRun(ss, steps) && i < |steps| && !NothingOutstanding(ss[i], steps[i])
    ensures j < i && LostThenGivenUp(ss, steps, j, i)
  {
    hide Inv, Init, Enabled, Apply;
    GiverIsRefused(ss[i], steps[i]);
    var s, w := ss[i], steps[i].worker;
    var t := s.workers[w].transfer;
    var r :| r in s.payments && s.payments[r].key == t && !s.payments[r].status.Bounced?;
    EveryStateIsSound(ss, steps, i);
    RefusedIsNotAwaited(s, w);
    PaymentsAreKnown(ss, steps, i, r);
    j :| 0 <= j < i && LosesAnswer(ss[j], steps[j], t);
    EveryStateIsSound(ss, steps, j);
    var q := LostIsThePayment(ss[j], steps[j], t);
    PaymentsKeepKeys(ss, steps, j, i, q);
    PaymentFacts(s, t, r, q);
  }

  lemma GiverIsRefused(s: Sys, step: Step)
    requires GivesUp(s, step)
    ensures step.worker in s.workers && s.workers[step.worker].WasRefused?
  {
  }

  lemma LostIsThePayment(s: Sys, step: Step, t: Id) returns (r: Reference)
    requires Inv(s) && LosesAnswer(s, step, t)
    ensures step.worker in s.workers && s.workers[step.worker].WasAccepted?
    ensures r == s.workers[step.worker].payment.reference && r in s.payments && s.payments[r].key == t
  {
    hide Audited, TransfersOk, PaymentsOk, TasksOk, OneSendEach;
    r := s.workers[step.worker].payment.reference;
    assert WorkerOk(step.worker, s.workers[step.worker], s.db, s.payments);
  }

  ghost predicate NeverLostThenGivenUp(ss: seq<Sys>, steps: seq<Step>)
    requires |ss| == |steps| + 1
  {
    forall j, i :: 0 <= j < i < |steps| ==> !LostThenGivenUp(ss, steps, j, i)
  }

  lemma GivenUpWasOutstanding(ss: seq<Sys>, steps: seq<Step>, j: nat, i: nat)
    requires IsRun(ss, steps) && j < i < |steps| && LostThenGivenUp(ss, steps, j, i)
    ensures !NothingOutstanding(ss[i], steps[i])
  {
    hide Inv, Init, Enabled, Apply;
    GiverIsRefused(ss[i], steps[i]);
    var t := ss[i].workers[steps[i].worker].transfer;
    EveryStateIsSound(ss, steps, j);
    var r := LostIsThePayment(ss[j], steps[j], t);
    PaymentsKeepKeys(ss, steps, j, i, r);
  }

  /** A run fails no transfer the provider has paid, or may yet pay, exactly when no worker in it dies or
      raises with an accepted send in hand whose transfer is later given up, the payment not bounced. */
  lemma FailedMeansUnpayableIff(ss: seq<Sys>, steps: seq<Step>)
    requires IsRun(ss, steps)
    ensures (forall i :: 0 <= i < |ss| ==> FailedMeansUnpayable(ss[i])) <==> NeverLostThenGivenUp(ss, steps)
  {
    hide Inv, Init, Enabled, Apply, NothingOutstanding, FailedMeansUnpayable, LostThenGivenUp;
    NoneOutstandingIff(ss, steps);
    if forall i :: 0 <= i < |steps| ==> NothingOutstanding(ss[i], steps[i]) {
      forall j, i | 0 <= j < i < |steps| ensures !LostThenGivenUp(ss, steps, j, i) {
        if LostThenGivenUp(ss, steps, j, i) {
          GivenUpWasOutstanding(ss, steps, j, i);
        }
      }
    } else {
      var i :| 0 <= i < |steps| && !NothingOutstanding(ss[i], steps[i]);
      var j := OutstandingWasLost(ss, steps, i);
    }
  }

  /** So where no answer is ever lost, no payable transfer is ever failed. */
  lemma NoAnswerLostNoneFailed(ss: seq<Sys>, steps: seq<Step>, i: nat)
    requires IsRun(ss, steps) && i < |ss|
    requires forall j :: 0 <= j < |steps| ==> !LosesAnAnswer(ss[j], steps[j])
    ensures FailedMeansUnpayable(ss[i])
  {
    hide Inv, Init, Enabled, Apply, FailedMeansUnpayable, LosesAnAnswer;
    FailedMeansUnpayableIff(ss, steps);
  }
}
