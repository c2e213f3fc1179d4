/** What operators see: stuck work, attempt budgets, and what a pass leaves unresolved. */
module OperationsTheorems {
  import opened Records
  import opened Ledger
  import opened TaskService
  import opened TransferService
  import opened Accounting
  import opened Provider
  import opened Disburse
  import opened Reconciliation
  import opened PassTheorems
  import opened RunService
  import opened Protocol
  import opened Invariance
  import opened RunTheorems

  // --------------------------------------------------------------------- the queue

  /** A pending transfer has exactly one send task, and it never finished. */
  lemma PendingIsNeverForgotten(s: Sys, t: Id) returns (k: Id)
    requires Reachable(s) && t < |s.db.transfers| && s.db.transfers[t].status.Pending?
    ensures IsSend(s.db.tasks, k, t) && !s.db.tasks[k].status.Finished?
    ensures forall l :: IsSend(s.db.tasks, l, t) ==> l == k
  {
    hide Reachable, Audited, TransfersOk, PaymentsOk, WorkersOk;
    ReachableIsSound(s);
    assert HasSend(s.db.tasks, t);
    k :| IsSend(s.db.tasks, k, t);
    assert TaskOk(s.db.tasks[k], s.db.transfers);
  }

  /** How often this row was claimed. */
  function Claims(steps: seq<Step>, k: Id): nat {
    if |steps| == 0 then 0
    else
      var step := steps[|steps| - 1];
      Claims(steps[..|steps| - 1], k) + if step.ClaimTask? && step.task == k then 1 else 0
  }

  /** How often a person retried it. */
  function Retries(steps: seq<Step>, k: Id): nat {
    if |steps| == 0 then 0
    else
      var step := steps[|steps| - 1];
      Retries(steps[..|steps| - 1], k) + if step.RetryDeadLetter? && step.task == k then 1 else 0
  }

  /** Rows already there keep their two counts, and new ones start from nothing. */
  predicate KeepsCounts(before: seq<Task>, after: seq<Task>) {
    && |before| <= |after|
    && (forall k :: 0 <= k < |before| ==> after[k].attempts == before[k].attempts && after[k].requeues == before[k].requeues)
    && (forall k :: |before| <= k < |after| ==> after[k].attempts == 0 && after[k].requeues == 0)
  }

  lemma HandlersKeepCounts(s: Sys, step: Step)
    requires Enabled(s, step) && (step.RecordPayment? || step.HandleRefusal? || step.SettlePayment?)
    ensures KeepsCounts(s.db.tasks, Apply(s, step).db.tasks)
  {
    hide SettledJournal, ReversedJournal, ReferenceTaken;
  }

  lemma QuietStepsKeepCounts(s: Sys, step: Step)
    requires Enabled(s, step) && !step.ClaimTask? && !step.RetryDeadLetter?
    ensures KeepsCounts(s.db.tasks, Apply(s, step).db.tasks)
  {
    hide AfterLoad, AfterAccept, AfterRefusal, AfterSettle, VisitedAll, InitiatedAll, IsListing, Sends, SendIsDead, Balance,
      WellIndexed, Unknowns, NobodyTwice;
    match step
    case AuthorizeRun(items, c) => ItemsOnlyAppend(s.db.(runs := s.db.runs + 1), items, c, s.db.runs);
    case ReconcilePass(ours, list, since) => VisitsOnlyAppend(s.db, ours, Index(list));
    case RecordPayment(w) => HandlersKeepCounts(s, step);
    case HandleRefusal(w) => HandlersKeepCounts(s, step);
    case SettlePayment(w, error) => HandlersKeepCounts(s, step);
    case _ =>
  }

  lemma CountedSteps(s: Sys, step: Step)
    requires Enabled(s, step) && (step.ClaimTask? || step.RetryDeadLetter?)
    ensures step.task < |s.db.tasks|
    ensures var x := s.db.tasks[step.task];
            && var y := if step.ClaimTask? then x.(attempts := x.attempts + 1) else x.(requeues := x.requeues + 1);
            && KeepsCounts(s.db.tasks[step.task := y], Apply(s, step).db.tasks)
  {
  }

  /** The two counts in a row are counts of the run's own steps. */
  lemma {:induction false} CountsAreOfSteps(ss: seq<Sys>, steps: seq<Step>, i: nat, k: Id)
    requires IsRun(ss, steps) && i < |ss|
    ensures k < |ss[i].db.tasks| ==>
              && ss[i].db.tasks[k].attempts == Claims(steps[..i], k)
              && ss[i].db.tasks[k].requeues == Retries(steps[..i], k)
    ensures k >= |ss[i].db.tasks| ==> Claims(steps[..i], k) == 0 && Retries(steps[..i], k) == 0
  {
    hide Enabled, Apply;
    if i > 0 {
      CountsAreOfSteps(ss, steps, i - 1, k);
      var s, step := ss[i - 1], steps[i - 1];
      assert steps[..i][..i - 1] == steps[..i - 1];
      if step.ClaimTask? || step.RetryDeadLetter? {
        CountedSteps(s, step);
      } else {
        QuietStepsKeepCounts(s, step);
      }
    }
  }

  /** Budgets, in every state of every run: a row waits only with attempts left, never overspends them,
      and has been claimed at most three times plus three for every retry by a person. */
  lemma BudgetsHold(ss: seq<Sys>, steps: seq<Step>, i: nat, k: Id)
    requires IsRun(ss, steps) && i < |ss| && k < |ss[i].db.tasks|
    ensures var x := ss[i].db.tasks[k];
            && x.attempts == Claims(steps[..i], k)
            && (x.status.Queued? ==> Claims(steps[..i], k) < x.maxAttempts)
            && Claims(steps[..i], k) <= x.maxAttempts
            && Claims(steps[..i], k) <= 3 + 3 * Retries(steps[..i], k)
  {
    hide Audited, TransfersOk, PaymentsOk, OneSendEach, WorkersOk, IsRun;
    EveryStateIsSound(ss, steps, i);
    CountsAreOfSteps(ss, steps, i, k);
    assert TaskOk(ss[i].db.tasks[k], ss[i].db.transfers);
  }

  /** The handler's "last attempt" is the queue's: a provider error dead-letters a send only after
      its transfer was reversed, and one that is to be retried is always retried. */
  lemma ProviderErrorNeverStrands(s: Sys, w: Id)
    requires Reachable(s) && Enabled(s, FinishTask(w))
    requires s.db.tasks[s.workers[w].task].kind.DisburseTransfer?
    requires s.workers[w].outcome.error == Some(ProviderSaid) && !s.workers[w].outcome.ok
    ensures var k := s.workers[w].task;
            var after := Apply(s, FinishTask(w)).db;
            && s.db.tasks[k].transfer.Some? && s.db.tasks[k].transfer.value < |after.transfers|
            && (after.tasks[k].status.DeadLettered? ==> after.transfers[s.db.tasks[k].transfer.value].status.Failed?)
            && (after.tasks[k].status.Queued? <==> s.workers[w].outcome.retryable)
  {
    hide Reachable, Audited, TransfersOk, PaymentsOk, OneSendEach;
    ReachableIsSound(s);
    assert WorkerOk(w, s.workers[w], s.db, s.payments);
  }

  // ---------------------------------------------------------------------- the pass

  lemma {:induction false} NoUnknownsIff(order: seq<Reference>, matched: set<Reference>, ts: seq<Transfer>)
    ensures Unknowns(order, matched, ts) == [] <==> forall r :: r in order ==> r in matched || Owned(ts, r)
  {
    if |order| > 0 {
      var n := |order| - 1;
      NoUnknownsIff(order[..n], matched, ts);
      assert order == order[..n] + [order[n]];
    }
  }

  /** A listed payment whose transfer has no reference and is too old to be in the window. */
  ghost predicate OutOfReach(s: Sys, r: Reference, since: Time) {
    && r in s.payments
    && s.payments[r].createdAt >= since
    && s.payments[r].key < |s.db.transfers|
    && s.db.transfers[s.payments[r].key].reference.None?
    && s.db.transfers[s.payments[r].key].createdAt < since
  }

  lemma TransferIsOk(s: Sys, t: Id)
    requires Inv(s) && t < |s.db.transfers|
    ensures TransferOk(s.db.transfers[t], t, s.db, s.payments)
  {
  }

  lemma PaymentIsOk(s: Sys, r: Reference)
    requires Inv(s) && r in s.payments
    ensures PaymentOk(s.payments[r], r, s.db)
  {
  }

  /** A pass over a sound state, seen transfer by transfer. */
  ghost predicate PassOn(s: Sys, ours: seq<Id>, theirs: Theirs, since: Time, p: Pass) {
    && InRange(s.db, ours)
    && Inv(s)
    && Inv(s.(db := p.db))
    && Lists(theirs, s.payments, since)
    && Pointwise(s.db, ours, theirs, p)
    && (forall t :: 0 <= t < |s.db.transfers| ==> (t in ours <==> s.db.transfers[t].createdAt >= since))
  }

  lemma PassFacts(s: Sys, ours: seq<Id>, list: seq<Payment>, since: Time)
    requires Inv(s) && Window(s.db, ours, since) && IsListing(list, s.payments, since)
    ensures PassOn(s, ours, Index(list), since, VisitedAll(s.db, ours, Index(list)))
    ensures Distinct(ours) && !Reconciled(s.db, ours, list).raised
    ensures Unhealed(VisitedAll(s.db, ours, Index(list)).findings) == []
  {
    hide Inv, Pointwise, Visited, VisitedAll, IsListing, Collides, Unknowns;
    ReconcilePassOk(s, ours, list, since);
    PassIsPointwise(s.db, ours, Index(list));
    var p := VisitedAll(s.db, ours, Index(list));
    assert Inv(s.(db := p.db));
  }

  /** What is unresolved when the visits left nothing unhealed: the payments nobody knows. */
  lemma UnresolvedAreUnknown(db: Db, ours: seq<Id>, list: seq<Payment>)
    requires InRange(db, ours) && Distinct(ours) && !Reconciled(db, ours, list).raised
    requires Unhealed(VisitedAll(db, ours, Index(list)).findings) == []
    ensures var visits, p := VisitedAll(db, ours, Index(list)), Reconciled(db, ours, list);
            var unknown := Unknowns(Index(list).order, visits.matched, visits.db.transfers);
            Unresolved(p) == |unknown| && p.findings == visits.findings + unknown
  {
    hide VisitedAll, Index, Unknowns, HealedIn, Unhealed, Distinct;
    var visits := VisitedAll(db, ours, Index(list));
    var unknown := Unknowns(Index(list).order, visits.matched, visits.db.transfers);
    UnknownsUnhealed(Index(list).order, visits.matched, visits.db.transfers);
    HealedConcat(visits.findings, unknown);
    ReportAddsUp(db, ours, list, 0);
  }

  lemma InWindowIsMatched(s: Sys, ours: seq<Id>, theirs: Theirs, since: Time, p: Pass, r: Reference)
    requires PassOn(s, ours, theirs, since, p)
    requires r in theirs.byReference && theirs.byReference[r].key in ours
    ensures r in p.matched
  {
    hide Inv, Examined, SendIsDead;
    var u := theirs.byReference[r].key;
    PaymentFacts(s, u, r, r);
    if u in theirs.byKey {
      PaymentFacts(s, u, r, theirs.byKey[u].reference);
    }
    MatchedOfOurs(s.db, ours, theirs, u);
    MatchesItsPayment(u, s.db.transfers[u], SendIsDead(s.db.tasks, u), theirs, r);
  }

  lemma AccountedFor(s: Sys, ours: seq<Id>, theirs: Theirs, since: Time, p: Pass, r: Reference)
    requires PassOn(s, ours, theirs, since, p) && r in theirs.byReference
    ensures r in p.matched || Owned(p.db.transfers, r) <==> !OutOfReach(s, r, since)
  {
    hide Inv, Examined, SendIsDead;
    PaymentIsOk(s, r);
    var u := s.payments[r].key;
    if s.db.transfers[u].createdAt >= since {
      InWindowIsMatched(s, ours, theirs, since, p, r);
    } else if s.db.transfers[u].reference.Some? {
      PaymentFacts(s, u, r, r);
      assert p.db.transfers[u].reference == Some(r);
    } else {
      OrphanIsUnmatched(s, ours, theirs, since, p, r);
    }
  }

  lemma MatchesItsPayment(t: Id, x: Transfer, dead: bool, theirs: Theirs, r: Reference)
    requires WellIndexed(theirs) && r in theirs.byReference && theirs.byReference[r].key == t
    requires x.reference.Some? ==> x.reference == Some(r)
    requires x.reference.None? ==> t in theirs.byKey ==> theirs.byKey[t].reference == r
    ensures r in Examined(t, x, dead, theirs).matched
  {
  }

  lemma OrphanIsUnmatched(s: Sys, ours: seq<Id>, theirs: Theirs, since: Time, p: Pass, r: Reference)
    requires PassOn(s, ours, theirs, since, p) && OutOfReach(s, r, since)
    ensures r !in p.matched && !Owned(p.db.transfers, r)
  {
    hide Inv, Examined, SendIsDead;
    var u := s.payments[r].key;
    forall v | 0 <= v < |p.db.transfers| ensures p.db.transfers[v].reference != Some(r) {
      TransferIsOk(s.(db := p.db), v);
    }
    if r in p.matched {
      var t := WhoMatched(s.db, ours, theirs, r);
      MatchedIsOwn(s, t, theirs, r);
    }
  }

  lemma {:induction false} WhoMatched(db: Db, ours: seq<Id>, theirs: Theirs, r: Reference) returns (t: Id)
    requires InRange(db, ours) && r in MatchedOf(db, ours, theirs)
    ensures t in ours && t < |db.transfers| && r in VerdictOn(db, t, theirs).matched
  {
    hide Examined;
    t := ours[|ours| - 1];
    if r !in VerdictOn(db, t, theirs).matched {
      t := WhoMatched(db, ours[..|ours| - 1], theirs, r);
      assert ours == ours[..|ours| - 1] + [ours[|ours| - 1]];
    }
  }

  /** A verdict only matches the payment that carries this transfer's key. */
  lemma MatchedIsOwn(s: Sys, t: Id, theirs: Theirs, r: Reference)
    requires Inv(s) && t < |s.db.transfers| && WellIndexed(theirs)
    requires forall q :: q in theirs.byReference ==> q in s.payments && theirs.byReference[q] == s.payments[q]
    requires r in VerdictOn(s.db, t, theirs).matched
    ensures r in s.payments && s.payments[r].key == t
  {
    hide Inv, SendIsDead;
    TransferIsOk(s, t);
  }

  /** When the provider is driven by the handlers and its own clock alone, a pass ends with nothing
      unresolved exactly when its window reaches the transfer of every payment it lists that no
      reference leads back to. Missing, mismatched and contradicted findings cannot occur at all. */
  lemma UnresolvedIsZeroIff(s: Sys, ours: seq<Id>, list: seq<Payment>, since: Time)
    requires Reachable(s) && Window(s.db, ours, since) && IsListing(list, s.payments, since)
    ensures var p := Reconciled(s.db, ours, list);
            && !p.raised
            && (Unresolved(p) == 0 <==> forall r :: !OutOfReach(s, r, since))
            && (forall f :: f in p.findings && !f.healed ==> f.kind.UnknownToUs?)
  {
    hide Reachable, Inv, VisitedAll, IsListing, Reconciled, Unknowns, Window, Unhealed, Pointwise;
    ReachableIsSound(s);
    PassFacts(s, ours, list, since);
    UnresolvedAreUnknown(s.db, ours, list);
    var theirs := Index(list);
    var visits := VisitedAll(s.db, ours, theirs);
    NoUnknownsIff(theirs.order, visits.matched, visits.db.transfers);
    forall r | r in theirs.order ensures r in visits.matched || Owned(visits.db.transfers, r) <==> !OutOfReach(s, r, since) {
      AccountedFor(s, ours, theirs, since, visits, r);
    }
    forall r | OutOfReach(s, r, since) ensures r in theirs.order {
      assert r in theirs.byReference;
    }
    OnlyUnknownsUnhealed(visits.findings, theirs.order, visits.matched, visits.db.transfers);
  }

  lemma OnlyUnknownsUnhealed(fs: seq<Finding>, order: seq<Reference>, matched: set<Reference>, ts: seq<Transfer>)
    requires Unhealed(fs) == []
    ensures forall f :: f in fs + Unknowns(order, matched, ts) && !f.healed ==> f.kind.UnknownToUs?
  {
    hide Unknowns;
    forall f | f in fs + Unknowns(order, matched, ts) && !f.healed ensures f.kind.UnknownToUs? {
      if f in fs {
        UnhealedKeeps(fs, f);
      } else {
        UnknownsAreUnknown(order, matched, ts, f);
      }
    }
  }

  lemma {:induction false} UnhealedKeeps(fs: seq<Finding>, f: Finding)
    requires f in fs && !f.healed
    ensures f in Unhealed(fs)
  {
    var n := |fs| - 1;
    assert fs == fs[..n] + [fs[n]];
    if f != fs[n] {
      UnhealedKeeps(fs[..n], f);
    }
  }

  lemma {:induction false} UnknownsAreUnknown(order: seq<Reference>, matched: set<Reference>, ts: seq<Transfer>, f: Finding)
    requires f in Unknowns(order, matched, ts)
    ensures f.kind.UnknownToUs?
  {
    var n := |order| - 1;
    if f in Unknowns(order[..n], matched, ts) {
      UnknownsAreUnknown(order[..n], matched, ts, f);
    }
  }

  /** After a pass, in any state of any run, no transfer in its window waits on a dead send, and none
      is processing whose payment has settled. */
  lemma PassStrandsNothing(s: Sys, ours: seq<Id>, list: seq<Payment>, since: Time, t: Id)
    requires Reachable(s) && Window(s.db, ours, since) && IsListing(list, s.payments, since) && t in ours
    ensures Enabled(s, ReconcilePass(ours, list, since))
    ensures var after := Apply(s, ReconcilePass(ours, list, since));
            && t < |after.db.transfers|
            && (after.db.transfers[t].status.Pending? ==> !SendIsDead(after.db.tasks, t))
            && (after.db.transfers[t].status.Processing? ==>
                  forall r :: r in after.payments && after.payments[r].key == t ==> after.payments[r].status.Accepted?)
  {
    hide Reachable, Audited, TasksOk, OneSendEach, WorkersOk, Visited, VisitedAll, IsListing, Examined, SendIsDead;
    ReachableIsSound(s);
    ReconcilePassOk(s, ours, list, since);
    var after := Apply(s, ReconcilePass(ours, list, since));
    NothingStrandedAfterPass(s.db, ours, list, t);
    assert TransferOk(after.db.transfers[t], t, after.db, after.payments);
    if after.db.transfers[t].status.Processing? {
      var r := after.db.transfers[t].reference.value;
      assert PaymentOk(after.payments[r], r, after.db);
      assert r in Index(list).byReference;
      forall q | q in after.payments && after.payments[q].key == t ensures q == r {
        PaymentFacts(after, t, q, r);
      }
    }
  }
}
