/** A run's progress, counted from its transfers when asked (run_service._summarize). */
module RunSummaries {
  import opened Records
  import opened RunService
  import opened Disburse
  import opened Reconciliation
  import opened Protocol
  import opened Invariance
  import opened RunTheorems

  datatype Group = Group(run: Id, status: TransferStatus, count: nat, amount: nat)

  datatype Summary = Summary(count: nat, total: nat, byStatus: map<TransferStatus, nat>)

  // ------------------------------------------------------------------ what is counted

  predicate InRun(x: Transfer, r: Id, st: Option<TransferStatus>) {
    x.run == Some(r) && (st.Some? ==> x.status == st.value)
  }

  function CountOf(ts: seq<Transfer>, r: Id, st: Option<TransferStatus>): nat {
    if |ts| == 0 then 0
    else CountOf(ts[..|ts| - 1], r, st) + if InRun(ts[|ts| - 1], r, st) then 1 else 0
  }

  function AmountOf(ts: seq<Transfer>, r: Id, st: Option<TransferStatus>): nat {
    if |ts| == 0 then 0
    else AmountOf(ts[..|ts| - 1], r, st) + if InRun(ts[|ts| - 1], r, st) then ts[|ts| - 1].amount else 0
  }

  lemma {:induction false} StatusesAddUp(ts: seq<Transfer>, r: Id)
    ensures CountOf(ts, r, None) ==
            CountOf(ts, r, Some(Pending)) + CountOf(ts, r, Some(Processing)) +
            CountOf(ts, r, Some(Succeeded)) + CountOf(ts, r, Some(Failed))
    ensures AmountOf(ts, r, None) ==
            AmountOf(ts, r, Some(Pending)) + AmountOf(ts, r, Some(Processing)) +
            AmountOf(ts, r, Some(Succeeded)) + AmountOf(ts, r, Some(Failed))
  {
    if |ts| > 0 {
      StatusesAddUp(ts[..|ts| - 1], r);
    }
  }

  lemma {:induction false} NoneCountedNoneOwed(ts: seq<Transfer>, r: Id, st: Option<TransferStatus>)
    ensures CountOf(ts, r, st) == 0 ==> AmountOf(ts, r, st) == 0
  {
    if |ts| > 0 {
      NoneCountedNoneOwed(ts[..|ts| - 1], r, st);
    }
  }

  // ------------------------------------------------------------------------ summarize

  /** The answer of the GROUP BY: one row for each run and status that has any transfer. */
  ghost predicate IsGroupBy(groups: seq<Group>, ts: seq<Transfer>, runs: set<Id>) {
    && (forall i :: 0 <= i < |groups| ==>
          && groups[i].run in runs
          && groups[i].count == CountOf(ts, groups[i].run, Some(groups[i].status))
          && groups[i].amount == AmountOf(ts, groups[i].run, Some(groups[i].status)))
    && (forall i, j :: 0 <= i < j < |groups| ==> groups[i].run != groups[j].run || groups[i].status != groups[j].status)
    && (forall r, st :: r in runs && CountOf(ts, r, Some(st)) > 0 ==> Listed(groups, r, st))
  }

  predicate Listed(groups: seq<Group>, r: Id, st: TransferStatus) {
    exists i :: 0 <= i < |groups| && groups[i].run == r && groups[i].status == st
  }

  /** The whole run, and its share of each status. */
  ghost predicate Summarizes(s: Summary, ts: seq<Transfer>, r: Id) {
    && s.count == CountOf(ts, r, None)
    && s.total == AmountOf(ts, r, None)
    && forall st :: (if st in s.byStatus then s.byStatus[st] else 0) == CountOf(ts, r, Some(st))
  }

  function Part(s: Summary, ts: seq<Transfer>, r: Id, st: TransferStatus): nat {
    if st in s.byStatus then CountOf(ts, r, Some(st)) else 0
  }

  function AmountPart(s: Summary, ts: seq<Transfer>, r: Id, st: TransferStatus): nat {
    if st in s.byStatus then AmountOf(ts, r, Some(st)) else 0
  }

  /** A summary of the groups read so far. */
  ghost predicate SoFar(s: Summary, ts: seq<Transfer>, r: Id, groups: seq<Group>) {
    && s.count == Part(s, ts, r, Pending) + Part(s, ts, r, Processing) + Part(s, ts, r, Succeeded) + Part(s, ts, r, Failed)
    && s.total == AmountPart(s, ts, r, Pending) + AmountPart(s, ts, r, Processing)
                  + AmountPart(s, ts, r, Succeeded) + AmountPart(s, ts, r, Failed)
    && (forall st :: st in s.byStatus ==> s.byStatus[st] == CountOf(ts, r, Some(st)))
    && (forall st :: st in s.byStatus <==> Listed(groups, r, st))
  }

  lemma OneMoreGroup(s: Summary, ts: seq<Transfer>, r: Id, groups: seq<Group>, g: Group)
    requires SoFar(s, ts, r, groups) && !Listed(groups, g.run, g.status)
    requires g.count == CountOf(ts, g.run, Some(g.status)) && g.amount == AmountOf(ts, g.run, Some(g.status))
    ensures SoFar(if r == g.run then Summary(s.count + g.count, s.total + g.amount, s.byStatus[g.status := g.count]) else s,
                  ts, r, groups + [g])
  {
    forall st ensures Listed(groups + [g], r, st) <==> Listed(groups, r, st) || (g.run == r && g.status == st) {
      if Listed(groups, r, st) {
        var i :| 0 <= i < |groups| && groups[i].run == r && groups[i].status == st;
        assert (groups + [g])[i] == groups[i];
      }
      assert (groups + [g])[|groups|] == g;
    }
  }

  lemma AllGroupsRead(s: Summary, ts: seq<Transfer>, runs: set<Id>, r: Id, groups: seq<Group>)
    requires SoFar(s, ts, r, groups) && IsGroupBy(groups, ts, runs) && r in runs
    ensures Summarizes(s, ts, r)
  {
    StatusesAddUp(ts, r);
    NoneCountedNoneOwed(ts, r, Some(Pending));
    NoneCountedNoneOwed(ts, r, Some(Processing));
    NoneCountedNoneOwed(ts, r, Some(Succeeded));
    NoneCountedNoneOwed(ts, r, Some(Failed));
  }

  /** `_summarize` */
  method Summarize(runs: seq<Id>, ghost ts: seq<Transfer>, groups: seq<Group>) returns (summaries: seq<Summary>)
    requires IsGroupBy(groups, ts, set r | r in runs)
    ensures |summaries| == |runs|
    ensures forall i :: 0 <= i < |runs| ==> Summarizes(summaries[i], ts, runs[i])
  {
    hide SoFar, Summarizes, CountOf, AmountOf;
    ghost var asked := set r | r in runs;
    var table: map<Id, Summary> := map r | r in runs :: Summary(0, 0, map[]);
    forall r ensures SoFar(Summary(0, 0, map[]), ts, r, []) {
      NothingRead(ts, r);
    }
    for k := 0 to |groups|
      invariant table.Keys == asked
      invariant forall r :: r in table ==> SoFar(table[r], ts, r, groups[..k])
    {
      var g := groups[k];
      assert groups[..k + 1] == groups[..k] + [g];
      assert !Listed(groups[..k], g.run, g.status);
      forall r | r in table { OneMoreGroup(table[r], ts, r, groups[..k], g); }
      var s := table[g.run];
      table := table[g.run := Summary(s.count + g.count, s.total + g.amount, s.byStatus[g.status := g.count])];
    }
    assert groups[..|groups|] == groups;
    summaries := [];
    for i := 0 to |runs|
      invariant |summaries| == i
      invariant forall j :: 0 <= j < i ==> Summarizes(summaries[j], ts, runs[j])
    {
      AllGroupsRead(table[runs[i]], ts, asked, runs[i], groups);
      summaries := summaries + [table[runs[i]]];
    }
  }

  lemma NothingRead(ts: seq<Transfer>, r: Id)
    ensures SoFar(Summary(0, 0, map[]), ts, r, [])
  {
  }

  // ---------------------------------------------------------------- what never changes

  ghost predicate RunsKnown(s: Sys) {
    forall t :: 0 <= t < |s.db.transfers| && s.db.transfers[t].run.Some? ==> s.db.transfers[t].run.value < s.db.runs
  }

  /** Whatever a step adds belongs to no run, or to a run that step created. */
  lemma StepAddsToNewRuns(s: Sys, step: Step)
    requires Inv(s) && Enabled(s, step)
    ensures var after := Apply(s, step);
            && |s.db.transfers| <= |after.db.transfers|
            && forall t :: |s.db.transfers| <= t < |after.db.transfers| && after.db.transfers[t].run.Some? ==>
                 s.db.runs <= after.db.transfers[t].run.value < after.db.runs
  {
    hide Inv, AfterLoad, AfterAccept, AfterRefusal, AfterSettle, Reconciled, RunInitiated;
    StepMovesForward(s, step);
    match step
    case AuthorizeRun(items, c) => RunOnlyAppends(s.db, items, c);
    case RecordPayment(w) => SendAddsNoTransfer(s, w);
    case HandleRefusal(w) => SendAddsNoTransfer(s, w);
    case SettlePayment(w, error) => SettleAddsNoTransfer(s.db, s.workers[w].task, s.payments, error);
    case ReconcilePass(ours, list, since) => ReconcilePassOk(s, ours, list, since);
    case _ =>
  }

  lemma SendAddsNoTransfer(s: Sys, w: Id)
    requires At(s, w)
    ensures s.workers[w].WasAccepted? && s.workers[w].transfer < |s.db.transfers| ==>
              |AfterAccept(s.db, s.workers[w].transfer, s.workers[w].payment).0.transfers| == |s.db.transfers|
    ensures s.workers[w].WasRefused? && s.workers[w].transfer < |s.db.transfers| ==>
              var p := s.workers[w];
              |AfterRefusal(s.db, p.task, p.transfer, p.copy, p.retryable).0.transfers| == |s.db.transfers|
  {
  }

  lemma {:induction false} SameIntentSameSums(ts: seq<Transfer>, us: seq<Transfer>, r: Id)
    requires |ts| <= |us|
    requires forall t :: 0 <= t < |ts| ==> us[t].run == ts[t].run && us[t].amount == ts[t].amount
    requires forall t :: |ts| <= t < |us| ==> us[t].run != Some(r)
    ensures CountOf(us, r, None) == CountOf(ts, r, None) && AmountOf(us, r, None) == AmountOf(ts, r, None)
    decreases |us|
  {
    if |us| > 0 {
      var n := |us| - 1;
      if |ts| == |us| {
        SameIntentSameSums(ts[..n], us[..n], r);
      } else {
        SameIntentSameSums(ts, us[..n], r);
      }
    }
  }

  lemma StepKeepsRunTotals(s: Sys, step: Step, r: Id)
    requires Inv(s) && Enabled(s, step) && RunsKnown(s) && r < s.db.runs
    ensures RunsKnown(Apply(s, step)) && r < Apply(s, step).db.runs
    ensures CountOf(Apply(s, step).db.transfers, r, None) == CountOf(s.db.transfers, r, None)
    ensures AmountOf(Apply(s, step).db.transfers, r, None) == AmountOf(s.db.transfers, r, None)
  {
    hide Inv, Enabled, Apply, CountOf, AmountOf;
    KnownRunsStayKnown(s, step);
    var ts, us := s.db.transfers, Apply(s, step).db.transfers;
    StepMovesForward(s, step);
    StepAddsToNewRuns(s, step);
    forall t | 0 <= t < |ts| ensures us[t].run == ts[t].run && us[t].amount == ts[t].amount {
      assert us[..|ts|][t] == us[t];
    }
    SameIntentSameSums(ts, us, r);
  }

  lemma KnownRunsStayKnown(s: Sys, step: Step)
    requires Inv(s) && Enabled(s, step) && RunsKnown(s)
    ensures RunsKnown(Apply(s, step)) && s.db.runs <= Apply(s, step).db.runs
  {
    hide Inv, Enabled, Apply;
    var ts, us := s.db.transfers, Apply(s, step).db.transfers;
    StepMovesForward(s, step);
    StepAddsToNewRuns(s, step);
    StepOnlyAppends(s, step);
    forall t | 0 <= t < |us| && us[t].run.Some? ensures us[t].run.value < Apply(s, step).db.runs {
      if t < |ts| {
        assert us[..|ts|][t] == us[t];
      }
    }
  }

  lemma {:induction false} RunsAlwaysKnown(ss: seq<Sys>, steps: seq<Step>, i: nat)
    requires IsRun(ss, steps) && i < |ss|
    ensures RunsKnown(ss[i])
  {
    hide Inv, Enabled, Apply;
    if i > 0 {
      RunsAlwaysKnown(ss, steps, i - 1);
      EveryStateIsSound(ss, steps, i - 1);
      KnownRunsStayKnown(ss[i - 1], steps[i - 1]);
    }
  }

  /** However its transfers have moved since, a run's summary always shows as many transfers, and as
      much money, as any earlier one did. */
  lemma {:induction false} RunTotalsNeverChange(ss: seq<Sys>, steps: seq<Step>, i: nat, j: nat, r: Id)
    requires IsRun(ss, steps) && i <= j < |ss| && r < ss[i].db.runs
    ensures r < ss[j].db.runs
    ensures CountOf(ss[j].db.transfers, r, None) == CountOf(ss[i].db.transfers, r, None)
    ensures AmountOf(ss[j].db.transfers, r, None) == AmountOf(ss[i].db.transfers, r, None)
    decreases j
  {
    hide Inv, Init, Enabled, Apply, CountOf, AmountOf;
    if i < j {
      RunTotalsNeverChange(ss, steps, i, j - 1, r);
      EveryStateIsSound(ss, steps, j - 1);
      RunsAlwaysKnown(ss, steps, j - 1);
      StepKeepsRunTotals(ss[j - 1], steps[j - 1], r);
    }
  }

  lemma {:induction false} RowsAddUp(ts: seq<Transfer>, db: Db, items: seq<Item>, c: Currency, run: Id)
    requires AllDue(items) && forall t :: 0 <= t < |ts| ==> ts[t].run != Some(run)
    ensures CountOf(ts + RowsOf(db, items, c, run), run, None) == |items|
    ensures AmountOf(ts + RowsOf(db, items, c, run), run, None) == Total(items)
    decreases |items|
  {
    var us := ts + RowsOf(db, items, c, run);
    if |items| == 0 {
      assert us == ts;
      SameIntentSameSums([], ts, run);
    } else {
      var n := |items| - 1;
      RowsAddUp(ts, db, items[..n], c, run);
      assert us[..|us| - 1] == ts + RowsOf(db, items[..n], c, run);
    }
  }

  /** A run made in any state of any run of the system shows, then and in every later state, as many
      transfers as it had items and the total they asked. */
  lemma SummaryIsTheRunsOwn(ss: seq<Sys>, steps: seq<Step>, i: nat, j: nat)
    requires IsRun(ss, steps) && i < j < |ss| && steps[i].AuthorizeRun?
    ensures CountOf(ss[j].db.transfers, ss[i].db.runs, None) == |steps[i].items|
    ensures AmountOf(ss[j].db.transfers, ss[i].db.runs, None) == Total(steps[i].items)
  {
    hide Inv, Init, CountOf, AmountOf, Total;
    var db, items, c := ss[i].db, steps[i].items, steps[i].currency;
    assert Enabled(ss[i], steps[i]) && ss[i + 1] == Apply(ss[i], steps[i]);
    RunsAlwaysKnown(ss, steps, i);
    NewRunRows(db, items, c);
    RowsAddUp(db.transfers, db.(runs := db.runs + 1), items, c, db.runs);
    RunTotalsNeverChange(ss, steps, i + 1, j, db.runs);
  }

  lemma NewRunRows(db: Db, items: seq<Item>, c: Currency)
    requires RunInitiated(db, items, c).Ok?
    ensures AllDue(items)
    ensures var after := RunInitiated(db, items, c).value;
            && after.transfers == db.transfers + RowsOf(db.(runs := db.runs + 1), items, c, db.runs)
            && after.runs == db.runs + 1
  {
    RunAcceptedIff(db, items, c);
    ItemsNeverShort(db.(runs := db.runs + 1), items, c, db.runs);
  }
}
