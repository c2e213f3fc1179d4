/** The worker's loop (worker/loop.py): sweep, reseed, then claim and run until nothing is due. */
module WorkerLoop {
  import opened Records
  import opened Database
  import opened TaskService
  import opened Accounting
  import opened Provider
  import opened Disburse
  import opened Protocol
  import opened RunTheorems
  import opened Paths
  import opened Handlers

  const STALE_SECONDS: nat := 900

  /** The tasks a claim may take now. */
  function DueSet(db: Db): set<Id> {
    set k | 0 <= k < |db.tasks| && Due(db.tasks[k], db.now)
  }

  lemma ClaimedStep(s: Sys, w: Id, k: Id)
    requires w !in s.workers && k < |s.db.tasks| && Due(s.db.tasks[k], s.db.now)
    ensures Enabled(s, ClaimTask(w, k))
    ensures Apply(s, ClaimTask(w, k)) == Holding(Claimed(s.db, k, w), s.payments, s.workers, w, HasClaimed(k))
  {
  }

  /** What a round of the loop leaves behind: what it took is no longer due, and no new one is. */
  lemma RoundShrinksDue(before: Db, k: Id, w: Id, after: Db)
    requires k in DueSet(before) && RanOnce(Claimed(before, k, w), after, k)
    ensures DueSet(after) == DueSet(before) - {k}
    ensures after.tasks[k].attempts == before.tasks[k].attempts + 1
    ensures forall j :: 0 <= j < |before.tasks| && j != k ==> after.tasks[j] == before.tasks[j]
  {
    var claimed := Claimed(before, k, w);
    forall j | 0 <= j < |after.tasks| ensures j in DueSet(after) <==> j in DueSet(before) && j != k {
      if j < |before.tasks| && j != k {
        assert after.tasks[j] == claimed.tasks[j];
      }
    }
  }

  lemma StillKnown(before: Db, after: Db)
    requires RecipientsKnown(before) && after.recipients == before.recipients
    requires |after.transfers| == |before.transfers|
    requires forall t :: 0 <= t < |before.transfers| ==> after.transfers[t].recipient == before.transfers[t].recipient
    ensures RecipientsKnown(after)
  {
  }

  /** One round: claim the oldest due task and run it. */
  method Round(session: Session, provider: MockProvider, worker: Id, ghost others: map<Id, Phase>)
    returns (ran: Option<Id>, ghost steps: seq<Step>)
    requires worker !in others
    requires session.committed == session.Work() && provider.Valid() && RecipientsKnown(session.Work())
    modifies session, provider`payments, provider`nextReference
    ensures provider.Valid() && session.committed == session.Work() && RecipientsKnown(session.Work())
    ensures session.now == old(session.now) && |session.tasks| >= |old(session.tasks)|
    ensures ran.None? ==> session.Work() == old(session.Work()) && DueSet(session.Work()) == {}
    ensures ran.Some? ==>
              && IsNextDue(old(session.tasks), ran.value, old(session.now))
              && DueSet(session.Work()) == DueSet(old(session.Work())) - {ran.value}
              && session.tasks[ran.value].attempts == old(session.tasks)[ran.value].attempts + 1
              && forall j :: 0 <= j < |old(session.tasks)| && j != ran.value ==> session.tasks[j] == old(session.tasks)[j]
    ensures Path(Sys(old(session.Work()), old(provider.payments), others), steps,
                 Sys(session.Work(), provider.payments, others))
  {
    hide Enabled, Apply, Path, RecipientsKnown, HandlerSteps, RanOnce, DueSet;
    ghost var s := Sys(session.Work(), provider.payments, others);
    ran := ClaimNext(session, worker);
    if ran.None? {
      PathNone(s);
      NothingDue(session.Work());
      return None, [];
    }
    var k := ran.value;
    ghost var claimed := session.Work();
    StillKnown(s.db, claimed);
    ClaimedStep(s, worker, k);
    PathOne(s, ClaimTask(worker, k));
    ghost var handled, outcome;
    steps, handled, outcome := Execute(session, provider, k, worker, others);
    PathJoins(s, [ClaimTask(worker, k)], Apply(s, ClaimTask(worker, k)), steps,
              Sys(session.Work(), provider.payments, others));
    steps := [ClaimTask(worker, k)] + steps;
    assert k in DueSet(s.db) by { IsInDueSet(s.db, k); }
    RoundShrinksDue(s.db, k, worker, session.Work());
    RanKeepsRows(claimed, session.Work(), k);
    StillKnown(claimed, session.Work());
  }

  lemma NothingDue(db: Db)
    requires forall k :: 0 <= k < |db.tasks| ==> !Due(db.tasks[k], db.now)
    ensures DueSet(db) == {}
  {
  }

  lemma IsInDueSet(db: Db, k: Id)
    ensures k in DueSet(db) <==> k < |db.tasks| && Due(db.tasks[k], db.now)
  {
  }

  lemma RanKeepsRows(before: Db, after: Db, k: Id)
    requires k < |before.tasks| && RanOnce(before, after, k)
    ensures after.now == before.now && after.recipients == before.recipients
    ensures |after.transfers| == |before.transfers| && |after.tasks| >= |before.tasks|
    ensures forall t :: 0 <= t < |before.transfers| ==> after.transfers[t].recipient == before.transfers[t].recipient
  {
  }

  // ---------------------------------------------------------------------------- drain

  function Members(ran: seq<Id>): set<Id> {
    set k | k in ran
  }

  /** The tasks that were due, each once, and no other. */
  predicate EachOnce(before: Db, after: Db, ran: seq<Id>) {
    && Distinct(ran)
    && (forall i :: 0 <= i < |ran| ==> ran[i] in DueSet(before))
    && DueSet(after) == DueSet(before) - Members(ran)
  }

  /** In the order of `run_at`, and none before one still waiting that is older. */
  predicate OldestFirst(before: Db, after: Db, ran: seq<Id>) {
    && (forall i :: 0 <= i < |ran| ==> ran[i] < |before.tasks|)
    && (forall i, j :: 0 <= i < j < |ran| ==> before.tasks[ran[i]].runAt <= before.tasks[ran[j]].runAt)
    && (forall i, k :: 0 <= i < |ran| && k in DueSet(after) && k < |before.tasks| ==>
          before.tasks[ran[i]].runAt <= before.tasks[k].runAt)
  }

  /** Each took one attempt; every other row is as it was. */
  predicate OneAttemptEach(before: Db, after: Db, ran: seq<Id>) {
    && |before.tasks| <= |after.tasks|
    && (forall k :: 0 <= k < |before.tasks| ==>
          if k in ran then after.tasks[k].attempts == before.tasks[k].attempts + 1
          else after.tasks[k] == before.tasks[k])
  }

  /** What draining has done so far: `ran` are the tasks taken. */
  predicate Drained(before: Db, after: Db, ran: seq<Id>) {
    EachOnce(before, after, ran) && OldestFirst(before, after, ran) && OneAttemptEach(before, after, ran)
  }

  lemma DrainedNothing(db: Db)
    ensures Drained(db, db, [])
  {
  }

  /** The rows still due are as they were, and none is older than the one taken now. */
  lemma NextIsOldest(before: Db, mid: Db, ran: seq<Id>, k: Id)
    requires Drained(before, mid, ran) && mid.now == before.now && IsNextDue(mid.tasks, k, mid.now)
    ensures k < |before.tasks| && k in DueSet(mid) && k in DueSet(before) && k !in ran
    ensures forall d :: d in DueSet(mid) ==>
              d < |before.tasks| && before.tasks[d] == mid.tasks[d] && before.tasks[k].runAt <= before.tasks[d].runAt
  {
    hide DueSet, OldestFirst;
    IsInDueSet(mid, k);
    IsInDueSet(before, k);
    forall d | d in DueSet(mid)
      ensures d < |before.tasks| && before.tasks[d] == mid.tasks[d] && mid.tasks[k].runAt <= mid.tasks[d].runAt
    {
      IsInDueSet(mid, d);
      IsInDueSet(before, d);
      assert d in DueSet(before) && d !in ran;
    }
  }

  lemma OneMoreOldest(before: Db, mid: Db, ran: seq<Id>, k: Id, after: Db)
    requires OldestFirst(before, mid, ran) && k < |before.tasks|
    requires k in DueSet(mid) && DueSet(after) <= DueSet(mid)
    requires forall d :: d in DueSet(mid) && d < |before.tasks| ==> before.tasks[k].runAt <= before.tasks[d].runAt
    ensures OldestFirst(before, after, ran + [k])
  {
    hide DueSet;
  }

  lemma OneMoreOnce(before: Db, mid: Db, ran: seq<Id>, k: Id, after: Db)
    requires EachOnce(before, mid, ran) && k in DueSet(before) && k !in ran
    requires DueSet(after) == DueSet(mid) - {k}
    ensures EachOnce(before, after, ran + [k])
  {
    hide DueSet;
    assert Members(ran + [k]) == Members(ran) + {k};
  }

  lemma OneMoreAttempt(before: Db, mid: Db, ran: seq<Id>, k: Id, after: Db)
    requires OneAttemptEach(before, mid, ran) && k < |before.tasks| && k !in ran && |mid.tasks| <= |after.tasks|
    requires after.tasks[k].attempts == mid.tasks[k].attempts + 1
    requires forall j :: 0 <= j < |mid.tasks| && j != k ==> after.tasks[j] == mid.tasks[j]
    ensures OneAttemptEach(before, after, ran + [k])
  {
  }

  lemma DrainedOneMore(before: Db, mid: Db, ran: seq<Id>, k: Id, after: Db)
    requires Drained(before, mid, ran) && mid.now == before.now
    requires IsNextDue(mid.tasks, k, mid.now) && |mid.tasks| <= |after.tasks|
    requires DueSet(after) == DueSet(mid) - {k} && after.tasks[k].attempts == mid.tasks[k].attempts + 1
    requires forall j :: 0 <= j < |mid.tasks| && j != k ==> after.tasks[j] == mid.tasks[j]
    ensures Drained(before, after, ran + [k])
  {
    hide DueSet, IsNextDue, EachOnce, OldestFirst, OneAttemptEach;
    NextIsOldest(before, mid, ran, k);
    OneMoreOnce(before, mid, ran, k, after);
    OneMoreOldest(before, mid, ran, k, after);
    OneMoreAttempt(before, mid, ran, k, after);
  }

  /** `drain`: until nothing is due, or until asked to stop, here after `stopAfter` tasks. With the
      clock standing still and nobody else enqueueing, it ends, and has run the due tasks oldest
      first, each exactly once. */
  method Drain(session: Session, provider: MockProvider, worker: Id, stopAfter: Option<nat>, ghost others: map<Id, Phase>)
    returns (count: nat, ran: seq<Id>, ghost steps: seq<Step>)
    requires worker !in others
    requires session.committed == session.Work() && provider.Valid() && RecipientsKnown(session.Work())
    modifies session, provider`payments, provider`nextReference
    ensures provider.Valid() && session.committed == session.Work() && RecipientsKnown(session.Work())
    ensures session.now == old(session.now)
    ensures count == |ran| && Drained(old(session.Work()), session.Work(), ran)
    ensures stopAfter.Some? ==> count <= stopAfter.value
    ensures stopAfter.None? || count < stopAfter.value ==> DueSet(session.Work()) == {}
    ensures Path(Sys(old(session.Work()), old(provider.payments), others), steps,
                 Sys(session.Work(), provider.payments, others))
  {
    hide Path, Drained, RecipientsKnown, DueSet, IsNextDue;
    ghost var s := Sys(session.Work(), provider.payments, others);
    count, ran, steps := 0, [], [];
    PathNone(s);
    DrainedNothing(s.db);
    while stopAfter.None? || count < stopAfter.value
      invariant provider.Valid() && session.committed == session.Work() && RecipientsKnown(session.Work())
      invariant session.now == s.db.now
      invariant count == |ran| && Drained(s.db, session.Work(), ran)
      invariant stopAfter.Some? ==> count <= stopAfter.value
      invariant Path(s, steps, Sys(session.Work(), provider.payments, others))
      decreases DueSet(session.Work())
    {
      ghost var mid := Sys(session.Work(), provider.payments, others);
      var task;
      ghost var more;
      task, more := Round(session, provider, worker, others);
      ghost var after := Sys(session.Work(), provider.payments, others);
      PathJoins(s, steps, mid, more, after);
      steps := steps + more;
      if task.None? {
        return;
      }
      IsInDueSet(mid.db, task.value);
      assert task.value in DueSet(mid.db) by { NextIsDue(mid.db.tasks, task.value, mid.db.now); }
      DrainedOneMore(s.db, mid.db, ran, task.value, after.db);
      count, ran := count + 1, ran + [task.value];
    }
  }

  lemma NextIsDue(tasks: seq<Task>, k: Id, now: Time)
    requires IsNextDue(tasks, k, now)
    ensures k < |tasks| && Due(tasks[k], now)
  {
  }

  // ----------------------------------------------------------------------------- tick

  /** `ensure_scheduled`: afterwards a pass is queued or running, whoever scheduled it. */
  method EnsureScheduled(session: Session)
    modifies session
    ensures session.Work() == ScheduledOnce(
              old(session.Work()), ReconcileBooks, old(session.now) + RECONCILE_INTERVAL_SECONDS, None)
    ensures Scheduled(session.tasks, ReconcileBooks, None)
    ensures session.tasks == old(session.tasks) +
              if exists k :: 0 <= k < |old(session.tasks)| && old(session.tasks)[k].kind == ReconcileBooks &&
                             (old(session.tasks)[k].status == Queued || old(session.tasks)[k].status == Running) then []
              else [Task(ReconcileBooks, None, Queued, 0, 3, None, old(session.now) + 30, 0)]
    ensures session.committed == session.Work()
  {
    var added := ScheduleOnce(session, ReconcileBooks, session.now + RECONCILE_INTERVAL_SECONDS, None);
    if added {
      assert KeepsChain(session.tasks[|session.tasks| - 1], |session.tasks| - 1, ReconcileBooks, None);
    }
    session.Commit();
  }

  /** The first half of `tick`: sweep the dead, reseed the chain. */
  method Prepare(session: Session, ghost payments: map<Reference, Payment>, ghost others: map<Id, Phase>)
    returns (ghost steps: seq<Step>)
    requires forall v :: v in others ==> others[v].task < |session.tasks| ==>
               !Stale(session.tasks[others[v].task], session.now, 900)
    modifies session
    ensures session.committed == session.Work()
    ensures session.Work() == ScheduledOnce(
              Swept(old(session.Work()), 900), ReconcileBooks,
              old(session.now) + RECONCILE_INTERVAL_SECONDS, None)
    ensures Scheduled(session.tasks, ReconcileBooks, None)
    ensures Path(Sys(old(session.Work()), payments, others), steps, Sys(session.Work(), payments, others))
  {
    hide Enabled, Apply, Path, Scheduled;
    ghost var s := Sys(session.Work(), payments, others);
    var _ := SweepStale(session, STALE_SECONDS);
    SweptStep(s, STALE_SECONDS);
    PathOne(s, Sweep(900));
    ghost var s1 := Sys(session.Work(), payments, others);
    EnsureScheduled(session);
    if Scheduled(s1.db.tasks, ReconcileBooks, None) {
      steps := [Sweep(900)];
    } else {
      ScheduleStep(s1, RECONCILE_INTERVAL_SECONDS);
      PathOne(s1, ScheduleReconcile(RECONCILE_INTERVAL_SECONDS));
      PathJoins(s, [Sweep(900)], s1, [ScheduleReconcile(RECONCILE_INTERVAL_SECONDS)],
                Apply(s1, ScheduleReconcile(RECONCILE_INTERVAL_SECONDS)));
      steps := [Sweep(900)] + [ScheduleReconcile(RECONCILE_INTERVAL_SECONDS)];
    }
  }

  lemma SweptStep(s: Sys, stale: nat)
    requires forall v :: v in s.workers ==> s.workers[v].task < |s.db.tasks| ==>
               !Stale(s.db.tasks[s.workers[v].task], s.db.now, stale)
    ensures Enabled(s, Sweep(stale))
    ensures Apply(s, Sweep(stale)) == s.(db := Swept(s.db, stale))
  {
    hide Swept;
  }

  /** `tick`: one pass of the loop leads from a state of some run to a state of some run. */
  method Tick(session: Session, provider: MockProvider, worker: Id, stopAfter: Option<nat>, ghost others: map<Id, Phase>)
    returns (count: nat)
    requires worker !in others && session.committed == session.Work() && provider.Valid()
    requires Reachable(Sys(session.Work(), provider.payments, others))
    requires forall v :: v in others ==> others[v].task < |session.tasks| ==>
               !Stale(session.tasks[others[v].task], session.now, 900)
    modifies session, provider`payments, provider`nextReference
    ensures provider.Valid() && session.committed == session.Work()
    ensures Reachable(Sys(session.Work(), provider.payments, others))
    ensures exists ran ::
              && count == |ran|
              && Drained(ScheduledOnce(Swept(old(session.Work()), 900), ReconcileBooks,
                           old(session.now) + RECONCILE_INTERVAL_SECONDS, None), session.Work(), ran)
    ensures stopAfter.None? || count < stopAfter.value ==> DueSet(session.Work()) == {}
  {
    hide Path, Inv, Reachable, Drained, RecipientsKnown, DueSet;
    ghost var s := Sys(session.Work(), provider.payments, others);
    ghost var prepared := Prepare(session, provider.payments, others);
    ghost var s1 := Sys(session.Work(), provider.payments, others);
    PathReaches(s, prepared, s1);
    ReachableIsSound(s1);
    SoundMeansKnown(s1);
    var ran;
    ghost var steps;
    count, ran, steps := Drain(session, provider, worker, stopAfter, others);
    PathReaches(s1, steps, Sys(session.Work(), provider.payments, others));
  }

  lemma SoundMeansKnown(s: Sys)
    requires Inv(s)
    ensures RecipientsKnown(s.db)
  {
    forall t | 0 <= t < |s.db.transfers| ensures s.db.transfers[t].recipient in s.db.recipients {
      assert TransferOk(s.db.transfers[t], t, s.db, s.payments);
    }
  }
}
