/** One run in which a reversed transfer was paid all the same, and no pass ever says so. */
module LostPayment {
  import opened Records
  import opened Ledger
  import opened TaskService
  import opened Disburse
  import opened Reconciliation
  import opened Protocol
  import opened RunTheorems

  const PERSON: Id := 0
  const PHONE: Msisdn := 7
  const USD: Currency := 840
  const WORKER: Id := 1

  const SENT := Transfer(PERSON, 40, USD, Pending, None, None, 0)
  const QUEUED := Task(DisburseTransfer, Some(0), Queued, 0, 3, None, 0, 0)
  const HELD := Payment(0, 0, PHONE, 40, USD, Accepted, 0)
  const BOOKS := [DepositJournal(USD, 100), AuthorizedJournal(0, SENT)]

  function Books(now: Time, x: Transfer, js: seq<Journal>, task: Task): Db {
    Db(now, map[PERSON := PHONE], {USD}, [x], js, [task], 0, map[])
  }

  const EMPTY := Db(0, map[PERSON := PHONE], {USD}, [], [], [], 0, map[])

  /** Funded and authorized. */
  lemma Authorized()
    ensures Reachable(Sys(Books(0, SENT, BOOKS, QUEUED), map[], map[]))
  {
    var s := Sys(EMPTY, map[], map[]);
    InitialIsReachable(s);
    StepReaches(s, Deposit(USD, 100));
    var s1 := Apply(s, Deposit(USD, 100));
    assert s1.db.journals == [DepositJournal(USD, 100)];
    DepositEffect(USD, 100, ProgramFunding(USD));
    assert s1.db.journals[..0] == [];
    assert Balance(s1.db.journals, ProgramFunding(USD)) == 100;
    StepReaches(s1, Authorize(PERSON, 40, USD));
    var s2 := Apply(s1, Authorize(PERSON, 40, USD));
    assert s2.db.transfers == [SENT] && s2.db.journals == BOOKS && s2.db.tasks == [QUEUED];
  }

  const RUNNING := QUEUED.(status := Running, attempts := 1, claim := Some(Claim(WORKER, 0)))

  /** The provider accepts the first attempt. */
  lemma FirstAccepted()
    ensures Reachable(Sys(Books(0, SENT, BOOKS, RUNNING), map[0 := HELD], map[WORKER := WasAccepted(0, 0, SENT, HELD)]))
  {
    hide Reachable;
    Authorized();
    var s := Sys(Books(0, SENT, BOOKS, QUEUED), map[], map[]);
    StepReaches(s, ClaimTask(WORKER, 0));
    var s1 := Sys(Books(0, SENT, BOOKS, RUNNING), map[], map[WORKER := HasClaimed(0)]);
    assert Apply(s, ClaimTask(WORKER, 0)) == s1;
    StepReaches(s1, LoadTransfer(WORKER));
    var s2 := s1.(workers := map[WORKER := HasLoaded(0, 0, SENT)]);
    assert Apply(s1, LoadTransfer(WORKER)) == s2;
    StepReaches(s2, ProviderAccepts(WORKER, HELD));
    var s3 := s2.(payments := map[0 := HELD], workers := map[WORKER := WasAccepted(0, 0, SENT, HELD)]);
    assert Apply(s2, ProviderAccepts(WORKER, HELD)) == s3;
  }

  /** The worker dies before recording it, and the sweeper puts its row back in the queue. */
  lemma AcceptedThenLost()
    ensures Reachable(Sys(Books(901, SENT, BOOKS, QUEUED.(attempts := 1)), map[0 := HELD], map[]))
  {
    hide Reachable;
    FirstAccepted();
    var s3 := Sys(Books(0, SENT, BOOKS, RUNNING), map[0 := HELD], map[WORKER := WasAccepted(0, 0, SENT, HELD)]);
    StepReaches(s3, WorkerDies(WORKER));
    var s4 := s3.(workers := map[]);
    assert Apply(s3, WorkerDies(WORKER)) == s4;
    StepReaches(s4, Wait(901));
    var s5 := s4.(db := Books(901, SENT, BOOKS, RUNNING));
    assert Apply(s4, Wait(901)) == s5;
    StepReaches(s5, Sweep(900));
    assert Apply(s5, Sweep(900)).db.tasks == [QUEUED.(attempts := 1)];
  }

  const REVERSED := SENT.(status := Failed)
  const DEAD := QUEUED.(status := Running, attempts := 2, claim := Some(Claim(WORKER, 901)))

  /** The second attempt is refused for good. */
  lemma SecondRefused()
    ensures Reachable(Sys(Books(901, SENT, BOOKS, DEAD), map[0 := HELD], map[WORKER := WasRefused(0, 0, SENT, false)]))
  {
    hide Reachable;
    AcceptedThenLost();
    var s := Sys(Books(901, SENT, BOOKS, QUEUED.(attempts := 1)), map[0 := HELD], map[]);
    StepReaches(s, ClaimTask(WORKER, 0));
    var s1 := Sys(Books(901, SENT, BOOKS, DEAD), map[0 := HELD], map[WORKER := HasClaimed(0)]);
    assert Apply(s, ClaimTask(WORKER, 0)) == s1;
    StepReaches(s1, LoadTransfer(WORKER));
    var s2 := s1.(workers := map[WORKER := HasLoaded(0, 0, SENT)]);
    assert Apply(s1, LoadTransfer(WORKER)) == s2;
    StepReaches(s2, ProviderRefuses(WORKER, false));
    assert Apply(s2, ProviderRefuses(WORKER, false)) == s1.(workers := map[WORKER := WasRefused(0, 0, SENT, false)]);
  }

  /** So the transfer is reversed; then the first attempt is paid. */
  lemma RefusedThenPaid()
    ensures Reachable(Sys(Books(901, REVERSED, BOOKS + [ReversedJournal(0, SENT)], DEAD),
                          map[0 := HELD.(status := Paid)], map[WORKER := HasEnded(0, Failure(ProviderSaid, false))]))
  {
    hide Reachable;
    SecondRefused();
    var s3 := Sys(Books(901, SENT, BOOKS, DEAD), map[0 := HELD], map[WORKER := WasRefused(0, 0, SENT, false)]);
    StepReaches(s3, HandleRefusal(WORKER));
    var s4 := s3.(db := Books(901, REVERSED, BOOKS + [ReversedJournal(0, SENT)], DEAD),
                  workers := map[WORKER := HasEnded(0, Failure(ProviderSaid, false))]);
    assert Apply(s3, HandleRefusal(WORKER)).db.transfers == [REVERSED];
    assert Apply(s3, HandleRefusal(WORKER)) == s4;
    StepReaches(s4, ProviderSettles(0, true));
    assert Apply(s4, ProviderSettles(0, true)).payments == map[0 := HELD.(status := Paid)];
  }

  const PAID := HELD.(status := Paid)
  const LOST := Sys(Books(901, REVERSED, BOOKS + [ReversedJournal(0, SENT)], DEAD),
                    map[0 := PAID], map[WORKER := HasEnded(0, Failure(ProviderSaid, false))])

  lemma IndexOfOne()
    ensures Index([PAID]) == Theirs([0], map[0 := PAID], map[0 := PAID])
  {
    assert [PAID][..0] == [] && [0][..0] == [];
    assert ByReference([]) == map[] && Order([]) == [];
    assert ByReference([PAID]) == map[0 := PAID];
    assert Order([PAID]) == [0];
    assert ByKey([], map[0 := PAID]) == map[];
    assert ByKey([0], map[0 := PAID]) == map[0 := PAID];
  }

  lemma SilentPass()
    ensures Enabled(LOST, ReconcilePass([0], [PAID], 0))
    ensures Reconciled(LOST.db, [0], [PAID]).findings == []
  {
    hide Index;
    IndexOfOne();
    var theirs := Index([PAID]);
    assert [0][..0] == [];
    assert VisitedAll(LOST.db, [], theirs) == Start(LOST.db);
    var p := VisitedAll(LOST.db, [0], theirs);
    assert p.matched == {0} && p.findings == [] && !p.raised;
    assert Unknowns([], p.matched, p.db.transfers) == [];
    assert Unknowns([0], p.matched, p.db.transfers) == [];
  }

  /** A reachable state in which the books reversed what the provider paid, and a pass over both
      sides in full finds nothing at all. */
  lemma ReversedPaidAndSilent() returns (s: Sys)
    ensures Reachable(s)
    ensures |s.db.transfers| == 1 && s.db.transfers[0].status.Failed?
    ensures 0 in s.payments && s.payments[0].key == 0 && s.payments[0].status.Paid?
    ensures !FailedMeansUnpayable(s)
    ensures var pass := ReconcilePass([0], [s.payments[0]], 0);
            Enabled(s, pass) && Reconciled(s.db, [0], [s.payments[0]]).findings == []
  {
    hide Reachable, Enabled, Reconciled;
    RefusedThenPaid();
    SilentPass();
    s := LOST;
    assert s.payments[0].key == 0 && !s.payments[0].status.Bounced?;
    assert !Unpayable(s, 0);
  }
}
