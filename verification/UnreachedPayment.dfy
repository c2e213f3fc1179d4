/** One run in which a pass leaves a finding for a person: a payment just made for a transfer that
    waited in the queue longer than the window. */
module UnreachedPayment {
  import opened Records
  import opened Provider
  import opened Disburse
  import opened Reconciliation
  import opened Protocol
  import opened RunTheorems
  import opened OperationsTheorems
  import opened LostPayment

  const LATE: Time := 90000
  const SINCE: Time := 3600
  const CLAIMED := QUEUED.(status := Running, attempts := 1, claim := Some(Claim(WORKER, LATE)))
  const MADE := Payment(0, 0, PHONE, 40, USD, Accepted, LATE)
  const UNRECORDED := Sys(Books(LATE, SENT, BOOKS, CLAIMED), map[0 := MADE], map[WORKER := WasAccepted(0, 0, SENT, MADE)])

  /** The worker comes to the transfer a day late, and has the provider's answer but not written it down. */
  lemma AcceptedLate()
    ensures Reachable(UNRECORDED)
  {
    hide Reachable;
    Authorized();
    var s := Sys(Books(0, SENT, BOOKS, QUEUED), map[], map[]);
    StepReaches(s, Wait(LATE));
    var s1 := Sys(Books(LATE, SENT, BOOKS, QUEUED), map[], map[]);
    assert Apply(s, Wait(LATE)) == s1;
    StepReaches(s1, ClaimTask(WORKER, 0));
    var s2 := Sys(Books(LATE, SENT, BOOKS, CLAIMED), map[], map[WORKER := HasClaimed(0)]);
    assert Apply(s1, ClaimTask(WORKER, 0)) == s2;
    StepReaches(s2, LoadTransfer(WORKER));
    var s3 := s2.(workers := map[WORKER := HasLoaded(0, 0, SENT)]);
    assert Apply(s2, LoadTransfer(WORKER)) == s3;
    StepReaches(s3, ProviderAccepts(WORKER, MADE));
    assert Apply(s3, ProviderAccepts(WORKER, MADE)) == UNRECORDED;
  }

  lemma IndexOfMade()
    ensures Index([MADE]).order == [0]
  {
    assert [MADE][..0] == [];
    assert ByReference([]) == map[] && Order([]) == [];
    assert ByReference([MADE]) == map[0 := MADE];
    assert Order([MADE]) == [0];
  }

  lemma FoundUnknown()
    ensures Reconciled(UNRECORDED.db, [], [MADE]).findings == [UnknownFinding(0)]
    ensures Reconciled(UNRECORDED.db, [], [MADE]).healed == 0
  {
    hide Index;
    IndexOfMade();
    var theirs := Index([MADE]);
    assert VisitedAll(UNRECORDED.db, [], theirs) == Start(UNRECORDED.db);
    assert [0][..0] == [];
    assert Unknowns([], {}, [SENT]) == [];
    assert Unknowns([0], {}, [SENT]) == [UnknownFinding(0)];
  }

  /** A reachable state, and a pass over its window and the provider's listing of it, that reports a
      payment as unknown although it is ours. */
  lemma PassLeavesAnUnknown() returns (s: Sys, list: seq<Payment>)
    ensures Reachable(s) && OutOfReach(s, 0, SINCE)
    ensures Window(s.db, [], SINCE) && IsListing(list, s.payments, SINCE)
    ensures Reconciled(s.db, [], list).findings == [UnknownFinding(0)] && Unresolved(Reconciled(s.db, [], list)) == 1
  {
    hide Reachable, Reconciled;
    AcceptedLate();
    FoundUnknown();
    s, list := UNRECORDED, [MADE];
    assert s.db.transfers[0].createdAt < SINCE;
  }
}
