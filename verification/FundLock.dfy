/** The fund's row lock (ledger_service.lock_account), at the grain of lock, read, post and commit. */
module FundLock {
  import opened Records
  import opened Ledger

  /** A transaction's own journals, and what it last read of each fund it has locked. */
  datatype Tx = Tx(own: seq<Journal>, seen: map<Currency, int>)

  datatype Bank = Bank(committed: seq<Journal>, holders: map<Currency, Id>, txs: map<Id, Tx>)

  datatype Action =
    | Begin(tx: Id)
    | Lock(tx: Id, currency: Currency)
    | Read(tx: Id, currency: Currency)
    | Authorize(tx: Id, transfer: Id, row: Transfer)
    | PostDeposit(tx: Id, currency: Currency, amount: Amount)
    | PostSettled(tx: Id, transfer: Id, row: Transfer)
    | PostReversed(tx: Id, transfer: Id, row: Transfer)
    | Commit(tx: Id)
    | Rollback(tx: Id)

  predicate Credits(a: Action) {
    a.PostDeposit? || a.PostSettled? || a.PostReversed?
  }

  /** What the writers that never lock a fund post. */
  function CreditJournal(a: Action): Journal
    requires Credits(a)
  {
    match a
    case PostDeposit(_, c, n) => DepositJournal(c, n)
    case PostSettled(_, t, row) => SettledJournal(t, row)
    case PostReversed(_, t, row) => ReversedJournal(t, row)
  }

  predicate Holds(s: Bank, x: Id, c: Currency) {
    c in s.holders && s.holders[c] == x
  }

  /** `locking` is what the code does; without it the reads are the same and nothing excludes them. */
  ghost predicate Enabled(locking: bool, s: Bank, a: Action) {
    match a
    case Begin(x) => x !in s.txs
    case Lock(x, c) => x in s.txs && (c in s.holders ==> s.holders[c] == x)
    case Read(x, c) => x in s.txs && (locking ==> Holds(s, x, c))
    case Authorize(x, _, row) =>
      && x in s.txs
      && row.currency in s.txs[x].seen
      && row.amount <= s.txs[x].seen[row.currency]
    case _ => a.tx in s.txs
  }

  function Released(holders: map<Currency, Id>, x: Id): map<Currency, Id> {
    map c | c in holders && holders[c] != x :: holders[c]
  }

  ghost function Done(locking: bool, s: Bank, a: Action): Bank
    requires Enabled(locking, s, a)
  {
    match a
    case Begin(x) => s.(txs := s.txs[x := Tx([], map[])])
    case Lock(x, c) => s.(holders := s.holders[c := x])
    case Read(x, c) =>
      var tx := s.txs[x];
      s.(txs := s.txs[x := tx.(seen := tx.seen[c := Balance(s.committed + tx.own, ProgramFunding(c))])])
    case Authorize(x, t, row) =>
      var tx := s.txs[x];
      s.(txs := s.txs[x := Tx(tx.own + [AuthorizedJournal(t, row)], tx.seen - {row.currency})])
    case Commit(x) => Bank(s.committed + s.txs[x].own, Released(s.holders, x), s.txs - {x})
    case Rollback(x) => s.(holders := Released(s.holders, x), txs := s.txs - {x})
    case _ => s.(txs := s.txs[a.tx := s.txs[a.tx].(own := s.txs[a.tx].own + [CreditJournal(a)])])
  }

  ghost function History(locking: bool, actions: seq<Action>): Option<Bank> {
    if |actions| == 0 then Some(Bank([], map[], map[]))
    else
      var before, a := History(locking, actions[..|actions| - 1]), actions[|actions| - 1];
      if before.None? || !Enabled(locking, before.value, a) then None else Some(Done(locking, before.value, a))
  }

  // -------------------------------------------------------------------- invariant

  function Fund(js: seq<Journal>, c: Currency): int {
    Balance(js, ProgramFunding(c))
  }

  lemma {:induction false} BalanceConcat(a: seq<Journal>, b: seq<Journal>, acct: Account)
    ensures Balance(a + b, acct) == Balance(a, acct) + Balance(b, acct)
  {
    if |b| == 0 {
      assert a + b == a;
    } else {
      BalanceConcat(a, b[..|b| - 1], acct);
      assert (a + b)[..|a + b| - 1] == a + b[..|b| - 1];
    }
  }

  /** A holder's writes are covered and its last read is a lower bound; nobody else debits the fund. */
  ghost predicate TxOk(s: Bank, x: Id, c: Currency)
    requires x in s.txs
  {
    var own := Fund(s.txs[x].own, c);
    if Holds(s, x, c) then
      && Fund(s.committed, c) + own >= 0
      && (c in s.txs[x].seen ==> s.txs[x].seen[c] <= Fund(s.committed, c) + own)
    else own >= 0 && c !in s.txs[x].seen
  }

  ghost predicate Covered(s: Bank) {
    && (forall c: Currency :: Fund(s.committed, c) >= 0)
    && (forall x, c: Currency :: x in s.txs ==> TxOk(s, x, c))
  }

  lemma CreditsTakeNothing(a: Action, c: Currency)
    requires Credits(a)
    ensures Effect(CreditJournal(a).lines, ProgramFunding(c)) >= 0
  {
    match a
    case PostDeposit(_, d, n) => DepositEffect(d, n, ProgramFunding(c));
    case PostSettled(_, t, row) => MovesEffect(row, t, ProgramFunding(c));
    case PostReversed(_, t, row) => MovesEffect(row, t, ProgramFunding(c));
  }

  lemma ActionKeepsCover(s: Bank, a: Action)
    requires Covered(s) && Enabled(true, s, a)
    ensures Covered(Done(true, s, a))
  {
    hide CreditJournal, Balance;
    var after := Done(true, s, a);
    forall x, c: Currency | x in after.txs ensures TxOk(after, x, c) {
      if x in s.txs {
        assert TxOk(s, x, c);
      }
      CoverOfOne(s, a, x, c);
    }
    if a.Commit? {
      forall c: Currency ensures Fund(after.committed, c) >= 0 {
        assert TxOk(s, a.tx, c) && Fund(s.committed, c) >= 0;
        BalanceConcat(s.committed, s.txs[a.tx].own, ProgramFunding(c));
      }
    }
  }

  lemma CoverOfOne(s: Bank, a: Action, x: Id, c: Currency)
    requires Covered(s) && Enabled(true, s, a) && x in Done(true, s, a).txs
    ensures TxOk(Done(true, s, a), x, c)
  {
    hide CreditJournal, Balance;
    var fund := ProgramFunding(c);
    if x in s.txs {
      assert TxOk(s, x, c);
    }
    match a
    case Begin(_) =>
      EmptyFund(c);
    case Read(y, d) =>
      BalanceConcat(s.committed, s.txs[y].own, ProgramFunding(d));
    case Authorize(y, t, row) =>
      BalanceSnoc(s.txs[y].own, AuthorizedJournal(t, row), fund);
      MovesEffect(row, t, fund);
      assert TxOk(s, y, row.currency);
    case Commit(y) =>
      assert TxOk(s, y, c);
      BalanceConcat(s.committed, s.txs[y].own, fund);
    case Lock(_, _) =>
    case Rollback(_) =>
    case _ =>
      BalanceSnoc(s.txs[a.tx].own, CreditJournal(a), fund);
      CreditsTakeNothing(a, c);
  }

  lemma EmptyFund(c: Currency)
    ensures Fund([], c) == 0
  {
  }

  lemma {:induction false} HistoryIsCovered(actions: seq<Action>)
    requires History(true, actions).Some?
    ensures Covered(History(true, actions).value)
  {
    hide Enabled, Done, Covered;
    if |actions| == 0 {
      assert Covered(Bank([], map[], map[])) by {
        forall c: Currency ensures Fund([], c) >= 0 {
          EmptyFund(c);
        }
        NobodyYet();
      }
    } else {
      HistoryIsCovered(actions[..|actions| - 1]);
      ActionKeepsCover(History(true, actions[..|actions| - 1]).value, actions[|actions| - 1]);
    }
  }

  lemma NobodyYet()
    ensures Covered(Bank([], map[], map[]))
  {
    forall c: Currency ensures Fund([], c) >= 0 {
      EmptyFund(c);
    }
  }

  /** Under every interleaving of transfers, runs, reversals and deposits no fund goes below zero. */
  lemma FundNeverOverdrawn(actions: seq<Action>, c: Currency)
    requires History(true, actions).Some?
    ensures Fund(History(true, actions).value.committed, c) >= 0
  {
    HistoryIsCovered(actions);
  }

  /** What a lock holder read is still there when it commits, so checking early is as good as
      checking at the commit itself: the books it adds to hold what it takes. */
  lemma ReadsHoldUntilCommit(actions: seq<Action>, x: Id, c: Currency)
    requires History(true, actions).Some? && x in History(true, actions).value.txs
    ensures var s := History(true, actions).value;
            && Fund(s.committed, c) + Fund(s.txs[x].own, c) >= 0
            && (c in s.txs[x].seen ==> s.txs[x].seen[c] <= Fund(s.committed + s.txs[x].own, c))
  {
    HistoryIsCovered(actions);
    var s := History(true, actions).value;
    assert TxOk(s, x, c);
    BalanceConcat(s.committed, s.txs[x].own, ProgramFunding(c));
  }

  // ------------------------------------------------------------------- write skew

  const PAYOUT := Transfer(0, 60, 0, Pending, None, None, 0)

  lemma Next(locking: bool, actions: seq<Action>, a: Action) returns (after: seq<Action>)
    requires History(locking, actions).Some? && Enabled(locking, History(locking, actions).value, a)
    ensures History(locking, after) == Some(Done(locking, History(locking, actions).value, a))
  {
    hide Enabled, Done;
    after := actions + [a];
    assert after[..|actions|] == actions;
  }

  lemma FundOfOne(j: Journal)
    ensures Fund([j], 0) == Effect(j.lines, ProgramFunding(0))
  {
    var js := [j];
    assert js[..|js| - 1] == [];
    assert Balance(js, ProgramFunding(0)) == Balance([], ProgramFunding(0)) + Effect(j.lines, ProgramFunding(0));
  }

  lemma Funded() returns (actions: seq<Action>)
    ensures History(false, actions) == Some(Bank([DepositJournal(0, 100)], map[], map[]))
  {
    var deposit := DepositJournal(0, 100);
    var none: seq<Journal> := [];
    actions := Next(false, [], Begin(0));
    actions := Next(false, actions, PostDeposit(0, 0, 100));
    assert none + [deposit] == [deposit];
    assert History(false, actions).value == Bank([], map[], map[0 := Tx([deposit], map[])]);
    actions := Next(false, actions, Commit(0));
  }

  lemma BothRead() returns (actions: seq<Action>)
    ensures History(false, actions) ==
            Some(Bank([DepositJournal(0, 100)], map[], map[1 := Tx([], map[0 := 100]), 2 := Tx([], map[0 := 100])]))
  {
    var deposit := DepositJournal(0, 100);
    var none: seq<Journal> := [];
    assert [deposit] + none == [deposit];
    DepositEffect(0, 100, ProgramFunding(0));
    FundOfOne(deposit);
    actions := Funded();
    actions := Next(false, actions, Begin(1));
    actions := Next(false, actions, Read(1, 0));
    assert History(false, actions).value.txs == map[1 := Tx([], map[0 := 100])];
    actions := Next(false, actions, Begin(2));
    actions := Next(false, actions, Read(2, 0));
    assert History(false, actions).value.txs == map[1 := Tx([], map[0 := 100]), 2 := Tx([], map[0 := 100])];
  }

  /** Without the lock, two transfers that each see enough overdraw the fund: the write skew it prevents. */
  lemma WriteSkewWithoutLock() returns (actions: seq<Action>)
    ensures History(false, actions).Some? && Fund(History(false, actions).value.committed, 0) < 0
  {
    hide Balance;
    var deposit, a, b := DepositJournal(0, 100), AuthorizedJournal(0, PAYOUT), AuthorizedJournal(1, PAYOUT);
    var none: seq<Journal> := [];
    assert none + [a] == [a] && none + [b] == [b];
    actions := BothRead();
    actions := Next(false, actions, Authorize(1, 0, PAYOUT));
    actions := Next(false, actions, Authorize(2, 1, PAYOUT));
    assert History(false, actions).value.txs == map[1 := Tx([a], map[]), 2 := Tx([b], map[])];
    actions := Next(false, actions, Commit(1));
    actions := Next(false, actions, Commit(2));
    var committed := History(false, actions).value.committed;
    assert committed == [deposit] + [a] + [b];
    DepositEffect(0, 100, ProgramFunding(0));
    MovesEffect(PAYOUT, 0, ProgramFunding(0));
    MovesEffect(PAYOUT, 1, ProgramFunding(0));
    FundOfOne(deposit);
    BalanceSnoc([deposit], a, ProgramFunding(0));
    BalanceSnoc([deposit] + [a], b, ProgramFunding(0));
  }
}
