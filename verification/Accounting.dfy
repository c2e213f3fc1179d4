/** What the books say about the transfers, and why every lifecycle move keeps it true. */
module Accounting {
  import opened Records
  import opened Ledger
  import opened TransferService

  // --------------------------------------------------------- sums over transfers

  datatype Standing =
    | Unreversed(currency: Currency)
    | Owed(recipient: Id, currency: Currency)
    | InTransit(currency: Currency)
    | PaidOut(currency: Currency)

  predicate Unfinished(x: Transfer) {
    x.status.Pending? || x.status.Processing?
  }

  predicate Counts(x: Transfer, v: Standing) {
    match v
    case Unreversed(c) => x.currency == c && !x.status.Failed?
    case Owed(r, c) => x.currency == c && x.recipient == r && Unfinished(x)
    case InTransit(c) => x.currency == c && Unfinished(x)
    case PaidOut(c) => x.currency == c && x.status.Succeeded?
  }

  function Weight(x: Transfer, v: Standing): nat {
    if Counts(x, v) then x.amount else 0
  }

  function StatusSum(ts: seq<Transfer>, v: Standing): nat {
    if |ts| == 0 then 0 else StatusSum(ts[..|ts| - 1], v) + Weight(ts[|ts| - 1], v)
  }

  lemma StatusSumSnoc(ts: seq<Transfer>, x: Transfer, v: Standing)
    ensures StatusSum(ts + [x], v) == StatusSum(ts, v) + Weight(x, v)
  {
    assert (ts + [x])[..|ts|] == ts;
  }

  lemma {:induction false} StatusSumUpdate(ts: seq<Transfer>, i: Id, x: Transfer, v: Standing)
    requires i < |ts|
    ensures StatusSum(ts[i := x], v) == StatusSum(ts, v) - Weight(ts[i], v) + Weight(x, v)
  {
    var n := |ts| - 1;
    if i < n {
      StatusSumUpdate(ts[..n], i, x, v);
      assert ts[i := x][..n] == ts[..n][i := x];
    } else {
      assert ts[i := x][..n] == ts[..n];
    }
  }

  lemma {:induction false} StatusSumsSplit(ts: seq<Transfer>, c: Currency)
    ensures StatusSum(ts, Unreversed(c)) == StatusSum(ts, InTransit(c)) + StatusSum(ts, PaidOut(c))
  {
    if |ts| > 0 {
      StatusSumsSplit(ts[..|ts| - 1], c);
    }
  }

  /** Money put into the program in one currency. */
  function Deposits(js: seq<Journal>, c: Currency): int {
    if |js| == 0 then 0
    else
      var j := js[|js| - 1];
      Deposits(js[..|js| - 1], c) + if j.kind.FundingDeposit? then Effect(j.lines, ProviderSettlement(c)) else 0
  }

  lemma DepositsSnoc(js: seq<Journal>, j: Journal, c: Currency)
    ensures Deposits(js + [j], c) ==
            Deposits(js, c) + if j.kind.FundingDeposit? then Effect(j.lines, ProviderSettlement(c)) else 0
  {
    assert (js + [j])[..|js|] == js;
  }

  // ------------------------------------------------------------------ invariant

  /** An account's derived balance is what the statuses of the transfers say it is. */
  predicate BalanceMatches(js: seq<Journal>, ts: seq<Transfer>, a: Account) {
    match a
    case ProgramFunding(c) => Balance(js, a) == Deposits(js, c) - StatusSum(ts, Unreversed(c))
    case RecipientPayable(r, c) => Balance(js, a) == StatusSum(ts, Owed(r, c))
    case ProviderSettlement(c) => Balance(js, a) == Deposits(js, c) - StatusSum(ts, PaidOut(c))
  }

  ghost predicate BooksMatch(js: seq<Journal>, ts: seq<Transfer>) {
    forall a :: BalanceMatches(js, ts, a)
  }

  ghost predicate FundsCovered(js: seq<Journal>) {
    forall c: Currency :: Balance(js, ProgramFunding(c)) >= 0
  }

  /** The journals a transfer must have, given its status. */
  function ExpectedJournals(t: Id, x: Transfer): seq<Journal> {
    match x.status
    case Pending => [AuthorizedJournal(t, x)]
    case Processing => [AuthorizedJournal(t, x)]
    case Succeeded => [AuthorizedJournal(t, x), SettledJournal(t, x)]
    case Failed => [AuthorizedJournal(t, x), ReversedJournal(t, x)]
  }

  ghost predicate HistoryMatches(js: seq<Journal>, ts: seq<Transfer>) {
    && (forall t :: 0 <= t < |ts| ==> JournalsOf(js, t) == ExpectedJournals(t, ts[t]))
    && (forall i :: 0 <= i < |js| ==> js[i].transfer.Some? ==> js[i].transfer.value < |ts|)
  }

  ghost predicate AllBalanced(js: seq<Journal>) {
    forall i :: 0 <= i < |js| ==> Balanced(js[i].lines)
  }

  ghost predicate Audited(js: seq<Journal>, ts: seq<Transfer>) {
    BooksMatch(js, ts) && FundsCovered(js) && HistoryMatches(js, ts) && AllBalanced(js)
  }

  lemma EmptyBooksAudited()
    ensures Audited([], [])
  {
  }

  // --------------------------------------------------------- the lifecycle moves

  lemma DepositKeepsAudit(js: seq<Journal>, ts: seq<Transfer>, c: Currency, amount: Amount)
    requires Audited(js, ts)
    ensures Audited(js + [DepositJournal(c, amount)], ts)
  {
    var j := DepositJournal(c, amount);
    forall a ensures BalanceMatches(js + [j], ts, a) {
      assert BalanceMatches(js, ts, a);
      BalanceSnoc(js, j, a);
      DepositsSnoc(js, j, a.currency);
      DepositEffect(c, amount, a);
      DepositEffect(c, amount, ProviderSettlement(a.currency));
    }
    forall d: Currency ensures Balance(js + [j], ProgramFunding(d)) >= 0 {
      BalanceSnoc(js, j, ProgramFunding(d));
      DepositEffect(c, amount, ProgramFunding(d));
    }
    forall t | 0 <= t < |ts| ensures JournalsOf(js + [j], t) == ExpectedJournals(t, ts[t]) {
      JournalsOfSnoc(js, j, t);
    }
    DepositEffect(c, amount, ProgramFunding(c));
  }

  lemma AuthorizeMatches(js: seq<Journal>, ts: seq<Transfer>, x: Transfer, a: Account)
    requires BalanceMatches(js, ts, a) && x.status.Pending?
    ensures BalanceMatches(js + [AuthorizedJournal(|ts|, x)], ts + [x], a)
    ensures a.ProgramFunding? ==>
              Balance(js + [AuthorizedJournal(|ts|, x)], a) ==
              Balance(js, a) - if a.currency == x.currency then x.amount else 0
  {
    var j := AuthorizedJournal(|ts|, x);
    BalanceSnoc(js, j, a);
    MovesEffect(x, |ts|, a);
    match a
    case ProgramFunding(c) =>
      DepositsSnoc(js, j, c);
      StatusSumSnoc(ts, x, Unreversed(c));
    case RecipientPayable(r, c) =>
      StatusSumSnoc(ts, x, Owed(r, c));
    case ProviderSettlement(c) =>
      DepositsSnoc(js, j, c);
      StatusSumSnoc(ts, x, PaidOut(c));
  }

  lemma AuthorizeHistory(js: seq<Journal>, ts: seq<Transfer>, x: Transfer)
    requires HistoryMatches(js, ts) && x.status.Pending?
    ensures HistoryMatches(js + [AuthorizedJournal(|ts|, x)], ts + [x])
  {
    var j := AuthorizedJournal(|ts|, x);
    var js', ts' := js + [j], ts + [x];
    forall t | 0 <= t < |ts'| ensures JournalsOf(js', t) == ExpectedJournals(t, ts'[t]) {
      JournalsOfSnoc(js, j, t);
      if t == |ts| {
        JournalsOfNobody(js, t);
      }
    }
  }

  /** Authorizing needs the fund to hold the amount; then the audit still passes. */
  lemma AuthorizeKeepsAudit(js: seq<Journal>, ts: seq<Transfer>, x: Transfer)
    requires Audited(js, ts)
    requires x.status.Pending? && Balance(js, ProgramFunding(x.currency)) >= x.amount
    ensures Audited(js + [AuthorizedJournal(|ts|, x)], ts + [x])
  {
    var js', ts' := js + [AuthorizedJournal(|ts|, x)], ts + [x];
    forall a ensures BalanceMatches(js', ts', a) {
      AuthorizeMatches(js, ts, x, a);
    }
    forall d: Currency ensures Balance(js', ProgramFunding(d)) >= 0 {
      AuthorizeMatches(js, ts, x, ProgramFunding(d));
    }
    AuthorizeHistory(js, ts, x);
    MovesEffect(x, |ts|, ProgramFunding(x.currency));
  }

  /** Following a payment posts nothing, and nothing needs to be. */
  lemma FollowKeepsAudit(js: seq<Journal>, ts: seq<Transfer>, t: Id, x: Transfer)
    requires Audited(js, ts) && t < |ts|
    requires ts[t].status.Pending? && x.status.Processing? && SameIntent(x, ts[t])
    ensures Audited(js, ts[t := x])
  {
    var ts' := ts[t := x];
    forall a ensures BalanceMatches(js, ts', a) {
      assert BalanceMatches(js, ts, a);
      StatusSumUpdate(ts, t, x, Unreversed(a.currency));
      StatusSumUpdate(ts, t, x, PaidOut(a.currency));
      if a.RecipientPayable? {
        StatusSumUpdate(ts, t, x, Owed(a.recipient, a.currency));
      }
    }
  }

  predicate Closes(j: Journal, t: Id, x: Transfer) {
    (x.status.Succeeded? && j == SettledJournal(t, x)) || (x.status.Failed? && j == ReversedJournal(t, x))
  }

  lemma CloseMatches(js: seq<Journal>, ts: seq<Transfer>, t: Id, x: Transfer, j: Journal, a: Account)
    requires BalanceMatches(js, ts, a) && t < |ts| && Unfinished(ts[t]) && SameIntent(x, ts[t]) && Closes(j, t, x)
    ensures BalanceMatches(js + [j], ts[t := x], a)
    ensures a.ProgramFunding? ==> Balance(js + [j], a) >= Balance(js, a)
  {
    BalanceSnoc(js, j, a);
    MovesEffect(x, t, a);
    match a
    case ProgramFunding(c) =>
      DepositsSnoc(js, j, c);
      StatusSumUpdate(ts, t, x, Unreversed(c));
    case RecipientPayable(r, c) =>
      StatusSumUpdate(ts, t, x, Owed(r, c));
    case ProviderSettlement(c) =>
      DepositsSnoc(js, j, c);
      StatusSumUpdate(ts, t, x, PaidOut(c));
  }

  lemma CloseHistory(js: seq<Journal>, ts: seq<Transfer>, t: Id, x: Transfer, j: Journal)
    requires HistoryMatches(js, ts) && t < |ts| && Unfinished(ts[t]) && SameIntent(x, ts[t]) && Closes(j, t, x)
    ensures HistoryMatches(js + [j], ts[t := x])
  {
    var js', ts' := js + [j], ts[t := x];
    forall u | 0 <= u < |ts'| ensures JournalsOf(js', u) == ExpectedJournals(u, ts'[u]) {
      JournalsOfSnoc(js, j, u);
    }
  }

  /** Settling or reversing an unfinished transfer, once, with its own journal. */
  lemma CloseKeepsAudit(js: seq<Journal>, ts: seq<Transfer>, t: Id, x: Transfer, j: Journal)
    requires Audited(js, ts) && t < |ts| && Unfinished(ts[t]) && SameIntent(x, ts[t]) && Closes(j, t, x)
    ensures Audited(js + [j], ts[t := x])
  {
    var js', ts' := js + [j], ts[t := x];
    forall a ensures BalanceMatches(js', ts', a) {
      CloseMatches(js, ts, t, x, j, a);
    }
    forall d: Currency ensures Balance(js', ProgramFunding(d)) >= 0 {
      CloseMatches(js, ts, t, x, j, ProgramFunding(d));
    }
    CloseHistory(js, ts, t, x, j);
    MovesEffect(x, t, ProgramFunding(x.currency));
  }

  // ------------------------------------------------- the same, on whole databases

  ghost predicate DbAudited(db: Db) {
    Audited(db.journals, db.transfers)
  }

  lemma InitiateKeepsAudit(db: Db, recipient: Id, amount: int, currency: Currency, run: Option<Id>)
    requires DbAudited(db) && Initiated(db, recipient, amount, currency, run).Ok?
    ensures DbAudited(Initiated(db, recipient, amount, currency, run).value)
  {
    AuthorizeKeepsAudit(db.journals, db.transfers, NewTransfer(db, recipient, amount, currency, run));
  }

  /** Neither mark function checks more than its own status; an unfinished transfer is enough. */
  lemma MarksKeepAudit(db: Db, t: Id, copy: Transfer)
    requires DbAudited(db) && t < |db.transfers|
    requires copy == db.transfers[t] && Unfinished(copy)
    ensures DbAudited(MarkedSucceeded(db, t, copy))
    ensures DbAudited(MarkedFailed(db, t, copy))
  {
    CloseKeepsAudit(db.journals, db.transfers, t, copy.(status := Succeeded), SettledJournal(t, copy));
    CloseKeepsAudit(db.journals, db.transfers, t, copy.(status := Failed), ReversedJournal(t, copy));
  }

  /** The guards are not enough by themselves: a finished transfer marked the other way is posted twice. */
  lemma MarksAreNotGuarded(db: Db, t: Id, copy: Transfer)
    requires DbAudited(db) && t < |db.transfers| && copy == db.transfers[t] && !Unfinished(copy)
    ensures copy.status.Failed? ==> !DbAudited(MarkedSucceeded(db, t, copy))
    ensures copy.status.Succeeded? ==> !DbAudited(MarkedFailed(db, t, copy))
  {
    JournalsOfSnoc(db.journals, SettledJournal(t, copy), t);
    JournalsOfSnoc(db.journals, ReversedJournal(t, copy), t);
    if copy.status.Failed? {
      var after := MarkedSucceeded(db, t, copy);
      assert |JournalsOf(after.journals, t)| == 3 && |ExpectedJournals(t, after.transfers[t])| == 2;
    } else {
      var after := MarkedFailed(db, t, copy);
      assert |JournalsOf(after.journals, t)| == 3 && |ExpectedJournals(t, after.transfers[t])| == 2;
    }
  }

  // ------------------------------------------------------------ consequences

  function PayablesOf(js: seq<Journal>, rs: seq<Id>, c: Currency): int {
    if |rs| == 0 then 0
    else PayablesOf(js, rs[..|rs| - 1], c) + Balance(js, RecipientPayable(rs[|rs| - 1], c))
  }

  function OwedTo(ts: seq<Transfer>, rs: seq<Id>, c: Currency): int {
    if |rs| == 0 then 0 else OwedTo(ts, rs[..|rs| - 1], c) + StatusSum(ts, Owed(rs[|rs| - 1], c))
  }

  predicate Distinct(ids: seq<Id>) {
    forall i, j :: 0 <= i < j < |ids| ==> ids[i] != ids[j]
  }

  lemma {:induction false} OwedToSnoc(ts: seq<Transfer>, x: Transfer, rs: seq<Id>, c: Currency)
    requires Distinct(rs)
    ensures OwedTo(ts + [x], rs, c) ==
            OwedTo(ts, rs, c) + if x.recipient in rs then Weight(x, InTransit(c)) else 0
  {
    if |rs| > 0 {
      var n := |rs| - 1;
      OwedToSnoc(ts, x, rs[..n], c);
      StatusSumSnoc(ts, x, Owed(rs[n], c));
      assert rs == rs[..n] + [rs[n]];
    }
  }

  lemma {:induction false} OwedToNobody(rs: seq<Id>, c: Currency)
    ensures OwedTo([], rs, c) == 0
  {
    if |rs| > 0 {
      OwedToNobody(rs[..|rs| - 1], c);
    }
  }

  lemma {:induction false} OwedToEverybody(ts: seq<Transfer>, rs: seq<Id>, c: Currency)
    requires Distinct(rs) && forall t :: 0 <= t < |ts| ==> ts[t].recipient in rs
    ensures OwedTo(ts, rs, c) == StatusSum(ts, InTransit(c))
  {
    if |ts| == 0 {
      OwedToNobody(rs, c);
    } else {
      var n := |ts| - 1;
      OwedToEverybody(ts[..n], rs, c);
      OwedToSnoc(ts[..n], ts[n], rs, c);
      assert ts == ts[..n] + [ts[n]];
    }
  }

  lemma {:induction false} PayablesMatch(js: seq<Journal>, ts: seq<Transfer>, rs: seq<Id>, c: Currency)
    requires BooksMatch(js, ts)
    ensures PayablesOf(js, rs, c) == OwedTo(ts, rs, c)
  {
    if |rs| > 0 {
      PayablesMatch(js, ts, rs[..|rs| - 1], c);
      assert BalanceMatches(js, ts, RecipientPayable(rs[|rs| - 1], c));
    }
  }

  /** The fund and what is owed to every recipient are together exactly the float. */
  lemma FundPlusPayablesIsFloat(js: seq<Journal>, ts: seq<Transfer>, rs: seq<Id>, c: Currency)
    requires BooksMatch(js, ts)
    requires Distinct(rs) && forall t :: 0 <= t < |ts| ==> ts[t].recipient in rs
    ensures Balance(js, ProgramFunding(c)) + PayablesOf(js, rs, c) == Balance(js, ProviderSettlement(c))
  {
    assert BalanceMatches(js, ts, ProgramFunding(c)) && BalanceMatches(js, ts, ProviderSettlement(c));
    StatusSumsSplit(ts, c);
    OwedToEverybody(ts, rs, c);
    PayablesMatch(js, ts, rs, c);
  }

  /** No code checks the float, and it still cannot be overdrawn. */
  lemma FloatNeverOverdrawn(js: seq<Journal>, ts: seq<Transfer>, c: Currency)
    requires Audited(js, ts)
    ensures 0 <= Balance(js, ProgramFunding(c)) <= Balance(js, ProviderSettlement(c))
    ensures TrialBalance(js) == 0
  {
    assert BalanceMatches(js, ts, ProgramFunding(c)) && BalanceMatches(js, ts, ProviderSettlement(c));
    StatusSumsSplit(ts, c);
    BalancedBooksTrialZero(js);
  }
}
