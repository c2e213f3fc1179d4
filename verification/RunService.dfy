/** Payment runs (run_service.py): many disbursements authorized as one decision. */
module RunService {
  import opened Records
  import opened Ledger
  import opened Database
  import opened TransferService
  import opened Accounting

  datatype RunError = EmptyRun | DuplicateRecipient | OfTransfer(error: TransferError)

  function Total(items: seq<Item>): int {
    if |items| == 0 then 0 else Total(items[..|items| - 1]) + items[|items| - 1].amount
  }

  predicate NobodyTwice(items: seq<Item>) {
    forall i, j :: 0 <= i < j < |items| ==> items[i].recipient != items[j].recipient
  }

  predicate AllKnown(db: Db, items: seq<Item>) {
    forall i :: 0 <= i < |items| ==> items[i].recipient in db.recipients
  }

  predicate AllDue(items: seq<Item>) {
    forall i :: 0 <= i < |items| ==> items[i].amount > 0
  }

  function InitiatedAll(db: Db, items: seq<Item>, currency: Currency, run: Id): Result<Db, TransferError> {
    if |items| == 0 then Ok(db)
    else
      match InitiatedAll(db, items[..|items| - 1], currency, run)
      case Err(e) => Err(e)
      case Ok(before) =>
        Initiated(before, items[|items| - 1].recipient, items[|items| - 1].amount, currency, Some(run))
  }

  /** `initiate`: the whole list is decided against one balance before anything is posted. */
  function RunInitiated(db: Db, items: seq<Item>, currency: Currency): Result<Db, RunError> {
    if |items| == 0 then Err(EmptyRun)
    else if !NobodyTwice(items) then Err(DuplicateRecipient)
    else if currency !in db.chart then Err(OfTransfer(NoAccount))
    else if Balance(db.journals, ProgramFunding(currency)) < Total(items) then Err(OfTransfer(InsufficientFunds))
    else
      match InitiatedAll(db.(runs := db.runs + 1), items, currency, db.runs)
      case Err(e) => Err(OfTransfer(e))
      case Ok(after) => Ok(after)
  }

  method NamesTwice(items: seq<Item>) returns (twice: bool)
    ensures twice <==> !NobodyTwice(items)
  {
    var seen: set<Id> := {};
    for i := 0 to |items|
      invariant NobodyTwice(items[..i])
      invariant forall p :: p in seen <==> exists j :: 0 <= j < i && items[j].recipient == p
    {
      if items[i].recipient in seen {
        return true;
      }
      seen := seen + {items[i].recipient};
    }
    assert items[..|items|] == items;
    return false;
  }

  method Sum(items: seq<Item>) returns (total: int)
    ensures total == Total(items)
  {
    total := 0;
    for i := 0 to |items|
      invariant total == Total(items[..i])
    {
      assert items[..i + 1][..i] == items[..i];
      total := total + items[i].amount;
    }
    assert items[..|items|] == items;
  }

  /** On an error the work is left for the caller's rollback; nothing is committed either way. */
  method InitiateRun(session: Session, items: seq<Item>, currency: Currency) returns (r: Result<Id, RunError>)
    modifies session
    ensures match RunInitiated(old(session.Work()), items, currency)
            case Ok(db) => r == Ok(old(session.runs)) && session.Work() == db
            case Err(e) => r == Err(e)
    ensures r.Err? ==> RefusesRunFor(old(session.Work()), items, currency, r.error)
    ensures r.Ok? ==> AuthorizesRunAs(old(session.Work()), items, currency, r.value, session.Work())
    ensures session.committed == old(session.committed)
  {
    hide Balance, Total, NobodyTwice, Initiated, RefusesFor, AuthorizesAs, RefusesRunFor, AuthorizesRunAs;
    RunRefusals(session.Work(), items, currency);
    RunAuthorizes(session.Work(), items, currency);
    if |items| == 0 {
      return Err(EmptyRun);
    }
    var twice := NamesTwice(items);
    if twice {
      return Err(DuplicateRecipient);
    }
    var total := Sum(items);
    if currency !in session.chart {
      return Err(OfTransfer(NoAccount));
    }
    var available := BalanceOf(session.journals, ProgramFunding(currency));
    if available < total {
      return Err(OfTransfer(InsufficientFunds));
    }
    var run := session.runs;
    session.runs := run + 1;
    ghost var begun := session.Work();
    for i := 0 to |items|
      invariant session.committed == old(session.committed)
      invariant InitiatedAll(begun, items[..i], currency, run) == Ok(session.Work())
    {
      assert items[..i + 1][..i] == items[..i];
      var item := Initiate(session, items[i].recipient, items[i].amount, currency, Some(run));
      if item.Err? {
        FirstErrorStands(begun, items, currency, run, i + 1);
        return Err(OfTransfer(item.error));
      }
    }
    assert items[..|items|] == items;
    return Ok(run);
  }

  lemma {:induction false} FirstErrorStands(db: Db, items: seq<Item>, currency: Currency, run: Id, n: nat)
    requires n <= |items| && InitiatedAll(db, items[..n], currency, run).Err?
    ensures InitiatedAll(db, items, currency, run) == InitiatedAll(db, items[..n], currency, run)
    decreases |items|
  {
    if n == |items| {
      assert items[..n] == items;
    } else {
      var m := |items| - 1;
      assert items[..m][..n] == items[..n];
      FirstErrorStands(db, items[..m], currency, run, n);
    }
  }

  // ----------------------------------------------------------------- all or nothing

  /** What the run adds to an account. */
  function Change(items: seq<Item>, currency: Currency, a: Account): int {
    if |items| == 0 then 0
    else
      var item := items[|items| - 1];
      Change(items[..|items| - 1], currency, a) +
      if a == ProgramFunding(currency) then -item.amount
      else if a == RecipientPayable(item.recipient, currency) then item.amount
      else 0
  }

  lemma {:induction false} ChangeOfFund(items: seq<Item>, currency: Currency)
    ensures Change(items, currency, ProgramFunding(currency)) == -Total(items)
  {
    if |items| > 0 {
      ChangeOfFund(items[..|items| - 1], currency);
    }
  }

  lemma {:induction false} ChangeOfPayable(items: seq<Item>, currency: Currency, p: Id)
    requires NobodyTwice(items)
    ensures forall i :: 0 <= i < |items| && items[i].recipient == p ==>
              Change(items, currency, RecipientPayable(p, currency)) == items[i].amount
    ensures (forall i :: 0 <= i < |items| ==> items[i].recipient != p) ==>
              Change(items, currency, RecipientPayable(p, currency)) == 0
  {
    if |items| > 0 {
      ChangeOfPayable(items[..|items| - 1], currency, p);
    }
  }

  lemma {:induction false} TotalGrows(items: seq<Item>, n: nat)
    requires AllDue(items) && n <= |items|
    ensures Total(items[..n]) <= Total(items)
    decreases |items|
  {
    if n < |items| {
      TotalGrows(items[..|items| - 1], n);
      assert items[..|items| - 1][..n] == items[..n];
    } else {
      assert items[..n] == items;
    }
  }

  function RowsOf(db: Db, items: seq<Item>, currency: Currency, run: Id): seq<Transfer>
    requires AllDue(items)
  {
    seq(|items|, i requires 0 <= i < |items| =>
      NewTransfer(db, items[i].recipient, items[i].amount, currency, Some(run)))
  }

  /** Item by item: no refusal but an unknown recipient, and every account moved by its share. */
  lemma {:induction false} ItemsNeverShort(db: Db, items: seq<Item>, currency: Currency, run: Id)
    requires AllDue(items) && AllKnown(db, items) && currency in db.chart
    requires Balance(db.journals, ProgramFunding(currency)) >= Total(items)
    ensures var r := InitiatedAll(db, items, currency, run);
            && r.Ok?
            && r.value.transfers == db.transfers + RowsOf(db, items, currency, run)
            && |r.value.tasks| == |db.tasks| + |items|
            && r.value.recipients == db.recipients && r.value.chart == db.chart && r.value.now == db.now
            && r.value.runs == db.runs && r.value.keys == db.keys
    ensures forall a :: Balance(InitiatedAll(db, items, currency, run).value.journals, a) ==
                        Balance(db.journals, a) + Change(items, currency, a)
  {
    hide Balance;
    if |items| == 0 {
      assert db.transfers + RowsOf(db, items, currency, run) == db.transfers;
    } else {
      var n := |items| - 1;
      TotalGrows(items, n);
      ItemsNeverShort(db, items[..n], currency, run);
      ChangeOfFund(items[..n], currency);
      var before := InitiatedAll(db, items[..n], currency, run).value;
      assert Balance(before.journals, ProgramFunding(currency)) ==
             Balance(db.journals, ProgramFunding(currency)) - Total(items[..n]);
      var t, x := |before.transfers|, NewTransfer(before, items[n].recipient, items[n].amount, currency, Some(run));
      var after := InitiatedAll(db, items, currency, run).value;
      assert after.journals == before.journals + [AuthorizedJournal(t, x)];
      forall a ensures Balance(after.journals, a) == Balance(db.journals, a) + Change(items, currency, a) {
        BalanceSnoc(before.journals, AuthorizedJournal(t, x), a);
        MovesEffect(x, t, a);
      }
      assert RowsOf(db, items, currency, run) == RowsOf(db, items[..n], currency, run) + [x];
    }
  }

  lemma {:induction false} ItemsRefused(db: Db, items: seq<Item>, currency: Currency, run: Id)
    requires InitiatedAll(db, items, currency, run).Ok?
    ensures AllDue(items) && AllKnown(db, items)
    ensures InitiatedAll(db, items, currency, run).value.recipients == db.recipients
  {
    if |items| > 0 {
      ItemsRefused(db, items[..|items| - 1], currency, run);
      assert items == items[..|items| - 1] + [items[|items| - 1]];
    }
  }

  /** A run is authorized exactly when its list is not empty, names nobody twice and only known
      recipients, asks positive amounts, and totals no more than the fund holds. */
  lemma RunAcceptedIff(db: Db, items: seq<Item>, currency: Currency)
    ensures RunInitiated(db, items, currency).Ok? <==>
            && items != [] && NobodyTwice(items) && AllKnown(db, items) && AllDue(items)
            && currency in db.chart
            && Total(items) <= Balance(db.journals, ProgramFunding(currency))
    ensures AllDue(items) && RunInitiated(db, items, currency) == Err(OfTransfer(InsufficientFunds)) && currency in db.chart
            && AllKnown(db, items)
            ==> Balance(db.journals, ProgramFunding(currency)) < Total(items)
  {
    var begun := db.(runs := db.runs + 1);
    if InitiatedAll(begun, items, currency, db.runs).Ok? {
      ItemsRefused(begun, items, currency, db.runs);
    }
    if AllDue(items) && AllKnown(db, items) && currency in db.chart
       && Balance(db.journals, ProgramFunding(currency)) >= Total(items) {
      ItemsNeverShort(begun, items, currency, db.runs);
    }
  }

  /** An authorized run lowers the fund by exactly its total, raises each payable by exactly its item,
      leaves every other account alone, and adds one pending transfer and one send per item. */
  lemma RunMovesExactly(db: Db, items: seq<Item>, currency: Currency, i: nat, other: Account)
    requires RunInitiated(db, items, currency).Ok? && i < |items|
    requires other != ProgramFunding(currency)
    requires forall j :: 0 <= j < |items| ==> other != RecipientPayable(items[j].recipient, currency)
    ensures var before, after := db.journals, RunInitiated(db, items, currency).value.journals;
            && Balance(after, ProgramFunding(currency)) == Balance(before, ProgramFunding(currency)) - Total(items)
            && Balance(after, RecipientPayable(items[i].recipient, currency)) ==
               Balance(before, RecipientPayable(items[i].recipient, currency)) + items[i].amount
            && Balance(after, other) == Balance(before, other)
    ensures var after := RunInitiated(db, items, currency).value;
            && |after.transfers| == |db.transfers| + |items| && |after.tasks| == |db.tasks| + |items|
            && var x := after.transfers[|db.transfers| + i];
               && x.recipient == items[i].recipient && x.amount == items[i].amount && x.currency == currency
               && x.status.Pending? && x.reference.None? && x.run == Some(db.runs)
  {
    hide Balance;
    RunAcceptedIff(db, items, currency);
    ItemsNeverShort(db.(runs := db.runs + 1), items, currency, db.runs);
    ChangeOfFund(items, currency);
    ChangeOfPayable(items, currency, items[i].recipient);
    ChangeOfOther(items, currency, other);
  }

  lemma {:induction false} ChangeOfOther(items: seq<Item>, currency: Currency, a: Account)
    requires a != ProgramFunding(currency)
    requires forall j :: 0 <= j < |items| ==> a != RecipientPayable(items[j].recipient, currency)
    ensures Change(items, currency, a) == 0
  {
    if |items| > 0 {
      ChangeOfOther(items[..|items| - 1], currency, a);
    }
  }

  // ----------------------------------------------- told from the list and the rows alone

  /** What the fund still holds when the items before this one are paid for. */
  function Left(db: Db, items: seq<Item>, currency: Currency, i: nat): int
    requires i <= |items|
  {
    Balance(db.journals, ProgramFunding(currency)) - Total(items[..i])
  }

  predicate ItemFine(db: Db, items: seq<Item>, currency: Currency, i: nat)
    requires i < |items|
  {
    && items[i].recipient in db.recipients
    && 0 < items[i].amount <= Left(db, items, currency, i)
  }

  /** The rule an item breaks, tried in this order. */
  function BrokenRule(db: Db, items: seq<Item>, currency: Currency, i: nat): TransferError
    requires i < |items|
  {
    if items[i].recipient !in db.recipients then UnknownRecipient
    else if items[i].amount > Left(db, items, currency, i) then InsufficientFunds
    else AmountNotPositive
  }

  predicate FirstNotFine(db: Db, items: seq<Item>, currency: Currency, i: nat) {
    i < |items| && !ItemFine(db, items, currency, i) && forall j :: 0 <= j < i ==> ItemFine(db, items, currency, j)
  }

  /** The rule a refused run broke: the list's own, the account, the total, or the first bad item's. */
  ghost predicate RefusesRunFor(db: Db, items: seq<Item>, currency: Currency, error: RunError) {
    if items == [] then error == EmptyRun
    else if exists i, j :: 0 <= i < j < |items| && items[i].recipient == items[j].recipient then error == DuplicateRecipient
    else if currency !in db.chart then error == OfTransfer(NoAccount)
    else if Balance(db.journals, ProgramFunding(currency)) < Total(items) then error == OfTransfer(InsufficientFunds)
    else exists i :: FirstNotFine(db, items, currency, i) && error == OfTransfer(BrokenRule(db, items, currency, i))
  }

  lemma {:induction false} FinePrefix(db: Db, items: seq<Item>, currency: Currency, n: nat)
    requires n <= |items| && forall j :: 0 <= j < n ==> ItemFine(db, items, currency, j)
    requires Balance(db.journals, ProgramFunding(currency)) >= 0 || n > 0
    ensures AllDue(items[..n]) && AllKnown(db, items[..n]) && Left(db, items, currency, n) >= 0
  {
    hide Balance;
    if n > 0 {
      var m := n - 1;
      assert items[..n][..m] == items[..m];
      if m > 0 {
        FinePrefix(db, items, currency, m);
      }
      assert ItemFine(db, items, currency, m);
      assert items[..n] == items[..m] + [items[m]];
    }
  }

  lemma FirstBadItemDecides(db: Db, items: seq<Item>, currency: Currency, run: Id, i: nat)
    requires currency in db.chart && FirstNotFine(db, items, currency, i)
    ensures InitiatedAll(db, items, currency, run) == Err(BrokenRule(db, items, currency, i))
  {
    hide Balance, Initiated;
    if i > 0 {
      FinePrefix(db, items, currency, i);
      ItemsNeverShort(db, items[..i], currency, run);
      ChangeOfFund(items[..i], currency);
    } else {
      assert items[..0] == [];
    }
    var before := InitiatedAll(db, items[..i], currency, run).value;
    assert Balance(before.journals, ProgramFunding(currency)) == Left(db, items, currency, i);
    InitiatedIsAsAsked(before, items[i].recipient, items[i].amount, currency, Some(run));
    assert items[..i + 1][..i] == items[..i];
    FirstErrorStands(db, items, currency, run, i + 1);
  }

  lemma {:induction false} SomeItemNotFine(db: Db, items: seq<Item>, currency: Currency, n: nat) returns (i: nat)
    requires n <= |items| && exists j :: 0 <= j < n && !ItemFine(db, items, currency, j)
    ensures FirstNotFine(db, items, currency, i)
  {
    hide ItemFine;
    if exists j :: 0 <= j < n - 1 && !ItemFine(db, items, currency, j) {
      i := SomeItemNotFine(db, items, currency, n - 1);
    } else {
      i := n - 1;
    }
  }

  lemma AllFineIsAccepted(db: Db, items: seq<Item>, currency: Currency, run: Id)
    requires items != [] && currency in db.chart && forall i :: 0 <= i < |items| ==> ItemFine(db, items, currency, i)
    ensures InitiatedAll(db, items, currency, run).Ok?
  {
    hide Balance, Initiated;
    FinePrefix(db, items, currency, |items|);
    assert items[..|items|] == items;
    ItemsNeverShort(db, items, currency, run);
  }

  lemma RunRefusals(db: Db, items: seq<Item>, currency: Currency)
    ensures RunInitiated(db, items, currency).Err? ==> RefusesRunFor(db, items, currency, RunInitiated(db, items, currency).error)
  {
    hide Balance, Initiated, InitiatedAll, ItemFine, FirstNotFine, Total;
    var begun := db.(runs := db.runs + 1);
    if items != [] && currency in db.chart && InitiatedAll(begun, items, currency, db.runs).Err? {
      if forall i :: 0 <= i < |items| ==> ItemFine(begun, items, currency, i) {
        AllFineIsAccepted(begun, items, currency, db.runs);
      } else {
        var i := SomeItemNotFine(begun, items, currency, |items|);
        FirstBadItemDecides(begun, items, currency, db.runs, i);
        SameItems(db, begun, items, currency, i);
      }
    }
  }

  lemma SameItems(db: Db, begun: Db, items: seq<Item>, currency: Currency, i: nat)
    requires begun == db.(runs := begun.runs) && FirstNotFine(begun, items, currency, i)
    ensures FirstNotFine(db, items, currency, i)
    ensures BrokenRule(begun, items, currency, i) == BrokenRule(db, items, currency, i)
  {
    forall j | 0 <= j <= i ensures ItemFine(db, items, currency, j) <==> ItemFine(begun, items, currency, j) {
    }
  }

  /** Item by item: a pending row of this run made now, its journal, its send, and nothing else. */
  predicate AuthorizesItemsAs(before: Db, items: seq<Item>, currency: Currency, run: Id, after: Db) {
    && before.transfers <= after.transfers && |after.transfers| == |before.transfers| + |items|
    && before.journals <= after.journals && |after.journals| == |before.journals| + |items|
    && before.tasks <= after.tasks && |after.tasks| == |before.tasks| + |items|
    && (forall i :: 0 <= i < |items| ==>
          && items[i].amount > 0
          && var n, t := items[i].amount, |before.transfers| + i;
             && after.transfers[t] == Transfer(items[i].recipient, n, currency, Pending, None, Some(run), before.now)
             && after.journals[|before.journals| + i] == Journal(TransferAuthorized, Some(t), [
                  Line(ProgramFunding(currency), Debit, n, currency),
                  Line(RecipientPayable(items[i].recipient, currency), Credit, n, currency)])
             && after.tasks[|before.tasks| + i] == Task(DisburseTransfer, Some(t), Queued, 0, 3, None, before.now, 0))
    && after == before.(transfers := after.transfers, journals := after.journals, tasks := after.tasks)
  }

  predicate AuthorizesRunAs(before: Db, items: seq<Item>, currency: Currency, run: Id, after: Db) {
    run == before.runs && AuthorizesItemsAs(before.(runs := before.runs + 1), items, currency, run, after)
  }

  lemma {:induction false} ItemsAuthorize(db: Db, items: seq<Item>, currency: Currency, run: Id)
    requires InitiatedAll(db, items, currency, run).Ok?
    ensures AuthorizesItemsAs(db, items, currency, run, InitiatedAll(db, items, currency, run).value)
  {
    hide Initiated, RefusesFor;
    if |items| > 0 {
      var n := |items| - 1;
      ItemsAuthorize(db, items[..n], currency, run);
      var before := InitiatedAll(db, items[..n], currency, run).value;
      InitiatedIsAsAsked(before, items[n].recipient, items[n].amount, currency, Some(run));
      assert forall i :: 0 <= i < n ==> items[..n][i] == items[i];
    }
  }

  lemma RunAuthorizes(db: Db, items: seq<Item>, currency: Currency)
    ensures RunInitiated(db, items, currency).Ok? ==>
              AuthorizesRunAs(db, items, currency, db.runs, RunInitiated(db, items, currency).value)
  {
    hide Initiated, InitiatedAll, AuthorizesItemsAs, Balance;
    if RunInitiated(db, items, currency).Ok? {
      ItemsAuthorize(db.(runs := db.runs + 1), items, currency, db.runs);
    }
  }

  lemma {:induction false} ItemsOnlyAppend(db: Db, items: seq<Item>, currency: Currency, run: Id)
    requires InitiatedAll(db, items, currency, run).Ok?
    ensures var after := InitiatedAll(db, items, currency, run).value;
            && db.journals <= after.journals
            && after.keys == db.keys && after.runs == db.runs && |after.transfers| == |db.transfers| + |items|
            && db.tasks <= after.tasks
            && forall k :: |db.tasks| <= k < |after.tasks| ==> after.tasks[k].attempts == 0 && after.tasks[k].requeues == 0
  {
    if |items| > 0 {
      ItemsOnlyAppend(db, items[..|items| - 1], currency, run);
    }
  }

  lemma {:induction false} ItemsKeepAudit(db: Db, items: seq<Item>, currency: Currency, run: Id)
    requires DbAudited(db) && InitiatedAll(db, items, currency, run).Ok?
    ensures DbAudited(InitiatedAll(db, items, currency, run).value)
  {
    hide DbAudited, Initiated;
    if |items| > 0 {
      var n := |items| - 1;
      ItemsKeepAudit(db, items[..n], currency, run);
      InitiateKeepsAudit(
        InitiatedAll(db, items[..n], currency, run).value, items[n].recipient, items[n].amount, currency, Some(run));
    }
  }

  /** A run leaves the books as auditable as it found them. */
  lemma RunKeepsAudit(db: Db, items: seq<Item>, currency: Currency)
    requires DbAudited(db) && RunInitiated(db, items, currency).Ok?
    ensures DbAudited(RunInitiated(db, items, currency).value)
  {
    hide Audited;
    ItemsKeepAudit(db.(runs := db.runs + 1), items, currency, db.runs);
  }
}
