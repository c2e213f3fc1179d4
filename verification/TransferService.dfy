/** A disbursement above the books (transfer_service.py): authorize, follow, settle, reverse. */
module TransferService {
  import opened Records
  import opened Ledger
  import opened Database
  import opened TaskService

  datatype TransferError = UnknownRecipient | NoAccount | InsufficientFunds | AmountNotPositive

  // ----------------------------------------------------------------- initiate

  function NewTransfer(db: Db, recipient: Id, amount: Amount, currency: Currency, run: Option<Id>): Transfer {
    Transfer(recipient, amount, currency, Pending, None, run, db.now)
  }

  /** Transfer, journal and send task, all in the caller's transaction. */
  function Initiated(db: Db, recipient: Id, amount: int, currency: Currency, run: Option<Id>): Result<Db, TransferError> {
    if recipient !in db.recipients then Err(UnknownRecipient)
    else if currency !in db.chart then Err(NoAccount)
    else if Balance(db.journals, ProgramFunding(currency)) < amount then Err(InsufficientFunds)
    else if amount <= 0 then Err(AmountNotPositive)
    else
      var t, x := |db.transfers|, NewTransfer(db, recipient, amount, currency, run);
      Ok(Enqueued(
           db.(transfers := db.transfers + [x], journals := db.journals + [AuthorizedJournal(t, x)]),
           DisburseTransfer, Some(t), None))
  }

  /** The whole of what an authorization adds: a pending row made now, its journal, its send. */
  predicate AuthorizesAs(before: Db, recipient: Id, amount: int, currency: Currency, run: Option<Id>, t: Id, after: Db) {
    && amount > 0
    && t == |before.transfers|
    && after == before.(transfers := after.transfers, journals := after.journals, tasks := after.tasks)
    && after.transfers == before.transfers +
         [Transfer(recipient, amount, currency, Pending, None, run, before.now)]
    && after.journals == before.journals + [Journal(TransferAuthorized, Some(t), [
         Line(ProgramFunding(currency), Debit, amount, currency),
         Line(RecipientPayable(recipient, currency), Credit, amount, currency)])]
    && after.tasks == before.tasks + [Task(DisburseTransfer, Some(t), Queued, 0, 3, None, before.now, 0)]
  }

  /** Which refusal answers which request, and that nothing but these is refused. */
  predicate RefusesFor(db: Db, recipient: Id, amount: int, currency: Currency, error: Option<TransferError>) {
    var known, funded := recipient in db.recipients, currency in db.chart;
    var short := Balance(db.journals, ProgramFunding(currency)) < amount;
    && (error == Some(UnknownRecipient) <==> !known)
    && (error == Some(NoAccount) <==> known && !funded)
    && (error == Some(InsufficientFunds) <==> known && funded && short)
    && (error == Some(AmountNotPositive) <==> known && funded && !short && amount <= 0)
    && (error == None <==> known && funded && !short && amount > 0)
  }

  lemma InitiatedIsAsAsked(db: Db, recipient: Id, amount: int, currency: Currency, run: Option<Id>)
    ensures var r := Initiated(db, recipient, amount, currency, run);
            && RefusesFor(db, recipient, amount, currency, if r.Err? then Some(r.error) else None)
            && (r.Ok? ==> AuthorizesAs(db, recipient, amount, currency, run, |db.transfers|, r.value))
  {
    hide Balance;
  }

  method BalanceOf(js: seq<Journal>, a: Account) returns (sum: int)
    ensures sum == Balance(js, a)
  {
    sum := 0;
    for i := 0 to |js|
      invariant sum == Balance(js[..i], a)
    {
      assert js[..i + 1][..i] == js[..i];
      var lines := js[i].lines;
      for k := 0 to |lines|
        invariant sum == Balance(js[..i], a) + Effect(lines[..k], a)
      {
        assert lines[..k + 1][..k] == lines[..k];
        var n: int := lines[k].amount;
        if lines[k].account == a {
          sum := sum + if lines[k].direction == NaturalDirection(a) then n else -n;
        }
      }
      assert lines[..|lines|] == lines;
    }
    assert js[..|js|] == js;
  }

  /** Two-line postings of the mark functions and `initiate` always pass `post`'s checks. */
  lemma MovePosts(kind: JournalKind, debit: Account, credit: Account, amount: Amount, c: Currency, t: Option<Id>)
    ensures Post(kind, [Posting(debit, Debit, amount), Posting(credit, Credit, amount)], c, t)
            == Ok(Journal(kind, t, [Line(debit, Debit, amount, c), Line(credit, Credit, amount, c)]))
  {
    var ps := [Posting(debit, Debit, amount), Posting(credit, Credit, amount)];
    assert ps[..1] == [Posting(debit, Debit, amount)];
    assert ps[..1][..0] == [];
    assert TotalOf(ps[..1], Debit) == amount && TotalOf(ps[..1], Credit) == 0;
    assert TotalOf(ps, Debit) == amount && TotalOf(ps, Credit) == amount;
    assert ToLines(ps, c) == [Line(debit, Debit, amount, c), Line(credit, Credit, amount, c)];
  }

  /** Posts a two-line journal into the session. */
  method PostMove(
    session: Session, kind: JournalKind, debit: Account, credit: Account, amount: Amount, c: Currency, t: Id)
    modifies session
    ensures session.Work() == old(session.Work()).(journals := old(session.journals) +
                [Journal(kind, Some(t), [Line(debit, Debit, amount, c), Line(credit, Credit, amount, c)])])
    ensures session.committed == old(session.committed)
  {
    MovePosts(kind, debit, credit, amount, c, Some(t));
    var posted := PostJournal(
      session.journals, kind, [Posting(debit, Debit, amount), Posting(credit, Credit, amount)], c, Some(t));
    session.journals := posted.value;
  }

  method Initiate(session: Session, recipient: Id, amount: int, currency: Currency, run: Option<Id>)
    returns (r: Result<Id, TransferError>)
    modifies session
    ensures match Initiated(old(session.Work()), recipient, amount, currency, run)
            case Ok(db) => r == Ok(|old(session.transfers)|) && session.Work() == db
            case Err(e) => r == Err(e) && session.Work() == old(session.Work())
    ensures RefusesFor(old(session.Work()), recipient, amount, currency, if r.Err? then Some(r.error) else None)
    ensures r.Ok? ==>
              AuthorizesAs(old(session.Work()), recipient, amount, currency, run, r.value, session.Work())
    ensures session.committed == old(session.committed)
  {
    InitiatedIsAsAsked(session.Work(), recipient, amount, currency, run);
    if recipient !in session.recipients {
      return Err(UnknownRecipient);
    }
    if currency !in session.chart {
      return Err(NoAccount);
    }
    var available := BalanceOf(session.journals, ProgramFunding(currency));
    if available < amount {
      return Err(InsufficientFunds);
    }
    if amount <= 0 {
      return Err(AmountNotPositive);
    }
    var t := |session.transfers|;
    session.transfers := session.transfers +
      [Transfer(recipient, amount, currency, Pending, None, run, session.now)];
    PostMove(session, TransferAuthorized, ProgramFunding(currency), RecipientPayable(recipient, currency),
             amount, currency, t);
    Enqueue(session, DisburseTransfer, Some(t), None);
    return Ok(t);
  }

  // --------------------------------------------------------------------- marks
  //
  // `copy` is the row as the session loaded it, which is what the guards read.

  /** The unique index on `provider_reference`. */
  predicate ReferenceTaken(ts: seq<Transfer>, t: Id, reference: Reference) {
    exists u :: 0 <= u < |ts| && u != t && ts[u].reference == Some(reference)
  }

  function MarkedProcessing(db: Db, t: Id, reference: Reference): Db
    requires t < |db.transfers|
  {
    db.(transfers := db.transfers[t := db.transfers[t].(status := Processing, reference := Some(reference))])
  }

  function MarkedSucceeded(db: Db, t: Id, copy: Transfer): Db
    requires t < |db.transfers|
  {
    if copy.status.Succeeded? then db
    else db.(journals := db.journals + [SettledJournal(t, copy)],
             transfers := db.transfers[t := db.transfers[t].(status := Succeeded)])
  }

  function MarkedFailed(db: Db, t: Id, copy: Transfer): Db
    requires t < |db.transfers|
  {
    if copy.status.Failed? then db
    else db.(journals := db.journals + [ReversedJournal(t, copy)],
             transfers := db.transfers[t := db.transfers[t].(status := Failed)])
  }

  /** Processing against this payment; nothing else about any transfer. */
  predicate FollowsAs(before: Db, t: Id, reference: Reference, after: Db)
    requires t < |before.transfers|
  {
    var x := before.transfers[t];
    after == before.(transfers := before.transfers[t :=
      Transfer(x.recipient, x.amount, x.currency, Processing, Some(reference), x.run, x.createdAt)])
  }

  /** Succeeded, with one journal that takes what the recipient was owed out of the float. */
  predicate SettlesBooks(before: Db, t: Id, x: Transfer, after: Db)
    requires t < |before.transfers|
  {
    after == before.(
      transfers := before.transfers[t := before.transfers[t].(status := Succeeded)],
      journals := before.journals + [Journal(TransferSettled, Some(t), [
        Line(RecipientPayable(x.recipient, x.currency), Debit, x.amount, x.currency),
        Line(ProviderSettlement(x.currency), Credit, x.amount, x.currency)])])
  }

  /** Failed, with one journal that gives the fund back what the recipient was owed. */
  predicate ReversesBooks(before: Db, t: Id, x: Transfer, after: Db)
    requires t < |before.transfers|
  {
    after == before.(
      transfers := before.transfers[t := before.transfers[t].(status := Failed)],
      journals := before.journals + [Journal(TransferReversed, Some(t), [
        Line(RecipientPayable(x.recipient, x.currency), Debit, x.amount, x.currency),
        Line(ProgramFunding(x.currency), Credit, x.amount, x.currency)])])
  }

  lemma MarksAreAsAsked(db: Db, t: Id, copy: Transfer, reference: Reference)
    requires t < |db.transfers|
    ensures FollowsAs(db, t, reference, MarkedProcessing(db, t, reference))
    ensures if copy.status == Succeeded then MarkedSucceeded(db, t, copy) == db
            else SettlesBooks(db, t, copy, MarkedSucceeded(db, t, copy))
    ensures if copy.status == Failed then MarkedFailed(db, t, copy) == db
            else ReversesBooks(db, t, copy, MarkedFailed(db, t, copy))
  {
  }

  /** The flush fails, and nothing is written, when another transfer holds the reference. */
  method MarkProcessing(session: Session, t: Id, reference: Reference) returns (ok: bool)
    requires t < |session.transfers|
    modifies session
    ensures ok <==> !ReferenceTaken(old(session.transfers), t, reference)
    ensures session.Work() ==
              if ok then MarkedProcessing(old(session.Work()), t, reference) else old(session.Work())
    ensures ok ==> FollowsAs(old(session.Work()), t, reference, session.Work())
    ensures ok <==> forall u :: 0 <= u < |old(session.transfers)| && u != t ==>
                      old(session.transfers)[u].reference != Some(reference)
    ensures session.committed == old(session.committed)
  {
    for u := 0 to |session.transfers|
      invariant session.Work() == old(session.Work())
      invariant forall v :: 0 <= v < u && v != t ==> session.transfers[v].reference != Some(reference)
    {
      if u != t && session.transfers[u].reference == Some(reference) {
        return false;
      }
    }
    var x := session.transfers[t].(status := Processing);
    x := x.(reference := Some(reference));
    session.transfers := session.transfers[t := x];
    return true;
  }

  method MarkSucceeded(session: Session, t: Id, copy: Transfer)
    requires t < |session.transfers|
    modifies session
    ensures session.Work() == MarkedSucceeded(old(session.Work()), t, copy)
    ensures if copy.status == Succeeded then session.Work() == old(session.Work())
            else SettlesBooks(old(session.Work()), t, copy, session.Work())
    ensures session.committed == old(session.committed)
  {
    if copy.status == Succeeded {
      return;
    }
    PostMove(session, TransferSettled, RecipientPayable(copy.recipient, copy.currency),
             ProviderSettlement(copy.currency), copy.amount, copy.currency, t);
    session.transfers := session.transfers[t := session.transfers[t].(status := Succeeded)];
  }

  method MarkFailed(session: Session, t: Id, copy: Transfer)
    requires t < |session.transfers|
    modifies session
    ensures session.Work() == MarkedFailed(old(session.Work()), t, copy)
    ensures if copy.status == Failed then session.Work() == old(session.Work())
            else ReversesBooks(old(session.Work()), t, copy, session.Work())
    ensures session.committed == old(session.committed)
  {
    if copy.status == Failed {
      return;
    }
    PostMove(session, TransferReversed, RecipientPayable(copy.recipient, copy.currency),
             ProgramFunding(copy.currency), copy.amount, copy.currency, t);
    session.transfers := session.transfers[t := session.transfers[t].(status := Failed)];
  }
}
