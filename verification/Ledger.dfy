/** Posting to the books, and reading balances back out (ledger_service.py). */
module Ledger {
  import opened Records

  datatype LedgerError = TooFewLines | NotPositive | Unbalanced

  datatype Posting = Posting(account: Account, direction: Direction, amount: int)

  /** Which direction increases an account. */
  function NaturalDirection(a: Account): Direction {
    match a
    case ProgramFunding(_) => Credit
    case RecipientPayable(_, _) => Credit
    case ProviderSettlement(_) => Debit
  }

  // ------------------------------------------------------------------- sums

  /** A line as debits minus credits. */
  function DebitLess(l: Line): int {
    var n: int := l.amount;
    if l.direction.Debit? then n else -n
  }

  /** Debits minus credits over some lines. */
  function Imbalance(lines: seq<Line>): int {
    if |lines| == 0 then 0 else Imbalance(lines[..|lines| - 1]) + DebitLess(lines[|lines| - 1])
  }

  /** What one line adds to an account's balance. */
  function Signed(l: Line, a: Account): int {
    var n: int := l.amount;
    if l.account != a then 0 else if l.direction == NaturalDirection(a) then n else -n
  }

  function Effect(lines: seq<Line>, a: Account): int {
    if |lines| == 0 then 0 else Effect(lines[..|lines| - 1], a) + Signed(lines[|lines| - 1], a)
  }

  function Balance(js: seq<Journal>, a: Account): int {
    if |js| == 0 then 0 else Balance(js[..|js| - 1], a) + Effect(js[|js| - 1].lines, a)
  }

  function TrialBalance(js: seq<Journal>): int {
    if |js| == 0 then 0 else TrialBalance(js[..|js| - 1]) + Imbalance(js[|js| - 1].lines)
  }

  lemma BalanceSnoc(js: seq<Journal>, j: Journal, a: Account)
    ensures Balance(js + [j], a) == Balance(js, a) + Effect(j.lines, a)
  {
    assert (js + [j])[..|js|] == js;
  }

  lemma EffectPair(x: Line, y: Line, a: Account)
    ensures Effect([x, y], a) == Signed(x, a) + Signed(y, a)
    ensures Imbalance([x, y]) == DebitLess(x) + DebitLess(y)
  {
    var two := [x, y];
    assert two[..1] == [x];
    assert [x][..0] == [];
    assert Effect([x], a) == Signed(x, a);
    assert Imbalance([x]) == DebitLess(x);
  }

  // ---------------------------------------------------------------- posting

  /** A journal the deferred trigger accepts: at least two lines, one currency, zero sum. */
  predicate Balanced(lines: seq<Line>) {
    && |lines| >= 2
    && (forall i :: 0 <= i < |lines| ==> lines[i].currency == lines[0].currency)
    && Imbalance(lines) == 0
  }

  function TotalOf(ps: seq<Posting>, d: Direction): int {
    if |ps| == 0 then 0
    else TotalOf(ps[..|ps| - 1], d) + if ps[|ps| - 1].direction == d then ps[|ps| - 1].amount else 0
  }

  predicate AllPositive(ps: seq<Posting>) {
    forall i :: 0 <= i < |ps| ==> ps[i].amount > 0
  }

  function ToLines(ps: seq<Posting>, currency: Currency): (lines: seq<Line>)
    requires AllPositive(ps)
    ensures |lines| == |ps|
    ensures forall i :: 0 <= i < |ps| ==> lines[i] == Line(ps[i].account, ps[i].direction, ps[i].amount, currency)
  {
    seq(|ps|, i requires 0 <= i < |ps| => Line(ps[i].account, ps[i].direction, ps[i].amount, currency))
  }

  lemma {:induction false} ImbalanceOfLines(ps: seq<Posting>, currency: Currency)
    requires AllPositive(ps)
    ensures Imbalance(ToLines(ps, currency)) == TotalOf(ps, Debit) - TotalOf(ps, Credit)
  {
    if |ps| > 0 {
      ImbalanceOfLines(ps[..|ps| - 1], currency);
      assert ToLines(ps, currency)[..|ps| - 1] == ToLines(ps[..|ps| - 1], currency);
    }
  }

  /** `post`: the first check that fails is the one reported. */
  function Post(
    kind: JournalKind, postings: seq<Posting>, currency: Currency, transfer: Option<Id>): (r: Result<Journal, LedgerError>)
  {
    if |postings| < 2 then Err(TooFewLines)
    else if !AllPositive(postings) then Err(NotPositive)
    else if TotalOf(postings, Debit) != TotalOf(postings, Credit) then Err(Unbalanced)
    else Ok(Journal(kind, transfer, ToLines(postings, currency)))
  }

  /** `post` refuses exactly what the CHECK on amounts and the commit-time trigger would. */
  lemma PostAcceptsWhatTheTriggerAccepts(
    kind: JournalKind, postings: seq<Posting>, currency: Currency, transfer: Option<Id>)
    ensures Post(kind, postings, currency, transfer).Ok?
            <==> AllPositive(postings) && Balanced(ToLines(postings, currency))
    ensures Post(kind, postings, currency, transfer).Ok?
            ==> Post(kind, postings, currency, transfer).value.lines == ToLines(postings, currency)
  {
    if AllPositive(postings) {
      ImbalanceOfLines(postings, currency);
    }
  }

  /** Which refusal answers which postings. */
  lemma PostRefusals(kind: JournalKind, ps: seq<Posting>, currency: Currency, transfer: Option<Id>)
    ensures var r := Post(kind, ps, currency, transfer);
            && (r == Err(TooFewLines) <==> |ps| < 2)
            && (r == Err(NotPositive) <==> |ps| >= 2 && exists i :: 0 <= i < |ps| && ps[i].amount <= 0)
            && (r.Ok? ==> r.value.kind == kind && r.value.transfer == transfer && |r.value.lines| == |ps|)
            && (r.Ok? ==> forall i :: 0 <= i < |ps| ==>
                  r.value.lines[i] == Line(ps[i].account, ps[i].direction, ps[i].amount, currency))
    ensures |ps| >= 2 && AllPositive(ps) ==>
              (Post(kind, ps, currency, transfer) == Err(Unbalanced) <==> Imbalance(ToLines(ps, currency)) != 0)
  {
    if |ps| >= 2 && AllPositive(ps) {
      ImbalanceOfLines(ps, currency);
    }
  }

  /** The checks and the two loops of `post`, run against a list of journals. */
  method PostJournal(
    js: seq<Journal>, kind: JournalKind, postings: seq<Posting>, currency: Currency, transfer: Option<Id>)
    returns (r: Result<seq<Journal>, LedgerError>)
    ensures match Post(kind, postings, currency, transfer)
            case Ok(j) => r == Ok(js + [j])
            case Err(e) => r == Err(e)
  {
    if |postings| < 2 {
      return Err(TooFewLines);
    }
    var debits, credits := 0, 0;
    for i := 0 to |postings|
      invariant forall k :: 0 <= k < i ==> postings[k].amount > 0
    {
      if postings[i].amount <= 0 {
        return Err(NotPositive);
      }
    }
    for i := 0 to |postings|
      invariant debits == TotalOf(postings[..i], Debit) && credits == TotalOf(postings[..i], Credit)
    {
      assert postings[..i + 1][..i] == postings[..i];
      if postings[i].direction.Debit? {
        debits := debits + postings[i].amount;
      } else {
        credits := credits + postings[i].amount;
      }
    }
    assert postings[..|postings|] == postings;
    if debits != credits {
      return Err(Unbalanced);
    }
    var lines: seq<Line> := [];
    for i := 0 to |postings|
      invariant lines == ToLines(postings[..i], currency)
    {
      lines := lines + [Line(postings[i].account, postings[i].direction, postings[i].amount, currency)];
    }
    return Ok(js + [Journal(kind, transfer, lines)]);
  }

  // ------------------------------------------------- the journals of a transfer

  function DepositJournal(c: Currency, amount: Amount): Journal {
    Journal(FundingDeposit, None, [
      Line(ProviderSettlement(c), Debit, amount, c),
      Line(ProgramFunding(c), Credit, amount, c)])
  }

  function AuthorizedJournal(t: Id, x: Transfer): Journal {
    Journal(TransferAuthorized, Some(t), [
      Line(ProgramFunding(x.currency), Debit, x.amount, x.currency),
      Line(RecipientPayable(x.recipient, x.currency), Credit, x.amount, x.currency)])
  }

  function SettledJournal(t: Id, x: Transfer): Journal {
    Journal(TransferSettled, Some(t), [
      Line(RecipientPayable(x.recipient, x.currency), Debit, x.amount, x.currency),
      Line(ProviderSettlement(x.currency), Credit, x.amount, x.currency)])
  }

  function ReversedJournal(t: Id, x: Transfer): Journal {
    Journal(TransferReversed, Some(t), [
      Line(RecipientPayable(x.recipient, x.currency), Debit, x.amount, x.currency),
      Line(ProgramFunding(x.currency), Credit, x.amount, x.currency)])
  }

  /** Each journal of a transfer takes its amount out of one account and puts it in another. */
  lemma MovesEffect(x: Transfer, t: Id, a: Account)
    ensures var n: int := x.amount; var c, p := x.currency, RecipientPayable(x.recipient, x.currency);
            && Effect(AuthorizedJournal(t, x).lines, a) ==
               (if a == ProgramFunding(c) then -n else if a == p then n else 0)
            && Effect(SettledJournal(t, x).lines, a) ==
               (if a == p || a == ProviderSettlement(c) then -n else 0)
            && Effect(ReversedJournal(t, x).lines, a) ==
               (if a == p then -n else if a == ProgramFunding(c) then n else 0)
    ensures Balanced(AuthorizedJournal(t, x).lines)
    ensures Balanced(SettledJournal(t, x).lines)
    ensures Balanced(ReversedJournal(t, x).lines)
  {
    var c, p := x.currency, RecipientPayable(x.recipient, x.currency);
    EffectPair(Line(ProgramFunding(c), Debit, x.amount, c), Line(p, Credit, x.amount, c), a);
    EffectPair(Line(p, Debit, x.amount, c), Line(ProviderSettlement(c), Credit, x.amount, c), a);
    EffectPair(Line(p, Debit, x.amount, c), Line(ProgramFunding(c), Credit, x.amount, c), a);
  }

  lemma DepositEffect(c: Currency, amount: Amount, a: Account)
    ensures Effect(DepositJournal(c, amount).lines, a) ==
            (if a == ProviderSettlement(c) || a == ProgramFunding(c) then amount else 0)
    ensures Balanced(DepositJournal(c, amount).lines)
  {
    EffectPair(Line(ProviderSettlement(c), Debit, amount, c), Line(ProgramFunding(c), Credit, amount, c), a);
  }

  /** The journals about one transfer, oldest first (`journals_for_transfer`). */
  function JournalsOf(js: seq<Journal>, t: Id): seq<Journal> {
    if |js| == 0 then []
    else
      var before := JournalsOf(js[..|js| - 1], t);
      if js[|js| - 1].transfer == Some(t) then before + [js[|js| - 1]] else before
  }

  lemma JournalsOfSnoc(js: seq<Journal>, j: Journal, t: Id)
    ensures JournalsOf(js + [j], t) == if j.transfer == Some(t) then JournalsOf(js, t) + [j] else JournalsOf(js, t)
  {
    assert (js + [j])[..|js|] == js;
  }

  lemma {:induction false} JournalsOfNobody(js: seq<Journal>, t: Id)
    requires forall i :: 0 <= i < |js| ==> js[i].transfer != Some(t)
    ensures JournalsOf(js, t) == []
  {
    if |js| > 0 {
      JournalsOfNobody(js[..|js| - 1], t);
    }
  }

  /** Every committed journal balances, so the trial balance is zero. */
  lemma {:induction false} BalancedBooksTrialZero(js: seq<Journal>)
    requires forall i :: 0 <= i < |js| ==> Balanced(js[i].lines)
    ensures TrialBalance(js) == 0
  {
    if |js| > 0 {
      BalancedBooksTrialZero(js[..|js| - 1]);
    }
  }
}
