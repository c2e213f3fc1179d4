/** The ledger triggers (the ledger schema migration), against any writers that insert, update, delete
    or truncate.

    A transaction's deferred check sees what is committed at that moment plus its own rows, and the
    commit itself may come later, after others have committed. Both triggers are row triggers, so
    TRUNCATE fires neither. Table locks are not modelled: more interleavings are allowed than the
    database would let happen. */
module LedgerTriggers {
  import opened Records
  import opened Ledger

  datatype Entry = Entry(id: Id, journal: Id, line: Line)

  /** `emptied`: it has truncated the table, so what was committed is gone once it commits. */
  datatype Tx = Tx(own: seq<Entry>, checked: bool, emptied: bool)

  datatype Tables = Tables(committed: seq<Entry>, open: map<Id, Tx>, next: Id)

  datatype Statement =
    | Begin(tx: Id)
    | Insert(tx: Id, journal: Id, account: Account, direction: Direction, amount: int, currency: Currency)
    | RunDeferredTriggers(tx: Id)
    | Commit(tx: Id)
    | Rollback(tx: Id)
    | UpdateOrDelete(tx: Id, matches: bool)
    | Truncate(tx: Id)

  function Lines(es: seq<Entry>, j: Id): seq<Line> {
    if |es| == 0 then []
    else
      var before, e := Lines(es[..|es| - 1], j), es[|es| - 1];
      if e.journal == j then before + [e.line] else before
  }

  /** `assert_journal_balances`, for one journal. */
  predicate TriggerAccepts(es: seq<Entry>, j: Id) {
    |Lines(es, j)| == 0 || Balanced(Lines(es, j))
  }

  predicate ChecksPass(committed: seq<Entry>, own: seq<Entry>) {
    forall i :: 0 <= i < |own| ==> TriggerAccepts(committed + own, own[i].journal)
  }

  /** The committed rows a transaction still sees, and leaves behind. */
  function Seen(s: Tables, x: Id): seq<Entry>
    requires x in s.open
  {
    if s.open[x].emptied then [] else s.committed
  }

  predicate Enabled(s: Tables, st: Statement) {
    match st
    case Begin(x) => x !in s.open
    case Insert(x, _, _, _, _, _) => x in s.open && !s.open[x].checked
    case RunDeferredTriggers(x) => x in s.open
    case Commit(x) => x in s.open && s.open[x].checked
    case Rollback(x) => x in s.open
    case UpdateOrDelete(x, matches) => x in s.open && (matches ==> Seen(s, x) + s.open[x].own != [])
    case Truncate(x) => x in s.open
  }

  /** A refused statement aborts its transaction: the CHECK, the triggers, or a TRUNCATE while checks
      are still pending. An update or delete that matches no row fires no row trigger. */
  function Executed(s: Tables, st: Statement): Tables
    requires Enabled(s, st)
  {
    match st
    case Begin(x) => s.(open := s.open[x := Tx([], false, false)])
    case Insert(x, j, a, d, n, c) =>
      var tx := s.open[x];
      if n <= 0 then s.(open := s.open - {x})
      else s.(open := s.open[x := tx.(own := tx.own + [Entry(s.next, j, Line(a, d, n, c))])], next := s.next + 1)
    case RunDeferredTriggers(x) =>
      if ChecksPass(Seen(s, x), s.open[x].own) then s.(open := s.open[x := s.open[x].(checked := true)])
      else s.(open := s.open - {x})
    case Commit(x) => s.(committed := Seen(s, x) + s.open[x].own, open := s.open - {x})
    case Rollback(x) => s.(open := s.open - {x})
    case UpdateOrDelete(x, matches) => if matches then s.(open := s.open - {x}) else s
    case Truncate(x) =>
      if s.open[x].own != [] && !s.open[x].checked then s.(open := s.open - {x})
      else s.(open := s.open[x := Tx([], false, true)])
  }

  // ------------------------------------------------------------- zero, per currency

  function ImbalanceIn(lines: seq<Line>, c: Currency): int {
    if |lines| == 0 then 0
    else
      var l := lines[|lines| - 1];
      ImbalanceIn(lines[..|lines| - 1], c) + if l.currency == c then DebitLess(l) else 0
  }

  lemma {:induction false} ImbalanceConcat(a: seq<Line>, b: seq<Line>, c: Currency)
    ensures ImbalanceIn(a + b, c) == ImbalanceIn(a, c) + ImbalanceIn(b, c)
  {
    if |b| == 0 {
      assert a + b == a;
    } else {
      ImbalanceConcat(a, b[..|b| - 1], c);
      assert (a + b)[..|a + b| - 1] == a + b[..|b| - 1];
    }
  }

  lemma {:induction false} LinesConcat(a: seq<Entry>, b: seq<Entry>, j: Id)
    ensures Lines(a + b, j) == Lines(a, j) + Lines(b, j)
  {
    if |b| == 0 {
      assert a + b == a;
    } else {
      LinesConcat(a, b[..|b| - 1], j);
      assert (a + b)[..|a + b| - 1] == a + b[..|b| - 1];
    }
  }

  lemma {:induction false} OneCurrency(lines: seq<Line>, d: Currency, c: Currency)
    requires forall i :: 0 <= i < |lines| ==> lines[i].currency == d
    ensures ImbalanceIn(lines, c) == if c == d then Imbalance(lines) else 0
  {
    if |lines| > 0 {
      OneCurrency(lines[..|lines| - 1], d, c);
    }
  }

  ghost predicate ZeroSum(es: seq<Entry>) {
    forall j, c: Currency :: ImbalanceIn(Lines(es, j), c) == 0
  }

  predicate SameCurrency(lines: seq<Line>) {
    forall i :: 0 <= i < |lines| ==> lines[i].currency == lines[0].currency
  }

  ghost predicate NoLoneLine(es: seq<Entry>) {
    forall j :: |Lines(es, j)| != 1
  }

  /** What the checks leave behind, whoever commits in between. */
  ghost predicate Sound(s: Tables) {
    && ZeroSum(s.committed)
    && NoLoneLine(s.committed)
    && (forall x :: x in s.open && s.open[x].checked ==> SoundTx(s.open[x].own))
  }

  ghost predicate SoundTx(own: seq<Entry>) {
    && ZeroSum(own)
    && (forall j :: SameCurrency(Lines(own, j)))
    && NoLoneLine(own)
  }

  lemma {:induction false} TouchedIn(own: seq<Entry>, j: Id)
    requires Lines(own, j) != []
    ensures exists i :: 0 <= i < |own| && own[i].journal == j
  {
    var n := |own| - 1;
    if own[n].journal != j {
      TouchedIn(own[..n], j);
      var i :| 0 <= i < n && own[..n][i].journal == j;
      assert own[i].journal == j;
    }
  }

  lemma CheckedIsSound(committed: seq<Entry>, own: seq<Entry>)
    requires ZeroSum(committed) && ChecksPass(committed, own)
    ensures SoundTx(own)
  {
    forall j
      ensures forall c: Currency :: ImbalanceIn(Lines(own, j), c) == 0
      ensures SameCurrency(Lines(own, j)) && |Lines(own, j)| != 1
    {
      if Lines(own, j) != [] {
        TouchedIn(own, j);
        JournalChecked(committed, own, j);
      }
    }
  }

  lemma JournalChecked(committed: seq<Entry>, own: seq<Entry>, j: Id)
    requires ZeroSum(committed) && TriggerAccepts(committed + own, j) && Lines(own, j) != []
    ensures forall c: Currency :: ImbalanceIn(Lines(own, j), c) == 0
    ensures SameCurrency(Lines(own, j)) && |Lines(own, j)| != 1
  {
    var theirs, mine, all := Lines(committed, j), Lines(own, j), Lines(committed + own, j);
    LinesConcat(committed, own, j);
    forall i | 0 <= i < |mine| ensures mine[i].currency == all[0].currency {
      assert mine[i] == all[|theirs| + i];
    }
    forall c: Currency ensures ImbalanceIn(mine, c) == 0 {
      OneCurrency(all, all[0].currency, c);
      ImbalanceConcat(theirs, mine, c);
      assert ImbalanceIn(Lines(committed, j), c) == 0;
    }
    if |mine| == 1 {
      assert mine[..0] == [];
      assert ImbalanceIn(mine, mine[0].currency) == DebitLess(mine[0]);
    }
  }

  lemma CommitIsSound(committed: seq<Entry>, own: seq<Entry>)
    requires ZeroSum(committed) && NoLoneLine(committed) && SoundTx(own)
    ensures ZeroSum(committed + own) && NoLoneLine(committed + own)
  {
    forall j, c: Currency ensures ImbalanceIn(Lines(committed + own, j), c) == 0 {
      LinesConcat(committed, own, j);
      ImbalanceConcat(Lines(committed, j), Lines(own, j), c);
    }
    forall j ensures |Lines(committed + own, j)| != 1 {
      LinesConcat(committed, own, j);
    }
  }

  lemma NothingIsZeroSum()
    ensures ZeroSum([]) && NoLoneLine([])
  {
  }

  /** Whatever statement comes next, truncation included, zero sums stay. */
  lemma StatementKeepsSound(s: Tables, st: Statement)
    requires Sound(s) && Enabled(s, st)
    ensures Sound(Executed(s, st))
  {
    NothingIsZeroSum();
    match st
    case RunDeferredTriggers(x) =>
      if ChecksPass(Seen(s, x), s.open[x].own) {
        CheckedIsSound(Seen(s, x), s.open[x].own);
      }
    case Commit(x) =>
      CommitIsSound(Seen(s, x), s.open[x].own);
    case _ =>
  }

  // ---------------------------------------------------------------- whole histories

  function History(sts: seq<Statement>): Option<Tables> {
    if |sts| == 0 then Some(Tables([], map[], 0))
    else
      var before, st := History(sts[..|sts| - 1]), sts[|sts| - 1];
      if before.None? || !Enabled(before.value, st) then None else Some(Executed(before.value, st))
  }

  function Total(es: seq<Entry>, c: Currency): int {
    if |es| == 0 then 0
    else
      var l := es[|es| - 1].line;
      Total(es[..|es| - 1], c) + if l.currency == c then DebitLess(l) else 0
  }

  function Others(es: seq<Entry>, j: Id): seq<Entry> {
    if |es| == 0 then []
    else if es[|es| - 1].journal == j then Others(es[..|es| - 1], j)
    else Others(es[..|es| - 1], j) + [es[|es| - 1]]
  }

  lemma {:induction false} TakeOutJournal(es: seq<Entry>, j: Id, c: Currency)
    ensures Total(es, c) == ImbalanceIn(Lines(es, j), c) + Total(Others(es, j), c)
    ensures |Others(es, j)| == |es| - |Lines(es, j)|
    ensures forall k :: Lines(Others(es, j), k) == if k == j then [] else Lines(es, k)
  {
    if |es| > 0 {
      var n := |es| - 1;
      TakeOutJournal(es[..n], j, c);
      var rest := Others(es[..n], j);
      if es[n].journal != j {
        assert (rest + [es[n]])[..|rest|] == rest;
      } else {
        var before := Lines(es[..n], j);
        assert (before + [es[n].line])[..|before|] == before;
      }
    }
  }

  lemma {:induction false} JournalsSumToTotal(es: seq<Entry>, c: Currency)
    requires forall j :: ImbalanceIn(Lines(es, j), c) == 0
    ensures Total(es, c) == 0
    decreases |es|
  {
    if |es| > 0 {
      var j := es[|es| - 1].journal;
      TakeOutJournal(es, j, c);
      assert |Lines(es, j)| > 0;
      forall k ensures ImbalanceIn(Lines(Others(es, j), k), c) == 0 {
      }
      JournalsSumToTotal(Others(es, j), c);
    }
  }

  lemma {:induction false} HistoryIsSound(sts: seq<Statement>)
    requires History(sts).Some?
    ensures Sound(History(sts).value)
  {
    if |sts| > 0 {
      HistoryIsSound(sts[..|sts| - 1]);
      StatementKeepsSound(History(sts[..|sts| - 1]).value, sts[|sts| - 1]);
    }
  }

  /** Over any history of any transactions: every committed journal sums to zero in every currency,
      and so does the whole ledger. */
  lemma LedgerAlwaysBalances(sts: seq<Statement>, j: Id, c: Currency)
    requires History(sts).Some?
    ensures var es := History(sts).value.committed;
            ImbalanceIn(Lines(es, j), c) == 0 && |Lines(es, j)| != 1 && Total(es, c) == 0
  {
    HistoryIsSound(sts);
    JournalsSumToTotal(History(sts).value.committed, c);
  }

  // ------------------------------------------------------------------- append-only

  predicate Below(es: seq<Entry>, n: Id) {
    forall e :: e in es ==> e.id < n
  }

  predicate NoRowShared(es: seq<Entry>, fs: seq<Entry>) {
    forall e, f :: e in es && f in fs ==> e.id != f.id
  }

  /** Rows are told apart by their ids, whoever holds them. */
  ghost predicate Apart(s: Tables) {
    && Below(s.committed, s.next)
    && (forall x :: x in s.open ==> Below(s.open[x].own, s.next) && NoRowShared(s.committed, s.open[x].own))
    && (forall x, y :: x in s.open && y in s.open && x != y ==> NoRowShared(s.open[x].own, s.open[y].own))
  }

  lemma NewRowShared(es: seq<Entry>, fs: seq<Entry>, e: Entry)
    requires Below(es, e.id) && NoRowShared(es, fs)
    ensures NoRowShared(es, fs + [e])
  {
  }

  lemma NewRowBelow(es: seq<Entry>, e: Entry)
    requires Below(es, e.id)
    ensures Below(es, e.id + 1) && Below(es + [e], e.id + 1)
  {
  }

  lemma SharedSymmetric(es: seq<Entry>, fs: seq<Entry>)
    requires NoRowShared(es, fs)
    ensures NoRowShared(fs, es)
  {
  }

  lemma FewerRowsApart(s: Tables, s': Tables)
    requires Apart(s) && s'.next == s.next && s'.committed == s.committed
    requires forall x :: x in s'.open ==> s'.open[x].own == [] || (x in s.open && s'.open[x].own == s.open[x].own)
    ensures Apart(s')
  {
  }

  lemma InsertKeepsApart(s: Tables, x: Id, e: Entry)
    requires Apart(s) && x in s.open && e.id == s.next
    ensures Apart(s.(open := s.open[x := s.open[x].(own := s.open[x].own + [e])], next := s.next + 1))
  {
    hide Below, NoRowShared;
    var s' := s.(open := s.open[x := s.open[x].(own := s.open[x].own + [e])], next := s.next + 1);
    NewRowBelow(s.committed, e);
    NewRowShared(s.committed, s.open[x].own, e);
    forall y | y in s'.open ensures Below(s'.open[y].own, s'.next) {
      NewRowBelow(s.open[y].own, e);
    }
    forall y | y in s.open && y != x ensures NoRowShared(s'.open[y].own, s'.open[x].own) {
      NewRowShared(s.open[y].own, s.open[x].own, e);
    }
    forall y | y in s.open && y != x ensures NoRowShared(s'.open[x].own, s'.open[y].own) {
      SharedSymmetric(s'.open[y].own, s'.open[x].own);
    }
  }

  lemma CommitKeepsApart(s: Tables, x: Id)
    requires Apart(s) && x in s.open
    ensures Apart(s.(committed := Seen(s, x) + s.open[x].own, open := s.open - {x}))
  {
    hide NoRowShared;
    forall y | y in s.open && y != x ensures NoRowShared(Seen(s, x) + s.open[x].own, s.open[y].own) {
      JoinedShared(Seen(s, x), s.open[x].own, s.open[y].own);
    }
  }

  lemma JoinedShared(es: seq<Entry>, es': seq<Entry>, fs: seq<Entry>)
    ensures NoRowShared([], fs)
    ensures NoRowShared(es, fs) && NoRowShared(es', fs) ==> NoRowShared(es + es', fs)
  {
  }

  lemma StatementKeepsApart(s: Tables, st: Statement)
    requires Apart(s) && Enabled(s, st)
    ensures Apart(Executed(s, st))
  {
    hide ChecksPass, Apart;
    match st
    case Insert(x, j, a, d, n, c) =>
      if n > 0 {
        InsertKeepsApart(s, x, Entry(s.next, j, Line(a, d, n, c)));
      } else {
        FewerRowsApart(s, Executed(s, st));
      }
    case Commit(x) => CommitKeepsApart(s, x);
    case _ => FewerRowsApart(s, Executed(s, st));
  }

  lemma {:induction false} HistoryIsApart(sts: seq<Statement>)
    requires History(sts).Some?
    ensures Apart(History(sts).value)
  {
    hide Enabled, Executed;
    if |sts| > 0 {
      HistoryIsApart(sts[..|sts| - 1]);
      StatementKeepsApart(History(sts[..|sts| - 1]).value, sts[|sts| - 1]);
    }
  }

  /** The commit of a transaction that truncated a ledger with rows in it. */
  predicate Erases(s: Tables, st: Statement) {
    st.Commit? && st.tx in s.open && s.open[st.tx].emptied && s.committed != []
  }

  lemma OnlyErasingRemoves(s: Tables, st: Statement)
    requires Apart(s) && Enabled(s, st)
    ensures s.committed <= Executed(s, st).committed <==> !Erases(s, st)
  {
    hide ChecksPass;
    if Erases(s, st) {
      var own := s.open[st.tx].own;
      assert Executed(s, st).committed == own;
      if |own| > 0 {
        assert s.committed[0] in s.committed && own[0] in own;
      }
    }
  }

  /** What is committed after the first `n` statements. */
  function CommittedAfter(sts: seq<Statement>, n: nat): seq<Entry>
    requires n <= |sts|
  {
    if History(sts[..n]).Some? then History(sts[..n]).value.committed else []
  }

  ghost predicate AppendOnly(sts: seq<Statement>) {
    forall n, m :: 0 <= n <= m <= |sts| ==> CommittedAfter(sts, n) <= CommittedAfter(sts, m)
  }

  predicate NeverErases(sts: seq<Statement>) {
    forall i :: 0 <= i < |sts| && History(sts[..i]).Some? ==> !Erases(History(sts[..i]).value, sts[i])
  }

  lemma {:induction false} HistoryOfPrefix(sts: seq<Statement>, n: nat)
    requires History(sts).Some? && n <= |sts|
    ensures History(sts[..n]).Some?
    decreases |sts|
  {
    hide Enabled, Executed;
    if n == |sts| {
      assert sts[..n] == sts;
    } else {
      HistoryOfPrefix(sts[..|sts| - 1], n);
      assert sts[..|sts| - 1][..n] == sts[..n];
    }
  }

  lemma OneStatementFurther(sts: seq<Statement>, i: nat)
    requires History(sts).Some? && i < |sts|
    ensures History(sts[..i]).Some?
    ensures CommittedAfter(sts, i) <= CommittedAfter(sts, i + 1) <==> !Erases(History(sts[..i]).value, sts[i])
  {
    hide Enabled, Executed, Erases;
    HistoryOfPrefix(sts, i);
    HistoryOfPrefix(sts, i + 1);
    assert sts[..i + 1][..i] == sts[..i];
    HistoryIsApart(sts[..i]);
    OnlyErasingRemoves(History(sts[..i]).value, sts[i]);
  }

  lemma {:induction false} UnerasedGrows(sts: seq<Statement>, n: nat, m: nat)
    requires History(sts).Some? && NeverErases(sts) && n <= m <= |sts|
    ensures CommittedAfter(sts, n) <= CommittedAfter(sts, m)
    decreases m
  {
    hide Erases, CommittedAfter;
    if n < m {
      UnerasedGrows(sts, n, m - 1);
      OneStatementFurther(sts, m - 1);
    }
  }

  /** The ledger is append-only over a history exactly when no transaction in it that truncated a ledger
      with rows commits. */
  lemma AppendOnlyIff(sts: seq<Statement>)
    requires History(sts).Some?
    ensures AppendOnly(sts) <==> NeverErases(sts)
  {
    hide Erases, CommittedAfter, History;
    if NeverErases(sts) {
      forall n, m | 0 <= n <= m <= |sts| ensures CommittedAfter(sts, n) <= CommittedAfter(sts, m) {
        UnerasedGrows(sts, n, m);
      }
    }
    if AppendOnly(sts) {
      forall i | 0 <= i < |sts| && History(sts[..i]).Some? ensures !Erases(History(sts[..i]).value, sts[i]) {
        OneStatementFurther(sts, i);
        assert CommittedAfter(sts, i) <= CommittedAfter(sts, i + 1);
      }
    }
  }

  // ---------------------------------------------------- the rule that can be got round

  lemma LinesOfPair(es: seq<Entry>, j: Id)
    requires |es| == 2 && es[0].journal == j && es[1].journal == j
    ensures Lines(es, j) == [es[0].line, es[1].line]
  {
    assert es[..1] == [es[0]] && es[..1][..0] == [];
    assert Lines(es[..1], j) == [es[0].line];
  }

  /** Two lines of journal 0 that balance, with the ids `n` and `n + 1`. */
  function Pair(n: Id, c: Currency): seq<Entry> {
    [Entry(n, 0, Line(ProgramFunding(0), Debit, 1, c)), Entry(n + 1, 0, Line(ProviderSettlement(0), Credit, 1, c))]
  }

  lemma PairAccepted(n: Id, c: Currency)
    ensures ChecksPass([], Pair(n, c))
  {
    var es := Pair(n, c);
    assert [] + es == es;
    LinesOfPair(es, 0);
    EffectPair(es[0].line, es[1].line, ProgramFunding(0));
  }

  lemma Next(sts: seq<Statement>, st: Statement) returns (after: seq<Statement>)
    requires History(sts).Some? && Enabled(History(sts).value, st)
    ensures after == sts + [st] && History(after) == Some(Executed(History(sts).value, st))
  {
    hide Enabled, Executed;
    after := sts + [st];
    assert after[..|sts|] == sts;
  }

  /** One more writer opens a transaction and inserts a pair. */
  lemma InsertPair(sts: seq<Statement>, x: Id, c: Currency) returns (after: seq<Statement>)
    requires History(sts).Some? && x !in History(sts).value.open
    ensures var s := History(sts).value;
            && sts <= after
            && History(after) == Some(s.(open := s.open[x := Tx(Pair(s.next, c), false, false)], next := s.next + 2))
  {
    hide ChecksPass, History;
    var s := History(sts).value;
    after := Next(sts, Begin(x));
    var s1 := History(after).value;
    after := Next(after, Insert(x, 0, ProgramFunding(0), Debit, 1, c));
    var s2 := History(after).value;
    var first := Pair(s.next, c)[0];
    assert s2 == s.(open := s.open[x := Tx([first], false, false)], next := s.next + 1) by {
      assert [] + [first] == [first];
      assert s1.open[x := Tx([first], false, false)] == s.open[x := Tx([first], false, false)];
    }
    after := Next(after, Insert(x, 0, ProviderSettlement(0), Credit, 1, c));
    assert [first] + [Pair(s.next, c)[1]] == Pair(s.next, c);
    assert s2.open[x := Tx(Pair(s.next, c), false, false)] == s.open[x := Tx(Pair(s.next, c), false, false)];
  }

  /** Its check passes while nothing is committed. */
  lemma CheckPair(sts: seq<Statement>, x: Id, n: Id, c: Currency) returns (after: seq<Statement>)
    requires History(sts).Some? && History(sts).value.committed == []
    requires x in History(sts).value.open && History(sts).value.open[x] == Tx(Pair(n, c), false, false)
    ensures var s := History(sts).value;
            && sts <= after
            && History(after) == Some(s.(open := s.open[x := Tx(Pair(n, c), true, false)]))
  {
    hide ChecksPass, History, Pair;
    PairAccepted(n, c);
    after := Next(sts, RunDeferredTriggers(x));
  }

  /** Two writers can still commit one journal in two currencies: each check saw only its own. */
  lemma TwoWritersCanMixCurrencies() returns (sts: seq<Statement>)
    ensures History(sts).Some? && !TriggerAccepts(History(sts).value.committed, 0)
  {
    hide ChecksPass, History, TriggerAccepts, Pair;
    assert History([]) == Some(Tables([], map[], 0)) by { NoHistory(); }
    sts := InsertPair([], 0, 0);
    sts := InsertPair(sts, 1, 1);
    sts := CheckPair(sts, 0, 0, 0);
    sts := CheckPair(sts, 1, 2, 1);
    sts := Next(sts, Commit(0));
    sts := Next(sts, Commit(1));
    assert [] + Pair(0, 0) == Pair(0, 0);
    assert History(sts).value.committed == Pair(0, 0) + Pair(2, 1);
    MixedRefused();
  }

  lemma NoHistory()
    ensures History([]) == Some(Tables([], map[], 0))
  {
  }

  lemma MixedRefused()
    ensures !TriggerAccepts(Pair(0, 0) + Pair(2, 1), 0)
  {
    LinesConcat(Pair(0, 0), Pair(2, 1), 0);
    LinesOfPair(Pair(0, 0), 0);
    LinesOfPair(Pair(2, 1), 0);
    var lines := Lines(Pair(0, 0) + Pair(2, 1), 0);
    assert lines[2].currency == 1 && lines[0].currency == 0;
  }

  /** The append-only trigger does not see a TRUNCATE: one writer posts, another empties the ledger. */
  lemma TruncateErasesTheLedger() returns (sts: seq<Statement>)
    ensures History(sts).Some? && !AppendOnly(sts)
  {
    hide ChecksPass, History, Pair;
    assert History([]) == Some(Tables([], map[], 0)) by { NoHistory(); }
    var posted := InsertPair([], 0, 0);
    posted := CheckPair(posted, 0, 0, 0);
    posted := Next(posted, Commit(0));
    assert [] + Pair(0, 0) == Pair(0, 0);
    sts := Next(posted, Begin(1));
    sts := Next(sts, Truncate(1));
    assert ChecksPass([], []) by { EmptyPasses(); }
    sts := Next(sts, RunDeferredTriggers(1));
    sts := Next(sts, Commit(1));
    assert sts[..|posted|] == posted && sts[..|sts|] == sts;
    assert CommittedAfter(sts, |posted|) == Pair(0, 0) && CommittedAfter(sts, |sts|) == [];
    assert |Pair(0, 0)| == 2 by { PairIsTwo(); }
  }

  lemma EmptyPasses()
    ensures ChecksPass([], [])
  {
  }

  lemma PairIsTwo()
    ensures |Pair(0, 0)| == 2
  {
  }

  /** A commit keeps the trigger's whole rule for a journal exactly when what others have meanwhile
      committed there is in the same currency; `post` always starts a journal of its own. */
  lemma CommitKeepsRuleIff(committed: seq<Entry>, own: seq<Entry>, j: Id)
    requires TriggerAccepts(committed, j) && SoundTx(own) && Lines(own, j) != []
    ensures TriggerAccepts(committed + own, j) <==>
            (Lines(committed, j) != [] ==> Lines(committed, j)[0].currency == Lines(own, j)[0].currency)
  {
    var theirs, mine, all := Lines(committed, j), Lines(own, j), Lines(committed + own, j);
    LinesConcat(committed, own, j);
    assert all[|theirs|] == mine[0];
    assert SameCurrency(mine) && |mine| != 1;
    if theirs != [] {
      assert all[0] == theirs[0];
    }
    if theirs != [] ==> theirs[0].currency == mine[0].currency {
      var d := mine[0].currency;
      forall i | 0 <= i < |all| ensures all[i].currency == d {
        if i < |theirs| {
          assert all[i] == theirs[i];
        } else {
          assert all[i] == mine[i - |theirs|];
        }
      }
      OneCurrency(all, d, d);
      OneCurrency(theirs, d, d);
      ImbalanceConcat(theirs, mine, d);
      assert ImbalanceIn(Lines(own, j), d) == 0;
    }
  }
}
