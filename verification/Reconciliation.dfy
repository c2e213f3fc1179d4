/** One reconciliation pass (reconciliation_service.py), as the code steps through it. */
module Reconciliation {
  import opened Records
  import opened Ledger
  import opened TaskService
  import opened TransferService
  import opened Accounting

  datatype FindingKind =
    | MissingAtProvider
    | UnknownToUs
    | StatusBehind
    | StatusContradicted
    | AmountMismatch
    | SendAbandoned

  datatype Finding = Finding(kind: FindingKind, transfer: Option<Id>, reference: Option<Reference>, healed: bool)

  // ------------------------------------------------------------ their side, indexed

  /** The provider's list as two dictionaries, the first of them in insertion order. */
  datatype Theirs = Theirs(order: seq<Reference>, byReference: map<Reference, Payment>, byKey: map<Id, Payment>)

  function ByReference(list: seq<Payment>): map<Reference, Payment> {
    if |list| == 0 then map[]
    else ByReference(list[..|list| - 1])[list[|list| - 1].reference := list[|list| - 1]]
  }

  /** A repeated reference keeps its first position and its last value, as in a Python dict. */
  function Order(list: seq<Payment>): seq<Reference> {
    if |list| == 0 then []
    else
      var before, r := Order(list[..|list| - 1]), list[|list| - 1].reference;
      if r in before then before else before + [r]
  }

  function ByKey(order: seq<Reference>, byReference: map<Reference, Payment>): map<Id, Payment>
    requires forall r :: r in order ==> r in byReference
  {
    if |order| == 0 then map[]
    else
      var p := byReference[order[|order| - 1]];
      ByKey(order[..|order| - 1], byReference)[p.key := p]
  }

  lemma {:induction false} OrderCovers(list: seq<Payment>)
    ensures Distinct(Order(list))
    ensures forall r :: r in Order(list) <==> r in ByReference(list)
    ensures forall r :: r in ByReference(list) ==> ByReference(list)[r].reference == r && ByReference(list)[r] in list
    ensures forall p :: p in list ==> p.reference in ByReference(list)
  {
    if |list| > 0 {
      OrderCovers(list[..|list| - 1]);
      assert list == list[..|list| - 1] + [list[|list| - 1]];
    }
  }

  lemma {:induction false} ByKeyCovers(order: seq<Reference>, byReference: map<Reference, Payment>)
    requires forall r :: r in order ==> r in byReference && byReference[r].reference == r
    ensures forall k :: k in ByKey(order, byReference) ==>
              var p := ByKey(order, byReference)[k];
              p.key == k && p.reference in order && byReference[p.reference] == p
    ensures forall r :: r in order ==> byReference[r].key in ByKey(order, byReference)
  {
    if |order| > 0 {
      ByKeyCovers(order[..|order| - 1], byReference);
      assert order == order[..|order| - 1] + [order[|order| - 1]];
    }
  }

  function Index(list: seq<Payment>): (theirs: Theirs)
    ensures WellIndexed(theirs)
  {
    OrderCovers(list);
    ByKeyCovers(Order(list), ByReference(list));
    Theirs(Order(list), ByReference(list), ByKey(Order(list), ByReference(list)))
  }

  ghost predicate WellIndexed(theirs: Theirs) {
    && Distinct(theirs.order)
    && (forall r :: r in theirs.order <==> r in theirs.byReference)
    && (forall r :: r in theirs.byReference ==> theirs.byReference[r].reference == r)
    && (forall k :: k in theirs.byKey ==>
          && theirs.byKey[k].key == k
          && theirs.byKey[k].reference in theirs.byReference
          && theirs.byReference[theirs.byKey[k].reference] == theirs.byKey[k])
    && (forall r :: r in theirs.byReference ==> theirs.byReference[r].key in theirs.byKey)
  }

  // ----------------------------------------------------------------------- the pass

  /** A pass under way. `raised`: the unique index refused a flush, so all of it rolls back. */
  datatype Pass = Pass(
    db: Db, checked: nat, healed: nat, findings: seq<Finding>, matched: set<Reference>, raised: bool)

  function Start(db: Db): Pass {
    Pass(db, 0, 0, [], {}, false)
  }

  function Recorded(p: Pass, f: Finding): Pass {
    p.(findings := p.findings + [f], healed := p.healed + if f.healed then 1 else 0)
  }

  /** `unresolved`, as the report counts it. */
  function Unresolved(p: Pass): int {
    |p.findings| - p.healed
  }

  predicate Mismatched(x: Transfer, payment: Payment) {
    payment.amount != x.amount || payment.currency != x.currency
  }

  predicate Contradicts(x: Transfer, payment: Payment) {
    || (x.status.Succeeded? && payment.status.Bounced?)
    || (x.status.Failed? && payment.status.Paid?)
  }

  /** `_compare` */
  function Compared(p: Pass, t: Id, payment: Payment): Pass
    requires t < |p.db.transfers|
  {
    var x, r := p.db.transfers[t], Some(payment.reference);
    if Mismatched(x, payment) then Recorded(p, Finding(AmountMismatch, Some(t), r, false))
    else if x.status.Processing? && payment.status.Paid? then
      Recorded(p, Finding(StatusBehind, Some(t), r, true)).(db := MarkedSucceeded(p.db, t, x))
    else if x.status.Processing? && payment.status.Bounced? then
      Recorded(p, Finding(StatusBehind, Some(t), r, true)).(db := MarkedFailed(p.db, t, x))
    else if Contradicts(x, payment) then Recorded(p, Finding(StatusContradicted, Some(t), r, false))
    else p
  }

  /** `_recover_if_abandoned` */
  function Recovered(p: Pass, t: Id, payment: Option<Payment>): Pass
    requires t < |p.db.transfers|
  {
    var x := p.db.transfers[t];
    if !x.status.Pending? || !SendIsDead(p.db.tasks, t) then p
    else if payment.None? then
      Recorded(p, Finding(SendAbandoned, Some(t), None, true)).(db := MarkedFailed(p.db, t, x))
    else if ReferenceTaken(p.db.transfers, t, payment.value.reference) then p.(raised := true)
    else
      var r := payment.value.reference;
      Compared(
        Recorded(p, Finding(SendAbandoned, Some(t), Some(r), true)).(db := MarkedProcessing(p.db, t, r)),
        t, payment.value)
  }

  /** The body of the loop over our transfers. */
  function Visited(p: Pass, t: Id, theirs: Theirs): Pass
    requires t < |p.db.transfers|
  {
    var p, x := p.(checked := p.checked + 1), p.db.transfers[t];
    if x.reference.None? then
      if t in theirs.byKey then
        Recovered(p.(matched := p.matched + {theirs.byKey[t].reference}), t, Some(theirs.byKey[t]))
      else Recovered(p, t, None)
    else if x.reference.value !in theirs.byReference then
      Recorded(p, Finding(MissingAtProvider, Some(t), x.reference, false))
    else
      var payment := theirs.byReference[x.reference.value];
      Compared(p.(matched := p.matched + {payment.reference}), t, payment)
  }

  predicate InRange(db: Db, ours: seq<Id>) {
    forall i :: 0 <= i < |ours| ==> ours[i] < |db.transfers|
  }

  /** `_our_transfers`: every transfer of the window, once, in any order. */
  predicate Window(db: Db, ours: seq<Id>, since: Time) {
    && InRange(db, ours)
    && Distinct(ours)
    && (forall t :: 0 <= t < |db.transfers| ==> (t in ours <==> db.transfers[t].createdAt >= since))
  }

  function VisitedAll(db: Db, ours: seq<Id>, theirs: Theirs): (p: Pass)
    requires InRange(db, ours)
    ensures |p.db.transfers| == |db.transfers|
  {
    if |ours| == 0 then Start(db)
    else
      var p := VisitedAll(db, ours[..|ours| - 1], theirs);
      if p.raised then p else Visited(p, ours[|ours| - 1], theirs)
  }

  /** `_transfer_for`: any transfer, inside the window or not. */
  predicate Owned(ts: seq<Transfer>, r: Reference) {
    exists u :: 0 <= u < |ts| && ts[u].reference == Some(r)
  }

  function UnknownFinding(r: Reference): Finding {
    Finding(UnknownToUs, None, Some(r), false)
  }

  /** The loop over their payments. */
  function Unknowns(order: seq<Reference>, matched: set<Reference>, ts: seq<Transfer>): seq<Finding> {
    if |order| == 0 then []
    else
      var before, r := Unknowns(order[..|order| - 1], matched, ts), order[|order| - 1];
      if r in matched || Owned(ts, r) then before else before + [UnknownFinding(r)]
  }

  /** `run`, for the transfers of the window in whatever order the query returned them. */
  function Reconciled(db: Db, ours: seq<Id>, list: seq<Payment>): Pass
    requires InRange(db, ours)
  {
    var theirs := Index(list);
    var p := VisitedAll(db, ours, theirs);
    if p.raised then p else p.(findings := p.findings + Unknowns(theirs.order, p.matched, p.db.transfers))
  }

  // --------------------------------------------------- one transfer by itself

  /** What a pass decides about one transfer, from that transfer and their records alone. */
  datatype Verdict = Verdict(after: Transfer, findings: seq<Finding>, posts: seq<Journal>, matched: set<Reference>)

  function CompareVerdict(t: Id, x: Transfer, payment: Payment): Verdict {
    var r, seen := Some(payment.reference), {payment.reference};
    if Mismatched(x, payment) then Verdict(x, [Finding(AmountMismatch, Some(t), r, false)], [], seen)
    else if x.status.Processing? && payment.status.Paid? then
      Verdict(x.(status := Succeeded), [Finding(StatusBehind, Some(t), r, true)], [SettledJournal(t, x)], seen)
    else if x.status.Processing? && payment.status.Bounced? then
      Verdict(x.(status := Failed), [Finding(StatusBehind, Some(t), r, true)], [ReversedJournal(t, x)], seen)
    else if Contradicts(x, payment) then Verdict(x, [Finding(StatusContradicted, Some(t), r, false)], [], seen)
    else Verdict(x, [], [], seen)
  }

  function Examined(t: Id, x: Transfer, dead: bool, theirs: Theirs): Verdict {
    if x.reference.Some? then
      if x.reference.value in theirs.byReference then CompareVerdict(t, x, theirs.byReference[x.reference.value])
      else Verdict(x, [Finding(MissingAtProvider, Some(t), x.reference, false)], [], {})
    else if t !in theirs.byKey then
      if x.status.Pending? && dead then
        Verdict(x.(status := Failed), [Finding(SendAbandoned, Some(t), None, true)], [ReversedJournal(t, x)], {})
      else Verdict(x, [], [], {})
    else
      var payment := theirs.byKey[t];
      if x.status.Pending? && dead then
        var r := Some(payment.reference);
        var v := CompareVerdict(t, x.(status := Processing, reference := r), payment);
        v.(findings := [Finding(SendAbandoned, Some(t), r, true)] + v.findings)
      else Verdict(x, [], [], {payment.reference})
  }

  function VerdictOn(db: Db, t: Id, theirs: Theirs): Verdict
    requires t < |db.transfers|
  {
    Examined(t, db.transfers[t], SendIsDead(db.tasks, t), theirs)
  }

  function HealedIn(fs: seq<Finding>): nat {
    if |fs| == 0 then 0 else HealedIn(fs[..|fs| - 1]) + if fs[|fs| - 1].healed then 1 else 0
  }

  function Unhealed(fs: seq<Finding>): seq<Finding> {
    if |fs| == 0 then []
    else if fs[|fs| - 1].healed then Unhealed(fs[..|fs| - 1])
    else Unhealed(fs[..|fs| - 1]) + [fs[|fs| - 1]]
  }

  lemma {:induction false} HealedConcat(a: seq<Finding>, b: seq<Finding>)
    ensures HealedIn(a + b) == HealedIn(a) + HealedIn(b)
    ensures Unhealed(a + b) == Unhealed(a) + Unhealed(b)
    ensures |Unhealed(a)| == |a| - HealedIn(a)
    decreases |a| + |b|
  {
    if |b| > 0 {
      HealedConcat(a, b[..|b| - 1]);
      assert (a + b)[..|a + b| - 1] == a + b[..|b| - 1];
    } else {
      assert a + b == a;
      if |a| > 0 {
        HealedConcat(a[..|a| - 1], []);
      }
    }
  }

  lemma FewFindings(f: Finding, g: Finding)
    ensures HealedIn([]) == 0
    ensures HealedIn([f]) == if f.healed then 1 else 0
    ensures Unhealed([f]) == if f.healed then [] else [f]
    ensures HealedIn([f, g]) == HealedIn([f]) + HealedIn([g])
    ensures Unhealed([f, g]) == Unhealed([f]) + Unhealed([g])
  {
    assert [f][..0] == [];
    assert [f] + [g] == [f, g];
    HealedConcat([f], [g]);
  }

  /** Every finding about a transfer names it. */
  lemma VerdictNames(t: Id, x: Transfer, dead: bool, theirs: Theirs)
    ensures forall f :: f in Examined(t, x, dead, theirs).findings ==> f.transfer == Some(t)
    ensures forall j :: j in Examined(t, x, dead, theirs).posts ==> j.transfer == Some(t)
    ensures |Examined(t, x, dead, theirs).posts| <= 1
    ensures SameIntent(x, Examined(t, x, dead, theirs).after)
  {
  }

  ghost predicate Follows(p: Pass, q: Pass, t: Id, v: Verdict)
    requires t < |p.db.transfers|
  {
    && q.db == p.db.(transfers := p.db.transfers[t := v.after], journals := p.db.journals + v.posts)
    && q.findings == p.findings + v.findings
    && q.healed == p.healed + HealedIn(v.findings)
    && q.raised == p.raised
  }

  lemma ReportFollows(p: Pass, t: Id, f: Finding, seen: set<Reference>)
    requires t < |p.db.transfers|
    ensures Follows(p, Recorded(p, f), t, Verdict(p.db.transfers[t], [f], [], seen))
  {
    FewFindings(f, f);
    assert p.db.transfers[t := p.db.transfers[t]] == p.db.transfers;
    assert p.db.journals + [] == p.db.journals;
  }

  lemma HealFollows(p: Pass, t: Id, f: Finding, after: Transfer, j: Journal, seen: set<Reference>)
    requires t < |p.db.transfers|
    ensures var db := p.db.(journals := p.db.journals + [j], transfers := p.db.transfers[t := after]);
            Follows(p, Recorded(p, f).(db := db), t, Verdict(after, [f], [j], seen))
  {
    FewFindings(f, f);
  }

  lemma AgreeFollows(p: Pass, t: Id, seen: set<Reference>)
    requires t < |p.db.transfers|
    ensures Follows(p, p, t, Verdict(p.db.transfers[t], [], [], seen))
  {
    assert p.db.transfers[t := p.db.transfers[t]] == p.db.transfers;
    assert p.db.journals + [] == p.db.journals;
    assert p.findings + [] == p.findings;
  }

  lemma CompareFollowsVerdict(p: Pass, t: Id, payment: Payment)
    requires t < |p.db.transfers|
    ensures Follows(p, Compared(p, t, payment), t, CompareVerdict(t, p.db.transfers[t], payment))
    ensures Compared(p, t, payment).matched == p.matched && Compared(p, t, payment).checked == p.checked
  {
    hide SettledJournal, ReversedJournal, Follows;
    var x, v := p.db.transfers[t], CompareVerdict(t, p.db.transfers[t], payment);
    if v.findings == [] {
      AgreeFollows(p, t, v.matched);
    } else if v.posts == [] {
      ReportFollows(p, t, v.findings[0], v.matched);
    } else {
      HealFollows(p, t, v.findings[0], v.after, v.posts[0], v.matched);
    }
  }

  lemma RecoverFollowsVerdict(p: Pass, t: Id, payment: Payment)
    requires t < |p.db.transfers|
    requires p.db.transfers[t].status.Pending? && SendIsDead(p.db.tasks, t)
    requires !ReferenceTaken(p.db.transfers, t, payment.reference)
    ensures var q, r := Recovered(p, t, Some(payment)), Some(payment.reference);
            var v := CompareVerdict(t, p.db.transfers[t].(status := Processing, reference := r), payment);
            && Follows(p, q, t, v.(findings := [Finding(SendAbandoned, Some(t), r, true)] + v.findings))
            && q.matched == p.matched && q.checked == p.checked
  {
    var r := Some(payment.reference);
    var x := p.db.transfers[t].(status := Processing, reference := r);
    var f := Finding(SendAbandoned, Some(t), r, true);
    var mid := Recorded(p, f).(db := MarkedProcessing(p.db, t, payment.reference));
    var v := CompareVerdict(t, x, payment);
    CompareFollowsVerdict(mid, t, payment);
    assert p.db.transfers[t := x][t := v.after] == p.db.transfers[t := v.after];
    assert p.findings + [f] + v.findings == p.findings + ([f] + v.findings);
    FewFindings(f, f);
    HealedConcat([f], v.findings);
  }

  lemma VisitOfReferenced(p: Pass, t: Id, theirs: Theirs)
    requires t < |p.db.transfers| && p.db.transfers[t].reference.Some?
    requires !p.raised && WellIndexed(theirs)
    ensures Follows(p, Visited(p, t, theirs), t, VerdictOn(p.db, t, theirs))
    ensures Visited(p, t, theirs).matched == p.matched + VerdictOn(p.db, t, theirs).matched
    ensures Visited(p, t, theirs).checked == p.checked + 1
  {
    var x, q := p.db.transfers[t], p.(checked := p.checked + 1);
    if x.reference.value in theirs.byReference {
      var payment := theirs.byReference[x.reference.value];
      CompareFollowsVerdict(q.(matched := p.matched + {payment.reference}), t, payment);
    } else {
      var f := Finding(MissingAtProvider, Some(t), x.reference, false);
      FewFindings(f, f);
      assert p.db.transfers[t := x] == p.db.transfers;
      assert p.db.journals + [] == p.db.journals;
    }
  }

  lemma VisitOfUnreferenced(p: Pass, t: Id, theirs: Theirs)
    requires t < |p.db.transfers| && p.db.transfers[t].reference.None?
    requires !Visited(p, t, theirs).raised && !p.raised && WellIndexed(theirs)
    ensures Follows(p, Visited(p, t, theirs), t, VerdictOn(p.db, t, theirs))
    ensures Visited(p, t, theirs).matched == p.matched + VerdictOn(p.db, t, theirs).matched
    ensures Visited(p, t, theirs).checked == p.checked + 1
  {
    var x, q := p.db.transfers[t], p.(checked := p.checked + 1);
    if !x.status.Pending? || !SendIsDead(p.db.tasks, t) {
      assert p.db.transfers[t := x] == p.db.transfers;
      assert p.db.journals + [] == p.db.journals;
      assert p.findings + [] == p.findings;
    } else if t in theirs.byKey {
      RecoverFollowsVerdict(q.(matched := p.matched + {theirs.byKey[t].reference}), t, theirs.byKey[t]);
    } else {
      var f := Finding(SendAbandoned, Some(t), None, true);
      FewFindings(f, f);
    }
  }

  /** The step-by-step visit does to the database exactly what the verdict says. */
  lemma VisitFollowsVerdict(p: Pass, t: Id, theirs: Theirs)
    requires t < |p.db.transfers|
    requires !Visited(p, t, theirs).raised && !p.raised && WellIndexed(theirs)
    ensures Follows(p, Visited(p, t, theirs), t, VerdictOn(p.db, t, theirs))
    ensures Visited(p, t, theirs).matched == p.matched + VerdictOn(p.db, t, theirs).matched
    ensures Visited(p, t, theirs).checked == p.checked + 1
  {
    if p.db.transfers[t].reference.Some? {
      VisitOfReferenced(p, t, theirs);
    } else {
      VisitOfUnreferenced(p, t, theirs);
    }
  }

  // ------------------------------------------------- the same, told from the rows alone

  /** What a comparison with their payment leaves of our row, the journals it posts and the findings it
      makes. A mismatch is looked for first, and stops everything else. */
  predicate AgainstPayment(t: Id, x: Transfer, p: Payment, y: Transfer, fs: seq<Finding>, posts: seq<Journal>) {
    var r, owed := Some(p.reference), RecipientPayable(x.recipient, x.currency);
    if p.amount != x.amount || p.currency != x.currency then
      y == x && posts == [] && fs == [Finding(AmountMismatch, Some(t), r, false)]
    else if x.status == Processing && p.status == Paid then
      && y == Transfer(x.recipient, x.amount, x.currency, Succeeded, x.reference, x.run, x.createdAt)
      && posts == [Journal(TransferSettled, Some(t), [
           Line(owed, Debit, x.amount, x.currency), Line(ProviderSettlement(x.currency), Credit, x.amount, x.currency)])]
      && fs == [Finding(StatusBehind, Some(t), r, true)]
    else if x.status == Processing && p.status == Bounced then
      && y == Transfer(x.recipient, x.amount, x.currency, Failed, x.reference, x.run, x.createdAt)
      && posts == [Journal(TransferReversed, Some(t), [
           Line(owed, Debit, x.amount, x.currency), Line(ProgramFunding(x.currency), Credit, x.amount, x.currency)])]
      && fs == [Finding(StatusBehind, Some(t), r, true)]
    else if (x.status == Succeeded && p.status == Bounced) || (x.status == Failed && p.status == Paid) then
      y == x && posts == [] && fs == [Finding(StatusContradicted, Some(t), r, false)]
    else y == x && posts == [] && fs == []
  }

  /** What a pass leaves of one transfer, given whether its send is dead and what they list. */
  predicate TellsOf(t: Id, x: Transfer, dead: bool, theirs: Theirs, y: Transfer, fs: seq<Finding>, posts: seq<Journal>) {
    if x.reference.Some? then
      if x.reference.value in theirs.byReference then
        AgainstPayment(t, x, theirs.byReference[x.reference.value], y, fs, posts)
      else y == x && posts == [] && fs == [Finding(MissingAtProvider, Some(t), x.reference, false)]
    else if x.status != Pending || !dead then y == x && posts == [] && fs == []
    else if t in theirs.byKey then
      var p := theirs.byKey[t];
      var followed := Transfer(x.recipient, x.amount, x.currency, Processing, Some(p.reference), x.run, x.createdAt);
      && |fs| >= 1
      && fs[0] == Finding(SendAbandoned, Some(t), Some(p.reference), true)
      && AgainstPayment(t, followed, p, y, fs[1..], posts)
    else
      && y == Transfer(x.recipient, x.amount, x.currency, Failed, None, x.run, x.createdAt)
      && posts == [Journal(TransferReversed, Some(t), [
           Line(RecipientPayable(x.recipient, x.currency), Debit, x.amount, x.currency),
           Line(ProgramFunding(x.currency), Credit, x.amount, x.currency)])]
      && fs == [Finding(SendAbandoned, Some(t), None, true)]
  }

  /** A send of this transfer is a dead letter. */
  predicate DeadSend(tasks: seq<Task>, t: Id) {
    exists k :: 0 <= k < |tasks| &&
      tasks[k].kind == DisburseTransfer && tasks[k].transfer == Some(t) && tasks[k].status == DeadLettered
  }

  lemma DeadSendIsLiteral(tasks: seq<Task>, t: Id)
    ensures DeadSend(tasks, t) <==> SendIsDead(tasks, t)
  {
    forall k | 0 <= k < |tasks| && tasks[k].kind == DisburseTransfer && tasks[k].transfer == Some(t)
      ensures IsSend(tasks, k, t)
    {
    }
    forall k | 0 <= k < |tasks| && IsSend(tasks, k, t)
      ensures tasks[k].kind == DisburseTransfer && tasks[k].transfer == Some(t)
    {
    }
  }

  lemma CompareIsAsAsked(t: Id, x: Transfer, p: Payment)
    ensures var v := CompareVerdict(t, x, p); AgainstPayment(t, x, p, v.after, v.findings, v.posts)
  {
  }

  lemma VerdictIsAsAsked(t: Id, x: Transfer, dead: bool, theirs: Theirs)
    ensures var v := Examined(t, x, dead, theirs); TellsOf(t, x, dead, theirs, v.after, v.findings, v.posts)
  {
    hide CompareVerdict, AgainstPayment;
    if x.reference.Some? {
      if x.reference.value in theirs.byReference {
        CompareIsAsAsked(t, x, theirs.byReference[x.reference.value]);
      }
    } else if x.status.Pending? && dead && t in theirs.byKey {
      var p := theirs.byKey[t];
      var followed := x.(status := Processing, reference := Some(p.reference));
      CompareIsAsAsked(t, followed, p);
      var fs := CompareVerdict(t, followed, p).findings;
      assert ([Finding(SendAbandoned, Some(t), Some(p.reference), true)] + fs)[1..] == fs;
    }
  }

  // ------------------------------------------------------ the dictionaries, told from the list

  predicate LastAt(list: seq<Payment>, r: Reference, i: nat) {
    i < |list| && list[i].reference == r && forall j :: i < j < |list| ==> list[j].reference != r
  }

  predicate FirstAt(list: seq<Payment>, r: Reference, i: nat) {
    i < |list| && list[i].reference == r && forall j :: 0 <= j < i ==> list[j].reference != r
  }

  predicate LastWithKey(order: seq<Reference>, byReference: map<Reference, Payment>, key: Id, i: nat)
    requires forall r :: r in order ==> r in byReference
  {
    && i < |order|
    && byReference[order[i]].key == key
    && forall j :: i < j < |order| ==> byReference[order[j]].key != key
  }

  /** A reference stands for the last payment listed under it. */
  lemma {:induction false} ListedLast(list: seq<Payment>, i: nat)
    requires i < |list| && LastAt(list, list[i].reference, i)
    ensures list[i].reference in ByReference(list) && ByReference(list)[list[i].reference] == list[i]
  {
    var n := |list| - 1;
    if i < n {
      assert list[n].reference != list[i].reference;
      assert LastAt(list[..n], list[i].reference, i) by {
        assert forall j :: i < j < n ==> list[..n][j] == list[j];
      }
      ListedLast(list[..n], i);
    }
  }

  lemma OrderIsListed(list: seq<Payment>)
    ensures forall j :: 0 <= j < |Order(list)| ==> exists k :: 0 <= k < |list| && list[k].reference == Order(list)[j]
  {
    OrderCovers(list);
    forall j | 0 <= j < |Order(list)| ensures exists k :: 0 <= k < |list| && list[k].reference == Order(list)[j] {
      var p := ByReference(list)[Order(list)[j]];
      assert p in list;
    }
  }

  lemma NamedInOrder(list: seq<Payment>, k: nat)
    requires k < |list|
    ensures list[k].reference in Order(list)
  {
    OrderCovers(list);
    assert list[k] in list;
  }

  lemma OrderDistinct(list: seq<Payment>)
    ensures Distinct(Order(list))
  {
    OrderCovers(list);
  }

  lemma OrderGrows(list: seq<Payment>)
    requires |list| > 0
    ensures var before := Order(list[..|list| - 1]);
            before <= Order(list) && |Order(list)| <= |before| + 1
    ensures var before := Order(list[..|list| - 1]);
            |Order(list)| > |before| ==> Order(list)[|before|] == list[|list| - 1].reference
  {
  }

  /** Where an earlier part of the list already names it, a reference has its place there. */
  lemma PlaceInOrder(list: seq<Payment>, i: nat, a: nat)
    requires i < |Order(list)| && a < |list| - 1 && list[a].reference == Order(list)[i]
    ensures i < |Order(list[..|list| - 1])|
  {
    hide Order;
    OrderGrows(list);
    OrderDistinct(list);
    NamedInOrder(list[..|list| - 1], a);
  }

  /** References come in the order in which the list first names them. */
  lemma {:induction false} ListedFirst(list: seq<Payment>, a: nat, b: nat, i: nat, j: nat)
    requires i < |Order(list)| && j < |Order(list)|
    requires FirstAt(list, Order(list)[i], a) && FirstAt(list, Order(list)[j], b) && a < b
    ensures i < j
    decreases |list|
  {
    hide Order;
    var n := |list| - 1;
    var some := list[..n];
    OrderGrows(list);
    PlaceInOrder(list, i, a);
    OrderIsListed(some);
    assert forall k :: 0 <= k < n ==> some[k] == list[k];
    if b < n {
      PlaceInOrder(list, j, b);
      ListedFirst(some, a, b, i, j);
    }
  }

  /** A key stands for the last payment that carries it, in that order. */
  lemma {:induction false} KeyedLast(order: seq<Reference>, byReference: map<Reference, Payment>, key: Id, i: nat)
    requires forall r :: r in order ==> r in byReference
    requires LastWithKey(order, byReference, key, i)
    ensures key in ByKey(order, byReference) && ByKey(order, byReference)[key] == byReference[order[i]]
  {
    var n := |order| - 1;
    if i < n {
      assert byReference[order[n]].key != key;
      assert LastWithKey(order[..n], byReference, key, i) by {
        assert forall j :: i < j < n ==> order[..n][j] == order[j];
      }
      KeyedLast(order[..n], byReference, key, i);
    }
  }
}
