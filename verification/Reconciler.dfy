/** The reconciliation pass as the code runs it: loops over both sides, healing in place. */
module Reconciler {
  import opened Records
  import opened Ledger
  import opened Database
  import opened TaskService
  import opened TransferService
  import opened Accounting
  import opened Reconciliation
  import opened PassTheorems
  import opened Provider

  /** What one pass found. */
  class Report {
    var checked: nat
    var healed: nat
    var findings: seq<Finding>

    constructor ()
      ensures checked == 0 && healed == 0 && findings == []
    {
      checked, healed, findings := 0, 0, [];
    }

    /** `unresolved` */
    function Unresolved(): int
      reads this
    {
      |findings| - healed
    }

    /** The pass so far, as the specification counts it. */
    ghost function Progress(session: Session, matched: set<Reference>): Pass
      reads this, session
    {
      Pass(session.Work(), checked, healed, findings, matched, false)
    }

    /** `_record`: an unhealed finding, at the position returned. */
    method Record(kind: FindingKind, transfer: Option<Id>, reference: Option<Reference>) returns (k: nat)
      modifies this
      ensures k == |old(findings)|
      ensures findings == old(findings) + [Finding(kind, transfer, reference, false)]
      ensures checked == old(checked) && healed == old(healed)
    {
      k := |findings|;
      findings := findings + [Finding(kind, transfer, reference, false)];
    }

    method MarkHealed(k: nat)
      requires k < |findings|
      modifies this
      ensures findings == old(findings)[k := old(findings)[k].(healed := true)]
      ensures checked == old(checked) && healed == old(healed) + 1
    {
      findings := findings[k := findings[k].(healed := true)];
      healed := healed + 1;
    }

    /** `_compare`: one transfer against their record of it. */
    method Compare(session: Session, t: Id, payment: Payment, ghost matched: set<Reference>)
      requires t < |session.transfers|
      modifies this, session
      ensures Progress(session, matched) == Compared(old(Progress(session, matched)), t, payment)
      ensures |session.transfers| == |old(session.transfers)|
      ensures old(findings) <= findings && old(session.journals) <= session.journals
      ensures AgainstPayment(t, old(session.transfers)[t], payment, session.transfers[t],
                             findings[|old(findings)|..], session.journals[|old(session.journals)|..])
      ensures forall u :: 0 <= u < |session.transfers| && u != t ==> session.transfers[u] == old(session.transfers)[u]
      ensures session.tasks == old(session.tasks)
      ensures session.committed == old(session.committed)
    {
      hide SettledJournal, ReversedJournal, CompareVerdict, AgainstPayment;
      CompareTells(Progress(session, matched), t, payment);
      var x := session.transfers[t];
      if payment.amount != x.amount || payment.currency != x.currency {
        var _ := Record(AmountMismatch, Some(t), Some(payment.reference));
        return;
      }
      if x.status == Processing && (payment.status == Paid || payment.status == Bounced) {
        var k := Record(StatusBehind, Some(t), Some(payment.reference));
        if payment.status == Paid {
          MarkSucceeded(session, t, x);
        } else {
          MarkFailed(session, t, x);
        }
        MarkHealed(k);
        return;
      }
      if x.status == Succeeded && payment.status == Bounced {
        var _ := Record(StatusContradicted, Some(t), Some(payment.reference));
      } else if x.status == Failed && payment.status == Paid {
        var _ := Record(StatusContradicted, Some(t), Some(payment.reference));
      }
    }

    /** `_recover_if_abandoned`; false when the flush is refused. */
    method RecoverIfAbandoned(session: Session, t: Id, payment: Option<Payment>, ghost matched: set<Reference>)
      returns (ok: bool)
      requires t < |session.transfers|
      modifies this, session
      ensures ok <==> !Recovered(old(Progress(session, matched)), t, payment).raised
      ensures ok ==> Progress(session, matched) == Recovered(old(Progress(session, matched)), t, payment)
      ensures |session.transfers| == old(|session.transfers|)
      ensures session.committed == old(session.committed)
    {
      hide ReversedJournal, Compared, SendIsDead, ReferenceTaken;
      var x := session.transfers[t];
      if x.status != Pending {
        return true;
      }
      var task := DeadLetterFor(session, t);
      if task.None? {
        return true;
      }
      if payment.None? {
        var k := Record(SendAbandoned, Some(t), None);
        MarkFailed(session, t, x);
        MarkHealed(k);
        return true;
      }
      var k := Record(SendAbandoned, Some(t), Some(payment.value.reference));
      ok := MarkProcessing(session, t, payment.value.reference);
      if ok {
        MarkHealed(k);
        assert findings == old(findings) + [Finding(SendAbandoned, Some(t), Some(payment.value.reference), true)];
        CompareNeverRaises(Progress(session, matched), t, payment.value);
        Compare(session, t, payment.value, matched);
      }
    }

    /** The body of the loop over our transfers; false when the flush is refused. */
    method Visit(session: Session, t: Id, theirs: Theirs, matched: set<Reference>)
      returns (ok: bool, seen: set<Reference>)
      requires t < |session.transfers|
      modifies this, session
      ensures ok <==> !Visited(old(Progress(session, matched)), t, theirs).raised
      ensures ok ==> Progress(session, seen) == Visited(old(Progress(session, matched)), t, theirs)
      ensures |session.transfers| == old(|session.transfers|)
      ensures session.committed == old(session.committed)
    {
      hide Compared, Recovered;
      ok, seen := true, matched;
      checked := checked + 1;
      var reference := session.transfers[t].reference;
      if reference.None? {
        var payment: Option<Payment> := None;
        if t in theirs.byKey {
          payment := Some(theirs.byKey[t]);
          seen := seen + {theirs.byKey[t].reference};
        }
        ok := RecoverIfAbandoned(session, t, payment, seen);
        return;
      }
      if reference.value !in theirs.byReference {
        var _ := Record(MissingAtProvider, Some(t), reference);
        return;
      }
      var payment := theirs.byReference[reference.value];
      seen := seen + {payment.reference};
      CompareNeverRaises(Progress(session, seen), t, payment);
      Compare(session, t, payment, seen);
    }
  }

  /** A comparison adds what the rows call for, and touches no other row. */
  lemma CompareTells(p: Pass, t: Id, payment: Payment)
    requires t < |p.db.transfers|
    ensures var q := Compared(p, t, payment);
            && |q.db.transfers| == |p.db.transfers| && q.db.tasks == p.db.tasks
            && p.findings <= q.findings && p.db.journals <= q.db.journals
            && AgainstPayment(t, p.db.transfers[t], payment, q.db.transfers[t],
                              q.findings[|p.findings|..], q.db.journals[|p.db.journals|..])
            && forall u :: 0 <= u < |p.db.transfers| && u != t ==> q.db.transfers[u] == p.db.transfers[u]
  {
    hide CompareVerdict, Compared, AgainstPayment, HealedIn;
    var v := CompareVerdict(t, p.db.transfers[t], payment);
    CompareFollowsVerdict(p, t, payment);
    CompareIsAsAsked(t, p.db.transfers[t], payment);
    assert (p.findings + v.findings)[|p.findings|..] == v.findings;
    assert (p.db.journals + v.posts)[|p.db.journals|..] == v.posts;
  }

  lemma CompareNeverRaises(p: Pass, t: Id, payment: Payment)
    requires t < |p.db.transfers| && !p.raised
    ensures !Compared(p, t, payment).raised && |Compared(p, t, payment).db.transfers| == |p.db.transfers|
  {
  }

  // --------------------------------------------------------------- both sides, loaded

  /** `theirs`, in the order a dictionary keeps. */
  method IndexByReference(list: seq<Payment>) returns (order: seq<Reference>, byReference: map<Reference, Payment>)
    ensures order == Order(list) && byReference == ByReference(list)
  {
    order, byReference := [], map[];
    for i := 0 to |list|
      invariant order == Order(list[..i]) && byReference == ByReference(list[..i])
    {
      assert list[..i + 1][..i] == list[..i];
      if list[i].reference !in order {
        order := order + [list[i].reference];
      }
      byReference := byReference[list[i].reference := list[i]];
    }
    assert list[..|list|] == list;
  }

  /** `theirs_by_key` */
  method IndexByKey(order: seq<Reference>, byReference: map<Reference, Payment>) returns (byKey: map<Id, Payment>)
    requires forall r :: r in order ==> r in byReference
    ensures byKey == ByKey(order, byReference)
  {
    byKey := map[];
    for i := 0 to |order|
      invariant byKey == ByKey(order[..i], byReference)
    {
      assert order[..i + 1][..i] == order[..i];
      byKey := byKey[byReference[order[i]].key := byReference[order[i]]];
    }
    assert order[..|order|] == order;
  }

  method IndexBoth(list: seq<Payment>) returns (theirs: Theirs)
    ensures theirs == Index(list)
  {
    hide WellIndexed, ByKey, ByReference, Order;
    var order, byReference := IndexByReference(list);
    OrderCovers(list);
    var byKey := IndexByKey(order, byReference);
    return Theirs(order, byReference, byKey);
  }

  /** `_our_transfers` */
  method OurTransfers(session: Session, since: Time) returns (ours: seq<Id>)
    ensures Window(session.Work(), ours, since)
  {
    ours := [];
    for t := 0 to |session.transfers|
      invariant forall i :: 0 <= i < |ours| ==> ours[i] < t
      invariant Distinct(ours)
      invariant forall u :: 0 <= u < t ==> (u in ours <==> session.transfers[u].createdAt >= since)
    {
      if session.transfers[t].createdAt >= since {
        ours := ours + [t];
      }
    }
  }

  /** `_transfer_for` */
  method IsOwned(session: Session, reference: Reference) returns (found: bool)
    ensures found <==> Owned(session.transfers, reference)
  {
    for u := 0 to |session.transfers|
      invariant forall v :: 0 <= v < u ==> session.transfers[v].reference != Some(reference)
    {
      if session.transfers[u].reference == Some(reference) {
        return true;
      }
    }
    return false;
  }

  // -------------------------------------------------------------------------- the run

  /** The loop over our transfers; stops, as an exception would, when a flush is refused. */
  method VisitOurs(report: Report, session: Session, ours: seq<Id>, theirs: Theirs)
    returns (ok: bool, matched: set<Reference>)
    requires InRange(session.Work(), ours)
    requires report.checked == 0 && report.healed == 0 && report.findings == []
    modifies report, session
    ensures ok <==> !VisitedAll(old(session.Work()), ours, theirs).raised
    ensures ok ==> report.Progress(session, matched) == VisitedAll(old(session.Work()), ours, theirs)
    ensures session.committed == old(session.committed)
  {
    hide Visited;
    ok, matched := true, {};
    ghost var db := session.Work();
    for i := 0 to |ours|
      invariant |session.transfers| == |db.transfers|
      invariant report.Progress(session, matched) == VisitedAll(db, ours[..i], theirs)
      invariant session.committed == old(session.committed)
    {
      assert ours[..i + 1][..i] == ours[..i];
      ok, matched := report.Visit(session, ours[i], theirs, matched);
      if !ok {
        RaisedStays(db, ours, theirs, i + 1);
        return;
      }
    }
    assert ours[..|ours|] == ours;
  }

  lemma {:induction false} RaisedStays(db: Db, ours: seq<Id>, theirs: Theirs, n: nat)
    requires n <= |ours| && InRange(db, ours) && VisitedAll(db, ours[..n], theirs).raised
    ensures VisitedAll(db, ours, theirs).raised
    decreases |ours|
  {
    hide Visited;
    if n == |ours| {
      assert ours[..n] == ours;
    } else {
      assert ours[..|ours| - 1][..n] == ours[..n];
      RaisedStays(db, ours[..|ours| - 1], theirs, n);
    }
  }

  /** The loop over their payments. */
  method ReportUnknowns(report: Report, session: Session, order: seq<Reference>, matched: set<Reference>)
    modifies report
    ensures report.findings == old(report.findings) + Unknowns(order, matched, session.transfers)
    ensures report.checked == old(report.checked) && report.healed == old(report.healed)
  {
    assert report.findings + [] == report.findings;
    for i := 0 to |order|
      invariant report.findings == old(report.findings) + Unknowns(order[..i], matched, session.transfers)
      invariant report.checked == old(report.checked) && report.healed == old(report.healed)
    {
      assert order[..i + 1][..i] == order[..i];
      if order[i] !in matched {
        var ours := IsOwned(session, order[i]);
        if !ours {
          var _ := report.Record(UnknownToUs, None, Some(order[i]));
        }
      }
    }
    assert order[..|order|] == order;
  }

  /** `run`: their list, then ours, then the comparison. It commits nothing; when it raises, the
      caller's rollback undoes all of it. */
  method Run(session: Session, provider: MockProvider, since: Time)
    returns (ok: bool, report: Report, ghost ours: seq<Id>, ghost list: seq<Payment>)
    requires provider.Valid()
    modifies session, provider`payments
    ensures provider.Valid()
    ensures provider.payments == AllAdvanced(
              old(provider.payments), old(session.now) - provider.settleAfterSeconds, provider.failSettlement)
    ensures Window(old(session.Work()), ours, since) && IsListing(list, provider.payments, since)
    ensures ok <==> !Reconciled(old(session.Work()), ours, list).raised
    ensures fresh(report)
    ensures ok ==>
              var p := Reconciled(old(session.Work()), ours, list);
              && session.Work() == p.db && report.findings == p.findings
              && report.checked == p.checked && report.healed == p.healed
              && report.Unresolved() == Reconciliation.Unresolved(p)
    ensures ok ==> forall t :: 0 <= t < |old(session.transfers)| ==>
              Told(old(session.Work()), ours, list, t, session.Work(), report.findings)
    ensures ok ==> session.tasks == old(session.tasks)
    ensures session.committed == old(session.committed)
  {
    hide Index, WellIndexed, AllAdvanced, Told;
    ghost var db := session.Work();
    report := new Report();
    var rows := provider.ListPayments(since, session.now);
    var theirs := IndexBoth(rows);
    var window := OurTransfers(session, since);
    ours, list := window, rows;
    var matched: set<Reference>;
    ok, matched := VisitOurs(report, session, window, theirs);
    if ok {
      ReportUnknowns(report, session, theirs.order, matched);
      forall t | 0 <= t < |db.transfers| ensures Told(db, ours, list, t, session.Work(), report.findings) {
        PassTellsOfEach(db, ours, list, t);
      }
      PassIsPointwise(db, ours, theirs);
    }
  }
}
