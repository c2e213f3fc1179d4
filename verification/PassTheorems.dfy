/** What a whole pass does, for any transfers and any provider list whatever. */
module PassTheorems {
  import opened Records
  import opened Ledger
  import opened TaskService
  import opened TransferService
  import opened Accounting
  import opened Reconciliation

  // ------------------------------------------------- a pass, transfer by transfer

  function FindingsOf(db: Db, ours: seq<Id>, theirs: Theirs): seq<Finding>
    requires InRange(db, ours)
  {
    if |ours| == 0 then []
    else FindingsOf(db, ours[..|ours| - 1], theirs) + VerdictOn(db, ours[|ours| - 1], theirs).findings
  }

  function PostsOf(db: Db, ours: seq<Id>, theirs: Theirs): seq<Journal>
    requires InRange(db, ours)
  {
    if |ours| == 0 then []
    else PostsOf(db, ours[..|ours| - 1], theirs) + VerdictOn(db, ours[|ours| - 1], theirs).posts
  }

  function MatchedOf(db: Db, ours: seq<Id>, theirs: Theirs): set<Reference>
    requires InRange(db, ours)
  {
    if |ours| == 0 then {}
    else MatchedOf(db, ours[..|ours| - 1], theirs) + VerdictOn(db, ours[|ours| - 1], theirs).matched
  }

  /** Every transfer of the window got its own verdict, and nothing else moved. */
  ghost predicate Pointwise(db: Db, ours: seq<Id>, theirs: Theirs, p: Pass)
    requires InRange(db, ours)
  {
    && p.db == db.(transfers := p.db.transfers, journals := db.journals + PostsOf(db, ours, theirs))
    && |p.db.transfers| == |db.transfers|
    && (forall u :: 0 <= u < |db.transfers| ==>
          p.db.transfers[u] == if u in ours then VerdictOn(db, u, theirs).after else db.transfers[u])
    && p.findings == FindingsOf(db, ours, theirs)
    && p.healed == HealedIn(p.findings)
    && p.checked == |ours|
    && p.matched == MatchedOf(db, ours, theirs)
  }

  /** A recovery about to point two transfers at one payment. */
  predicate Collides(db: Db, t: Id, theirs: Theirs) {
    && t < |db.transfers|
    && db.transfers[t].status.Pending?
    && db.transfers[t].reference.None?
    && SendIsDead(db.tasks, t)
    && t in theirs.byKey
    && ReferenceTaken(db.transfers, t, theirs.byKey[t].reference)
  }

  lemma VerdictReference(t: Id, x: Transfer, dead: bool, theirs: Theirs)
    ensures var after := Examined(t, x, dead, theirs).after;
            || after.reference == x.reference
            || (x.reference.None? && t in theirs.byKey && after.reference == Some(theirs.byKey[t].reference))
  {
  }

  lemma VisitRaises(p: Pass, t: Id, theirs: Theirs)
    requires t < |p.db.transfers| && !p.raised
    ensures Visited(p, t, theirs).raised <==> Collides(p.db, t, theirs)
  {
  }

  lemma SameCollisions(db: Db, ours: seq<Id>, theirs: Theirs, p: Pass, t: Id)
    requires InRange(db, ours) && WellIndexed(theirs) && Pointwise(db, ours, theirs, p)
    requires t < |db.transfers| && t !in ours && t in theirs.byKey
    ensures var r := theirs.byKey[t].reference;
            ReferenceTaken(p.db.transfers, t, r) <==> ReferenceTaken(db.transfers, t, r)
  {
    var r := theirs.byKey[t].reference;
    forall u | 0 <= u < |db.transfers| && u != t
      ensures p.db.transfers[u].reference == Some(r) <==> db.transfers[u].reference == Some(r)
    {
      hide Examined;
      VerdictReference(u, db.transfers[u], SendIsDead(db.tasks, u), theirs);
    }
  }

  ghost predicate SomeCollides(db: Db, ours: seq<Id>, theirs: Theirs) {
    exists i :: 0 <= i < |ours| && Collides(db, ours[i], theirs)
  }

  lemma CollidesSoFar(db: Db, ours: seq<Id>, theirs: Theirs)
    requires |ours| > 0
    ensures var n := |ours| - 1;
            SomeCollides(db, ours, theirs) <==> SomeCollides(db, ours[..n], theirs) || Collides(db, ours[n], theirs)
  {
    hide Collides;
    var n := |ours| - 1;
    if SomeCollides(db, ours[..n], theirs) {
      var i :| 0 <= i < n && Collides(db, ours[..n][i], theirs);
      assert Collides(db, ours[i], theirs);
    }
    if SomeCollides(db, ours, theirs) {
      var i :| 0 <= i < |ours| && Collides(db, ours[i], theirs);
      assert i < n ==> ours[..n][i] == ours[i];
    }
  }

  /** The next visit raises exactly when its transfer collided before the pass began. */
  lemma NextVisitRaises(db: Db, ours: seq<Id>, theirs: Theirs, p: Pass)
    requires |ours| > 0 && InRange(db, ours) && Distinct(ours) && WellIndexed(theirs)
    requires !p.raised && Pointwise(db, ours[..|ours| - 1], theirs, p)
    ensures Visited(p, ours[|ours| - 1], theirs).raised <==> Collides(db, ours[|ours| - 1], theirs)
  {
    hide Visited, Examined, Distinct, SendIsDead, ReferenceTaken, WellIndexed, FindingsOf, PostsOf, MatchedOf, HealedIn;
    LastIsNew(ours);
    var n := |ours| - 1;
    var t := ours[n];
    assert p.db.transfers[t] == db.transfers[t];
    if t in theirs.byKey {
      SameCollisions(db, ours[..n], theirs, p, t);
    }
    VisitRaises(p, t, theirs);
  }

  /** The loop is the verdicts: visiting one transfer never changes the verdict on another. */
  lemma {:induction false} PassIsPointwise(db: Db, ours: seq<Id>, theirs: Theirs)
    requires InRange(db, ours) && Distinct(ours) && WellIndexed(theirs)
    ensures VisitedAll(db, ours, theirs).raised <==> SomeCollides(db, ours, theirs)
    ensures !VisitedAll(db, ours, theirs).raised ==> Pointwise(db, ours, theirs, VisitedAll(db, ours, theirs))
  {
    hide Visited, Examined, Collides, Distinct, WellIndexed, SomeCollides, Pointwise;
    if |ours| == 0 {
      NobodyVisited(db, theirs);
    } else {
      var n := |ours| - 1;
      LastIsNew(ours);
      CollidesSoFar(db, ours, theirs);
      PassIsPointwise(db, ours[..n], theirs);
      var p := VisitedAll(db, ours[..n], theirs);
      if !p.raised {
        NextVisitRaises(db, ours, theirs, p);
        if !Visited(p, ours[n], theirs).raised {
          PointwiseStep(db, ours, theirs, p);
        }
      }
    }
  }

  lemma NobodyVisited(db: Db, theirs: Theirs)
    ensures !SomeCollides(db, [], theirs) && Pointwise(db, [], theirs, Start(db))
  {
    assert db.journals + [] == db.journals;
  }

  lemma LastIsNew(ids: seq<Id>)
    requires |ids| > 0 && Distinct(ids)
    ensures Distinct(ids[..|ids| - 1]) && ids[|ids| - 1] !in ids[..|ids| - 1]
    ensures forall t :: t in ids <==> t in ids[..|ids| - 1] || t == ids[|ids| - 1]
  {
    assert ids == ids[..|ids| - 1] + [ids[|ids| - 1]];
  }

  lemma PointwiseStep(db: Db, ours: seq<Id>, theirs: Theirs, p: Pass)
    requires |ours| > 0 && InRange(db, ours) && Distinct(ours) && WellIndexed(theirs)
    requires !p.raised && Pointwise(db, ours[..|ours| - 1], theirs, p)
    requires !Visited(p, ours[|ours| - 1], theirs).raised
    ensures Pointwise(db, ours, theirs, Visited(p, ours[|ours| - 1], theirs))
  {
    hide Visited, Examined, Distinct;
    hide HealedIn, SendIsDead;
    LastIsNew(ours);
    var n := |ours| - 1;
    var t, some := ours[n], ours[..n];
    var q := Visited(p, t, theirs);
    var v := VerdictOn(db, t, theirs);
    assert p.db.transfers[t] == db.transfers[t];
    VisitFollowsVerdict(p, t, theirs);
    assert VerdictOn(p.db, t, theirs) == v;
    HealedConcat(p.findings, v.findings);
    assert db.journals + PostsOf(db, some, theirs) + v.posts == db.journals + PostsOf(db, ours, theirs);
  }

  /** A pass raises exactly when it would give a payment some other transfer holds to an abandoned send. */
  lemma PassRaisesIff(db: Db, ours: seq<Id>, list: seq<Payment>)
    requires InRange(db, ours) && Distinct(ours)
    ensures Reconciled(db, ours, list).raised <==> exists i :: 0 <= i < |ours| && Collides(db, ours[i], Index(list))
  {
    hide Collides, VisitedAll, Pointwise;
    PassIsPointwise(db, ours, Index(list));
  }

  /** Each listed payment a transfer refers to carries that transfer's key. */
  ghost predicate KeysAgree(db: Db, theirs: Theirs) {
    forall u :: 0 <= u < |db.transfers| && db.transfers[u].reference.Some? ==>
      var r := db.transfers[u].reference.value;
      r in theirs.byReference ==> theirs.byReference[r].key == u
  }

  lemma AgreeingKeysNeverRaise(db: Db, ours: seq<Id>, list: seq<Payment>)
    requires InRange(db, ours) && Distinct(ours) && KeysAgree(db, Index(list))
    ensures !Reconciled(db, ours, list).raised
  {
    var theirs := Index(list);
    PassIsPointwise(db, ours, theirs);
    forall i | 0 <= i < |ours| ensures !Collides(db, ours[i], theirs) {
      if ours[i] in theirs.byKey {
        var r := theirs.byKey[ours[i]].reference;
        forall u | 0 <= u < |db.transfers| && u != ours[i] ensures db.transfers[u].reference != Some(r) {
        }
      }
    }
  }

  // ------------------------------------------------------------ the report adds up

  lemma {:induction false} UnknownsUnhealed(order: seq<Reference>, matched: set<Reference>, ts: seq<Transfer>)
    ensures HealedIn(Unknowns(order, matched, ts)) == 0
    ensures Unhealed(Unknowns(order, matched, ts)) == Unknowns(order, matched, ts)
    ensures forall f :: f in Unknowns(order, matched, ts) ==> f.transfer.None?
  {
    if |order| > 0 {
      var before, r := Unknowns(order[..|order| - 1], matched, ts), order[|order| - 1];
      UnknownsUnhealed(order[..|order| - 1], matched, ts);
      FewFindings(UnknownFinding(r), UnknownFinding(r));
      HealedConcat(before, [UnknownFinding(r)]);
    }
  }

  lemma {:induction false} UnknownsOnce(order: seq<Reference>, matched: set<Reference>, ts: seq<Transfer>, r: Reference)
    requires Distinct(order)
    ensures multiset(Unknowns(order, matched, ts))[UnknownFinding(r)] ==
            if r in order && r !in matched && !Owned(ts, r) then 1 else 0
  {
    if |order| > 0 {
      UnknownsOnce(order[..|order| - 1], matched, ts, r);
      assert order == order[..|order| - 1] + [order[|order| - 1]];
    }
  }

  lemma {:induction false} FindingsNameOurs(db: Db, ours: seq<Id>, theirs: Theirs, f: Finding)
    requires InRange(db, ours) && f in FindingsOf(db, ours, theirs)
    ensures f.transfer.Some? && f.transfer.value in ours
    ensures f in VerdictOn(db, f.transfer.value, theirs).findings
  {
    var n := |ours| - 1;
    VerdictNames(ours[n], db.transfers[ours[n]], SendIsDead(db.tasks, ours[n]), theirs);
    if f !in VerdictOn(db, ours[n], theirs).findings {
      FindingsNameOurs(db, ours[..n], theirs, f);
      assert ours == ours[..n] + [ours[n]];
    }
  }

  /** `healed` counts the flagged findings, and every listed payment is accounted for exactly once. */
  lemma ReportAddsUp(db: Db, ours: seq<Id>, list: seq<Payment>, r: Reference)
    requires InRange(db, ours) && Distinct(ours) && !Reconciled(db, ours, list).raised
    ensures var p := Reconciled(db, ours, list);
            && p.checked == |ours|
            && p.healed == HealedIn(p.findings)
            && |p.findings| - p.healed == |Unhealed(p.findings)|
            && multiset(p.findings)[UnknownFinding(r)] ==
               (if r in ByReference(list) && r !in p.matched && !Owned(p.db.transfers, r) then 1 else 0)
            && (r in ByReference(list) && r !in p.matched ==>
                  forall u :: u in ours ==> p.db.transfers[u].reference != Some(r))
  {
    hide Examined, Visited;
    var theirs := Index(list);
    var p := Reconciled(db, ours, list);
    PassIsPointwise(db, ours, theirs);
    var visits, unknown := FindingsOf(db, ours, theirs), Unknowns(theirs.order, p.matched, p.db.transfers);
    HealedConcat(visits, unknown);
    HealedConcat(p.findings, []);
    UnknownsUnhealed(theirs.order, p.matched, p.db.transfers);
    UnknownsOnce(theirs.order, p.matched, p.db.transfers, r);
    if UnknownFinding(r) in visits {
      FindingsNameOurs(db, ours, theirs, UnknownFinding(r));
    }
    assert multiset(visits)[UnknownFinding(r)] == 0;
    assert r in theirs.order <==> r in ByReference(list) by { OrderCovers(list); }
    if r in ByReference(list) && r !in p.matched {
      forall u | u in ours ensures p.db.transfers[u].reference != Some(r) {
        MatchedOfOurs(db, ours, theirs, u);
        VerdictMatchesItsReference(u, db.transfers[u], SendIsDead(db.tasks, u), theirs);
      }
    }
  }

  lemma {:induction false} MatchedOfOurs(db: Db, ours: seq<Id>, theirs: Theirs, t: Id)
    requires InRange(db, ours) && t in ours
    ensures VerdictOn(db, t, theirs).matched <= MatchedOf(db, ours, theirs)
  {
    hide Examined;
    var n := |ours| - 1;
    if t != ours[n] {
      assert ours == ours[..n] + [ours[n]];
      MatchedOfOurs(db, ours[..n], theirs, t);
    }
  }

  lemma {:induction false} MatchedOfSome(db: Db, a: seq<Id>, b: seq<Id>, theirs: Theirs)
    requires InRange(db, a) && InRange(db, b) && forall t :: t in a ==> t in b
    ensures MatchedOf(db, a, theirs) <= MatchedOf(db, b, theirs)
  {
    hide Examined;
    if |a| > 0 {
      assert a[|a| - 1] in b;
      MatchedOfOurs(db, b, theirs, a[|a| - 1]);
      MatchedOfSome(db, a[..|a| - 1], b, theirs);
    }
  }

  lemma VerdictMatchesItsReference(t: Id, x: Transfer, dead: bool, theirs: Theirs)
    requires WellIndexed(theirs)
    ensures var v := Examined(t, x, dead, theirs);
            v.after.reference.Some? && v.after.reference.value in theirs.byReference
            ==> v.after.reference.value in v.matched
  {
  }

  // ---------------------------------------------------- what is reported is not touched

  predicate ForAPerson(kind: FindingKind) {
    kind.MissingAtProvider? || kind.AmountMismatch? || kind.StatusContradicted?
  }

  lemma {:induction false} PostsNameOurs(db: Db, ours: seq<Id>, theirs: Theirs, js: seq<Journal>, t: Id)
    requires InRange(db, ours) && Distinct(ours)
    ensures JournalsOf(js + PostsOf(db, ours, theirs), t) ==
            JournalsOf(js, t) + if t in ours then VerdictOn(db, t, theirs).posts else []
  {
    hide Examined, JournalsOf, Distinct;
    if |ours| == 0 {
      assert js + [] == js;
      assert JournalsOf(js, t) + [] == JournalsOf(js, t);
    } else {
      var n := |ours| - 1;
      var u, some := ours[n], ours[..n];
      var v := VerdictOn(db, u, theirs);
      LastIsNew(ours);
      PostsNameOurs(db, some, theirs, js, t);
      VerdictNames(u, db.transfers[u], SendIsDead(db.tasks, u), theirs);
      var before := js + PostsOf(db, some, theirs);
      assert js + PostsOf(db, ours, theirs) == before + v.posts;
      if |v.posts| == 1 {
        assert v.posts == [v.posts[0]];
        JournalsOfSnoc(before, v.posts[0], t);
      } else {
        assert before + [] == before;
      }
    }
  }

  /** Left as it was; or, where a recovery had just followed it, pointed at its payment and nothing more. */
  predicate LeftToAPerson(x: Transfer, after: Transfer) {
    || after == x
    || (x.status.Pending? && x.reference.None? && after == x.(status := Processing, reference := after.reference))
  }

  /** A transfer this pass leaves to a person keeps its row, up to a recovery that followed its payment,
      and no journal is posted for it. */
  lemma ReportedIsNotTouched(db: Db, ours: seq<Id>, list: seq<Payment>, f: Finding)
    requires InRange(db, ours) && Distinct(ours) && !Reconciled(db, ours, list).raised
    requires f in Reconciled(db, ours, list).findings && ForAPerson(f.kind) && f.transfer.Some?
    ensures JournalsOf(Reconciled(db, ours, list).db.journals, f.transfer.value) ==
            JournalsOf(db.journals, f.transfer.value)
    ensures var t, after := f.transfer.value, Reconciled(db, ours, list).db.transfers;
            t < |db.transfers| && t < |after| && LeftToAPerson(db.transfers[t], after[t])
  {
    hide Examined, Visited;
    var theirs, t := Index(list), f.transfer.value;
    var p := Reconciled(db, ours, list);
    PassIsPointwise(db, ours, theirs);
    UnknownsUnhealed(theirs.order, p.matched, p.db.transfers);
    assert f in FindingsOf(db, ours, theirs);
    FindingsNameOurs(db, ours, theirs, f);
    PostsNameOurs(db, ours, theirs, db.journals, t);
    ReportedPostsNothing(t, db.transfers[t], SendIsDead(db.tasks, t), theirs, f);
  }

  /** What their list must say for a pass to reverse a transfer: bounced, or no such payment. */
  predicate TheyWillNotPay(t: Id, reference: Option<Reference>, theirs: Theirs) {
    if reference.Some? then
      reference.value in theirs.byReference && theirs.byReference[reference.value].status.Bounced?
    else t !in theirs.byKey
  }

  lemma VerdictReverses(t: Id, x: Transfer, dead: bool, theirs: Theirs)
    requires WellIndexed(theirs)
    requires !x.status.Failed? && Examined(t, x, dead, theirs).after.status.Failed?
    ensures TheyWillNotPay(t, Examined(t, x, dead, theirs).after.reference, theirs)
  {
  }

  /** A pass reverses only what their list says they have not paid and will not pay. */
  lemma PassReversesOnlyTheUnpaid(db: Db, ours: seq<Id>, list: seq<Payment>, t: Id)
    requires InRange(db, ours) && Distinct(ours) && !Reconciled(db, ours, list).raised && t < |db.transfers|
    requires !db.transfers[t].status.Failed? && Reconciled(db, ours, list).db.transfers[t].status.Failed?
    ensures TheyWillNotPay(t, Reconciled(db, ours, list).db.transfers[t].reference, Index(list))
  {
    hide Examined, Visited;
    PassIsPointwise(db, ours, Index(list));
    VerdictReverses(t, db.transfers[t], SendIsDead(db.tasks, t), Index(list));
  }

  lemma ReportedPostsNothing(t: Id, x: Transfer, dead: bool, theirs: Theirs, f: Finding)
    requires f in Examined(t, x, dead, theirs).findings && ForAPerson(f.kind)
    ensures Examined(t, x, dead, theirs).posts == []
    ensures LeftToAPerson(x, Examined(t, x, dead, theirs).after)
  {
  }

  predicate MovedOn(x: Transfer, dead: bool, theirs: Theirs) {
    && (x.status.Pending? && x.reference.None? ==> !dead)
    && (x.status.Processing? && x.reference.Some? && x.reference.value in theirs.byReference ==>
          var payment := theirs.byReference[x.reference.value];
          payment.status.Accepted? || Mismatched(x, payment))
  }

  lemma VerdictMovesOn(t: Id, x: Transfer, dead: bool, theirs: Theirs)
    requires WellIndexed(theirs)
    ensures MovedOn(Examined(t, x, dead, theirs).after, dead, theirs)
  {
  }

  /** After a pass nothing in the window is stranded that the pass could have moved on. */
  lemma NothingStrandedAfterPass(db: Db, ours: seq<Id>, list: seq<Payment>, t: Id)
    requires InRange(db, ours) && Distinct(ours) && !Reconciled(db, ours, list).raised && t in ours
    ensures var after := Reconciled(db, ours, list).db;
            MovedOn(after.transfers[t], SendIsDead(after.tasks, t), Index(list))
  {
    hide Examined, Visited;
    PassIsPointwise(db, ours, Index(list));
    VerdictMovesOn(t, db.transfers[t], SendIsDead(db.tasks, t), Index(list));
  }

  // ------------------------------------------------------- what a pass must say and do

  /** The findings about one transfer, in order. */
  function About(fs: seq<Finding>, t: Id): seq<Finding> {
    if |fs| == 0 then []
    else
      var before, f := About(fs[..|fs| - 1], t), fs[|fs| - 1];
      if f.transfer == Some(t) then before + [f] else before
  }

  lemma {:induction false} AboutConcat(a: seq<Finding>, b: seq<Finding>, t: Id)
    ensures About(a + b, t) == About(a, t) + About(b, t)
    decreases |b|
  {
    if |b| == 0 {
      assert a + b == a;
    } else {
      var n := |b| - 1;
      AboutConcat(a, b[..n], t);
      assert (a + b)[..|a + b| - 1] == a + b[..n] && (a + b)[|a + b| - 1] == b[n];
    }
  }

  lemma {:induction false} AboutOne(fs: seq<Finding>, t: Id, u: Option<Id>)
    requires forall f :: f in fs ==> f.transfer == u
    ensures About(fs, t) == if u == Some(t) then fs else []
  {
    if |fs| > 0 {
      var n := |fs| - 1;
      AboutOne(fs[..n], t, u);
      assert fs == fs[..n] + [fs[n]];
    }
  }

  lemma {:induction false} AboutIs(fs: seq<Finding>, t: Id, f: Finding)
    ensures f in About(fs, t) <==> f in fs && f.transfer == Some(t)
  {
    if |fs| > 0 {
      var n := |fs| - 1;
      AboutIs(fs[..n], t, f);
      assert fs == fs[..n] + [fs[n]];
    }
  }

  lemma {:induction false} AboutVisits(db: Db, ours: seq<Id>, theirs: Theirs, t: Id)
    requires InRange(db, ours) && Distinct(ours)
    ensures About(FindingsOf(db, ours, theirs), t) == if t in ours then VerdictOn(db, t, theirs).findings else []
  {
    hide Examined, Distinct, SendIsDead;
    if |ours| > 0 {
      var n := |ours| - 1;
      var u := ours[n];
      LastIsNew(ours);
      AboutVisits(db, ours[..n], theirs, t);
      VerdictNames(u, db.transfers[u], SendIsDead(db.tasks, u), theirs);
      AboutOne(VerdictOn(db, u, theirs).findings, t, Some(u));
      AboutConcat(FindingsOf(db, ours[..n], theirs), VerdictOn(db, u, theirs).findings, t);
    }
  }

  lemma {:induction false} AboutUnknowns(order: seq<Reference>, matched: set<Reference>, ts: seq<Transfer>, t: Id)
    ensures About(Unknowns(order, matched, ts), t) == []
  {
    if |order| > 0 {
      var n := |order| - 1;
      var before := Unknowns(order[..n], matched, ts);
      AboutUnknowns(order[..n], matched, ts, t);
      assert (before + [UnknownFinding(order[n])])[..|before|] == before;
    }
  }

  /** What a pass from `before` to `after` has to show for one transfer, with these findings. */
  predicate Told(before: Db, ours: seq<Id>, list: seq<Payment>, t: Id, after: Db, findings: seq<Finding>)
    requires t < |before.transfers|
  {
    var was, now := JournalsOf(before.journals, t), JournalsOf(after.journals, t);
    && |after.transfers| == |before.transfers|
    && was <= now
    && if t in ours then
         TellsOf(t, before.transfers[t], DeadSend(before.tasks, t), Index(list), after.transfers[t],
                 About(findings, t), now[|was|..])
       else after.transfers[t] == before.transfers[t] && About(findings, t) == [] && now == was
  }

  /** For any transfers and any list: what a pass leaves of each transfer of the window, which journals it
      posts for it and which findings it makes about it, told from its row, its send and their records.
      Of a transfer outside the window it changes and says nothing. */
  lemma PassTellsOfEach(db: Db, ours: seq<Id>, list: seq<Payment>, t: Id)
    requires InRange(db, ours) && Distinct(ours) && !Reconciled(db, ours, list).raised && t < |db.transfers|
    ensures Told(db, ours, list, t, Reconciled(db, ours, list).db, Reconciled(db, ours, list).findings)
  {
    hide Examined, Visited, VisitedAll, Distinct, SendIsDead, DeadSend, TellsOf, JournalsOf;
    var theirs := Index(list);
    var p := Reconciled(db, ours, list);
    PassIsPointwise(db, ours, theirs);
    PostsNameOurs(db, ours, theirs, db.journals, t);
    AboutVisits(db, ours, theirs, t);
    AboutUnknowns(theirs.order, p.matched, p.db.transfers, t);
    AboutConcat(FindingsOf(db, ours, theirs), Unknowns(theirs.order, p.matched, p.db.transfers), t);
    DeadSendIsLiteral(db.tasks, t);
    if t in ours {
      var v := VerdictOn(db, t, theirs);
      VerdictIsAsAsked(t, db.transfers[t], DeadSend(db.tasks, t), theirs);
      assert v.findings + [] == v.findings;
      assert (JournalsOf(db.journals, t) + v.posts)[|JournalsOf(db.journals, t)|..] == v.posts;
    }
  }

  /** Their payment that a transfer is compared with: the one it refers to, or the one its abandoned send
      turns out to have made. */
  function ComparedWith(t: Id, x: Transfer, dead: bool, theirs: Theirs): Option<Payment> {
    if x.reference.Some? then
      if x.reference.value in theirs.byReference then Some(theirs.byReference[x.reference.value]) else None
    else if x.status == Pending && dead && t in theirs.byKey then Some(theirs.byKey[t])
    else None
  }

  predicate Has(fs: seq<Finding>, kind: FindingKind) {
    exists i :: 0 <= i < |fs| && fs[i].kind == kind
  }

  ghost predicate Says(p: Pass, t: Id, kind: FindingKind) {
    exists f :: f in p.findings && f.transfer == Some(t) && f.kind == kind
  }

  /** When findings about a transfer are called for, kind by kind. */
  ghost predicate CalledFor(x: Transfer, dead: bool, missing: bool, with: Option<Payment>, kind: FindingKind) {
    var agree := with.Some? && with.value.amount == x.amount && with.value.currency == x.currency;
    match kind
    case AmountMismatch => with.Some? && !agree
    case MissingAtProvider => missing
    case StatusBehind => agree && (x.status == Processing || x.reference == None) && with.value.status != Accepted
    case StatusContradicted =>
      && agree && x.reference.Some?
      && ((x.status == Succeeded && with.value.status == Bounced) || (x.status == Failed && with.value.status == Paid))
    case SendAbandoned => x.reference == None && x.status == Pending && dead
    case UnknownToUs => false
  }

  lemma HasFew(fs: seq<Finding>, kind: FindingKind)
    ensures |fs| == 0 ==> !Has(fs, kind)
    ensures |fs| > 0 ==> (Has(fs, kind) <==> fs[0].kind == kind || Has(fs[1..], kind))
  {
    if |fs| > 0 {
      if Has(fs, kind) && fs[0].kind != kind {
        var i :| 0 <= i < |fs| && fs[i].kind == kind;
        assert fs[1..][i - 1].kind == kind;
      }
      if Has(fs[1..], kind) {
        var i :| 0 <= i < |fs[1..]| && fs[1..][i].kind == kind;
        assert fs[i + 1].kind == kind;
      }
    }
  }

  lemma AgainstHas(t: Id, x: Transfer, p: Payment, y: Transfer, fs: seq<Finding>, posts: seq<Journal>, kind: FindingKind)
    requires AgainstPayment(t, x, p, y, fs, posts) && x.reference.Some?
    ensures Has(fs, kind) <==> CalledFor(x, false, false, Some(p), kind)
  {
    hide Has;
    HasFew(fs, kind);
    if |fs| > 0 {
      assert fs[1..] == [];
      HasFew(fs[1..], kind);
    }
  }

  lemma TellsHas(
    t: Id, x: Transfer, dead: bool, theirs: Theirs, y: Transfer, fs: seq<Finding>, posts: seq<Journal>, kind: FindingKind)
    requires TellsOf(t, x, dead, theirs, y, fs, posts)
    ensures var missing := x.reference.Some? && x.reference.value !in theirs.byReference;
            Has(fs, kind) <==> CalledFor(x, dead, missing, ComparedWith(t, x, dead, theirs), kind)
  {
    hide Has, AgainstPayment;
    HasFew(fs, kind);
    if |fs| > 0 {
      HasFew(fs[1..], kind);
    }
    if x.reference.Some? {
      if x.reference.value in theirs.byReference {
        AgainstHas(t, x, theirs.byReference[x.reference.value], y, fs, posts, kind);
      } else {
        assert fs[1..] == [];
      }
    } else if x.status == Pending && dead {
      if t in theirs.byKey {
        var p := theirs.byKey[t];
        var followed := Transfer(x.recipient, x.amount, x.currency, Processing, Some(p.reference), x.run, x.createdAt);
        AgainstHas(t, followed, p, y, fs[1..], posts, kind);
      } else {
        assert fs[1..] == [];
      }
    }
  }

  /** Each kind of finding about a transfer of the window is made exactly when its rows call for it. */
  lemma FindingsAreMadeIff(db: Db, ours: seq<Id>, list: seq<Payment>, t: Id, kind: FindingKind)
    requires InRange(db, ours) && Distinct(ours) && !Reconciled(db, ours, list).raised && t in ours
    ensures var p, theirs, x := Reconciled(db, ours, list), Index(list), db.transfers[t];
            var dead, missing := DeadSend(db.tasks, t), x.reference.Some? && x.reference.value !in theirs.byReference;
            Says(p, t, kind) <==> CalledFor(x, dead, missing, ComparedWith(t, x, dead, theirs), kind)
  {
    hide VisitedAll, Distinct, DeadSend, JournalsOf, Reconciled, Index, TellsOf, CalledFor;
    var p, x := Reconciled(db, ours, list), db.transfers[t];
    var fs := About(p.findings, t);
    var before, after := JournalsOf(db.journals, t), JournalsOf(p.db.journals, t);
    PassTellsOfEach(db, ours, list, t);
    TellsHas(t, x, DeadSend(db.tasks, t), Index(list), p.db.transfers[t], fs, after[|before|..], kind);
    forall f ensures f in fs <==> f in p.findings && f.transfer == Some(t) {
      AboutIs(p.findings, t, f);
    }
    if Has(fs, kind) {
      var i :| 0 <= i < |fs| && fs[i].kind == kind;
      assert fs[i] in fs;
    }
  }

  // ----------------------------------------------------------------- idempotence

  ghost predicate Settled(v: Verdict, w: Verdict) {
    && w.after == v.after
    && w.posts == []
    && w.findings == Unhealed(v.findings)
    && w.matched == v.matched
  }

  lemma CompareTwice(t: Id, x: Transfer, payment: Payment)
    ensures var v := CompareVerdict(t, x, payment); Settled(v, CompareVerdict(t, v.after, payment))
  {
    var v := CompareVerdict(t, x, payment);
    if |v.findings| == 1 {
      FewFindings(v.findings[0], v.findings[0]);
    }
  }

  lemma HealedFirst(f: Finding, fs: seq<Finding>)
    requires f.healed
    ensures Unhealed([f] + fs) == Unhealed(fs)
  {
    FewFindings(f, f);
    HealedConcat([f], fs);
  }

  // What the verdict is, branch by branch.

  lemma ExaminedListed(t: Id, x: Transfer, dead: bool, theirs: Theirs)
    requires x.reference.Some? && x.reference.value in theirs.byReference
    ensures Examined(t, x, dead, theirs) == CompareVerdict(t, x, theirs.byReference[x.reference.value])
  {
    hide CompareVerdict;
  }

  lemma ExaminedMissing(t: Id, x: Transfer, dead: bool, theirs: Theirs)
    requires x.reference.Some? && x.reference.value !in theirs.byReference
    ensures Examined(t, x, dead, theirs) ==
            Verdict(x, [Finding(MissingAtProvider, Some(t), x.reference, false)], [], {})
  {
    hide CompareVerdict;
  }

  lemma ExaminedFollowed(t: Id, x: Transfer, theirs: Theirs)
    requires x.reference.None? && x.status.Pending? && t in theirs.byKey
    ensures var payment := theirs.byKey[t];
            var r := Some(payment.reference);
            var v := CompareVerdict(t, x.(status := Processing, reference := r), payment);
            Examined(t, x, true, theirs) == v.(findings := [Finding(SendAbandoned, Some(t), r, true)] + v.findings)
  {
    hide CompareVerdict;
  }

  lemma ExaminedReversed(t: Id, x: Transfer, theirs: Theirs)
    requires x.reference.None? && x.status.Pending? && t !in theirs.byKey
    ensures Examined(t, x, true, theirs) ==
            Verdict(x.(status := Failed), [Finding(SendAbandoned, Some(t), None, true)], [ReversedJournal(t, x)], {})
  {
    hide CompareVerdict, ReversedJournal;
  }

  lemma ExaminedLeft(t: Id, x: Transfer, dead: bool, theirs: Theirs)
    requires x.reference.None? && !(x.status.Pending? && dead)
    ensures Examined(t, x, dead, theirs) ==
            Verdict(x, [], [], if t in theirs.byKey then {theirs.byKey[t].reference} else {})
  {
    hide CompareVerdict;
  }

  lemma ListedTwice(t: Id, x: Transfer, dead: bool, theirs: Theirs)
    requires x.reference.Some? && x.reference.value in theirs.byReference
    ensures var v := Examined(t, x, dead, theirs); Settled(v, Examined(t, v.after, dead, theirs))
  {
    hide Examined, CompareVerdict;
    var payment := theirs.byReference[x.reference.value];
    CompareKeepsReference(t, x, payment);
    ExaminedListed(t, x, dead, theirs);
    ExaminedListed(t, CompareVerdict(t, x, payment).after, dead, theirs);
    CompareTwice(t, x, payment);
  }

  lemma MissingTwice(t: Id, x: Transfer, dead: bool, theirs: Theirs)
    requires x.reference.Some? && x.reference.value !in theirs.byReference
    ensures var v := Examined(t, x, dead, theirs); Settled(v, Examined(t, v.after, dead, theirs))
  {
    hide Examined;
    ExaminedMissing(t, x, dead, theirs);
    var f := Finding(MissingAtProvider, Some(t), x.reference, false);
    FewFindings(f, f);
  }

  lemma FollowedTwice(t: Id, x: Transfer, theirs: Theirs)
    requires WellIndexed(theirs) && x.reference.None? && x.status.Pending? && t in theirs.byKey
    ensures var v := Examined(t, x, true, theirs); Settled(v, Examined(t, v.after, true, theirs))
  {
    hide Examined, CompareVerdict;
    var payment := theirs.byKey[t];
    var r := Some(payment.reference);
    var y := x.(status := Processing, reference := r);
    CompareKeepsReference(t, y, payment);
    ExaminedFollowed(t, x, theirs);
    ExaminedListed(t, CompareVerdict(t, y, payment).after, true, theirs);
    CompareTwice(t, y, payment);
    HealedFirst(Finding(SendAbandoned, Some(t), r, true), CompareVerdict(t, y, payment).findings);
  }

  lemma ReversedTwice(t: Id, x: Transfer, theirs: Theirs)
    requires x.reference.None? && x.status.Pending? && t !in theirs.byKey
    ensures var v := Examined(t, x, true, theirs); Settled(v, Examined(t, v.after, true, theirs))
  {
    hide Examined, ReversedJournal;
    ExaminedReversed(t, x, theirs);
    ExaminedLeft(t, x.(status := Failed), true, theirs);
    var f := Finding(SendAbandoned, Some(t), None, true);
    FewFindings(f, f);
  }

  /** A verdict on what a verdict left: nothing healed, nothing moved, the same complaints. */
  lemma VerdictTwice(t: Id, x: Transfer, dead: bool, theirs: Theirs)
    requires WellIndexed(theirs)
    ensures var v := Examined(t, x, dead, theirs); Settled(v, Examined(t, v.after, dead, theirs))
  {
    hide Examined, Settled, WellIndexed;
    if x.reference.Some? {
      if x.reference.value in theirs.byReference {
        ListedTwice(t, x, dead, theirs);
      } else {
        MissingTwice(t, x, dead, theirs);
      }
    } else if !x.status.Pending? || !dead {
      LeftTwice(t, x, dead, theirs);
    } else if t in theirs.byKey {
      FollowedTwice(t, x, theirs);
    } else {
      ReversedTwice(t, x, theirs);
    }
  }

  lemma LeftTwice(t: Id, x: Transfer, dead: bool, theirs: Theirs)
    requires x.reference.None? && !(x.status.Pending? && dead)
    ensures var v := Examined(t, x, dead, theirs); Settled(v, Examined(t, v.after, dead, theirs))
  {
    hide Examined;
    ExaminedLeft(t, x, dead, theirs);
  }

  lemma CompareKeepsReference(t: Id, x: Transfer, payment: Payment)
    ensures CompareVerdict(t, x, payment).after.reference == x.reference
  {
  }

  lemma {:induction false} FindingsConcat(db: Db, a: seq<Id>, b: seq<Id>, theirs: Theirs)
    requires InRange(db, a) && InRange(db, b)
    ensures InRange(db, a + b)
    ensures FindingsOf(db, a + b, theirs) == FindingsOf(db, a, theirs) + FindingsOf(db, b, theirs)
  {
    hide Examined;
    if |b| == 0 {
      assert a + b == a;
    } else {
      FindingsConcat(db, a, b[..|b| - 1], theirs);
      assert (a + b)[..|a + b| - 1] == a + b[..|b| - 1];
    }
  }

  lemma WithoutOne(a: multiset<Id>, b: multiset<Id>, t: Id)
    requires a + multiset{t} == b + multiset{t}
    ensures a == b
  {
    assert a == a + multiset{t} - multiset{t};
    assert b == b + multiset{t} - multiset{t};
  }

  lemma FindingsWithout(db: Db, l: seq<Id>, t: Id, r: seq<Id>, theirs: Theirs)
    requires InRange(db, l) && InRange(db, r) && t < |db.transfers|
    ensures multiset(FindingsOf(db, l + [t] + r, theirs)) ==
            multiset(FindingsOf(db, l + r, theirs)) + multiset(VerdictOn(db, t, theirs).findings)
  {
    hide VerdictOn;
    FindingsConcat(db, l, r, theirs);
    FindingsConcat(db, l, [t], theirs);
    FindingsConcat(db, l + [t], r, theirs);
    assert [t][..0] == [];
    assert FindingsOf(db, [t], theirs) == VerdictOn(db, t, theirs).findings;
  }

  lemma TakeOut(b: seq<Id>, t: Id) returns (l: seq<Id>, r: seq<Id>)
    requires t in multiset(b)
    ensures b == l + [t] + r
    ensures multiset(b) == multiset(l + r) + multiset{t}
  {
    var i :| 0 <= i < |b| && b[i] == t;
    l, r := b[..i], b[i + 1..];
    assert b == l + [t] + r;
  }

  lemma SameMembers(a: seq<Id>, b: seq<Id>)
    requires multiset(a) == multiset(b)
    ensures |a| == |b| && forall t :: t in a <==> t in b
  {
    assert |a| == |multiset(a)| && |b| == |multiset(b)|;
    assert forall t :: t in a <==> t in multiset(a);
    assert forall t :: t in b <==> t in multiset(b);
  }

  /** The order the query happened to return does not matter to what is found. */
  lemma {:induction false} FindingsInAnyOrder(db: Db, a: seq<Id>, b: seq<Id>, theirs: Theirs)
    requires InRange(db, a) && InRange(db, b) && multiset(a) == multiset(b)
    ensures multiset(FindingsOf(db, a, theirs)) == multiset(FindingsOf(db, b, theirs))
    decreases |a|
  {
    hide VerdictOn;
    SameMembers(a, b);
    if |a| > 0 {
      var n := |a| - 1;
      var t := a[n];
      assert a == a[..n] + [t];
      var l, r := TakeOut(b, t);
      assert InRange(db, l) by { assert forall i :: 0 <= i < |l| ==> l[i] == b[i]; }
      assert InRange(db, r) by { assert forall i :: 0 <= i < |r| ==> r[i] == b[|l| + 1 + i]; }
      WithoutOne(multiset(a[..n]), multiset(l + r), t);
      FindingsInAnyOrder(db, a[..n], l + r, theirs);
      FindingsWithout(db, l, t, r, theirs);
    }
  }

  lemma {:induction false} SecondPassVisits(db: Db, ours: seq<Id>, first: Db, theirs: Theirs)
    requires InRange(db, ours) && InRange(first, ours) && WellIndexed(theirs)
    requires first.tasks == db.tasks
    requires forall i :: 0 <= i < |ours| ==>
               first.transfers[ours[i]] == VerdictOn(db, ours[i], theirs).after
    ensures FindingsOf(first, ours, theirs) == Unhealed(FindingsOf(db, ours, theirs))
    ensures PostsOf(first, ours, theirs) == []
    ensures MatchedOf(first, ours, theirs) == MatchedOf(db, ours, theirs)
  {
    hide Examined;
    if |ours| > 0 {
      var n := |ours| - 1;
      SecondPassVisits(db, ours[..n], first, theirs);
      VerdictTwice(ours[n], db.transfers[ours[n]], SendIsDead(db.tasks, ours[n]), theirs);
      HealedConcat(FindingsOf(db, ours[..n], theirs), VerdictOn(db, ours[n], theirs).findings);
    }
  }

  lemma SecondPassIsPointwise(db: Db, ours: seq<Id>, again: seq<Id>, theirs: Theirs, first: Pass)
    requires InRange(db, ours) && WellIndexed(theirs) && Pointwise(db, ours, theirs, first)
    requires Distinct(again) && multiset(again) == multiset(ours)
    ensures InRange(first.db, again)
    ensures var second := VisitedAll(first.db, again, theirs);
            && !second.raised
            && second.db == first.db
            && second.findings == FindingsOf(first.db, again, theirs)
            && second.healed == HealedIn(second.findings)
            && second.matched == first.matched
    ensures FindingsOf(first.db, ours, theirs) == Unhealed(first.findings)
  {
    hide Examined, Visited, SendIsDead, HealedIn, Unhealed;
    SameMembers(ours, again);
    forall i | 0 <= i < |again| ensures again[i] < |first.db.transfers| {
      assert again[i] in ours;
    }
    assert InRange(db, again);
    forall u | 0 <= u < |first.db.transfers| && u in again
      ensures VerdictOn(first.db, u, theirs).after == first.db.transfers[u]
      ensures !Collides(first.db, u, theirs)
    {
      VerdictTwice(u, db.transfers[u], SendIsDead(db.tasks, u), theirs);
      VerdictMovesOn(u, db.transfers[u], SendIsDead(db.tasks, u), theirs);
    }
    PassIsPointwise(first.db, again, theirs);
    SecondPassVisits(db, again, first.db, theirs);
    SecondPassVisits(db, ours, first.db, theirs);
    MatchedOfSome(db, ours, again, theirs);
    MatchedOfSome(db, again, ours, theirs);
    assert first.db.journals + [] == first.db.journals;
    assert VisitedAll(first.db, again, theirs).db.transfers == first.db.transfers;
  }

  /** A second pass over the same list changes nothing at all, in whatever order it takes the
      transfers, and reports exactly what the first one left for a person. */
  lemma PassIsIdempotent(db: Db, ours: seq<Id>, again: seq<Id>, list: seq<Payment>)
    requires InRange(db, ours) && Distinct(ours) && Distinct(again) && multiset(again) == multiset(ours)
    requires !Reconciled(db, ours, list).raised
    ensures var first := Reconciled(db, ours, list);
            && InRange(first.db, again)
            && var second := Reconciled(first.db, again, list);
            && !second.raised
            && second.healed == 0
            && second.db == first.db
            && multiset(second.findings) == multiset(Unhealed(first.findings))
  {
    hide Examined, Visited, Distinct, SendIsDead, VisitedAll;
    var theirs := Index(list);
    var visits := VisitedAll(db, ours, theirs);
    PassIsPointwise(db, ours, theirs);
    SecondPassIsPointwise(db, ours, again, theirs, visits);
    var unknown := Unknowns(theirs.order, visits.matched, visits.db.transfers);
    UnknownsUnhealed(theirs.order, visits.matched, visits.db.transfers);
    HealedConcat(visits.findings, unknown);
    FindingsInAnyOrder(visits.db, ours, again, theirs);
    UnhealedHasNoHealed(visits.findings);
    HealedOfMultiset(FindingsOf(visits.db, again, theirs), Unhealed(visits.findings));
  }

  lemma {:induction false} NoneHealed(fs: seq<Finding>)
    ensures HealedIn(fs) == 0 <==> forall f :: f in fs ==> !f.healed
  {
    if |fs| > 0 {
      NoneHealed(fs[..|fs| - 1]);
      assert fs == fs[..|fs| - 1] + [fs[|fs| - 1]];
    }
  }

  lemma HealedOfMultiset(a: seq<Finding>, b: seq<Finding>)
    requires multiset(a) == multiset(b) && HealedIn(b) == 0
    ensures HealedIn(a) == 0
  {
    NoneHealed(a);
    NoneHealed(b);
    forall f | f in a ensures !f.healed {
      assert f in multiset(b);
    }
  }

  lemma {:induction false} UnhealedHasNoHealed(fs: seq<Finding>)
    ensures HealedIn(Unhealed(fs)) == 0
  {
    if |fs| > 0 {
      UnhealedHasNoHealed(fs[..|fs| - 1]);
      FewFindings(fs[|fs| - 1], fs[|fs| - 1]);
      HealedConcat(Unhealed(fs[..|fs| - 1]), [fs[|fs| - 1]]);
    }
  }
}
