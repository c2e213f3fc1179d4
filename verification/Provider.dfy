/** The payment provider (provider/mock.py): a state machine of its own. */
module Provider {
  import opened Records

  /** Their dedupe: the payment already made for this key, if any. */
  ghost predicate Holds(payments: map<Reference, Payment>, key: Id) {
    exists r :: r in payments && payments[r].key == key
  }

  /** What a send leaves behind: nothing new for a repeated key, else one fresh pending payment. */
  ghost predicate Sends(
    before: map<Reference, Payment>, after: map<Reference, Payment>, view: Payment,
    key: Id, msisdn: Msisdn, amount: Amount, currency: Currency, now: Time)
  {
    && view.reference in after && after[view.reference] == view && view.key == key
    && if Holds(before, key) then after == before
       else
         && view.reference !in before
         && view == Payment(view.reference, key, msisdn, amount, currency, Accepted, now)
         && after == before[view.reference := view]
  }

  function Advanced(p: Payment, cutoff: int, bounce: bool): Payment {
    if p.status.Accepted? && p.createdAt <= cutoff then p.(status := if bounce then Bounced else Paid) else p
  }

  function AllAdvanced(payments: map<Reference, Payment>, cutoff: int, bounce: bool): map<Reference, Payment> {
    map r | r in payments :: Advanced(payments[r], cutoff, bounce)
  }

  /** The listing of a window: each payment made since then, once. */
  ghost predicate IsListing(list: seq<Payment>, payments: map<Reference, Payment>, since: Time) {
    && (forall p :: p in list <==> p.reference in payments && payments[p.reference] == p && p.createdAt >= since)
    && (forall i, j :: 0 <= i < j < |list| ==> list[i].reference != list[j].reference)
  }

  /** References and keys both identify a payment, and the next reference is unused. */
  ghost predicate WellKept(payments: map<Reference, Payment>, next: Reference) {
    && (forall r :: r in payments ==> r < next && payments[r].reference == r)
    && KeysUnique(payments)
  }

  ghost predicate KeysUnique(payments: map<Reference, Payment>) {
    forall r, q :: r in payments && q in payments && payments[r].key == payments[q].key ==> r == q
  }

  /** Every pending payment made that long ago is paid, or bounced when told to fail; no other changes. */
  ghost predicate SettlesInTime(
    before: map<Reference, Payment>, now: Time, wait: nat, fail: bool, after: map<Reference, Payment>)
  {
    && after.Keys == before.Keys
    && forall r :: r in before ==>
         var p := before[r];
         && after[r].status == (
              if p.status == Accepted && now >= p.createdAt + wait then (if fail then Bounced else Paid) else p.status)
         && after[r] == p.(status := after[r].status)
  }

  lemma AdvancedIsInTime(payments: map<Reference, Payment>, now: Time, wait: nat, fail: bool)
    ensures SettlesInTime(payments, now, wait, fail, AllAdvanced(payments, now - wait, fail))
  {
  }

  lemma AdvancedIsWellKept(payments: map<Reference, Payment>, next: Reference, cutoff: int, bounce: bool)
    requires WellKept(payments, next)
    ensures WellKept(AllAdvanced(payments, cutoff, bounce), next)
  {
    var after := AllAdvanced(payments, cutoff, bounce);
    forall r | r in after ensures after[r].key == payments[r].key && after[r].reference == payments[r].reference {
    }
  }

  lemma AllAdvancedIs(before: map<Reference, Payment>, after: map<Reference, Payment>, cutoff: int, bounce: bool)
    requires after.Keys == before.Keys
    requires forall r :: r in before ==> after[r] == Advanced(before[r], cutoff, bounce)
    ensures after == AllAdvanced(before, cutoff, bounce)
  {
  }

  datatype SendError = SendError(retryable: bool)

  predicate Listed(list: seq<Payment>, payments: map<Reference, Payment>, rest: set<Reference>, since: Time) {
    && (forall i :: 0 <= i < |list| ==>
          && list[i].reference in payments && list[i].reference !in rest
          && payments[list[i].reference] == list[i] && list[i].createdAt >= since)
    && (forall i, j :: 0 <= i < j < |list| ==> list[i].reference != list[j].reference)
    && (forall r :: r in payments && r !in rest && payments[r].createdAt >= since ==> payments[r] in list)
  }

  lemma ListOne(list: seq<Payment>, payments: map<Reference, Payment>, rest: set<Reference>, since: Time, q: Reference)
    requires Listed(list, payments, rest, since) && q in rest && q in payments && payments[q].reference == q
    ensures Listed(if payments[q].createdAt >= since then list + [payments[q]] else list, payments, rest - {q}, since)
  {
  }

  /** `order by created_at` */
  predicate Ordered(list: seq<Payment>) {
    forall i, j :: 0 <= i < j < |list| ==> list[i].createdAt <= list[j].createdAt
  }

  predicate NoneOlder(list: seq<Payment>, payments: map<Reference, Payment>, rest: set<Reference>) {
    forall i, r :: 0 <= i < |list| && r in rest && r in payments ==> list[i].createdAt <= payments[r].createdAt
  }

  method Oldest(payments: map<Reference, Payment>, rest: set<Reference>) returns (q: Reference)
    requires rest <= payments.Keys && rest != {}
    ensures q in rest && forall r :: r in rest ==> payments[q].createdAt <= payments[r].createdAt
  {
    q :| q in rest;
    var others := rest - {q};
    while others != {}
      invariant others <= rest && q in rest
      invariant forall r :: r in rest && r !in others ==> payments[q].createdAt <= payments[r].createdAt
      decreases |others|
    {
      var r :| r in others;
      if payments[r].createdAt < payments[q].createdAt {
        q := r;
      }
      others := others - {r};
    }
  }

  lemma OldestNext(list: seq<Payment>, payments: map<Reference, Payment>, rest: set<Reference>, q: Reference)
    requires Ordered(list) && NoneOlder(list, payments, rest) && q in rest && q in payments
    requires forall r :: r in rest && r in payments ==> payments[q].createdAt <= payments[r].createdAt
    ensures Ordered(list + [payments[q]]) && NoneOlder(list + [payments[q]], payments, rest - {q})
    ensures NoneOlder(list, payments, rest - {q})
  {
  }

  /** The rows of `list_payments`, once time has been let pass. */
  method Since(payments: map<Reference, Payment>, since: Time) returns (list: seq<Payment>)
    requires forall r :: r in payments ==> payments[r].reference == r
    ensures IsListing(list, payments, since) && Ordered(list)
  {
    hide Listed, Ordered, NoneOlder;
    list := [];
    var rest := payments.Keys;
    assert Listed([], payments, rest, since) && Ordered([]) && NoneOlder([], payments, rest) by {
      ListNone(payments, since);
    }
    while rest != {}
      invariant rest <= payments.Keys && Listed(list, payments, rest, since)
      invariant Ordered(list) && NoneOlder(list, payments, rest)
      decreases |rest|
    {
      var q := Oldest(payments, rest);
      ListOne(list, payments, rest, since, q);
      OldestNext(list, payments, rest, q);
      if payments[q].createdAt >= since {
        list := list + [payments[q]];
      }
      rest := rest - {q};
    }
    ListAll(list, payments, since);
  }

  lemma ListNone(payments: map<Reference, Payment>, since: Time)
    ensures Listed([], payments, payments.Keys, since) && Ordered([]) && NoneOlder([], payments, payments.Keys)
  {
  }

  lemma ListAll(list: seq<Payment>, payments: map<Reference, Payment>, since: Time)
    requires Listed(list, payments, {}, since) && forall r :: r in payments ==> payments[r].reference == r
    ensures IsListing(list, payments, since)
  {
  }

  /** The pending payments old enough to settle, those in `rest` aside. */
  function Settling(payments: map<Reference, Payment>, rest: set<Reference>, cutoff: int): set<Reference> {
    set r | r in payments && r !in rest && payments[r].status.Accepted? && payments[r].createdAt <= cutoff
  }

  lemma OneMoreSettling(payments: map<Reference, Payment>, rest: set<Reference>, q: Reference, cutoff: int)
    requires q in rest && q in payments
    ensures |Settling(payments, rest - {q}, cutoff)| ==
            |Settling(payments, rest, cutoff)| +
            if payments[q].status.Accepted? && payments[q].createdAt <= cutoff then 1 else 0
  {
    var before := Settling(payments, rest, cutoff);
    assert Settling(payments, rest - {q}, cutoff) ==
           if payments[q].status.Accepted? && payments[q].createdAt <= cutoff then before + {q} else before;
  }

  class MockProvider {
    var payments: map<Reference, Payment>
    var nextReference: Reference
    var rejectAll: bool
    var unreachable: bool
    var failSettlement: bool
    var settleAfterSeconds: nat

    ghost predicate Valid()
      reads this
    {
      WellKept(payments, nextReference)
    }

    constructor ()
      ensures Valid() && payments == map[]
    {
      payments, nextReference := map[], 0;
      rejectAll, unreachable, failSettlement, settleAfterSeconds := false, false, false, 5;
    }

    method SendPayment(key: Id, msisdn: Msisdn, amount: Amount, currency: Currency, now: Time)
      returns (r: Result<Payment, SendError>)
      requires Valid()
      modifies `payments, `nextReference
      ensures Valid()
      ensures r.Ok? <==> !rejectAll && !unreachable
      ensures r.Ok? ==> Sends(old(payments), payments, r.value, key, msisdn, amount, currency, now)
      ensures r.Err? ==> payments == old(payments) && (r.error.retryable <==> !rejectAll)
    {
      if rejectAll {
        return Err(SendError(false));
      }
      if unreachable {
        return Err(SendError(true));
      }
      var rest := payments.Keys;
      while rest != {}
        invariant rest <= payments.Keys
        invariant forall q :: q in payments && q !in rest ==> payments[q].key != key
        modifies {}
        decreases |rest|
      {
        var q :| q in rest;
        if payments[q].key == key {
          return Ok(payments[q]);
        }
        rest := rest - {q};
      }
      var view := Payment(nextReference, key, msisdn, amount, currency, Accepted, now);
      payments := payments[nextReference := view];
      nextReference := nextReference + 1;
      return Ok(view);
    }

    /** Settles every pending payment old enough, and says how many moved. */
    method AdvancePending(now: Time) returns (moved: nat)
      requires Valid()
      modifies `payments
      ensures Valid()
      ensures payments == AllAdvanced(old(payments), now - settleAfterSeconds, failSettlement)
      ensures SettlesInTime(old(payments), now, settleAfterSeconds, failSettlement, payments)
      ensures moved == |Settling(old(payments), {}, now - settleAfterSeconds)|
    {
      hide WellKept, AllAdvanced, SettlesInTime;
      moved := 0;
      var cutoff := now - settleAfterSeconds;
      var settled, rest := payments, payments.Keys;
      assert Settling(payments, rest, cutoff) == {};
      while rest != {}
        invariant rest <= payments.Keys == settled.Keys
        invariant forall q :: q in settled ==>
                    settled[q] == if q in rest then payments[q] else Advanced(payments[q], cutoff, failSettlement)
        invariant moved == |Settling(payments, rest, cutoff)|
        modifies {}
        decreases |rest|
      {
        var q :| q in rest;
        OneMoreSettling(payments, rest, q, cutoff);
        if settled[q].status == Accepted && settled[q].createdAt <= cutoff {
          var status := Paid;
          if failSettlement {
            status := Bounced;
          }
          settled := settled[q := settled[q].(status := status)];
          moved := moved + 1;
        }
        rest := rest - {q};
      }
      AdvancedIsWellKept(payments, nextReference, cutoff, failSettlement);
      AdvancedIsInTime(payments, now, settleAfterSeconds, failSettlement);
      AllAdvancedIs(payments, settled, cutoff, failSettlement);
      payments := settled;
    }

    method GetPayment(reference: Reference, now: Time) returns (r: Option<Payment>)
      requires Valid()
      modifies `payments
      ensures Valid()
      ensures payments == AllAdvanced(old(payments), now - settleAfterSeconds, failSettlement)
      ensures SettlesInTime(old(payments), now, settleAfterSeconds, failSettlement, payments)
      ensures r == if reference in payments then Some(payments[reference]) else None
    {
      var _ := AdvancePending(now);
      if reference in payments {
        return Some(payments[reference]);
      }
      return None;
    }

    method ListPayments(since: Time, now: Time) returns (list: seq<Payment>)
      requires Valid()
      modifies `payments
      ensures Valid()
      ensures payments == AllAdvanced(old(payments), now - settleAfterSeconds, failSettlement)
      ensures SettlesInTime(old(payments), now, settleAfterSeconds, failSettlement, payments)
      ensures IsListing(list, payments, since) && Ordered(list)
    {
      var _ := AdvancePending(now);
      list := Since(payments, since);
    }
  }
}
