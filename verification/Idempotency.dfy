/** Making a repeated request one request (idempotency_service.py and the two create routes). */
module Idempotency {
  import opened Records
  import opened Database
  import opened TransferService
  import opened RunService
  import opened Protocol
  import opened Invariance
  import opened RunSummaries

  /** A body is only ever posted to the endpoint whose shape it has. */
  datatype Request = Request(key: Id, body: Body)

  function EndpointOf(body: Body): Endpoint {
    if body.TransferIn? then PostTransfers else PostRuns
  }

  datatype ClaimAnswer = Proceed | Replay(response: Response) | InFlight | KeyConflict

  datatype Answer =
    | Created(response: Response)
    | Replayed(response: Response)
    | Refused(error: RunError)
    | Conflict
    | RetryShortly

  /** `claim`, against the rows this transaction can see. */
  function ClaimAnswered(keys: map<Id, KeyRow>, r: Request): ClaimAnswer {
    if r.key !in keys then Proceed
    else if keys[r.key].endpoint != EndpointOf(r.body) || keys[r.key].body != r.body then KeyConflict
    else if keys[r.key].response.None? then InFlight
    else Replay(keys[r.key].response.value)
  }

  /** The work a key guards, and what it answers. */
  function Worked(db: Db, body: Body): Result<(Db, Response), RunError> {
    match body
    case TransferIn(recipient, amount, currency) => (
      match Initiated(db, recipient, amount, currency, None)
      case Err(e) => Err(OfTransfer(e))
      case Ok(after) => Ok((after, TransferOut(|db.transfers|, after.transfers[|db.transfers|]))))
    case RunIn(items, currency) => (
      match RunInitiated(db, items, currency)
      case Err(e) => Err(e)
      case Ok(after) => Ok((after, RunOut(db.runs, |items|, Total(items)))))
  }

  function Stored(db: Db, r: Request, response: Option<Response>): Db {
    db.(keys := db.keys[r.key := KeyRow(EndpointOf(r.body), r.body, response)])
  }

  /** Work and response in one transaction, or nothing. */
  function Completed(db: Db, r: Request): (Db, Answer) {
    match Worked(Stored(db, r, None), r.body)
    case Err(e) => (db, Refused(e))
    case Ok((after, response)) => (Stored(after, r, Some(response)), Created(response))
  }

  /** `create`, from the claim to the commit or the rollback. */
  function Handled(db: Db, r: Request): (Db, Answer) {
    match ClaimAnswered(db.keys, r)
    case Replay(response) => (db, Replayed(response))
    case InFlight => (db, RetryShortly)
    case KeyConflict => (db, Conflict)
    case Proceed => Completed(db, r)
  }

  // ------------------------------------------- told from the request and the rows alone

  /** A new key goes on; a known one is answered from its row, which another request cannot have. */
  predicate ClaimsKeyAs(keys: map<Id, KeyRow>, r: Request, answer: ClaimAnswer) {
    if r.key !in keys then answer == Proceed
    else
      var row := keys[r.key];
      if row.body != r.body || row.endpoint != (if r.body.TransferIn? then PostTransfers else PostRuns) then answer == KeyConflict
      else if row.response == None then answer == InFlight
      else answer == Replay(row.response.value)
  }

  /** The rows the request asked for, made now; the answer that shows them; and both under the key. */
  predicate CreatesAs(before: Db, r: Request, after: Db, response: Response) {
    && r.key !in before.keys
    && after.keys == before.keys[r.key := KeyRow(
         if r.body.TransferIn? then PostTransfers else PostRuns, r.body, Some(response))]
    && match r.body
       case TransferIn(recipient, amount, currency) =>
         && AuthorizesAs(before, recipient, amount, currency, None, |before.transfers|, after.(keys := before.keys))
         && response == TransferOut(|before.transfers|, after.transfers[|before.transfers|])
         && response.row == Transfer(recipient, amount, currency, Pending, None, None, before.now)
       case RunIn(items, currency) =>
         && AuthorizesRunAs(before, items, currency, before.runs, after.(keys := before.keys))
         && response == RunOut(before.runs, |items|, Total(items))
  }

  /** The rule the request broke. */
  ghost predicate RefusesCreationFor(db: Db, body: Body, error: RunError) {
    match body
    case TransferIn(recipient, amount, currency) =>
      error.OfTransfer? && RefusesFor(db, recipient, amount, currency, Some(error.error))
    case RunIn(items, currency) => RefusesRunFor(db, items, currency, error)
  }

  /** What one request leaves and is told, whether its key is new or known. */
  ghost predicate AnswersAs(before: Db, r: Request, after: Db, answer: Answer) {
    match answer
    case Created(response) => CreatesAs(before, r, after, response)
    case Refused(error) => r.key !in before.keys && after == before && RefusesCreationFor(before, r.body, error)
    case Replayed(response) => after == before && ClaimsKeyAs(before.keys, r, Replay(response))
    case Conflict => after == before && ClaimsKeyAs(before.keys, r, KeyConflict)
    case RetryShortly => after == before && ClaimsKeyAs(before.keys, r, InFlight)
  }

  lemma KeyDoesNotMatter(db: Db, r: Request, error: RunError)
    requires RefusesCreationFor(Stored(db, r, None), r.body, error)
    ensures RefusesCreationFor(db, r.body, error)
  {
    hide Total;
    if r.body.RunIn? {
      var items, c := r.body.items, r.body.currency;
      var begun := Stored(db, r, None);
      forall i | 0 <= i < |items|
        ensures ItemFine(db, items, c, i) <==> ItemFine(begun, items, c, i)
        ensures BrokenRule(db, items, c, i) == BrokenRule(begun, items, c, i)
      {
      }
      forall i | FirstNotFine(begun, items, c, i) ensures FirstNotFine(db, items, c, i) {
      }
    }
  }

  lemma KeyIsReplaced(db: Db, r: Request, after: Db, response: Response)
    requires after.keys == Stored(db, r, None).keys
    ensures Stored(after, r, Some(response)).keys == db.keys[r.key := KeyRow(EndpointOf(r.body), r.body, Some(response))]
  {
  }

  lemma RunAuthorizedAnyway(db: Db, begun: Db, items: seq<Item>, currency: Currency, after: Db)
    requires begun == db.(keys := begun.keys) && AuthorizesRunAs(begun, items, currency, db.runs, after)
    ensures AuthorizesRunAs(db, items, currency, db.runs, after.(keys := db.keys))
    ensures after.keys == begun.keys
  {
    var after' := after.(keys := db.keys);
    forall i | 0 <= i < |items|
      ensures items[i].amount > 0
      ensures after'.transfers[|db.transfers| + i] ==
              Transfer(items[i].recipient, items[i].amount, currency, Pending, None, Some(db.runs), db.now)
    {
    }
  }

  lemma TransferWorkedIsAsAsked(db: Db, r: Request)
    requires r.key !in db.keys && r.body.TransferIn?
    ensures match Worked(Stored(db, r, None), r.body)
            case Err(e) => RefusesCreationFor(db, r.body, e)
            case Ok((after, response)) => CreatesAs(db, r, Stored(after, r, Some(response)), response)
  {
    hide Initiated, RefusesFor;
    var begun, b := Stored(db, r, None), r.body;
    InitiatedIsAsAsked(begun, b.recipient, b.amount, b.currency, None);
    match Initiated(begun, b.recipient, b.amount, b.currency, None)
    case Err(e) => KeyDoesNotMatter(db, r, OfTransfer(e));
    case Ok(after) => KeyIsReplaced(db, r, after, TransferOut(|db.transfers|, after.transfers[|db.transfers|]));
  }

  lemma RunWorkedIsAsAsked(db: Db, r: Request)
    requires r.key !in db.keys && r.body.RunIn?
    ensures match Worked(Stored(db, r, None), r.body)
            case Err(e) => RefusesCreationFor(db, r.body, e)
            case Ok((after, response)) => CreatesAs(db, r, Stored(after, r, Some(response)), response)
  {
    hide RunInitiated, RefusesRunFor, AuthorizesRunAs, Total;
    var begun, items, c := Stored(db, r, None), r.body.items, r.body.currency;
    RunRefusals(begun, items, c);
    RunAuthorizes(begun, items, c);
    match RunInitiated(begun, items, c)
    case Err(e) => KeyDoesNotMatter(db, r, e);
    case Ok(after) =>
      RunAuthorizedAnyway(db, begun, items, c, after);
      KeyIsReplaced(db, r, after, RunOut(db.runs, |items|, Total(items)));
  }

  lemma CompletedIsAsAsked(db: Db, r: Request)
    requires r.key !in db.keys
    ensures AnswersAs(db, r, Completed(db, r).0, Completed(db, r).1)
  {
    hide Worked, CreatesAs, RefusesCreationFor;
    if r.body.TransferIn? {
      TransferWorkedIsAsAsked(db, r);
    } else {
      RunWorkedIsAsAsked(db, r);
    }
  }

  lemma HandledIsAsAsked(db: Db, r: Request)
    ensures AnswersAs(db, r, Handled(db, r).0, Handled(db, r).1)
  {
    hide Completed, CreatesAs, RefusesCreationFor;
    if r.key !in db.keys {
      CompletedIsAsAsked(db, r);
    }
  }

  method ClaimKey(session: Session, r: Request) returns (answer: ClaimAnswer)
    modifies session
    ensures answer == ClaimAnswered(old(session.keys), r)
    ensures ClaimsKeyAs(old(session.keys), r, answer)
    ensures session.Work() == if answer.Proceed? then Stored(old(session.Work()), r, None) else old(session.Work())
    ensures session.committed == old(session.committed)
  {
    if r.key !in session.keys {
      session.keys := session.keys[r.key := KeyRow(EndpointOf(r.body), r.body, None)];
      return Proceed;
    }
    var row := session.keys[r.key];
    if row.endpoint != EndpointOf(r.body) {
      return KeyConflict;
    }
    if row.body != r.body {
      return KeyConflict;
    }
    if row.response.None? {
      return InFlight;
    }
    return Replay(row.response.value);
  }

  /** False when there is no key to record against. */
  method RecordResponse(session: Session, key: Id, response: Response) returns (ok: bool)
    modifies session
    ensures ok <==> key in old(session.keys)
    ensures ok ==> session.keys == old(session.keys)[key := old(session.keys)[key].(response := Some(response))]
    ensures session.Work() == old(session.Work()).(keys := session.keys)
    ensures !ok ==> session.Work() == old(session.Work())
    ensures session.committed == old(session.committed)
  {
    if key !in session.keys {
      return false;
    }
    session.keys := session.keys[key := session.keys[key].(response := Some(response))];
    return true;
  }

  /** One request, one transaction. */
  method Create(session: Session, r: Request) returns (answer: Answer)
    requires session.committed == session.Work()
    modifies session
    ensures (session.committed, answer) == Handled(old(session.Work()), r)
    ensures AnswersAs(old(session.Work()), r, session.committed, answer)
    ensures session.committed == session.Work()
  {
    hide Initiated, RunInitiated, AnswersAs, RefusesFor, RefusesRunFor, AuthorizesAs, AuthorizesRunAs;
    HandledIsAsAsked(session.Work(), r);
    var claimed := ClaimKey(session, r);
    match claimed
    case Replay(response) => return Replayed(response);
    case InFlight => return RetryShortly;
    case KeyConflict => return Conflict;
    case Proceed =>
      var response: Response;
      match r.body {
        case TransferIn(recipient, amount, currency) =>
          var t := Initiate(session, recipient, amount, currency, None);
          if t.Err? {
            session.Rollback();
            return Refused(OfTransfer(t.error));
          }
          assert t.value < |session.transfers| by { InitiatedRow(old(session.Work()), r); }
          response := TransferOut(t.value, session.transfers[t.value]);
        case RunIn(items, currency) =>
          var run := InitiateRun(session, items, currency);
          if run.Err? {
            session.Rollback();
            return Refused(run.error);
          }
          var total := Sum(items);
          response := RunOut(run.value, |items|, total);
      }
      WorkKeepsKeys(Stored(old(session.Work()), r, None), r.body);
      var _ := RecordResponse(session, r.key, response);
      session.Commit();
      return Created(response);
  }

  lemma InitiatedRow(db: Db, r: Request)
    requires r.body.TransferIn?
    ensures var i := Initiated(Stored(db, r, None), r.body.recipient, r.body.amount, r.body.currency, None);
            i.Ok? ==> |i.value.transfers| == |db.transfers| + 1
  {
  }

  /** The work never touches a key, and always makes rows of its own. */
  lemma WorkKeepsKeys(db: Db, body: Body)
    requires Worked(db, body).Ok?
    ensures var (after, response) := Worked(db, body).value;
            && after.keys == db.keys
            && |after.transfers| >= |db.transfers| && after.runs >= db.runs
            && (response.TransferOut? ==> response.transfer == |db.transfers| < |after.transfers|)
            && (response.RunOut? ==> response.run == db.runs < after.runs)
  {
    if body.RunIn? {
      ItemsOnlyAppend(db.(runs := db.runs + 1), body.items, body.currency, db.runs);
    }
  }

  // ------------------------------------------------------------- many requests at once
  //
  // An insert on a key another open transaction has inserted waits for it, so at most one open
  // transaction holds a key. Everything else may happen in between.

  datatype Reply = Reply(request: Request, answer: Answer)

  datatype World = World(db: Db, open: map<Id, Request>, log: seq<Reply>)

  datatype Event =
    | Claim(tx: Id, request: Request)
    | Complete(tx: Id)
    | Abandon(tx: Id)
    | Meanwhile(db: Db)

  predicate Possible(w: World, e: Event) {
    match e
    case Claim(x, r) => x !in w.open && forall y :: y in w.open ==> w.open[y].key != r.key
    case Complete(x) => x in w.open
    case Abandon(x) => x in w.open
    case Meanwhile(db) =>
      db.keys == w.db.keys && |db.transfers| >= |w.db.transfers| && db.runs >= w.db.runs
  }

  function Happened(w: World, e: Event): World
    requires Possible(w, e)
  {
    match e
    case Claim(x, r) =>
      if ClaimAnswered(w.db.keys, r).Proceed? then w.(open := w.open[x := r])
      else w.(log := w.log + [Reply(r, Handled(w.db, r).1)])
    case Complete(x) =>
      var r := w.open[x];
      var (db, answer) := Completed(w.db, r);
      World(db, w.open - {x}, w.log + [Reply(r, answer)])
    case Abandon(x) => w.(open := w.open - {x})
    case Meanwhile(db) => w.(db := db)
  }

  function After(start: Db, events: seq<Event>): Option<World> {
    if |events| == 0 then Some(World(start, map[], []))
    else
      var before, e := After(start, events[..|events| - 1]), events[|events| - 1];
      if before.None? || !Possible(before.value, e) then None else Some(Happened(before.value, e))
  }

  predicate Answers(x: Reply, response: Response) {
    x.answer == Created(response) || x.answer == Replayed(response)
  }

  /** Every row answers, its rows are its own, and exactly one logged request created it. */
  predicate RowOk(w: World, k: Id, row: KeyRow) {
    && row.response.Some?
    && (row.response.value.TransferOut? ==> row.response.value.transfer < |w.db.transfers|)
    && (row.response.value.RunOut? ==> row.response.value.run < w.db.runs)
  }

  predicate ReplyOk(w: World, x: Reply) {
    && !x.answer.RetryShortly?
    && (x.answer.Created? || x.answer.Replayed? ==>
          && x.request.key in w.db.keys
          && w.db.keys[x.request.key] ==
             KeyRow(EndpointOf(x.request.body), x.request.body, Some(x.answer.response)))
  }

  predicate SameRows(a: Response, b: Response) {
    || (a.TransferOut? && b.TransferOut? && a.transfer == b.transfer)
    || (a.RunOut? && b.RunOut? && a.run == b.run)
  }

  ghost predicate Once(w: World) {
    && (forall k :: k in w.db.keys ==> RowOk(w, k, w.db.keys[k]))
    && (forall k, l :: k in w.db.keys && l in w.db.keys && k != l ==>
          !SameRows(w.db.keys[k].response.value, w.db.keys[l].response.value))
    && (forall i :: 0 <= i < |w.log| ==> ReplyOk(w, w.log[i]))
    && (forall i, j :: 0 <= i < j < |w.log| && w.log[i].answer.Created? ==>
          !(w.log[j].answer.Created? && w.log[j].request.key == w.log[i].request.key))
    && (forall x :: x in w.open ==> w.open[x].key !in w.db.keys)
    && (forall x, y :: x in w.open && y in w.open && w.open[x].key == w.open[y].key ==> x == y)
  }

  lemma RefusedIsOnce(w: World, x: Id)
    requires Once(w) && x in w.open && Worked(Stored(w.db, w.open[x], None), w.open[x].body).Err?
    ensures Once(Happened(w, Complete(x)))
  {
    hide Worked;
  }

  /** A key, its response and its rows, all new, added to a world where nobody else has them. */
  lemma NewKeyIsOnce(w: World, x: Id, db: Db, response: Response)
    requires Once(w) && x in w.open && w.open[x].key !in w.db.keys
    requires |db.transfers| >= |w.db.transfers| && db.runs >= w.db.runs
    requires db.keys == w.db.keys[w.open[x].key := KeyRow(EndpointOf(w.open[x].body), w.open[x].body, Some(response))]
    requires response.TransferOut? ==> |w.db.transfers| <= response.transfer < |db.transfers|
    requires response.RunOut? ==> w.db.runs <= response.run < db.runs
    ensures Once(World(db, w.open - {x}, w.log + [Reply(w.open[x], Created(response))]))
  {
    hide EndpointOf;
    forall i | 0 <= i < |w.log| ensures w.log[i].answer.Created? ==> w.log[i].request.key != w.open[x].key {
      assert ReplyOk(w, w.log[i]);
    }
  }

  lemma CreatedIsOnce(w: World, x: Id)
    requires Once(w) && x in w.open && Worked(Stored(w.db, w.open[x], None), w.open[x].body).Ok?
    ensures Once(Happened(w, Complete(x)))
  {
    hide Worked, EndpointOf, RowOk, ReplyOk;
    var r := w.open[x];
    WorkKeepsKeys(Stored(w.db, r, None), r.body);
    var (after, response) := Worked(Stored(w.db, r, None), r.body).value;
    var row := KeyRow(EndpointOf(r.body), r.body, Some(response));
    assert w.db.keys[r.key := KeyRow(EndpointOf(r.body), r.body, None)][r.key := row] == w.db.keys[r.key := row];
    NewKeyIsOnce(w, x, Stored(after, r, Some(response)), response);
  }

  lemma EventKeepsOnce(w: World, e: Event)
    requires Once(w) && Possible(w, e)
    ensures Once(Happened(w, e))
  {
    hide Worked;
    match e
    case Claim(x, r) =>
    case Complete(x) =>
      if Worked(Stored(w.db, w.open[x], None), w.open[x].body).Ok? {
        CreatedIsOnce(w, x);
      } else {
        RefusedIsOnce(w, x);
      }
    case Abandon(x) =>
    case Meanwhile(db) =>
  }

  lemma {:induction false} AlwaysOnce(start: Db, events: seq<Event>)
    requires start.keys == map[] && After(start, events).Some?
    ensures Once(After(start, events).value)
  {
    hide Once, Happened, Possible;
    if |events| == 0 {
      NothingYet(start);
    } else {
      AlwaysOnce(start, events[..|events| - 1]);
      EventKeepsOnce(After(start, events[..|events| - 1]).value, events[|events| - 1]);
    }
  }

  lemma NothingYet(start: Db)
    requires start.keys == map[]
    ensures Once(World(start, map[], []))
  {
  }

  /** Over any requests, committed or abandoned: any two answers to one key are the same stored
      response to the same request, at most one of them created it, "in flight" is never answered,
      and two keys never share a transfer or a run. */
  lemma CreationIsExactlyOnce(start: Db, events: seq<Event>, i: nat, j: nat)
    requires start.keys == map[] && After(start, events).Some?
    requires i < j < |After(start, events).value.log|
    ensures var x, y := After(start, events).value.log[i], After(start, events).value.log[j];
            && !x.answer.RetryShortly? && !y.answer.RetryShortly?
            && forall a, b :: Answers(x, a) && Answers(y, b) ==>
                 if x.request.key == y.request.key then
                   x.request == y.request && a == b && !(x.answer.Created? && y.answer.Created?)
                 else !SameRows(a, b)
  {
    AlwaysOnce(start, events);
    var w := After(start, events).value;
    assert ReplyOk(w, w.log[i]) && ReplyOk(w, w.log[j]);
  }

  /** A key that answered once is never given away again, whatever moves meanwhile: the same request
      replays the same response and changes nothing, and any other one is refused. */
  lemma AnsweredKeyIsFinal(w: World, e: Event, k: Id)
    requires Once(w) && Possible(w, e) && k in w.db.keys
    ensures k in Happened(w, e).db.keys && Happened(w, e).db.keys[k] == w.db.keys[k]
    ensures e.Claim? && e.request.key == k ==>
              && Happened(w, e).db == w.db
              && Happened(w, e).log == w.log + [Reply(e.request,
                   if w.db.keys[k].body == e.request.body && w.db.keys[k].endpoint == EndpointOf(e.request.body)
                   then Replayed(w.db.keys[k].response.value) else Conflict)]
  {
    if e.Complete? {
      hide Worked;
      var r := w.open[e.tx];
      assert r.key != k;
      if Worked(Stored(w.db, r, None), r.body).Ok? {
        WorkKeepsKeys(Stored(w.db, r, None), r.body);
      }
    } else if e.Claim? && e.request.key == k {
      assert RowOk(w, k, w.db.keys[k]);
    }
  }

  /** Whatever else the system does in between is such a meanwhile: no step of the disbursement
      protocol touches a key, or takes back a transfer or a run. */
  lemma ProtocolStepsAreMeanwhile(w: World, s: Sys, step: Step)
    requires Inv(s) && Enabled(s, step) && w.db == s.db
    ensures Possible(w, Meanwhile(Apply(s, step).db))
  {
    hide Inv, Enabled, Apply;
    StepMovesForward(s, step);
    StepOnlyAppends(s, step);
  }

  /** When a request that claimed a new key completes, its answer is about its own rows. */
  lemma CompletionAnswersForItself(w: World, x: Id)
    requires Once(w) && Possible(w, Complete(x))
    ensures var after := Happened(w, Complete(x));
            && |after.log| == |w.log| + 1
            && after.log[|w.log|].request == w.open[x]
            && AnswersAs(w.db, w.open[x], after.db, after.log[|w.log|].answer)
  {
    hide Completed, AnswersAs;
    CompletedIsAsAsked(w.db, w.open[x]);
  }

  /** The count and total a new run is answered with are what its summary shows. */
  lemma RunAnswerIsItsSummary(before: Db, r: Request, after: Db, response: Response)
    requires CreatesAs(before, r, after, response) && r.body.RunIn?
    requires forall t :: 0 <= t < |before.transfers| ==> before.transfers[t].run != Some(before.runs)
    ensures response.count == CountOf(after.transfers, response.run, None)
    ensures response.total == AmountOf(after.transfers, response.run, None)
  {
    hide Total, CountOf, AmountOf;
    var items, c := r.body.items, r.body.currency;
    assert AllDue(items);
    assert after.transfers == before.transfers + RowsOf(before, items, c, before.runs);
    RowsAddUp(before.transfers, before, items, c, before.runs);
  }
}
