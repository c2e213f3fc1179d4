/** The queue (task_service.py, dead_letter_service.py): claim, retry, sweep, requeue. */
module TaskService {
  import opened Records
  import opened Database

  const DEFAULT_ATTEMPTS: nat := 3
  const EXTRA_ATTEMPTS: nat := 3

  // ------------------------------------------------------------------ enqueue

  function NewTask(db: Db, kind: TaskKind, transfer: Option<Id>, runAt: Option<Time>): Task {
    Task(kind, transfer, Queued, 0, DEFAULT_ATTEMPTS, None, if runAt.Some? then runAt.value else db.now, 0)
  }

  function Enqueued(db: Db, kind: TaskKind, transfer: Option<Id>, runAt: Option<Time>): Db {
    db.(tasks := db.tasks + [NewTask(db, kind, transfer, runAt)])
  }

  method Enqueue(session: Session, kind: TaskKind, transfer: Option<Id>, runAt: Option<Time>)
    modifies session
    ensures session.Work() == Enqueued(old(session.Work()), kind, transfer, runAt)
    ensures session.tasks == old(session.tasks) +
              [Task(kind, transfer, Queued, 0, 3, None, if runAt.Some? then runAt.value else old(session.now), 0)]
    ensures session.committed == old(session.committed)
  {
    var at := session.now;
    if runAt.Some? {
      at := runAt.value;
    }
    session.tasks := session.tasks + [Task(kind, transfer, Queued, 0, DEFAULT_ATTEMPTS, None, at, 0)];
  }

  // --------------------------------------------------------- recurring work

  /** Whether another task of this kind is waiting or running; `successorOf` does not count itself. */
  predicate Scheduled(tasks: seq<Task>, kind: TaskKind, successorOf: Option<Id>) {
    exists k :: 0 <= k < |tasks| && KeepsChain(tasks[k], k, kind, successorOf)
  }

  predicate KeepsChain(x: Task, k: Id, kind: TaskKind, successorOf: Option<Id>) {
    x.kind == kind && (x.status.Queued? || x.status.Running?) && Some(k) != successorOf
  }

  function ScheduledOnce(db: Db, kind: TaskKind, runAt: Time, successorOf: Option<Id>): Db {
    if Scheduled(db.tasks, kind, successorOf) then db else Enqueued(db, kind, None, Some(runAt))
  }

  lemma ScheduledIsLiteral(tasks: seq<Task>, kind: TaskKind, successorOf: Option<Id>)
    ensures Scheduled(tasks, kind, successorOf) <==>
              exists k :: 0 <= k < |tasks| && Some(k) != successorOf &&
                          tasks[k].kind == kind && (tasks[k].status.Queued? || tasks[k].status.Running?)
  {
    forall k | 0 <= k < |tasks| && KeepsChain(tasks[k], k, kind, successorOf)
      ensures Some(k) != successorOf && tasks[k].kind == kind && (tasks[k].status.Queued? || tasks[k].status.Running?)
    {
    }
    forall k | 0 <= k < |tasks| && Some(k) != successorOf && tasks[k].kind == kind && (tasks[k].status.Queued? || tasks[k].status.Running?)
      ensures KeepsChain(tasks[k], k, kind, successorOf)
    {
    }
  }

  /** Under its advisory lock; says whether it added a task. */
  method ScheduleOnce(session: Session, kind: TaskKind, runAt: Time, successorOf: Option<Id>) returns (added: bool)
    modifies session
    ensures added <==> !Scheduled(old(session.tasks), kind, successorOf)
    ensures session.Work() == ScheduledOnce(old(session.Work()), kind, runAt, successorOf)
    ensures added <==> forall k :: 0 <= k < |old(session.tasks)| && Some(k) != successorOf ==>
              var x := old(session.tasks)[k];
              x.kind != kind || x.status.Finished? || x.status.DeadLettered?
    ensures session.tasks == old(session.tasks) +
              if added then [Task(kind, None, Queued, 0, 3, None, runAt, 0)] else []
    ensures session.committed == old(session.committed)
  {
    ScheduledIsLiteral(session.tasks, kind, successorOf);
    for k := 0 to |session.tasks|
      invariant session.Work() == old(session.Work())
      invariant forall j :: 0 <= j < k ==> !KeepsChain(session.tasks[j], j, kind, successorOf)
    {
      var x := session.tasks[k];
      if x.kind == kind && (x.status == Queued || x.status == Running) && Some(k) != successorOf {
        assert KeepsChain(x, k, kind, successorOf);
        return false;
      }
    }
    Enqueue(session, kind, None, Some(runAt));
    return true;
  }

  // -------------------------------------------------------------------- claim

  predicate Due(x: Task, now: Time) {
    x.status.Queued? && x.runAt <= now
  }

  /** `order by run_at limit 1` over the due rows. */
  predicate IsNextDue(tasks: seq<Task>, k: Id, now: Time) {
    && k < |tasks|
    && Due(tasks[k], now)
    && (forall j | 0 <= j < |tasks| && Due(tasks[j], now) :: tasks[k].runAt <= tasks[j].runAt)
  }

  function ClaimedTask(x: Task, worker: Id, now: Time): Task {
    x.(status := Running, attempts := x.attempts + 1, claim := Some(Claim(worker, now)))
  }

  /** The same row, running for this worker since now, one attempt the poorer. */
  predicate ClaimsAs(x: Task, worker: Id, now: Time, y: Task) {
    && x.status == Queued && x.runAt <= now
    && y == Task(x.kind, x.transfer, Running, x.attempts + 1, x.maxAttempts, Some(Claim(worker, now)), x.runAt, x.requeues)
  }

  function Claimed(db: Db, k: Id, worker: Id): Db
    requires k < |db.tasks|
  {
    db.(tasks := db.tasks[k := ClaimedTask(db.tasks[k], worker, db.now)])
  }

  /** The claim query: the oldest due row, or none at all. */
  method ClaimNext(session: Session, worker: Id) returns (r: Option<Id>)
    modifies session
    ensures r.None? ==>
              && session.Work() == old(session.Work())
              && forall k :: 0 <= k < |session.tasks| ==> !Due(session.tasks[k], session.now)
    ensures r.Some? ==>
              && IsNextDue(old(session.tasks), r.value, session.now)
              && session.Work() == Claimed(old(session.Work()), r.value, worker)
              && ClaimsAs(old(session.tasks)[r.value], worker, session.now, session.tasks[r.value])
    ensures session.committed == session.Work()
  {
    var best: Option<Id> := None;
    for k := 0 to |session.tasks|
      invariant session.Work() == old(session.Work())
      invariant best.None? ==> forall j :: 0 <= j < k ==> !Due(session.tasks[j], session.now)
      invariant best.Some? ==> best.value < k && IsNextDue(session.tasks[..k], best.value, session.now)
    {
      if Due(session.tasks[k], session.now) {
        if best.None? || session.tasks[k].runAt < session.tasks[best.value].runAt {
          best := Some(k);
        }
      }
    }
    if best.Some? {
      var x := session.tasks[best.value];
      x := x.(status := Running, attempts := x.attempts + 1, claim := Some(Claim(worker, session.now)));
      session.tasks := session.tasks[best.value := x];
    }
    session.Commit();
    return best;
  }

  // ------------------------------------------------------------ finish, retry

  datatype Reason =
    | BadPayload
    | UnknownKind
    | NoReference
    | NotAtProvider
    | ProviderSaid
    | Raised

  /** How a handler finished; `retryable` is its judgment, the budget is the queue's. */
  datatype TaskOutcome = TaskOutcome(ok: bool, error: Option<Reason>, retryable: bool)

  const DONE := TaskOutcome(true, None, false)

  function Failure(error: Reason, retryable: bool): TaskOutcome {
    TaskOutcome(false, Some(error), retryable)
  }

  function PowerOfTwo(n: nat): nat {
    if n == 0 then 1 else 2 * PowerOfTwo(n - 1)
  }

  function Least(a: nat, b: nat): nat {
    if a < b then a else b
  }

  lemma TimesPower(base: nat, n: nat)
    ensures base <= base * PowerOfTwo(n)
  {
    PowerOfTwoPositive(n);
    assert base * 1 <= base * PowerOfTwo(n);
  }

  /** Exponential backoff from the base, capped. */
  function RetryDelaySeconds(base: nat, cap: nat, attempts: nat): (d: nat)
    ensures Least(base, cap) <= d <= cap
  {
    var n: nat := if attempts == 0 then 0 else attempts - 1;
    TimesPower(base, n);
    Least(base * PowerOfTwo(n), cap)
  }

  lemma {:induction false} PowerOfTwoPositive(n: nat)
    ensures PowerOfTwo(n) >= 1
  {
    if n > 0 {
      PowerOfTwoPositive(n - 1);
    }
  }

  /** For any settings, the first retry waits the base, and each later one twice the last, up to the cap. */
  lemma BackoffDoubles(base: nat, cap: nat, attempts: nat)
    ensures RetryDelaySeconds(base, cap, 1) == Least(base, cap)
    ensures attempts >= 1 ==>
              RetryDelaySeconds(base, cap, attempts + 1) == Least(2 * RetryDelaySeconds(base, cap, attempts), cap)
  {
    assert PowerOfTwo(0) == 1;
    if attempts >= 1 {
      var raw := base * PowerOfTwo(attempts - 1);
      assert base * PowerOfTwo(attempts) == base * (2 * PowerOfTwo(attempts - 1)) == 2 * raw;
    }
  }

  /** The defaults of `task_retry_base_seconds` and `task_retry_max_seconds`. */
  const RETRY_BASE_SECONDS: nat := 5
  const RETRY_MAX_SECONDS: nat := 120

  function DelayAfter(attempts: nat): nat {
    RetryDelaySeconds(RETRY_BASE_SECONDS, RETRY_MAX_SECONDS, attempts)
  }

  predicate RunsAgain(x: Task, o: TaskOutcome) {
    !o.ok && o.retryable && x.attempts < x.maxAttempts
  }

  function SettledTask(x: Task, o: TaskOutcome, now: Time): Task {
    if RunsAgain(x, o) then x.(status := Queued, claim := None, runAt := now + DelayAfter(x.attempts))
    else x.(status := if o.ok then Finished else DeadLettered)
  }

  function TaskSettled(db: Db, k: Id, o: TaskOutcome): Db
    requires k < |db.tasks|
  {
    db.(tasks := db.tasks[k := SettledTask(db.tasks[k], o, db.now)])
  }

  predicate SameRow(x: Task, y: Task) {
    && y.kind == x.kind && y.transfer == x.transfer
    && y.attempts == x.attempts && y.maxAttempts == x.maxAttempts && y.requeues == x.requeues
  }

  /** What a finished handler leaves of its row: finished exactly when it was fine; back in the queue, for
      later, exactly when it failed retryably with attempts to spare; a dead letter otherwise. */
  predicate FinishesAs(x: Task, o: TaskOutcome, now: Time, y: Task) {
    && SameRow(x, y)
    && (y.status == Finished <==> o.ok)
    && (y.status == Queued <==> !o.ok && o.retryable && x.attempts < x.maxAttempts)
    && (y.status == DeadLettered <==> !o.ok && (!o.retryable || x.attempts >= x.maxAttempts))
    && if y.status == Queued then y.claim == None && y.runAt == now + Backoff(x.attempts)
       else y.claim == x.claim && y.runAt == x.runAt
  }

  /** Five seconds, then twice as long each time, at most two minutes. */
  function Backoff(attempts: nat): nat {
    if attempts <= 1 then 5
    else
      var twice := 2 * Backoff(attempts - 1);
      if twice < 120 then twice else 120
  }

  lemma {:induction false} DelayIsBackoff(attempts: nat)
    ensures DelayAfter(attempts) == Backoff(attempts)
  {
    BackoffDoubles(5, 120, if attempts <= 1 then 1 else attempts - 1);
    assert RetryDelaySeconds(5, 120, 0) == RetryDelaySeconds(5, 120, 1);
    if attempts > 1 {
      DelayIsBackoff(attempts - 1);
    }
  }

  /** Every way a row can end, for any row and outcome. */
  lemma SettledFinishes(x: Task, o: TaskOutcome, now: Time)
    ensures FinishesAs(x, o, now, SettledTask(x, o, now))
  {
    DelayIsBackoff(x.attempts);
  }

  /** The second half of `execute`: retry if the handler says so and attempts remain, else finish. */
  method SettleRow(session: Session, k: Id, o: TaskOutcome)
    requires k < |session.tasks|
    modifies session
    ensures session.Work() == TaskSettled(old(session.Work()), k, o)
    ensures |session.tasks| == |old(session.tasks)|
    ensures FinishesAs(old(session.tasks)[k], o, session.now, session.tasks[k])
    ensures forall j :: 0 <= j < |session.tasks| && j != k ==> session.tasks[j] == old(session.tasks)[j]
    ensures session.committed == session.Work()
  {
    SettledFinishes(session.tasks[k], o, session.now);
    var x := session.tasks[k];
    if !o.ok && o.retryable && x.attempts < x.maxAttempts {
      x := x.(status := Queued, claim := None, runAt := session.now + DelayAfter(x.attempts));
    } else {
      x := x.(status := if o.ok then Finished else DeadLettered);
    }
    session.tasks := session.tasks[k := x];
    session.Commit();
  }

  // -------------------------------------------------------------------- sweep

  predicate Stale(x: Task, now: Time, staleSeconds: nat) {
    x.status.Running? && x.claim.Some? && x.claim.value.at + staleSeconds < now
  }

  function SweptTask(x: Task): Task {
    x.(status := if x.attempts >= x.maxAttempts then DeadLettered else Queued, claim := None)
  }

  function Swept(db: Db, staleSeconds: nat): Db {
    db.(tasks := seq(|db.tasks|, k requires 0 <= k < |db.tasks| =>
      if Stale(db.tasks[k], db.now, staleSeconds) then SweptTask(db.tasks[k]) else db.tasks[k]))
  }

  /** A row running longer than that goes back to the queue at once, or is a dead letter when its attempts
      are spent; any other row stays. */
  predicate SweepsAs(x: Task, now: Time, staleSeconds: nat, y: Task) {
    if x.status == Running && x.claim.Some? && now - x.claim.value.at > staleSeconds then
      && SameRow(x, y) && y.claim == None && y.runAt == x.runAt
      && y.status == if x.attempts < x.maxAttempts then Queued else DeadLettered
    else y == x
  }

  /** The stale rows among the first `n`. */
  function StaleRows(tasks: seq<Task>, n: nat, now: Time, staleSeconds: nat): set<Id>
    requires n <= |tasks|
  {
    set k | 0 <= k < n && Stale(tasks[k], now, staleSeconds)
  }

  lemma OneMoreStale(tasks: seq<Task>, n: nat, now: Time, staleSeconds: nat)
    requires n < |tasks|
    ensures |StaleRows(tasks, n + 1, now, staleSeconds)| ==
            |StaleRows(tasks, n, now, staleSeconds)| + if Stale(tasks[n], now, staleSeconds) then 1 else 0
  {
    var before := StaleRows(tasks, n, now, staleSeconds);
    assert StaleRows(tasks, n + 1, now, staleSeconds) ==
           if Stale(tasks[n], now, staleSeconds) then before + {n} else before;
  }

  /** Says how many rows it took back. */
  method SweepStale(session: Session, staleSeconds: nat) returns (count: nat)
    modifies session
    ensures session.Work() == Swept(old(session.Work()), staleSeconds)
    ensures session.committed == session.Work()
    ensures |session.tasks| == |old(session.tasks)|
    ensures forall k :: 0 <= k < |session.tasks| ==>
              SweepsAs(old(session.tasks)[k], session.now, staleSeconds, session.tasks[k])
    ensures count == |StaleRows(old(session.tasks), |old(session.tasks)|, session.now, staleSeconds)|
  {
    count := 0;
    var before := session.tasks;
    for k := 0 to |before|
      invariant session.Work() == old(session.Work()).(tasks := session.tasks)
      invariant |session.tasks| == |before| == |old(session.tasks)| && before == old(session.tasks)
      invariant forall j :: 0 <= j < k ==>
                  session.tasks[j] ==
                    if Stale(before[j], session.now, staleSeconds) then SweptTask(before[j]) else before[j]
      invariant forall j :: k <= j < |before| ==> session.tasks[j] == before[j]
      invariant count == |StaleRows(before, k, session.now, staleSeconds)|
    {
      OneMoreStale(before, k, session.now, staleSeconds);
      var x := before[k];
      if Stale(x, session.now, staleSeconds) {
        if x.attempts >= x.maxAttempts {
          x := x.(status := DeadLettered);
        } else {
          x := x.(status := Queued);
        }
        x := x.(claim := None);
        session.tasks := session.tasks[k := x];
        count := count + 1;
      }
    }
    assert session.tasks == Swept(old(session.Work()), staleSeconds).tasks;
    session.Commit();
  }

  // ------------------------------------------------------------- dead letters

  predicate IsSend(tasks: seq<Task>, k: Id, t: Id) {
    k < |tasks| && tasks[k].kind.DisburseTransfer? && tasks[k].transfer == Some(t)
  }

  /** Whether `dead_letter_for` finds a dead-lettered send of this transfer. */
  predicate SendIsDead(tasks: seq<Task>, t: Id) {
    exists k :: 0 <= k < |tasks| && IsSend(tasks, k, t) && tasks[k].status.DeadLettered?
  }

  method DeadLetterFor(session: Session, t: Id) returns (r: Option<Id>)
    ensures r.Some? <==> SendIsDead(session.tasks, t)
    ensures r.Some? ==> IsSend(session.tasks, r.value, t) && session.tasks[r.value].status.DeadLettered?
  {
    for k := 0 to |session.tasks|
      invariant forall j :: 0 <= j < k ==> !(IsSend(session.tasks, j, t) && session.tasks[j].status.DeadLettered?)
    {
      var x := session.tasks[k];
      if x.kind.DisburseTransfer? && x.status.DeadLettered? && x.transfer == Some(t) {
        assert IsSend(session.tasks, k, t);
        return Some(k);
      }
    }
    return None;
  }

  datatype DeadLetterError = NotDeadLettered | AlreadyFinished

  function RequeuedTask(x: Task, now: Time): Task {
    x.(status := Queued, maxAttempts := x.attempts + EXTRA_ATTEMPTS, claim := None, runAt := now,
       requeues := x.requeues + 1)
  }

  predicate TransferDone(db: Db, transfer: Option<Id>) {
    && transfer.Some?
    && transfer.value < |db.transfers|
    && (db.transfers[transfer.value].status.Succeeded? || db.transfers[transfer.value].status.Failed?)
  }

  /** `dead_letter_service.retry`, decided under the row lock. */
  function Retried(db: Db, k: Id): Result<Db, DeadLetterError> {
    if k >= |db.tasks| || !db.tasks[k].status.DeadLettered? then Err(NotDeadLettered)
    else if TransferDone(db, db.tasks[k].transfer) then Err(AlreadyFinished)
    else Ok(db.(tasks := db.tasks[k := RequeuedTask(db.tasks[k], db.now)]))
  }

  /** Refused unless it is a dead letter, and then if its transfer is finished; otherwise due now, with
      three attempts more than it has spent. */
  predicate RetriesAs(
    before: seq<Task>, ts: seq<Transfer>, k: Id, now: Time, r: Result<(), DeadLetterError>, after: seq<Task>)
  {
    && (r == Err(NotDeadLettered) <==> k >= |before| || before[k].status != DeadLettered)
    && (r == Err(AlreadyFinished) <==>
          && k < |before| && before[k].status == DeadLettered
          && before[k].transfer.Some? && before[k].transfer.value < |ts|
          && ts[before[k].transfer.value].status in {Succeeded, Failed})
    && (r.Err? ==> after == before)
    && (r.Ok? ==>
          && |after| == |before|
          && (forall j :: 0 <= j < |before| && j != k ==> after[j] == before[j])
          && var x := before[k];
             after[k] == Task(x.kind, x.transfer, Queued, x.attempts, x.attempts + 3, None, now, x.requeues + 1))
  }

  lemma RetriedIsAsAsked(db: Db, k: Id)
    ensures var r := Retried(db, k);
            if r.Ok? then RetriesAs(db.tasks, db.transfers, k, db.now, Ok(()), r.value.tasks)
            else RetriesAs(db.tasks, db.transfers, k, db.now, Err(r.error), db.tasks)
  {
  }

  method Retry(session: Session, k: Id) returns (r: Result<(), DeadLetterError>)
    modifies session
    ensures match Retried(old(session.Work()), k)
            case Ok(db) => r == Ok(()) && session.Work() == db
            case Err(e) => r == Err(e) && session.Work() == old(session.Work())
    ensures RetriesAs(old(session.tasks), old(session.transfers), k, old(session.now), r, session.tasks)
    ensures session.committed == old(session.committed)
  {
    RetriedIsAsAsked(session.Work(), k);
    if k >= |session.tasks| || session.tasks[k].status != DeadLettered {
      return Err(NotDeadLettered);
    }
    var x := session.tasks[k];
    if x.transfer.Some? && x.transfer.value < |session.transfers| {
      var status := session.transfers[x.transfer.value].status;
      if status == Succeeded || status == Failed {
        return Err(AlreadyFinished);
      }
    }
    x := x.(status := Queued, maxAttempts := x.attempts + EXTRA_ATTEMPTS);
    x := x.(claim := None, runAt := session.now, requeues := x.requeues + 1);
    session.tasks := session.tasks[k := x];
    return Ok(());
  }
}
