/** The rows the service keeps, and the database they live in.

    Identifiers, provider references, currencies and phone numbers are opaque
    tokens the code only ever compares, so they are natural numbers here. Tables
    that only grow are sequences, and a row's id is its position. */
module Records {

  datatype Option<+T> = None | Some(value: T)

  datatype Result<+T, +E> = Ok(value: T) | Err(error: E)

  type Id = nat
  type Time = nat
  type Currency = nat
  type Msisdn = nat
  type Reference = nat

  /** `amount_minor`, under the schema's CHECK that it is positive. */
  type Amount = n: int | n > 0 witness 1

  // ---------------------------------------------------------------- the books

  datatype Account =
    | ProgramFunding(currency: Currency)
    | RecipientPayable(recipient: Id, currency: Currency)
    | ProviderSettlement(currency: Currency)

  datatype Direction = Debit | Credit

  datatype Line = Line(account: Account, direction: Direction, amount: Amount, currency: Currency)

  datatype JournalKind = FundingDeposit | TransferAuthorized | TransferSettled | TransferReversed

  datatype Journal = Journal(kind: JournalKind, transfer: Option<Id>, lines: seq<Line>)

  // ------------------------------------------------------------ transfers, runs

  datatype TransferStatus = Pending | Processing | Succeeded | Failed

  datatype Transfer = Transfer(
    recipient: Id,
    amount: Amount,
    currency: Currency,
    status: TransferStatus,
    reference: Option<Reference>,
    run: Option<Id>,
    createdAt: Time)

  /** What no step may ever change about a transfer. */
  predicate SameIntent(a: Transfer, b: Transfer) {
    && a.recipient == b.recipient
    && a.amount == b.amount
    && a.currency == b.currency
    && a.run == b.run
    && a.createdAt == b.createdAt
  }

  // ---------------------------------------------------------------- the queue

  datatype TaskKind = DisburseTransfer | SettleTransfer | ReconcileBooks | UnregisteredKind

  /** The queue's 'pending', 'running', 'succeeded' and 'failed', in that order. */
  datatype TaskStatus = Queued | Running | Finished | DeadLettered

  datatype Claim = Claim(worker: Id, at: Time)

  /** `requeues` is history the table does not keep: how often a person retried it. */
  datatype Task = Task(
    kind: TaskKind,
    transfer: Option<Id>,
    status: TaskStatus,
    attempts: nat,
    maxAttempts: nat,
    claim: Option<Claim>,
    runAt: Time,
    requeues: nat)

  // ------------------------------------------------------------- the provider

  /** The provider's 'pending', 'succeeded' and 'failed', in that order. */
  datatype PaymentStatus = Accepted | Paid | Bounced

  datatype Payment = Payment(
    reference: Reference,
    key: Id,
    msisdn: Msisdn,
    amount: Amount,
    currency: Currency,
    status: PaymentStatus,
    createdAt: Time)

  // ------------------------------------------------------------- idempotency

  datatype Endpoint = PostTransfers | PostRuns

  datatype Item = Item(recipient: Id, amount: int)

  /** A request body; comparing bodies stands for comparing their fingerprints. */
  datatype Body =
    | TransferIn(recipient: Id, amount: int, currency: Currency)
    | RunIn(items: seq<Item>, currency: Currency)

  /** What a creation answers: the new rows, exactly as they were then. */
  datatype Response = TransferOut(transfer: Id, row: Transfer) | RunOut(run: Id, count: nat, total: int)

  datatype KeyRow = KeyRow(endpoint: Endpoint, body: Body, response: Option<Response>)

  // ------------------------------------------------------------- the database

  /** `chart` holds the currencies whose fund and float accounts are seeded. */
  datatype Db = Db(
    now: Time,
    recipients: map<Id, Msisdn>,
    chart: set<Currency>,
    transfers: seq<Transfer>,
    journals: seq<Journal>,
    tasks: seq<Task>,
    runs: nat,
    keys: map<Id, KeyRow>)
}
