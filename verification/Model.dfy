/** The values every part of the engine shares: the notification row with its enumerations, what a
    provider answers, the retry policies, and the history kept beside each row for reasoning. */
module Model {
  type Id = nat

  datatype Option<+T> = None | Some(value: T)

  datatype Status = Pending | Queued | Sent | Failed | Retrying

  datatype Channel = Email | Sms | Push

  datatype EventType =
    | OrderCreated | OrderCancelled
    | PaymentConfirmed | PaymentFailed | PaymentOtpRequested
    | ShipmentDispatched | ShipmentDelivered | ShipmentDelayed

  datatype ErrorCode = Timeout | ProviderDown | RateLimited | InvalidRecipient | InvalidToken | Unknown

  /** The integers that stand for the codes, in providers' answers and in the error_code column. */
  function NumberOf(code: ErrorCode): nat {
    match code
    case Timeout => 1
    case ProviderDown => 2
    case RateLimited => 3
    case InvalidRecipient => 4
    case InvalidToken => 5
    case Unknown => 6
  }

  predicate Retryable(code: ErrorCode) {
    code != InvalidRecipient && code != InvalidToken
  }

  /** The columns of one notification. `stime` is the time of sending, in any unit. */
  datatype Row = Row(
    key: string, event: EventType, channel: Channel, recipient: string, priority: nat,
    status: Status, retryCount: nat, errorCode: Option<ErrorCode>,
    externalId: Option<string>, stime: Option<nat>)

  /** Rows the engine still owes an outcome. */
  predicate Active(row: Row) {
    row.status != Sent && row.status != Failed
  }

  predicate Waiting(row: Row) {
    row.status == Pending || row.status == Retrying
  }

  /** A provider's answer as the code receives it: the error code is a raw integer, possibly absent. */
  datatype ProviderResult = ProviderResult(success: bool, externalId: Option<string>, errorCode: Option<int>)

  /** What dispatch makes of that answer. Garbled: the integer names no error code, and the
      conversion to the enumeration raises. */
  datatype Verdict = Accepted(externalId: Option<string>) | Refused(code: ErrorCode) | Garbled

  function Classify(r: ProviderResult): Verdict {
    if r.success then Accepted(r.externalId)
    else if r.errorCode.None? || r.errorCode.value == 0 then Refused(Unknown)
    else if r.errorCode.value == 1 then Refused(Timeout)
    else if r.errorCode.value == 2 then Refused(ProviderDown)
    else if r.errorCode.value == 3 then Refused(RateLimited)
    else if r.errorCode.value == 4 then Refused(InvalidRecipient)
    else if r.errorCode.value == 5 then Refused(InvalidToken)
    else if r.errorCode.value == 6 then Refused(Unknown)
    else Garbled
  }

  datatype RetryPolicy = RetryPolicy(maxRetries: nat, baseDelay: nat, maxDelay: nat, useJitter: bool)

  /** The registered providers and the per-event retry table with its default. */
  datatype Config = Config(providers: set<Channel>, table: map<EventType, RetryPolicy>, fallback: RetryPolicy)

  function PolicyFor(c: Config, event: EventType): RetryPolicy {
    if event in c.table then c.table[event] else c.fallback
  }

  const BULK_POLICY := RetryPolicy(3, 15, 3600, true)

  /** The table as shipped: one-time passwords have their own policy. */
  const SHIPPED_TABLE: map<EventType, RetryPolicy> := map[
    PaymentOtpRequested := RetryPolicy(3, 5, 30, false),
    PaymentFailed := BULK_POLICY, PaymentConfirmed := BULK_POLICY,
    OrderCreated := BULK_POLICY, OrderCancelled := BULK_POLICY,
    ShipmentDispatched := BULK_POLICY, ShipmentDelivered := BULK_POLICY, ShipmentDelayed := BULK_POLICY]

  predicate Shipped(c: Config) {
    c.table == SHIPPED_TABLE && c.fallback == BULK_POLICY
  }

  /** History of one row: not stored by the program, it records what has happened to the row.
      begun: dispatches that fetched the row. health, replies: what the provider answered, in order.
      outcomes: the SENT, FAILED and RETRYING commits of dispatches. delays: the delay drawn with each
      RETRYING commit. manuals: manual retries committed. lost: by how much, on balance, manual retries that
      committed a stale count set the retry count back. */
  datatype History = History(
    begun: nat, health: seq<bool>, replies: seq<Verdict>, outcomes: seq<Status>, delays: seq<nat>,
    manuals: nat, lost: int)

  const NO_HISTORY := History(0, [], [], [], [], 0, 0)

  function Accepts(replies: seq<Verdict>): nat {
    if replies == [] then 0
    else Accepts(replies[..|replies| - 1]) + if replies[|replies| - 1].Accepted? then 1 else 0
  }

  lemma AcceptsSnoc(replies: seq<Verdict>, v: Verdict)
    ensures Accepts(replies + [v]) == Accepts(replies) + if v.Accepted? then 1 else 0
  {
    assert (replies + [v])[..|replies|] == replies;
  }

  /** A row with its history. */
  datatype Note = Note(row: Row, past: History)

  /** The sends of this row that the provider accepted. */
  function Deliveries(n: Note): nat {
    Accepts(n.past.replies)
  }

  /** What a row put in the dead-letter queue is reported with. */
  datatype DeadLetter = DeadLetter(
    id: Id, key: string, event: EventType, channel: Channel, recipient: string, errorCode: ErrorCode, retryCount: nat)
}
