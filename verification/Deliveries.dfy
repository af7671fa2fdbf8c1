/** The delivery row and the transformations the service applies to it. */
module Deliveries {
  import opened Backoff

  /** A UUID, as the 128-bit number it denotes; the database orders ids by that number. */
  type Id = nat

  /** Nanoseconds. */
  type Time = int

  datatype Status = Pending | Retrying | Processing | Sent | DeadLetter | Delivered | Bounced | Failed

  /** The columns an insert fixes for good. */
  datatype Request = Request(
    tenant: string, application: string, template: string, channel: string,
    locale: string, recipient: string, variables: string, key: string)

  datatype Delivery = Delivery(
    id: Id, req: Request, status: Status, provider: string, messageId: string, failure: string,
    attempts: int, nextAttempt: Time, version: int,
    createdAt: Time, updatedAt: Time, createdBy: string, updatedBy: string)

  /** The dispatcher settings, and the retry limit of the outbound HTTP client behind it. */
  datatype Config = Config(batchSize: int, maxAttempts: int, retryBase: int, httpAttempts: int)

  predicate Configured(cfg: Config) {
    cfg.batchSize >= 1 && cfg.maxAttempts >= 1 && cfg.retryBase >= 1
  }

  /** NewDispatcher replaces every non-positive setting. */
  function WithDefaults(cfg: Config): (r: Config)
    ensures Configured(r)
    ensures Configured(cfg) ==> r == cfg
  {
    Config(
      if cfg.batchSize <= 0 then 100 else cfg.batchSize,
      if cfg.maxAttempts <= 0 then 8 else cfg.maxAttempts,
      if cfg.retryBase <= 0 then 5_000_000_000 else cfg.retryBase,
      cfg.httpAttempts)
  }

  /** What `deliver` learned from the template, the sender lookup and the send. */
  datatype Outcome = Accepted(provider: string, messageId: string) | Rejected(reason: string)

  /** The unique index on deliveries. */
  function Scope(req: Request): (string, string, string) {
    (req.tenant, req.application, req.key)
  }

  predicate Claimable(status: Status) {
    status == Pending || status == Retrying
  }

  predicate ReceiptStatus(status: Status) {
    status == Delivered || status == Bounced || status == Failed
  }

  /** terminalDeliveryStatus: what a receipt may no longer change. */
  predicate Terminal(status: Status) {
    ReceiptStatus(status) || status == DeadLetter
  }

  /** The statuses the retention queries name; not the same set as Terminal. */
  predicate Expirable(d: Delivery, before: Time) {
    (d.status == Sent || d.status == DeadLetter) && d.updatedAt < before
  }

  /** A provider has accepted the message. */
  predicate SentLike(status: Status) {
    status == Sent || ReceiptStatus(status)
  }

  function NewDelivery(id: Id, req: Request, now: Time, actor: string): Delivery {
    Delivery(id, req, Pending, "", "", "", 0, now, 1, now, now, actor, actor)
  }

  /** One UPDATE of the claim loop. */
  function Claimed(d: Delivery, now: Time): Delivery {
    d.(status := Processing, attempts := d.attempts + 1, version := d.version + 1, updatedAt := now)
  }

  /** The in-memory value `deliver` hands to Finish; its version is still the claimed one. */
  function Settle(cfg: Config, d: Delivery, outcome: Outcome, now: Time): (v: Delivery)
    ensures v.id == d.id && v.req == d.req && v.attempts == d.attempts && v.version == d.version
  {
    var stamped := d.(updatedAt := now, updatedBy := "notification-dispatcher");
    match outcome
    case Accepted(provider, messageId) =>
      stamped.(status := Sent, provider := provider, messageId := messageId, failure := "")
    case Rejected(reason) =>
      if d.attempts >= cfg.maxAttempts then
        stamped.(status := DeadLetter, failure := reason)
      else
        stamped.(status := Retrying, failure := reason,
                 nextAttempt := now + RetryBackoff(cfg.retryBase, d.attempts))
  }

  /** The in-memory value RecordReceipt hands to Finish. */
  function WithReceipt(d: Delivery, status: Status, reason: string, now: Time, actor: string): (v: Delivery)
    ensures v.id == d.id && v.req == d.req && v.attempts == d.attempts && v.version == d.version
  {
    d.(status := status, failure := reason, updatedAt := now, updatedBy := actor)
  }

  /** The row after the UPDATE of Finish: eight columns come from `v`, the rest stay. */
  function Stored(row: Delivery, v: Delivery): Delivery {
    row.(status := v.status, provider := v.provider, messageId := v.messageId, failure := v.failure,
         nextAttempt := v.nextAttempt, version := row.version + 1,
         updatedAt := v.updatedAt, updatedBy := v.updatedBy)
  }

  /** ORDER BY next_attempt_at, id. */
  predicate Before(a: Delivery, b: Delivery) {
    a.nextAttempt < b.nextAttempt || (a.nextAttempt == b.nextAttempt && a.id < b.id)
  }
}
