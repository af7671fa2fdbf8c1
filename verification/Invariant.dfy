/** What every step keeps. */
module Invariant {
  import opened Backoff
  import opened Deliveries
  import opened Store
  import opened Protocol

  // ----- one row

  /** Version and attempts determine each other once the status is known. */
  predicate VersionForm(max: int, d: Delivery) {
    match d.status
    case Pending => d.attempts == 0 && d.version == 1
    case Retrying => 1 <= d.attempts < max && d.version == 2 * d.attempts + 1
    case Processing => 1 <= d.attempts <= max && d.version == 2 * d.attempts
    case Sent => 1 <= d.attempts <= max && d.version == 2 * d.attempts + 1
    case DeadLetter => d.attempts == max && d.version == 2 * d.attempts + 1
    case _ => 1 <= d.attempts <= max && d.version == 2 * d.attempts + 2
  }

  /** Provider and message id are both there, or both missing, and the status says which. */
  predicate CarriesMessage(d: Delivery) {
    if SentLike(d.status) then d.provider != "" && d.messageId != ""
    else d.provider == "" && d.messageId == ""
  }

  /** No attempt starts before the delays of all earlier ones have passed. */
  predicate Timed(base: int, d: Delivery) {
    if d.status == Pending then d.nextAttempt == d.createdAt
    else
      && d.attempts >= 1
      && d.updatedAt >= d.createdAt + TotalWait(base, d.attempts - 1)
      && (d.status == Retrying ==> d.nextAttempt >= d.createdAt + TotalWait(base, d.attempts))
  }

  predicate RowOk(cfg: Config, clock: Time, d: Delivery) {
    && VersionForm(cfg.maxAttempts, d)
    && CarriesMessage(d)
    && Timed(cfg.retryBase, d)
    && d.createdAt <= clock && d.updatedAt <= clock
  }

  // ----- the log of one delivery

  predicate FirstEvent(e: Event) {
    e.kind == Requested && e.delivery.status == Pending && e.delivery.version == 1 && e.delivery.attempts == 0
  }

  /** The transitions the outbox may show: an attempt that ended, or a receipt for a sent delivery. */
  predicate Link(e: Event, f: Event) {
    && f.kind == StatusChanged
    && f.delivery.id == e.delivery.id && f.delivery.req == e.delivery.req
    && f.delivery.createdAt == e.delivery.createdAt && f.delivery.createdBy == e.delivery.createdBy
    && if ReceiptStatus(f.delivery.status) then
         && e.delivery.status == Sent
         && f.delivery.attempts == e.delivery.attempts
         && f.delivery.version == e.delivery.version + 1
       else
         && Claimable(e.delivery.status)
         && (f.delivery.status == Retrying || f.delivery.status == Sent || f.delivery.status == DeadLetter)
         && f.delivery.attempts == e.delivery.attempts + 1
         && f.delivery.version == e.delivery.version + 2
  }

  ghost predicate LegalLog(log: seq<Event>) {
    && |log| >= 1
    && FirstEvent(log[0])
    && forall i | 0 < i < |log| :: Link(log[i - 1], log[i])
  }

  /** The last event is the row, or the row as it was before the claim it is now under. */
  ghost predicate LastMatches(e: Event, d: Delivery) {
    if d.status == Processing then
      Claimable(e.delivery.status) && Claimed(e.delivery, d.updatedAt) == Published(d)
    else
      e.delivery == Published(d)
  }

  ghost predicate LogOk(outbox: seq<Event>, d: Delivery) {
    var log := Log(outbox, d.id);
    LegalLog(log) && |log| == d.version - d.attempts && LastMatches(log[|log| - 1], d)
  }

  // ----- the whole state, one predicate per table or kind of actor

  ghost predicate RowsOk(cfg: Config, rows: Rows, clock: Time) {
    forall id | id in rows :: rows[id].id == id && RowOk(cfg, clock, rows[id])
  }

  ghost predicate LogsOk(rows: Rows, retired: set<Id>, outbox: seq<Event>) {
    && (forall id | id in rows :: LogOk(outbox, rows[id]))
    && (forall id | id in retired :: LegalLog(Log(outbox, id)))
    && (forall e | e in outbox :: e.delivery.id in rows || e.delivery.id in retired)
  }

  /** Ids are never reused, and the unique index holds. */
  ghost predicate KeysOk(rows: Rows, retired: set<Id>, used: set<Id>) {
    && (forall id | id in rows :: id in used && id !in retired)
    && retired <= used
    && (forall a, b | a in rows && b in rows && a != b :: Scope(rows[a].req) != Scope(rows[b].req))
  }

  /** A stamped id is new; the row is what `Send` makes of it. */
  ghost predicate CallerOk(c: Caller, rows: Rows, retired: set<Id>, used: set<Id>, clock: Time) {
    c.Stamped? ==>
      && c.row.id in used && c.row.id !in rows && c.row.id !in retired
      && c.row.createdAt <= clock
      && c.row == NewDelivery(c.row.id, c.row.req, c.row.createdAt, c.row.createdBy)
  }

  ghost predicate CallersOk(callers: map<nat, Caller>, rows: Rows, retired: set<Id>, used: set<Id>, clock: Time) {
    && (forall c | c in callers :: CallerOk(callers[c], rows, retired, used, clock))
    && (forall c, c' | c in callers && c' in callers && c != c' && callers[c].Stamped? && callers[c'].Stamped? ::
          callers[c].row.id != callers[c'].row.id)
  }

  /** A locked row is still what the open claim transaction read. */
  ghost predicate BatchOk(b: Batch, rows: Rows, clock: Time) {
    && b.now <= clock
    && forall id | id in b.rows ::
         id in rows && rows[id] == b.rows[id] && Claimable(b.rows[id].status) && b.rows[id].nextAttempt <= b.now
  }

  /** No two open claim transactions have a row in common. */
  ghost predicate BatchesOk(batches: map<nat, Batch>, rows: Rows, clock: Time) {
    && (forall w | w in batches :: BatchOk(batches[w], rows, clock))
    && (forall w, v, id | w in batches && v in batches && id in batches[w].rows && id in batches[v].rows :: w == v)
  }

  predicate Filled(o: Outcome) {
    o.Accepted? ==> o.provider != "" && o.messageId != ""
  }

  /** A live claim is the stored row, which is processing. */
  ghost predicate ClaimOk(c: Claim, id: Id, rows: Rows, clock: Time) {
    && id in rows
    && c.row == rows[id]
    && c.row.status == Processing
    && (c.Settled? ==> c.row.updatedAt <= c.at <= clock && Filled(c.outcome))
  }

  /** Claim exclusivity: one live claim per delivery, whoever holds it. */
  ghost predicate ClaimsOk(claims: map<Token, Claim>, rows: Rows, clock: Time) {
    && (forall t | t in claims :: ClaimOk(claims[t], t.1, rows, clock))
    && (forall t, u | t in claims && u in claims && t.1 == u.1 :: t == u)
  }

  /** A receipt read a sent row; unless that row has moved on or is gone, it is unchanged. */
  ghost predicate ReceiptOk(r: Receipt, rows: Rows, retired: set<Id>, clock: Time) {
    && ReceiptStatus(r.status)
    && r.row.status == Sent
    && r.row.updatedAt <= r.since <= clock
    && (r.row.id in rows || r.row.id in retired)
    && (r.row.id in rows ==>
          && rows[r.row.id].version >= r.row.version
          && (rows[r.row.id].version == r.row.version ==> rows[r.row.id] == r.row))
  }

  ghost predicate ReceiptsOk(receipts: map<nat, Receipt>, rows: Rows, retired: set<Id>, clock: Time) {
    forall k | k in receipts :: ReceiptOk(receipts[k], rows, retired, clock)
  }

  ghost predicate RepliesOk(replies: set<((string, string, string), Id)>, rows: Rows, retired: set<Id>) {
    forall r | r in replies :: r.1 in retired || (r.1 in rows && Scope(rows[r.1].req) == r.0)
  }

  predicate Accepting(c: Claim) {
    c.Settled? && c.outcome.Accepted?
  }

  /** A provider accepted a delivery at most once, and a sent row carries its answer. */
  ghost predicate AcceptedRows(accepted: multiset<Id>, answers: map<Id, Outcome>, rows: Rows, retired: set<Id>) {
    && (forall id | id in accepted ::
          && accepted[id] == 1
          && (id in rows || id in retired)
          && (id in rows ==> SentLike(rows[id].status) || rows[id].status == Processing))
    && (forall id | id in rows && SentLike(rows[id].status) ::
          id in accepted && id in answers && answers[id] == Accepted(rows[id].provider, rows[id].messageId))
  }

  /** A live claim is about to write the answer exactly when there was one. */
  ghost predicate AcceptedClaims(accepted: multiset<Id>, answers: map<Id, Outcome>, claims: map<Token, Claim>) {
    forall t | t in claims ::
      && (Accepting(claims[t]) <==> t.1 in accepted)
      && (Accepting(claims[t]) ==> t.1 in answers && answers[t.1] == claims[t].outcome)
  }

  ghost predicate AcceptedOk(accepted: multiset<Id>, answers: map<Id, Outcome>, claims: map<Token, Claim>, rows: Rows,
                             retired: set<Id>) {
    AcceptedRows(accepted, answers, rows, retired) && AcceptedClaims(accepted, answers, claims)
  }

  /** HTTP calls never outnumber the attempts that were started. */
  ghost predicate CallsOk(cfg: Config, calls: multiset<Id>, claims: map<Token, Claim>, rows: Rows, retired: set<Id>) {
    && (forall id | id in calls :: id in rows || id in retired)
    && (forall id | id in rows :: calls[id] <= rows[id].attempts)
    && (forall id | id in retired :: calls[id] <= cfg.maxAttempts)
    && (forall t | t in claims && claims[t].Held? :: calls[t.1] < claims[t].row.attempts)
  }

  ghost predicate Inv(cfg: Config, s: State) {
    && RowsOk(cfg, s.db.rows, s.clock)
    && LogsOk(s.db.rows, s.retired, s.db.outbox)
    && KeysOk(s.db.rows, s.retired, s.used)
    && CallersOk(s.callers, s.db.rows, s.retired, s.used, s.clock)
    && BatchesOk(s.batches, s.db.rows, s.clock)
    && ClaimsOk(s.claims, s.db.rows, s.clock)
    && ReceiptsOk(s.receipts, s.db.rows, s.retired, s.clock)
    && RepliesOk(s.replies, s.db.rows, s.retired)
    && AcceptedOk(s.accepted, s.answers, s.claims, s.db.rows, s.retired)
    && CallsOk(cfg, s.calls, s.claims, s.db.rows, s.retired)
  }
}
