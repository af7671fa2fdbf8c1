/** Every step keeps the invariant. */
module Preservation {
  import opened Results
  import opened Backoff
  import opened Deliveries
  import opened Store
  import opened Protocol
  import opened Invariant
  import Outbound

  lemma StartInv(cfg: Config, clock: Time)
    ensures Inv(cfg, Start(clock))
  {
  }

  // ----- steps that do not write the database

  lemma TickInv(cfg: Config, s: State, to: Time)
    requires Inv(cfg, s) && Enabled(cfg, s, Tick(to))
    ensures Inv(cfg, Apply(cfg, s, Tick(to)))
  {
  }

  lemma CallerStepsInv(cfg: Config, s: State, a: Action)
    requires Inv(cfg, s) && Enabled(cfg, s, a)
    requires a.CheckKey? || a.Replay? || a.StampSend? || a.AbandonSend?
    ensures Inv(cfg, Apply(cfg, s, a))
  {
    hide RowsOk, LogsOk, BatchesOk, ClaimsOk, ReceiptsOk, AcceptedOk, CallsOk;
  }

  lemma SelectDueInv(cfg: Config, s: State, w: nat, now: Time, batch: seq<Delivery>)
    requires Inv(cfg, s) && Enabled(cfg, s, SelectDue(w, now, batch))
    ensures Inv(cfg, Apply(cfg, s, SelectDue(w, now, batch)))
  {
    hide RowsOk, LogsOk, KeysOk, CallersOk, BatchesOk, ClaimsOk, ReceiptsOk, RepliesOk, AcceptedOk, CallsOk;
    NewBatchOk(s.batches, s.db.rows, s.clock, w, now, cfg.batchSize, batch);
  }

  lemma NewBatchOk(batches: map<nat, Batch>, rows: Rows, clock: Time, w: nat, now: Time, limit: int,
                   batch: seq<Delivery>)
    requires BatchesOk(batches, rows, clock) && w !in batches && now <= clock
    requires IsDueBatch(rows, Locked(batches), now, limit, batch)
    ensures BatchesOk(batches[w := Batch(now, map id | id in Ids(batch) :: rows[id])], rows, clock)
  {
  }

  lemma AbortInv(cfg: Config, s: State, a: Action)
    requires Inv(cfg, s) && Enabled(cfg, s, a)
    requires a.AbortClaim? || a.DropReceipt? || a.SelectExpired?
    ensures Inv(cfg, Apply(cfg, s, a))
  {
    hide RowsOk, LogsOk, KeysOk, CallersOk, ClaimsOk, RepliesOk, AcceptedOk, CallsOk;
  }

  lemma DropClaimInv(cfg: Config, s: State, w: nat, id: Id)
    requires Inv(cfg, s) && Enabled(cfg, s, DropClaim(w, id))
    ensures Inv(cfg, Apply(cfg, s, DropClaim(w, id)))
  {
    hide RowsOk, LogsOk, KeysOk, CallersOk, BatchesOk, ClaimsOk, ReceiptsOk, RepliesOk, AcceptedOk, CallsOk;
    FewerClaims(cfg, s, (w, id));
  }

  lemma FewerClaims(cfg: Config, s: State, t: Token)
    requires ClaimsOk(s.claims, s.db.rows, s.clock) && AcceptedOk(s.accepted, s.answers, s.claims, s.db.rows, s.retired)
    requires CallsOk(cfg, s.calls, s.claims, s.db.rows, s.retired)
    ensures ClaimsOk(Without(s.claims, t), s.db.rows, s.clock)
    ensures AcceptedOk(s.accepted, s.answers, Without(s.claims, t), s.db.rows, s.retired)
    ensures CallsOk(cfg, s.calls, Without(s.claims, t), s.db.rows, s.retired)
  {
  }

  lemma ReadReceiptInv(cfg: Config, s: State, a: Action)
    requires Inv(cfg, s) && Enabled(cfg, s, a) && a.ReadReceipt?
    ensures Inv(cfg, Apply(cfg, s, a))
  {
    hide RowsOk, LogsOk, KeysOk, CallersOk, BatchesOk, ClaimsOk, ReceiptsOk, RepliesOk, AcceptedOk, CallsOk;
    var r := Receipt(s.db.rows[a.id], s.clock, a.status, a.reason, a.actor);
    ReadRowOk(cfg, s, a.id, r);
    NewReceiptOk(s.receipts, s.db.rows, s.retired, s.clock, a.k, r);
  }

  /** Only a sent row has a message id to look up and no terminal status. */
  lemma ReadRowOk(cfg: Config, s: State, id: Id, r: Receipt)
    requires RowsOk(cfg, s.db.rows, s.clock) && id in s.db.rows
    requires r.row == s.db.rows[id] && r.since == s.clock && ReceiptStatus(r.status)
    requires s.db.rows[id].provider != "" && !Terminal(s.db.rows[id].status)
    ensures ReceiptOk(r, s.db.rows, s.retired, s.clock)
  {
    assert RowOk(cfg, s.clock, s.db.rows[id]);
  }

  lemma NewReceiptOk(receipts: map<nat, Receipt>, rows: Rows, retired: set<Id>, clock: Time, k: nat, r: Receipt)
    requires ReceiptsOk(receipts, rows, retired, clock) && ReceiptOk(r, rows, retired, clock)
    ensures ReceiptsOk(receipts[k := r], rows, retired, clock)
  {
  }

  lemma DeliverInv(cfg: Config, s: State, w: nat, id: Id, outcome: Outcome, posts: nat)
    requires Inv(cfg, s) && Enabled(cfg, s, Deliver(w, id, outcome, posts))
    ensures Inv(cfg, Apply(cfg, s, Deliver(w, id, outcome, posts)))
  {
    hide RowsOk, LogsOk, KeysOk, CallersOk, BatchesOk, ClaimsOk, ReceiptsOk, RepliesOk, AcceptedOk, CallsOk;
    Outbound.PlainPostIsOneCall(cfg.httpAttempts);
    ProcessingClock(cfg, s, (w, id));
    DeliverClaims(s.claims, (w, id), outcome, s.db.rows, s.clock);
    DeliverAccepted(s.accepted, s.answers, s.claims, (w, id), outcome, s.clock, s.db.rows, s.retired);
    DeliverCalls(cfg, s.calls, s.claims, (w, id), outcome, s.clock, posts, s.db.rows, s.retired);
  }

  /** A claimed row is live, so it is not retired, and it was claimed in the past. */
  lemma ProcessingClock(cfg: Config, s: State, t: Token)
    requires RowsOk(cfg, s.db.rows, s.clock) && KeysOk(s.db.rows, s.retired, s.used)
    requires ClaimsOk(s.claims, s.db.rows, s.clock) && t in s.claims
    ensures s.claims[t].row.updatedAt <= s.clock && t.1 !in s.retired
  {
    assert ClaimOk(s.claims[t], t.1, s.db.rows, s.clock);
    assert RowOk(cfg, s.clock, s.db.rows[t.1]);
  }

  lemma DeliverClaims(claims: map<Token, Claim>, t: Token, outcome: Outcome, rows: Rows, clock: Time)
    requires ClaimsOk(claims, rows, clock) && t in claims && Filled(outcome) && claims[t].row.updatedAt <= clock
    ensures ClaimsOk(claims[t := Settled(claims[t].row, outcome, clock)], rows, clock)
  {
  }

  lemma DeliverAccepted(accepted: multiset<Id>, answers: map<Id, Outcome>, claims: map<Token, Claim>, t: Token,
                        outcome: Outcome, at: Time,
                        rows: Rows, retired: set<Id>)
    requires AcceptedOk(accepted, answers, claims, rows, retired) && ClaimsOk(claims, rows, at)
    requires t in claims && claims[t].Held?
    ensures AcceptedOk(if outcome.Accepted? then accepted + multiset{t.1} else accepted,
                       if outcome.Accepted? then answers[t.1 := outcome] else answers,
                       claims[t := Settled(claims[t].row, outcome, at)], rows, retired)
  {
  }

  lemma DeliverCalls(cfg: Config, calls: multiset<Id>, claims: map<Token, Claim>, t: Token, outcome: Outcome, at: Time,
                     posts: nat, rows: Rows, retired: set<Id>)
    requires CallsOk(cfg, calls, claims, rows, retired) && ClaimsOk(claims, rows, at)
    requires t in claims && claims[t].Held? && posts <= 1 && t.1 !in retired
    ensures var claims' := claims[t := Settled(claims[t].row, outcome, at)];
            CallsOk(cfg, calls[t.1 := calls[t.1] + posts], claims', rows, retired)
  {
  }

  // ----- rows that change or go away, and what does not notice

  /** One UPDATE: the version goes up, the inserted columns stay. */
  predicate Bumped(d: Delivery, d': Delivery) {
    d'.id == d.id && d'.req == d.req && d'.createdAt == d.createdAt && d'.version == d.version + 1
  }

  /** Rows in `touched` were updated once, rows in `gone` were deleted, all others are as before. */
  ghost predicate Evolves(rows: Rows, rows': Rows, touched: set<Id>, gone: set<Id>) {
    && rows'.Keys == rows.Keys - gone
    && forall id | id in rows' :: if id in touched then Bumped(rows[id], rows'[id]) else rows'[id] == rows[id]
  }

  /** The four kinds of facts that any mix of updates and deletions keeps. */
  lemma EvolveKeeps(s: State, rows': Rows, touched: set<Id>, gone: set<Id>, retired': set<Id>)
    requires Evolves(s.db.rows, rows', touched, gone) && gone <= s.db.rows.Keys && retired' == s.retired + gone
    requires KeysOk(s.db.rows, s.retired, s.used) && CallersOk(s.callers, s.db.rows, s.retired, s.used, s.clock)
    requires RepliesOk(s.replies, s.db.rows, s.retired) && ReceiptsOk(s.receipts, s.db.rows, s.retired, s.clock)
    ensures KeysOk(rows', retired', s.used) && CallersOk(s.callers, rows', retired', s.used, s.clock)
    ensures RepliesOk(s.replies, rows', retired') && ReceiptsOk(s.receipts, rows', retired', s.clock)
  {
  }

  // ----- what one write does to a row and to its log

  lemma ClaimedRowOk(cfg: Config, clock: Time, d: Delivery, now: Time)
    requires RowOk(cfg, clock, d) && Claimable(d.status) && d.nextAttempt <= now <= clock && cfg.maxAttempts >= 1
    ensures RowOk(cfg, clock, Claimed(d, now))
  {
  }

  lemma SettledRowOk(cfg: Config, clock: Time, d: Delivery, outcome: Outcome, at: Time)
    requires RowOk(cfg, clock, d) && d.status == Processing && d.updatedAt <= at <= clock && Filled(outcome)
    ensures RowOk(cfg, clock, Stored(d, Settle(cfg, d, outcome, at)))
  {
  }

  lemma ReceiptRowOk(cfg: Config, clock: Time, d: Delivery, status: Status, reason: string, now: Time, actor: string)
    requires RowOk(cfg, clock, d) && d.status == Sent && ReceiptStatus(status) && d.updatedAt <= now <= clock
    ensures RowOk(cfg, clock, Stored(d, WithReceipt(d, status, reason, now, actor)))
  {
  }

  /** Events of other deliveries do not disturb a log. */
  lemma OtherLogOk(outbox: seq<Event>, e: Event, d: Delivery)
    requires LogOk(outbox, d) && e.delivery.id != d.id
    ensures LogOk(outbox + [e], d)
  {
  }

  lemma ClaimedLogOk(outbox: seq<Event>, d: Delivery, now: Time)
    requires LogOk(outbox, d) && Claimable(d.status)
    ensures LogOk(outbox, Claimed(d, now))
  {
  }

  /** The event of a finished attempt continues the log and matches the finished row. */
  lemma SettledLogOk(cfg: Config, outbox: seq<Event>, d: Delivery, outcome: Outcome, at: Time)
    requires LogOk(outbox, d) && d.status == Processing
    ensures var v := Settle(cfg, d, outcome, at);
            var sent := v.(version := d.version + 1, req := v.req.(locale := "", key := ""));
            LogOk(outbox + [Event(StatusChanged, sent)], Stored(d, v))
  {
  }

  lemma ReceiptLogOk(outbox: seq<Event>, d: Delivery, status: Status, reason: string, now: Time, actor: string)
    requires LogOk(outbox, d) && d.status == Sent && ReceiptStatus(status)
    ensures var v := WithReceipt(d, status, reason, now, actor);
            var sent := v.(version := d.version + 1, req := v.req.(locale := "", key := ""));
            LogOk(outbox + [Event(StatusChanged, sent)], Stored(d, v))
  {
  }

  /** A Finish whose own row and log come out right keeps every row and every log right. */
  lemma FinishKeeps(cfg: Config, s: State, v: Delivery, expected: int)
    requires RowsOk(cfg, s.db.rows, s.clock) && LogsOk(s.db.rows, s.retired, s.db.outbox)
    requires KeysOk(s.db.rows, s.retired, s.used)
    requires Finish(s.db, v, expected).Success?
    requires RowOk(cfg, s.clock, Stored(s.db.rows[v.id], v))
    requires LogOk(Finish(s.db, v, expected).value.outbox, Stored(s.db.rows[v.id], v))
    ensures var db' := Finish(s.db, v, expected).value;
            RowsOk(cfg, db'.rows, s.clock) && LogsOk(db'.rows, s.retired, db'.outbox)
  {
    var db' := Finish(s.db, v, expected).value;
    var e := db'.outbox[|s.db.outbox|];
    forall id | id in db'.rows
      ensures LogOk(db'.outbox, db'.rows[id])
    {
      if id != v.id {
        OtherLogOk(s.db.outbox, e, s.db.rows[id]);
      }
    }
    forall id | id in s.retired
      ensures LegalLog(Log(db'.outbox, id))
    {
      LogAppend(s.db.outbox, e, id);
    }
  }

  lemma FinishEvolves(db: Db, v: Delivery, expected: int)
    requires Finish(db, v, expected).Success? && db.rows[v.id].id == v.id
    ensures Evolves(db.rows, Finish(db, v, expected).value.rows, {v.id}, {})
  {
  }

  // ----- a dispatcher finishes

  lemma CommitFinishInv(cfg: Config, s: State, w: nat, id: Id)
    requires Inv(cfg, s) && Enabled(cfg, s, CommitFinish(w, id))
    ensures Inv(cfg, Apply(cfg, s, CommitFinish(w, id)))
  {
    hide RowsOk, LogsOk, KeysOk, CallersOk, BatchesOk, ClaimsOk, ReceiptsOk, RepliesOk, AcceptedOk, CallsOk;
    hide RowOk, LogOk, Settle, Stored, Evolves;
    var c := s.claims[(w, id)];
    var v := FinishValue(cfg, c);
    var rows' := Finish(s.db, v, c.row.version).value.rows;
    LiveClaim(cfg, s, (w, id));
    SettledRowOk(cfg, s.clock, c.row, c.outcome, c.at);
    SettledLogOk(cfg, s.db.outbox, c.row, c.outcome, c.at);
    FinishKeeps(cfg, s, v, c.row.version);
    FinishEvolves(s.db, v, c.row.version);
    EvolveKeeps(s, rows', {id}, {}, s.retired);
    FinishBatches(s, rows', id);
    FinishClaims(s, rows', (w, id));
    FinishAccepted(cfg, s, rows', (w, id));
    FinishCalls(cfg, s, rows', (w, id));
  }

  /** What a claim knows about its row, with the row facts unpacked. */
  lemma LiveClaim(cfg: Config, s: State, t: Token)
    requires RowsOk(cfg, s.db.rows, s.clock) && LogsOk(s.db.rows, s.retired, s.db.outbox)
    requires ClaimsOk(s.claims, s.db.rows, s.clock) && t in s.claims
    ensures ClaimOk(s.claims[t], t.1, s.db.rows, s.clock)
    ensures s.claims[t].row.id == t.1
    ensures RowOk(cfg, s.clock, s.claims[t].row) && LogOk(s.db.outbox, s.claims[t].row)
  {
  }

  /** A row that is not waiting in the queue is in nobody's claim transaction. */
  lemma FinishBatches(s: State, rows': Rows, id: Id)
    requires BatchesOk(s.batches, s.db.rows, s.clock) && id in s.db.rows && !Claimable(s.db.rows[id].status)
    requires Evolves(s.db.rows, rows', {id}, {})
    ensures BatchesOk(s.batches, rows', s.clock)
  {
  }

  lemma FinishClaims(s: State, rows': Rows, t: Token)
    requires ClaimsOk(s.claims, s.db.rows, s.clock) && t in s.claims
    requires Evolves(s.db.rows, rows', {t.1}, {})
    ensures ClaimsOk(Without(s.claims, t), rows', s.clock)
  {
  }

  lemma FinishAccepted(cfg: Config, s: State, rows': Rows, t: Token)
    requires AcceptedOk(s.accepted, s.answers, s.claims, s.db.rows, s.retired) && ClaimsOk(s.claims, s.db.rows, s.clock)
    requires t in s.claims && s.claims[t].Settled?
    requires rows' == s.db.rows[t.1 := Stored(s.db.rows[t.1], FinishValue(cfg, s.claims[t]))]
    ensures AcceptedOk(s.accepted, s.answers, Without(s.claims, t), rows', s.retired)
  {
  }

  lemma FinishCalls(cfg: Config, s: State, rows': Rows, t: Token)
    requires CallsOk(cfg, s.calls, s.claims, s.db.rows, s.retired) && ClaimsOk(s.claims, s.db.rows, s.clock)
    requires t in s.claims && s.claims[t].Settled?
    requires rows' == s.db.rows[t.1 := Stored(s.db.rows[t.1], FinishValue(cfg, s.claims[t]))]
    ensures CallsOk(cfg, s.calls, Without(s.claims, t), rows', s.retired)
  {
  }

  // ----- a receipt is recorded

  lemma CommitReceiptInv(cfg: Config, s: State, k: nat, now: Time)
    requires Inv(cfg, s) && Enabled(cfg, s, CommitReceipt(k, now))
    ensures Inv(cfg, Apply(cfg, s, CommitReceipt(k, now)))
  {
    hide RowsOk, LogsOk, KeysOk, CallersOk, BatchesOk, ClaimsOk, ReceiptsOk, RepliesOk, AcceptedOk, CallsOk;
    hide RowOk, LogOk, Stored, Evolves;
    var r := s.receipts[k];
    var v := ReceiptValue(r, now);
    var rows' := Finish(s.db, v, r.row.version).value.rows;
    LiveReceipt(cfg, s, k);
    ReceiptRowOk(cfg, s.clock, r.row, r.status, r.reason, now, r.actor);
    ReceiptLogOk(s.db.outbox, r.row, r.status, r.reason, now, r.actor);
    FinishKeeps(cfg, s, v, r.row.version);
    FinishEvolves(s.db, v, r.row.version);
    EvolveKeeps(s, rows', {v.id}, {}, s.retired);
    FinishBatches(s, rows', v.id);
    ReceiptClaims(s, rows', v.id);
    ReceiptHistory(cfg, s, rows', v);
    DroppedReceipt(s.receipts, k, rows', s.retired, s.clock);
  }

  /** A receipt whose version still matches holds the row itself, and that row is sent. */
  lemma LiveReceipt(cfg: Config, s: State, k: nat)
    requires RowsOk(cfg, s.db.rows, s.clock) && LogsOk(s.db.rows, s.retired, s.db.outbox)
    requires ReceiptsOk(s.receipts, s.db.rows, s.retired, s.clock) && k in s.receipts
    requires var r := s.receipts[k]; r.row.id in s.db.rows && s.db.rows[r.row.id].version == r.row.version
    ensures ReceiptOk(s.receipts[k], s.db.rows, s.retired, s.clock)
    ensures var d := s.receipts[k].row; s.db.rows[d.id] == d && RowOk(cfg, s.clock, d) && LogOk(s.db.outbox, d)
  {
    assert ReceiptOk(s.receipts[k], s.db.rows, s.retired, s.clock);
  }

  lemma DroppedReceipt(receipts: map<nat, Receipt>, k: nat, rows: Rows, retired: set<Id>, clock: Time)
    requires ReceiptsOk(receipts, rows, retired, clock)
    ensures ReceiptsOk(Without(receipts, k), rows, retired, clock)
  {
  }

  lemma ReceiptClaims(s: State, rows': Rows, id: Id)
    requires ClaimsOk(s.claims, s.db.rows, s.clock) && id in s.db.rows && s.db.rows[id].status != Processing
    requires Evolves(s.db.rows, rows', {id}, {})
    ensures ClaimsOk(s.claims, rows', s.clock)
  {
  }

  lemma ReceiptHistory(cfg: Config, s: State, rows': Rows, v: Delivery)
    requires AcceptedOk(s.accepted, s.answers, s.claims, s.db.rows, s.retired)
    requires CallsOk(cfg, s.calls, s.claims, s.db.rows, s.retired)
    requires v.id in s.db.rows && s.db.rows[v.id].status == Sent && ReceiptStatus(v.status)
    requires v.provider == s.db.rows[v.id].provider && v.messageId == s.db.rows[v.id].messageId
    requires rows' == s.db.rows[v.id := Stored(s.db.rows[v.id], v)]
    ensures AcceptedOk(s.accepted, s.answers, s.claims, rows', s.retired)
              && CallsOk(cfg, s.calls, s.claims, rows', s.retired)
  {
  }

  // ----- a claim commits

  lemma CommitClaimInv(cfg: Config, s: State, w: nat, acked: bool)
    requires Inv(cfg, s) && Configured(cfg) && Enabled(cfg, s, CommitClaim(w, acked))
    ensures Inv(cfg, Apply(cfg, s, CommitClaim(w, acked)))
  {
    hide RowsOk, LogsOk, KeysOk, CallersOk, BatchesOk, ClaimsOk, ReceiptsOk, RepliesOk, AcceptedOk, CallsOk, BatchOk,
        Evolves, ClaimMatches, ClaimRows, Handed;
    var b := s.batches[w];
    var rows' := ClaimRows(s.db.rows, b.rows.Keys, b.now);
    var handed := if acked then Handed(w, b) else map[];
    OpenBatch(s, w);
    ClaimKeeps(cfg, s, b);
    ClaimEvolves(s, b, rows');
    EvolveKeeps(s, rows', b.rows.Keys, {}, s.retired);
    ClaimBatches(s, rows', w);
    ClaimClaims(s, rows', w, handed);
    HandedRows(w, b);
    ClaimAccepted(s, rows', b, handed);
    ClaimCalls(cfg, s, rows', b, handed);
    assert s.claims + map[] == s.claims;
  }

  lemma HandedRows(w: nat, b: Batch)
    ensures forall t | t in Handed(w, b) :: t.1 in b.rows && Handed(w, b)[t] == Held(Claimed(b.rows[t.1], b.now))
  {
  }

  lemma OpenBatch(s: State, w: nat)
    requires BatchesOk(s.batches, s.db.rows, s.clock) && w in s.batches
    ensures BatchOk(s.batches[w], s.db.rows, s.clock)
  {
  }

  lemma ClaimKeeps(cfg: Config, s: State, b: Batch)
    requires RowsOk(cfg, s.db.rows, s.clock) && LogsOk(s.db.rows, s.retired, s.db.outbox)
    requires BatchOk(b, s.db.rows, s.clock) && cfg.maxAttempts >= 1
    ensures var rows' := ClaimRows(s.db.rows, b.rows.Keys, b.now);
            RowsOk(cfg, rows', s.clock) && LogsOk(rows', s.retired, s.db.outbox)
  {
    forall id | id in s.db.rows && id in b.rows
      ensures RowOk(cfg, s.clock, Claimed(s.db.rows[id], b.now))
      ensures LogOk(s.db.outbox, Claimed(s.db.rows[id], b.now))
    {
      ClaimedRowOk(cfg, s.clock, s.db.rows[id], b.now);
      ClaimedLogOk(s.db.outbox, s.db.rows[id], b.now);
    }
  }

  lemma ClaimEvolves(s: State, b: Batch, rows': Rows)
    requires BatchOk(b, s.db.rows, s.clock) && rows' == ClaimRows(s.db.rows, b.rows.Keys, b.now)
    ensures Evolves(s.db.rows, rows', b.rows.Keys, {})
  {
  }

  lemma ClaimBatches(s: State, rows': Rows, w: nat)
    requires BatchesOk(s.batches, s.db.rows, s.clock) && w in s.batches
    requires Evolves(s.db.rows, rows', s.batches[w].rows.Keys, {})
    ensures BatchesOk(Without(s.batches, w), rows', s.clock)
  {
  }

  lemma ClaimClaims(s: State, rows': Rows, w: nat, handed: map<Token, Claim>)
    requires BatchesOk(s.batches, s.db.rows, s.clock) && ClaimsOk(s.claims, s.db.rows, s.clock) && w in s.batches
    requires rows' == ClaimRows(s.db.rows, s.batches[w].rows.Keys, s.batches[w].now)
    requires handed == Handed(w, s.batches[w]) || handed == map[]
    ensures ClaimsOk(s.claims + handed, rows', s.clock)
  {
    hide BatchesOk, ClaimsOk, ClaimOk, BatchOk, ClaimRows;
    var b := s.batches[w];
    OpenBatch(s, w);
    ClaimOthers(s, rows', b);
    ClaimHanded(s, rows', w, b);
    UnionClaims(s.claims, handed, rows', s.db.rows, s.clock, w, b.rows.Keys);
  }

  lemma UnionClaims(claims: map<Token, Claim>, handed: map<Token, Claim>, rows': Rows, rows: Rows, clock: Time,
                    w: nat, ids: set<Id>)
    requires ClaimsOk(claims, rows, clock)
    requires forall t | t in claims :: t.1 !in ids && ClaimOk(claims[t], t.1, rows', clock)
    requires forall t | t in handed :: t.0 == w && t.1 in ids && ClaimOk(handed[t], t.1, rows', clock)
    ensures ClaimsOk(claims + handed, rows', clock)
  {
  }

  /** A waiting row has no claim, so claims that exist keep their rows. */
  lemma ClaimOthers(s: State, rows': Rows, b: Batch)
    requires BatchOk(b, s.db.rows, s.clock) && ClaimsOk(s.claims, s.db.rows, s.clock)
    requires rows' == ClaimRows(s.db.rows, b.rows.Keys, b.now)
    ensures forall t | t in s.claims :: t.1 !in b.rows && ClaimOk(s.claims[t], t.1, rows', s.clock)
  {
  }

  lemma ClaimHanded(s: State, rows': Rows, w: nat, b: Batch)
    requires BatchOk(b, s.db.rows, s.clock) && rows' == ClaimRows(s.db.rows, b.rows.Keys, b.now)
    ensures forall t | t in Handed(w, b) ::
              t.0 == w && t.1 in b.rows && Handed(w, b)[t].Held? && ClaimOk(Handed(w, b)[t], t.1, rows', s.clock)
  {
  }

  lemma ClaimAccepted(s: State, rows': Rows, b: Batch, handed: map<Token, Claim>)
    requires AcceptedOk(s.accepted, s.answers, s.claims, s.db.rows, s.retired) && BatchOk(b, s.db.rows, s.clock)
    requires rows' == ClaimRows(s.db.rows, b.rows.Keys, b.now)
    requires forall t | t in handed :: t.1 in b.rows && handed[t].Held?
    ensures AcceptedOk(s.accepted, s.answers, s.claims + handed, rows', s.retired)
  {
    hide BatchOk, AcceptedRows, AcceptedClaims, ClaimRows;
    WaitingNotAccepted(s, b);
    ClaimAcceptedRows(s, rows', b);
    ClaimAcceptedClaims(s, b, handed);
  }

  lemma WaitingNotAccepted(s: State, b: Batch)
    requires AcceptedRows(s.accepted, s.answers, s.db.rows, s.retired) && BatchOk(b, s.db.rows, s.clock)
    ensures forall id | id in b.rows :: id in s.db.rows && id !in s.accepted
  {
  }

  lemma ClaimAcceptedRows(s: State, rows': Rows, b: Batch)
    requires AcceptedRows(s.accepted, s.answers, s.db.rows, s.retired)
    requires forall id | id in b.rows :: id in s.db.rows && id !in s.accepted
    requires rows' == ClaimRows(s.db.rows, b.rows.Keys, b.now)
    ensures AcceptedRows(s.accepted, s.answers, rows', s.retired)
  {
  }

  lemma ClaimAcceptedClaims(s: State, b: Batch, handed: map<Token, Claim>)
    requires AcceptedClaims(s.accepted, s.answers, s.claims)
    requires forall id | id in b.rows :: id !in s.accepted
    requires forall t | t in handed :: t.1 in b.rows && handed[t].Held?
    ensures AcceptedClaims(s.accepted, s.answers, s.claims + handed)
  {
  }

  lemma ClaimCalls(cfg: Config, s: State, rows': Rows, b: Batch, handed: map<Token, Claim>)
    requires CallsOk(cfg, s.calls, s.claims, s.db.rows, s.retired) && BatchOk(b, s.db.rows, s.clock)
    requires rows' == ClaimRows(s.db.rows, b.rows.Keys, b.now)
    requires forall t | t in handed :: t.1 in b.rows && handed[t] == Held(Claimed(b.rows[t.1], b.now))
    ensures CallsOk(cfg, s.calls, s.claims + handed, rows', s.retired)
  {
  }

  // ----- a send commits

  lemma CommitSendInv(cfg: Config, s: State, c: nat, acked: bool)
    requires Inv(cfg, s) && Configured(cfg) && Enabled(cfg, s, CommitSend(c, acked))
    ensures Inv(cfg, Apply(cfg, s, CommitSend(c, acked)))
  {
    hide RowsOk, LogsOk, KeysOk, CallersOk, BatchesOk, ClaimsOk, ReceiptsOk, RepliesOk, AcceptedOk, CallsOk;
    var d := s.callers[c].row;
    var replies' := if acked then s.replies + {(Scope(d.req), d.id)} else s.replies;
    StampedCaller(s, c);
    InsertKeeps(cfg, s, d);
    InsertKeysCallers(s, c);
    InsertActors(s, d);
    InsertHistory(cfg, s, d, replies');
  }

  lemma StampedCaller(s: State, c: nat)
    requires CallersOk(s.callers, s.db.rows, s.retired, s.used, s.clock) && c in s.callers
    ensures CallerOk(s.callers[c], s.db.rows, s.retired, s.used, s.clock)
  {
  }

  lemma InsertKeeps(cfg: Config, s: State, d: Delivery)
    requires RowsOk(cfg, s.db.rows, s.clock) && LogsOk(s.db.rows, s.retired, s.db.outbox)
    requires CallerOk(Stamped(d), s.db.rows, s.retired, s.used, s.clock) && InsertDelivery(s.db, d).Success?
    ensures var db' := InsertDelivery(s.db, d).value;
            RowsOk(cfg, db'.rows, s.clock) && LogsOk(db'.rows, s.retired, db'.outbox)
  {
    hide RowOk, LogOk, LegalLog, ScopeTaken, Log;
    var e := Event(Requested, Published(d));
    NewRowOk(cfg, s.clock, d);
    NewLogOk(s, d);
    forall id | id in s.db.rows
      ensures LogOk(s.db.outbox + [e], s.db.rows[id])
    {
      OtherLogOk(s.db.outbox, e, s.db.rows[id]);
    }
    forall id | id in s.retired
      ensures LegalLog(Log(s.db.outbox + [e], id))
    {
      LogAppend(s.db.outbox, e, id);
      assert Log(s.db.outbox, id) + [] == Log(s.db.outbox, id);
    }
  }

  lemma NewRowOk(cfg: Config, clock: Time, d: Delivery)
    requires d == NewDelivery(d.id, d.req, d.createdAt, d.createdBy) && d.createdAt <= clock
    ensures RowOk(cfg, clock, d)
  {
  }

  /** The log of an id nobody has inserted yet starts with the event of the insert. */
  lemma NewLogOk(s: State, d: Delivery)
    requires LogsOk(s.db.rows, s.retired, s.db.outbox) && d.id !in s.db.rows && d.id !in s.retired
    requires d == NewDelivery(d.id, d.req, d.createdAt, d.createdBy)
    ensures LogOk(s.db.outbox + [Event(Requested, Published(d))], d)
  {
    LogOnlyOf(s.db.outbox, d.id);
    LogAppend(s.db.outbox, Event(Requested, Published(d)), d.id);
  }

  lemma InsertKeysCallers(s: State, c: nat)
    requires KeysOk(s.db.rows, s.retired, s.used) && CallersOk(s.callers, s.db.rows, s.retired, s.used, s.clock)
    requires c in s.callers && s.callers[c].Stamped? && !ScopeTaken(s.db.rows, s.callers[c].row.req)
    ensures var d := s.callers[c].row;
            && KeysOk(s.db.rows[d.id := d], s.retired, s.used)
            && CallersOk(Without(s.callers, c), s.db.rows[d.id := d], s.retired, s.used, s.clock)
  {
  }

  lemma InsertActors(s: State, d: Delivery)
    requires d.id !in s.db.rows && d.id !in s.retired
    requires BatchesOk(s.batches, s.db.rows, s.clock) && ClaimsOk(s.claims, s.db.rows, s.clock)
    requires ReceiptsOk(s.receipts, s.db.rows, s.retired, s.clock)
    ensures BatchesOk(s.batches, s.db.rows[d.id := d], s.clock) && ClaimsOk(s.claims, s.db.rows[d.id := d], s.clock)
    ensures ReceiptsOk(s.receipts, s.db.rows[d.id := d], s.retired, s.clock)
  {
  }

  lemma InsertHistory(cfg: Config, s: State, d: Delivery, replies': set<((string, string, string), Id)>)
    requires d.id !in s.db.rows && d.id !in s.retired && d.status == Pending && d.attempts == 0
    requires RepliesOk(s.replies, s.db.rows, s.retired) && replies' <= s.replies + {(Scope(d.req), d.id)}
    requires AcceptedOk(s.accepted, s.answers, s.claims, s.db.rows, s.retired)
    requires CallsOk(cfg, s.calls, s.claims, s.db.rows, s.retired)
    ensures RepliesOk(replies', s.db.rows[d.id := d], s.retired)
    ensures AcceptedOk(s.accepted, s.answers, s.claims, s.db.rows[d.id := d], s.retired)
    ensures CallsOk(cfg, s.calls, s.claims, s.db.rows[d.id := d], s.retired)
  {
  }

  // ----- retention deletes

  lemma DeleteSweepInv(cfg: Config, s: State, k: nat)
    requires Configured(cfg) && Inv(cfg, s) && Enabled(cfg, s, DeleteSweep(k))
    ensures Inv(cfg, Apply(cfg, s, DeleteSweep(k)))
  {
    hide RowsOk, LogsOk, KeysOk, CallersOk, BatchesOk, ClaimsOk, ReceiptsOk, RepliesOk, AcceptedOk, CallsOk;
    var left := DeleteExpired(s.db.rows, s.sweeps[k].ids, s.sweeps[k].before);
    var gone := s.db.rows.Keys - left.Keys;
    assert left.Keys <= s.db.rows.Keys;
    assert Evolves(s.db.rows, left, {}, gone);
    EvolveKeeps(s, left, {}, gone, s.retired + gone);
    DeleteKeeps(cfg, s, left, gone);
    DeleteActors(s, left, gone);
    DeleteHistory(cfg, s, left, gone);
  }

  /** Rows a worker has locked or claimed are neither sent nor dead, so retention cannot take them. */
  lemma DeleteActors(s: State, left: Rows, gone: set<Id>)
    requires Evolves(s.db.rows, left, {}, gone)
    requires forall id | id in gone :: id in s.db.rows
               && (s.db.rows[id].status == Sent || s.db.rows[id].status == DeadLetter)
    requires BatchesOk(s.batches, s.db.rows, s.clock) && ClaimsOk(s.claims, s.db.rows, s.clock)
    ensures BatchesOk(s.batches, left, s.clock) && ClaimsOk(s.claims, left, s.clock)
  {
  }

  lemma DeleteKeeps(cfg: Config, s: State, left: Rows, gone: set<Id>)
    requires Evolves(s.db.rows, left, {}, gone) && gone <= s.db.rows.Keys
    requires RowsOk(cfg, s.db.rows, s.clock) && LogsOk(s.db.rows, s.retired, s.db.outbox)
    ensures RowsOk(cfg, left, s.clock) && LogsOk(left, s.retired + gone, s.db.outbox)
  {
  }

  lemma DeleteHistory(cfg: Config, s: State, left: Rows, gone: set<Id>)
    requires Evolves(s.db.rows, left, {}, gone) && gone <= s.db.rows.Keys
    requires RowsOk(cfg, s.db.rows, s.clock) && cfg.maxAttempts >= 1
    requires AcceptedOk(s.accepted, s.answers, s.claims, s.db.rows, s.retired)
    requires CallsOk(cfg, s.calls, s.claims, s.db.rows, s.retired)
    ensures AcceptedOk(s.accepted, s.answers, s.claims, left, s.retired + gone)
    ensures CallsOk(cfg, s.calls, s.claims, left, s.retired + gone)
  {
  }

  // ----- every step, every run

  lemma StepInv(cfg: Config, s: State, a: Action)
    requires Configured(cfg) && Inv(cfg, s) && Enabled(cfg, s, a)
    ensures Inv(cfg, Apply(cfg, s, a))
  {
    hide Inv, Apply, Enabled;
    match a
    case Tick(to) => TickInv(cfg, s, to);
    case CheckKey(_, _) => CallerStepsInv(cfg, s, a);
    case Replay(_, _) => CallerStepsInv(cfg, s, a);
    case StampSend(_, _, _) => CallerStepsInv(cfg, s, a);
    case AbandonSend(_) => CallerStepsInv(cfg, s, a);
    case CommitSend(c, acked) => CommitSendInv(cfg, s, c, acked);
    case SelectDue(w, now, batch) => SelectDueInv(cfg, s, w, now, batch);
    case CommitClaim(w, acked) => CommitClaimInv(cfg, s, w, acked);
    case AbortClaim(_) => AbortInv(cfg, s, a);
    case DropReceipt(_) => AbortInv(cfg, s, a);
    case SelectExpired(_, _, _) => AbortInv(cfg, s, a);
    case Deliver(w, id, outcome, posts) => DeliverInv(cfg, s, w, id, outcome, posts);
    case CommitFinish(w, id) => CommitFinishInv(cfg, s, w, id);
    case DropClaim(w, id) => DropClaimInv(cfg, s, w, id);
    case ReadReceipt(_, _, _, _, _, _, _) => ReadReceiptInv(cfg, s, a);
    case CommitReceipt(k, now) => CommitReceiptInv(cfg, s, k, now);
    case DeleteSweep(k) => DeleteSweepInv(cfg, s, k);
  }

  /** The invariant holds after every schedule, from every state where it held. */
  lemma {:induction false} ExecInv(cfg: Config, s: State, acts: seq<Action>)
    requires Configured(cfg) && Inv(cfg, s) && Exec(cfg, s, acts).Some?
    ensures Inv(cfg, Exec(cfg, s, acts).value)
  {
    hide Inv, Apply, Enabled;
    if acts != [] {
      var last := |acts| - 1;
      ExecInv(cfg, s, acts[..last]);
      StepInv(cfg, Exec(cfg, s, acts[..last]).value, acts[last]);
    }
  }

  lemma ReachableInv(cfg: Config, s: State)
    requires Configured(cfg) && Reachable(cfg, s)
    ensures Inv(cfg, s)
  {
    hide Inv, Apply, Enabled;
    var clock, acts :| Exec(cfg, Start(clock), acts) == Some(s);
    StartInv(cfg, clock);
    ExecInv(cfg, Start(clock), acts);
  }

  /** Every row is stored under its own id. */
  lemma RowIds(cfg: Config, s: State)
    requires Inv(cfg, s)
    ensures forall id | id in s.db.rows :: s.db.rows[id].id == id
  {
  }

  // ----- building runs

  lemma ExecNothing(cfg: Config, s: State)
    ensures Exec(cfg, s, []) == Some(s)
  {
  }

  /** One more step of a run. */
  lemma StepOn(cfg: Config, s0: State, acts: seq<Action>, s: State, a: Action)
    requires Configured(cfg) && Exec(cfg, s0, acts) == Some(s) && Enabled(cfg, s, a)
    requires Inv(cfg, s)
    ensures Exec(cfg, s0, acts + [a]) == Some(Apply(cfg, s, a)) && Inv(cfg, Apply(cfg, s, a))
  {
    hide Inv, Enabled, Apply;
    ExecAppend(cfg, s0, acts, a);
    StepInv(cfg, s, a);
  }

  /** The Finish of a live claim finds its row unchanged. */
  lemma FinishSucceeds(cfg: Config, s: State, t: Token)
    requires Inv(cfg, s) && t in s.claims && s.claims[t].Settled?
    ensures Finish(s.db, FinishValue(cfg, s.claims[t]), s.claims[t].row.version).Success?
  {
    hide LogsOk, RowsOk, KeysOk, CallersOk, BatchesOk, ClaimsOk, ReceiptsOk, RepliesOk, AcceptedOk, CallsOk, RowOk,
        LogOk, Settle;
    LiveClaim(cfg, s, t);
  }
}
