/** The engine's guarantees, for every state any schedule can reach. */
module Guarantees {
  import opened Results
  import opened Backoff
  import opened Deliveries
  import opened Store
  import opened Protocol
  import opened Invariant
  import opened Preservation
  import opened Runs

  // ----- claims

  /**
   * One live claim per delivery, whoever holds it, and never beside an open claim transaction; a live
   * claim is the stored row in every column.
   */
  lemma ClaimExclusivity(cfg: Config, s: State)
    requires Configured(cfg) && Reachable(cfg, s)
    ensures forall t, u | t in s.claims && u in s.claims && t.1 == u.1 :: t == u
    ensures forall w, v, id | w in s.batches && v in s.batches && id in s.batches[w].rows && id in s.batches[v].rows ::
              w == v
    ensures forall t, w | t in s.claims && w in s.batches :: t.1 !in s.batches[w].rows
    ensures forall t | t in s.claims ::
              t.1 in s.db.rows && s.db.rows[t.1] == s.claims[t].row && s.claims[t].row.status == Processing
  {
    hide RowsOk, LogsOk, KeysOk, CallersOk, ReceiptsOk, RepliesOk, AcceptedOk, CallsOk;
    ReachableInv(cfg, s);
    forall t | t in s.claims
      ensures ClaimOk(s.claims[t], t.1, s.db.rows, s.clock)
    {
    }
    forall t, w | t in s.claims && w in s.batches
      ensures t.1 !in s.batches[w].rows
    {
      assert BatchOk(s.batches[w], s.db.rows, s.clock);
    }
  }

  /** The compare-and-set of a claim, and of the Finish of a live claim, never fails. */
  lemma LiveClaimsNeverGoStale(cfg: Config, s: State)
    requires Configured(cfg) && Reachable(cfg, s)
    ensures forall w | w in s.batches :: ClaimMatches(s.db.rows, s.batches[w])
    ensures forall t | t in s.claims && s.claims[t].Settled? ::
              Finish(s.db, FinishValue(cfg, s.claims[t]), s.claims[t].row.version).Success?
  {
    hide LogsOk, KeysOk, CallersOk, ReceiptsOk, RepliesOk, AcceptedOk, CallsOk, RowOk, Settle;
    ReachableInv(cfg, s);
    forall t | t in s.claims
      ensures ClaimOk(s.claims[t], t.1, s.db.rows, s.clock)
    {
    }
    forall w | w in s.batches
      ensures BatchOk(s.batches[w], s.db.rows, s.clock)
    {
    }
  }

  /** Over a whole run a provider accepts a delivery at most once, and exactly once if the row says it was sent. */
  lemma AcceptedAtMostOnce(cfg: Config, s: State, id: Id)
    requires Configured(cfg) && Reachable(cfg, s)
    ensures s.accepted[id] <= 1
    ensures id in s.db.rows && SentLike(s.db.rows[id].status) ==> s.accepted[id] == 1
    ensures id in s.db.rows && (Claimable(s.db.rows[id].status) || s.db.rows[id].status == DeadLetter) ==>
              s.accepted[id] == 0
    ensures s.accepted[id] == 1 ==> id in s.db.rows || id in s.retired
  {
    hide RowsOk, LogsOk, KeysOk, CallersOk, BatchesOk, ClaimsOk, ReceiptsOk, RepliesOk, CallsOk;
    ReachableInv(cfg, s);
  }

  /** A sent row carries the provider and message id of the one answer that accepted it. */
  lemma MessageIsTheAnswer(cfg: Config, s: State, id: Id)
    requires Configured(cfg) && Reachable(cfg, s) && id in s.db.rows && SentLike(s.db.rows[id].status)
    ensures id in s.answers && s.answers[id] == Accepted(s.db.rows[id].provider, s.db.rows[id].messageId)
  {
    hide RowsOk, LogsOk, KeysOk, CallersOk, BatchesOk, ClaimsOk, ReceiptsOk, RepliesOk, CallsOk;
    ReachableInv(cfg, s);
  }

  // ----- attempts and versions

  /** The attempt budget, down to HTTP calls: one per attempt, MaxAttempts per delivery over its whole life. */
  lemma AttemptBudget(cfg: Config, s: State, id: Id)
    requires Configured(cfg) && Reachable(cfg, s)
    ensures id in s.db.rows ==>
              && 0 <= s.db.rows[id].attempts <= cfg.maxAttempts
              && (Claimable(s.db.rows[id].status) ==> s.db.rows[id].attempts < cfg.maxAttempts)
              && s.calls[id] <= s.db.rows[id].attempts
    ensures s.calls[id] <= cfg.maxAttempts
  {
    hide LogsOk, KeysOk, CallersOk, BatchesOk, ClaimsOk, ReceiptsOk, RepliesOk, AcceptedOk;
    ReachableInv(cfg, s);
    if id in s.db.rows {
      assert RowOk(cfg, s.clock, s.db.rows[id]);
    } else if id !in s.retired {
      assert id !in s.calls;
    }
  }

  /** The version is a closed form of status and attempts, hence bounded. */
  lemma VersionClosedForm(cfg: Config, s: State, id: Id)
    requires Configured(cfg) && Reachable(cfg, s) && id in s.db.rows
    ensures var d := s.db.rows[id];
            && d.version == (match d.status
                             case Pending => 1
                             case Processing => 2 * d.attempts
                             case Delivered => 2 * d.attempts + 2
                             case Bounced => 2 * d.attempts + 2
                             case Failed => 2 * d.attempts + 2
                             case _ => 2 * d.attempts + 1)
            && (d.status == Pending <==> d.attempts == 0)
            && (d.status == DeadLetter ==> d.attempts == cfg.maxAttempts)
            && 1 <= d.version <= 2 * cfg.maxAttempts + 2
  {
    hide LogsOk, KeysOk, CallersOk, BatchesOk, ClaimsOk, ReceiptsOk, RepliesOk, AcceptedOk, CallsOk;
    ReachableInv(cfg, s);
    assert RowOk(cfg, s.clock, s.db.rows[id]);
  }

  // ----- the outbox

  /** Every committed change left its event: version = attempts + events. */
  lemma Conservation(cfg: Config, s: State, id: Id)
    requires Configured(cfg) && Reachable(cfg, s) && id in s.db.rows
    ensures s.db.rows[id].version == s.db.rows[id].attempts + |Log(s.db.outbox, id)|
  {
    hide KeysOk, CallersOk, BatchesOk, ClaimsOk, ReceiptsOk, RepliesOk, AcceptedOk, CallsOk, RowOk;
    ReachableInv(cfg, s);
    assert LogOk(s.db.outbox, s.db.rows[id]);
  }

  /**
   * The log of a delivery ends in its stored row, column by column, or one version before it while it is
   * processing: then in the columns a claim leaves alone. Locale and key are not in the envelope.
   */
  lemma LogRefinesRow(cfg: Config, s: State, id: Id)
    requires Configured(cfg) && Reachable(cfg, s) && id in s.db.rows
    ensures var log, d := Log(s.db.outbox, id), s.db.rows[id];
            && |log| >= 1
            && var last := log[|log| - 1].delivery;
            && last.id == d.id == id && last.provider == d.provider && last.messageId == d.messageId
            && last.failure == d.failure && last.nextAttempt == d.nextAttempt
            && last.createdAt == d.createdAt && last.createdBy == d.createdBy && last.updatedBy == d.updatedBy
            && (if d.status == Processing then
                  && (last.status == Pending || last.status == Retrying)
                  && last.attempts == d.attempts - 1 && last.version == d.version - 1
                else
                  && last.status == d.status && last.attempts == d.attempts && last.version == d.version
                  && last.updatedAt == d.updatedAt)
            && last.req.tenant == d.req.tenant && last.req.application == d.req.application
            && last.req.template == d.req.template && last.req.channel == d.req.channel
            && last.req.recipient == d.req.recipient && last.req.variables == d.req.variables
            && last.req.locale == "" && last.req.key == ""
  {
    hide KeysOk, CallersOk, BatchesOk, ClaimsOk, ReceiptsOk, RepliesOk, AcceptedOk, CallsOk, RowOk;
    ReachableInv(cfg, s);
    LastEvent(cfg, s, id);
  }

  lemma LastEvent(cfg: Config, s: State, id: Id)
    requires RowsOk(cfg, s.db.rows, s.clock) && LogsOk(s.db.rows, s.retired, s.db.outbox) && id in s.db.rows
    ensures var log, d := Log(s.db.outbox, id), s.db.rows[id];
            && |log| >= 1 && d.id == id && LastMatches(log[|log| - 1], d)
            && log[|log| - 1].delivery.req.locale == "" && log[|log| - 1].delivery.req.key == ""
  {
    hide RowOk;
    assert LogOk(s.db.outbox, s.db.rows[id]);
  }

  /** The log of every delivery there is or was is legal; ids that were never inserted have none. */
  lemma LogsAreLegal(cfg: Config, s: State, id: Id)
    requires Configured(cfg) && Reachable(cfg, s)
    ensures if id in s.db.rows || id in s.retired then LegalLog(Log(s.db.outbox, id)) else Log(s.db.outbox, id) == []
  {
    hide RowsOk, LogsOk, KeysOk, CallersOk, BatchesOk, ClaimsOk, ReceiptsOk, RepliesOk, AcceptedOk, CallsOk, LegalLog;
    ReachableInv(cfg, s);
    LogLegal(cfg, s, id);
  }

  lemma LogLegal(cfg: Config, s: State, id: Id)
    requires RowsOk(cfg, s.db.rows, s.clock) && LogsOk(s.db.rows, s.retired, s.db.outbox)
    ensures if id in s.db.rows || id in s.retired then LegalLog(Log(s.db.outbox, id)) else Log(s.db.outbox, id) == []
  {
    hide LegalLog, RowOk;
    LogOnlyOf(s.db.outbox, id);
    if id in s.db.rows {
      assert LogOk(s.db.outbox, s.db.rows[id]);
    }
  }

  /**
   * What legal means, position by position: pending, then retrying any number of times, then at most one
   * of dead letter and sent, and after sent at most one receipt.
   */
  lemma {:induction false} LegalLogShape(log: seq<Event>, i: nat)
    requires LegalLog(log) && i < |log|
    ensures log[i].kind == Requested <==> i == 0
    ensures log[i].delivery.status == Pending <==> i == 0
    ensures log[i].delivery.status != Processing
    ensures i < |log| - 1 ==> !Terminal(log[i].delivery.status)
    ensures i < |log| - 2 ==> Claimable(log[i].delivery.status)
    ensures i + 2 == |log| && log[i].delivery.status == Sent ==> ReceiptStatus(log[i + 1].delivery.status)
    ensures ReceiptStatus(log[i].delivery.status) ==> i == |log| - 1 && i >= 2 && log[i - 1].delivery.status == Sent
    ensures !ReceiptStatus(log[i].delivery.status) ==>
              log[i].delivery.attempts == i && log[i].delivery.version == 2 * i + 1
  {
    LegalPosition(log, i);
    if i > 0 {
      LegalPosition(log, i - 1);
      assert Link(log[i - 1], log[i]);
    }
    if i + 1 < |log| {
      LegalPosition(log, i + 1);
      assert Link(log[i], log[i + 1]);
      if i + 2 < |log| {
        assert Link(log[i + 1], log[i + 2]);
      }
    }
  }

  lemma {:induction false} LegalPosition(log: seq<Event>, i: nat)
    requires LegalLog(log) && i < |log|
    ensures !ReceiptStatus(log[i].delivery.status) ==>
              log[i].delivery.attempts == i && log[i].delivery.version == 2 * i + 1
    ensures i > 0 ==>
              && log[i].kind == StatusChanged && log[i].delivery.status != Pending
              && log[i].delivery.status != Processing
    ensures i <= 1 ==> !ReceiptStatus(log[i].delivery.status)
    decreases i
  {
    if i > 0 {
      LegalPosition(log, i - 1);
      assert Link(log[i - 1], log[i]);
    }
  }

  lemma {:induction false} EventVersionsIncrease(log: seq<Event>, i: nat, j: nat)
    requires LegalLog(log) && i < j < |log|
    ensures log[i].delivery.version < log[j].delivery.version
    decreases j
  {
    assert Link(log[j - 1], log[j]);
    if i < j - 1 {
      EventVersionsIncrease(log, i, j - 1);
    }
  }

  /** Every event carries the columns the insert fixed. */
  lemma {:induction false} EventsCarryTheRequest(log: seq<Event>, i: nat, j: nat)
    requires LegalLog(log) && i <= j < |log|
    ensures log[j].delivery.id == log[i].delivery.id && log[j].delivery.req == log[i].delivery.req
    ensures log[j].delivery.createdAt == log[i].delivery.createdAt
              && log[j].delivery.createdBy == log[i].delivery.createdBy
    decreases j
  {
    if i < j {
      assert Link(log[j - 1], log[j]);
      EventsCarryTheRequest(log, i, j - 1);
    }
  }

  // ----- retry timing

  /** No attempt starts before the delays of all earlier attempts have passed since creation. */
  lemma AttemptsAreSpaced(cfg: Config, s: State, id: Id)
    requires Configured(cfg) && Reachable(cfg, s) && id in s.db.rows && s.db.rows[id].attempts >= 1
    ensures s.clock >= s.db.rows[id].updatedAt
    ensures s.db.rows[id].updatedAt >= s.db.rows[id].createdAt + TotalWait(cfg.retryBase, s.db.rows[id].attempts - 1)
    ensures s.db.rows[id].status == Retrying ==>
              s.db.rows[id].nextAttempt >= s.db.rows[id].createdAt + TotalWait(cfg.retryBase, s.db.rows[id].attempts)
  {
    hide LogsOk, KeysOk, CallersOk, BatchesOk, ClaimsOk, ReceiptsOk, RepliesOk, AcceptedOk, CallsOk;
    ReachableInv(cfg, s);
    assert RowOk(cfg, s.clock, s.db.rows[id]);
  }

  /**
   * A delivery is given up no earlier than the sum of all its retry delays after its creation; if the
   * largest of those delays fits int64, the sum is the closed form.
   */
  lemma DeadLetterTiming(cfg: Config, s: State, id: Id)
    requires Configured(cfg) && Reachable(cfg, s) && id in s.db.rows && s.db.rows[id].status == DeadLetter
    ensures s.clock >= s.db.rows[id].updatedAt
    ensures s.db.rows[id].updatedAt >= s.db.rows[id].createdAt + TotalWait(cfg.retryBase, cfg.maxAttempts - 1)
    ensures FitsInt64(cfg.retryBase, cfg.maxAttempts - 1) ==>
              s.db.rows[id].updatedAt - s.db.rows[id].createdAt >= cfg.retryBase * WaitFactor(cfg.maxAttempts - 1)
  {
    hide LogsOk, KeysOk, CallersOk, BatchesOk, ClaimsOk, ReceiptsOk, RepliesOk, AcceptedOk, CallsOk, TotalWait,
        WaitFactor, FitsInt64;
    ReachableInv(cfg, s);
    assert RowOk(cfg, s.clock, s.db.rows[id]);
    if FitsInt64(cfg.retryBase, cfg.maxAttempts - 1) {
      TotalWaitClosedForm(cfg.retryBase, cfg.maxAttempts - 1);
    }
  }

  // ----- receipts

  /** A receipt handler's snapshot whose version is still current is current in every column; ids are never reused. */
  lemma SnapshotFaithful(cfg: Config, s: State, k: nat)
    requires Configured(cfg) && Reachable(cfg, s) && k in s.receipts
    ensures var d := s.receipts[k].row;
            && (d.id in s.db.rows <==> d.id !in s.retired)
            && (d.id in s.db.rows ==> s.db.rows[d.id].version >= d.version)
            && (d.id in s.db.rows && s.db.rows[d.id].version == d.version ==> s.db.rows[d.id] == d)
  {
    hide RowsOk, LogsOk, CallersOk, BatchesOk, ClaimsOk, RepliesOk, AcceptedOk, CallsOk;
    ReachableInv(cfg, s);
    assert ReceiptOk(s.receipts[k], s.db.rows, s.retired, s.clock);
  }

  /** Provider and message id are there exactly when a provider accepted the message. */
  lemma MessageIffSent(cfg: Config, s: State, id: Id)
    requires Configured(cfg) && Reachable(cfg, s) && id in s.db.rows
    ensures var d := s.db.rows[id];
            && (d.provider != "" <==> d.messageId != "")
            && (d.provider != "" <==>
                d.status == Sent || d.status == Delivered || d.status == Bounced || d.status == Failed)
  {
    hide LogsOk, KeysOk, CallersOk, BatchesOk, ClaimsOk, ReceiptsOk, RepliesOk, AcceptedOk, CallsOk;
    ReachableInv(cfg, s);
    assert RowOk(cfg, s.clock, s.db.rows[id]);
  }

  /** A receipt moves a sent row, the very row it read, and nothing else. */
  lemma ReceiptsMoveSentRows(cfg: Config, s: State, k: nat, now: Time)
    requires Configured(cfg) && Reachable(cfg, s) && Enabled(cfg, s, CommitReceipt(k, now))
    ensures var r, s' := s.receipts[k], Apply(cfg, s, CommitReceipt(k, now));
            && s.db.rows[r.row.id] == r.row && r.row.status == Sent
            && (r.status == Delivered || r.status == Bounced || r.status == Failed)
            && s'.db.rows == s.db.rows[r.row.id := r.row.(status := r.status, failure := r.reason,
                 version := r.row.version + 1, updatedAt := now, updatedBy := r.actor)]
  {
    hide LogsOk, KeysOk, CallersOk, BatchesOk, ClaimsOk, RepliesOk, AcceptedOk, CallsOk, RowOk, RowsOk;
    ReachableInv(cfg, s);
    assert ReceiptOk(s.receipts[k], s.db.rows, s.retired, s.clock);
  }

  /** Of two receipts racing on one delivery the first to commit is the only one that ever does. */
  lemma OneReceiptWins(cfg: Config, s: State, k: nat, now: Time, other: nat, acts: seq<Action>, s': State, later: Time)
    requires Configured(cfg) && Reachable(cfg, s) && Enabled(cfg, s, CommitReceipt(k, now))
    requires other in s.receipts && other != k && s.receipts[other].row.id == s.receipts[k].row.id
    requires Exec(cfg, Apply(cfg, s, CommitReceipt(k, now)), acts) == Some(s')
    requires other in s'.receipts && s'.receipts[other] == s.receipts[other]
    ensures !Enabled(cfg, s', CommitReceipt(other, later))
  {
    hide Apply, RowsOk, LogsOk, KeysOk, CallersOk, BatchesOk, ClaimsOk, ReceiptsOk, RepliesOk, AcceptedOk, CallsOk,
        WithReceipt, Stored, Configured;
    var mid := Apply(cfg, s, CommitReceipt(k, now));
    ReachableInv(cfg, s);
    StepInv(cfg, s, CommitReceipt(k, now));
    RunLater(cfg, mid, acts);
    ReceiptPassed(cfg, s, k, now, other);
    var id := s.receipts[k].row.id;
    assert id in s'.db.rows ==> Became(mid.db.rows[id], s'.db.rows[id]);
  }

  lemma ReceiptPassed(cfg: Config, s: State, k: nat, now: Time, other: nat)
    requires ReceiptsOk(s.receipts, s.db.rows, s.retired, s.clock) && Enabled(cfg, s, CommitReceipt(k, now))
    requires other in s.receipts && other != k && s.receipts[other].row.id == s.receipts[k].row.id
    ensures var id := s.receipts[k].row.id;
            id in Apply(cfg, s, CommitReceipt(k, now)).db.rows
            && Apply(cfg, s, CommitReceipt(k, now)).db.rows[id].version > s.receipts[other].row.version
  {
  }

  // ----- enqueueing

  /**
   * All successful sends with one tenant, application and key return one id as long as its row lives: however many
   * callers passed the existence check together, there is one such row and one NotificationRequested event.
   */
  lemma IdempotentSend(cfg: Config, s: State, tenant: string, application: string, key: string, a: Id, b: Id)
    requires Configured(cfg) && Reachable(cfg, s)
    requires ((tenant, application, key), a) in s.replies && a !in s.retired
    requires ((tenant, application, key), b) in s.replies && b !in s.retired
    ensures a == b
    ensures a in s.db.rows && s.db.rows[a].req.tenant == tenant && s.db.rows[a].req.application == application
            && s.db.rows[a].req.key == key
    ensures forall id | id in s.db.rows && s.db.rows[id].req.tenant == tenant
                        && s.db.rows[id].req.application == application && s.db.rows[id].req.key == key :: id == a
    ensures var log := Log(s.db.outbox, a);
            |log| >= 1 && forall i | 0 <= i < |log| :: log[i].kind == Requested <==> i == 0
  {
    hide RowsOk, LogsOk, CallersOk, BatchesOk, ClaimsOk, ReceiptsOk, AcceptedOk, CallsOk;
    ReachableInv(cfg, s);
    LogsAreLegal(cfg, s, a);
    var log := Log(s.db.outbox, a);
    forall i | 0 <= i < |log|
      ensures log[i].kind == Requested <==> i == 0
    {
      LegalLogShape(log, i);
    }
  }

  // ----- retention

  /**
   * Retention takes sent and dead rows only, whatever happened between its SELECT and its DELETE: a
   * selected row that got a receipt in between survives, and every live claim still finds its row.
   */
  lemma RetentionUnderInterleaving(cfg: Config, s: State, k: nat)
    requires Configured(cfg) && Reachable(cfg, s) && Enabled(cfg, s, DeleteSweep(k))
    ensures var s' := Apply(cfg, s, DeleteSweep(k));
            && (forall id | id in s.db.rows :: id in s'.db.rows <==>
                !(id in s.sweeps[k].ids && (s.db.rows[id].status == Sent || s.db.rows[id].status == DeadLetter)
                  && s.db.rows[id].updatedAt < s.sweeps[k].before))
            && (forall id | id in s'.db.rows :: id in s.db.rows && s'.db.rows[id] == s.db.rows[id])
            && (forall id | id in s.db.rows && (s.db.rows[id].status != Sent && s.db.rows[id].status != DeadLetter) ::
                id in s'.db.rows)
            && (forall t | t in s.claims :: t in s'.claims && t.1 in s'.db.rows && s'.db.rows[t.1] == s'.claims[t].row)
            && (forall w, id | w in s.batches && id in s.batches[w].rows ::
                id in s'.db.rows && s'.db.rows[id] == s.batches[w].rows[id])
  {
    hide RowsOk, LogsOk, KeysOk, CallersOk, ReceiptsOk, RepliesOk, AcceptedOk, CallsOk;
    ReachableInv(cfg, s);
    forall t | t in s.claims
      ensures ClaimOk(s.claims[t], t.1, s.db.rows, s.clock)
    {
    }
    forall w | w in s.batches
      ensures BatchOk(s.batches[w], s.db.rows, s.clock)
    {
    }
  }

  /** A delivery with a receipt is kept for ever, unchanged: no retention period applies to it. */
  lemma ReceiptsAreKeptForever(cfg: Config, s: State, acts: seq<Action>, s': State, id: Id)
    requires Configured(cfg) && Reachable(cfg, s) && Exec(cfg, s, acts) == Some(s')
    requires id in s.db.rows && ReceiptStatus(s.db.rows[id].status)
    ensures id in s'.db.rows && s'.db.rows[id] == s.db.rows[id]
  {
    hide Inv, Apply, Enabled;
    ReachableInv(cfg, s);
    RunLater(cfg, s, acts);
    assert id in s'.db.rows ==> Became(s.db.rows[id], s'.db.rows[id]);
  }

  /**
   * Once sent, dead or answered by a receipt, a delivery never returns to the queue, and a deleted id never returns
   * at all.
   */
  lemma NeverRequeued(cfg: Config, s: State, acts: seq<Action>, s': State, id: Id)
    requires Configured(cfg) && Reachable(cfg, s) && Exec(cfg, s, acts) == Some(s')
    ensures id in s.retired ==> id !in s'.db.rows
    ensures id in s.db.rows && id in s'.db.rows
              && (SentLike(s.db.rows[id].status) || s.db.rows[id].status == DeadLetter) ==>
              SentLike(s'.db.rows[id].status) || s'.db.rows[id].status == DeadLetter
  {
    hide Inv, Apply, Enabled;
    ReachableInv(cfg, s);
    RunLater(cfg, s, acts);
    assert id in s.db.rows && id in s'.db.rows ==> Became(s.db.rows[id], s'.db.rows[id]);
  }

  // ----- change, step by step and over runs

  /**
   * The only ways a step changes a row: claimed, finished, or given a receipt, one version up; or deleted when sent
   * or dead.
   */
  lemma OnlyLegalMoves(cfg: Config, s: State, a: Action, id: Id)
    requires Configured(cfg) && Reachable(cfg, s) && Enabled(cfg, s, a) && id in s.db.rows
    ensures Steps(s, Apply(cfg, s, a), id)
  {
    hide Inv, Apply, Enabled;
    ReachableInv(cfg, s);
    StepMoves(cfg, s, a);
  }

  /** Runs forget nothing: see `Later`. */
  lemma NothingIsForgotten(cfg: Config, s: State, acts: seq<Action>, s': State)
    requires Configured(cfg) && Reachable(cfg, s) && Exec(cfg, s, acts) == Some(s')
    ensures Later(s, s')
  {
    hide Inv, Apply, Enabled, Later;
    ReachableInv(cfg, s);
    RunLater(cfg, s, acts);
  }
}
