/** Bounded waiting: a due delivery is claimed after a bounded number of claim batches. */
module Waiting {
  import opened Results
  import opened Backoff
  import opened Deliveries
  import opened Store
  import opened Protocol
  import opened Invariant
  import opened Preservation
  import opened Runs

  /**
   * The deliveries that precede `d` in the queue, or still can: waiting rows, stamped sends that have not
   * committed, and failed attempts whose retry time is fixed but not yet written.
   */
  ghost function Ahead(cfg: Config, s: State, d: Delivery): set<Id> {
    Queued(s.db.rows, d) + Entering(s.callers, d) + Returning(cfg, s.claims, d)
  }

  ghost function Queued(rows: Rows, d: Delivery): set<Id> {
    set id | id in rows && Claimable(rows[id].status) && Before(rows[id], d)
  }

  ghost function Entering(callers: map<nat, Caller>, d: Delivery): set<Id> {
    set c | c in callers && callers[c].Stamped? && Before(callers[c].row, d) :: callers[c].row.id
  }

  ghost function Returning(cfg: Config, claims: map<Token, Claim>, d: Delivery): set<Id> {
    set t | t in claims && RetriesBefore(cfg, claims[t], d) :: t.1
  }

  predicate RetriesBefore(cfg: Config, c: Claim, d: Delivery) {
    c.Settled? && FinishValue(cfg, c).status == Retrying && Before(FinishValue(cfg, c), d)
  }

  /** A full batch of rows that all precede `d`. */
  ghost predicate PassesOver(cfg: Config, b: Batch, d: Delivery) {
    && |b.rows| == cfg.batchSize
    && d.id !in b.rows
    && forall id | id in b.rows :: Before(b.rows[id], d)
  }

  /** The retry delays in use do not overflow, so every reschedule lies in the future. */
  predicate DelaysFit(cfg: Config) {
    Configured(cfg) && FitsInt64(cfg.retryBase, cfg.maxAttempts - 1)
  }

  lemma SettleInFuture(cfg: Config, d: Delivery, outcome: Outcome, now: Time)
    requires DelaysFit(cfg) && VersionForm(cfg.maxAttempts, d) && d.status == Processing
    ensures var v := Settle(cfg, d, outcome, now); v.status == Retrying ==> v.nextAttempt >= now
  {
    if d.attempts < cfg.maxAttempts {
      BackoffNonNegative(cfg.retryBase, cfg.maxAttempts - 1, d.attempts);
    }
  }

  /** Once `d` is overdue nobody new gets ahead of it. */
  lemma AheadShrinks(cfg: Config, s: State, a: Action, d: Delivery)
    requires DelaysFit(cfg) && Inv(cfg, s) && Enabled(cfg, s, a) && d.nextAttempt < s.clock
    ensures Ahead(cfg, Apply(cfg, s, a), d) <= Ahead(cfg, s, d)
  {
    hide Inv, Apply, Ahead;
    match a
    case Deliver(w, id, outcome, posts) => DeliverShrinks(cfg, s, a, d);
    case CommitFinish(w, id) => FinishShrinks(cfg, s, a, d);
    case CommitReceipt(k, now) => ReceiptShrinks(cfg, s, a, d);
    case CommitClaim(w, acked) => ClaimShrinks(cfg, s, w, acked, d);
    case DropClaim(w, id) => DropShrinks(cfg, s, a, d);
    case DeleteSweep(k) => DropShrinks(cfg, s, a, d);
    case _ => SendShrinks(cfg, s, a, d);
  }

  /** Once a delivery is overdue no send and no reschedule gets ahead of it: the set ahead only shrinks. */
  lemma NobodyGetsAhead(cfg: Config, s: State, a: Action, id: Id)
    requires DelaysFit(cfg) && Reachable(cfg, s) && Enabled(cfg, s, a)
    requires id in s.db.rows && s.db.rows[id].nextAttempt < s.clock
    ensures Ahead(cfg, Apply(cfg, s, a), s.db.rows[id]) <= Ahead(cfg, s, s.db.rows[id])
  {
    hide Inv, Apply, Enabled, Ahead;
    ReachableInv(cfg, s);
    AheadShrinks(cfg, s, a, s.db.rows[id]);
  }

  /**
   * Who joins the queue before `d`, exactly: a stamped send that commits, or a settled claim that commits its
   * retry. Both were counted as ahead of `d` already.
   */
  lemma JoinsQueueIff(cfg: Config, s: State, a: Action, d: Delivery, id: Id)
    requires Configured(cfg) && Reachable(cfg, s) && Enabled(cfg, s, a) && id !in Queued(s.db.rows, d)
    ensures id in Queued(Apply(cfg, s, a).db.rows, d) <==>
              || (a.CommitSend? && s.callers[a.c].row.id == id && Before(s.callers[a.c].row, d))
              || (a.CommitFinish? && a.id == id && RetriesBefore(cfg, s.claims[(a.w, a.id)], d))
    ensures id in Queued(Apply(cfg, s, a).db.rows, d) ==> id in Entering(s.callers, d) + Returning(cfg, s.claims, d)
  {
    hide Inv, Scope, InsertDelivery, Before, ClaimRows, DeleteExpired, Settle, Stored;
    ReachableInv(cfg, s);
    match a
    case CommitSend(c, acked) =>
      StampedJoins(cfg, s, c, acked);
      var v := s.callers[c].row;
      RowJoins(s.db.rows, v, d);
    case CommitFinish(w, i) =>
      ClaimProcessing(cfg, s, (w, i));
      FinishJoins(cfg, s, w, i, d);
    case _ => NobodyElseJoins(cfg, s, a, d);
  }

  lemma NobodyElseJoins(cfg: Config, s: State, a: Action, d: Delivery)
    requires Inv(cfg, s) && Enabled(cfg, s, a) && !a.CommitSend? && !a.CommitFinish?
    ensures Queued(Apply(cfg, s, a).db.rows, d) <= Queued(s.db.rows, d)
  {
    hide Inv;
    if a.CommitReceipt? {
      ReceiptSent(cfg, s, a.k);
    }
  }

  lemma StampedJoins(cfg: Config, s: State, c: nat, acked: bool)
    requires Inv(cfg, s) && Enabled(cfg, s, CommitSend(c, acked))
    ensures var v := s.callers[c].row;
            && Claimable(v.status) && v.id !in s.db.rows
            && Apply(cfg, s, CommitSend(c, acked)).db.rows == s.db.rows[v.id := v]
  {
    hide RowsOk, LogsOk, KeysOk, BatchesOk, ClaimsOk, ReceiptsOk, RepliesOk, AcceptedOk, CallsOk;
    StampedCaller(s, c);
  }

  lemma RowJoins(rows: Rows, v: Delivery, d: Delivery)
    requires v.id !in rows && Claimable(v.status)
    ensures Queued(rows[v.id := v], d) == Queued(rows, d) + (if Before(v, d) then {v.id} else {})
  {
  }

  lemma FinishJoins(cfg: Config, s: State, w: nat, id: Id, d: Delivery)
    requires Enabled(cfg, s, CommitFinish(w, id)) && s.claims[(w, id)].row.id == id && id in s.db.rows
    requires s.db.rows[id] == s.claims[(w, id)].row
    ensures var rows' := Apply(cfg, s, CommitFinish(w, id)).db.rows;
            && rows'.Keys == s.db.rows.Keys && (forall i | i in s.db.rows && i != id :: rows'[i] == s.db.rows[i])
            && (id in Queued(rows', d) <==> RetriesBefore(cfg, s.claims[(w, id)], d))
  {
  }

  lemma ReceiptSent(cfg: Config, s: State, k: nat)
    requires Inv(cfg, s) && k in s.receipts
    ensures ReceiptStatus(s.receipts[k].status)
  {
    hide RowsOk, LogsOk, KeysOk, BatchesOk, ClaimsOk, CallersOk, RepliesOk, AcceptedOk, CallsOk;
    assert ReceiptOk(s.receipts[k], s.db.rows, s.retired, s.clock);
  }

  lemma SendShrinks(cfg: Config, s: State, a: Action, d: Delivery)
    requires Enabled(cfg, s, a) && d.nextAttempt < s.clock
    requires !a.Deliver? && !a.CommitFinish? && !a.CommitReceipt? && !a.CommitClaim? && !a.DropClaim? && !a.DeleteSweep?
    ensures Ahead(cfg, Apply(cfg, s, a), d) <= Ahead(cfg, s, d)
  {
  }

  lemma DropShrinks(cfg: Config, s: State, a: Action, d: Delivery)
    requires Enabled(cfg, s, a) && (a.DropClaim? || a.DeleteSweep?)
    ensures Ahead(cfg, Apply(cfg, s, a), d) <= Ahead(cfg, s, d)
  {
  }

  lemma DeliverShrinks(cfg: Config, s: State, a: Action, d: Delivery)
    requires DelaysFit(cfg) && Inv(cfg, s) && Enabled(cfg, s, a) && a.Deliver? && d.nextAttempt < s.clock
    ensures Ahead(cfg, Apply(cfg, s, a), d) <= Ahead(cfg, s, d)
  {
    hide Inv, Queued, Entering, Returning;
    var t := (a.w, a.id);
    ClaimProcessing(cfg, s, t);
    SettleInFuture(cfg, s.claims[t].row, a.outcome, s.clock);
    LateReturn(cfg, s.claims, t, Settled(s.claims[t].row, a.outcome, s.clock), d);
  }

  lemma ClaimProcessing(cfg: Config, s: State, t: Token)
    requires Inv(cfg, s) && t in s.claims
    ensures s.claims[t].row.status == Processing && VersionForm(cfg.maxAttempts, s.claims[t].row)
    ensures t.1 in s.db.rows && s.db.rows[t.1] == s.claims[t].row && s.claims[t].row.id == t.1
  {
    hide RowsOk, LogsOk, KeysOk, CallersOk, BatchesOk, ClaimsOk, ReceiptsOk, RepliesOk, AcceptedOk, CallsOk, LogOk;
    LiveClaim(cfg, s, t);
  }

  lemma LateReturn(cfg: Config, claims: map<Token, Claim>, t: Token, c: Claim, d: Delivery)
    requires !RetriesBefore(cfg, c, d)
    ensures Returning(cfg, claims[t := c], d) <= Returning(cfg, claims, d)
  {
  }

  lemma FinishShrinks(cfg: Config, s: State, a: Action, d: Delivery)
    requires DelaysFit(cfg) && Inv(cfg, s) && Enabled(cfg, s, a) && a.CommitFinish?
    ensures Ahead(cfg, Apply(cfg, s, a), d) <= Ahead(cfg, s, d)
  {
    hide Inv, Queued, Entering, Returning, Settle, RetriesBefore, Stored;
    var t := (a.w, a.id);
    var c := s.claims[t];
    ClaimProcessing(cfg, s, t);
    FinishedQueue(cfg, s.db.rows, a.id, c, d);
    FewerReturns(cfg, s.claims, t, d);
  }

  /** A finished row is ahead only as a retry, and then it was counted while its claim was settled. */
  lemma FinishedQueue(cfg: Config, rows: Rows, id: Id, c: Claim, d: Delivery)
    requires id in rows && c.Settled? && rows[id].id == id == c.row.id
    ensures Queued(rows[id := Stored(rows[id], FinishValue(cfg, c))], d)
              <= Queued(rows, d) + (if RetriesBefore(cfg, c, d) then {id} else {})
  {
  }

  lemma FewerReturns(cfg: Config, claims: map<Token, Claim>, t: Token, d: Delivery)
    requires t in claims
    ensures Returning(cfg, Without(claims, t), d) <= Returning(cfg, claims, d)
    ensures RetriesBefore(cfg, claims[t], d) ==> t.1 in Returning(cfg, claims, d)
  {
  }

  lemma ReceiptShrinks(cfg: Config, s: State, a: Action, d: Delivery)
    requires Inv(cfg, s) && Enabled(cfg, s, a) && a.CommitReceipt?
    ensures Ahead(cfg, Apply(cfg, s, a), d) <= Ahead(cfg, s, d)
  {
    hide RowsOk, LogsOk, KeysOk, BatchesOk, ClaimsOk, CallersOk, RepliesOk, AcceptedOk, CallsOk, Entering, Returning;
    assert ReceiptOk(s.receipts[a.k], s.db.rows, s.retired, s.clock);
  }

  /** A committed batch leaves the queue, whether or not its dispatcher hears about it. */
  lemma ClaimShrinks(cfg: Config, s: State, w: nat, acked: bool, d: Delivery)
    requires w in s.batches && Enabled(cfg, s, CommitClaim(w, acked))
    requires Inv(cfg, s)
    ensures Ahead(cfg, Apply(cfg, s, CommitClaim(w, acked)), d) <= Ahead(cfg, s, d) - s.batches[w].rows.Keys
  {
    hide Inv, Queued, Entering, Returning, ClaimRows;
    var b := s.batches[w];
    ClaimedQueue(s.db.rows, b, d);
    BatchNotEntering(cfg, s, w, d);
    BatchNotReturning(cfg, s, w, d);
    HandedReturns(cfg, s.claims, w, b, d);
  }

  lemma ClaimedQueue(rows: Rows, b: Batch, d: Delivery)
    ensures Queued(ClaimRows(rows, b.rows.Keys, b.now), d) <= Queued(rows, d) - b.rows.Keys
  {
  }

  lemma BatchNotEntering(cfg: Config, s: State, w: nat, d: Delivery)
    requires Inv(cfg, s) && w in s.batches
    ensures Entering(s.callers, d) !! s.batches[w].rows.Keys
  {
    hide RowsOk, LogsOk, KeysOk, BatchesOk, ClaimsOk, ReceiptsOk, RepliesOk, AcceptedOk, CallsOk;
    OpenBatch(s, w);
    forall c | c in s.callers && s.callers[c].Stamped?
      ensures s.callers[c].row.id !in s.batches[w].rows
    {
      StampedCaller(s, c);
    }
  }

  lemma BatchNotReturning(cfg: Config, s: State, w: nat, d: Delivery)
    requires Inv(cfg, s) && w in s.batches
    ensures Returning(cfg, s.claims, d) !! s.batches[w].rows.Keys
  {
    hide RowsOk, LogsOk, KeysOk, BatchesOk, ClaimsOk, CallersOk, ReceiptsOk, RepliesOk, AcceptedOk, CallsOk,
        RetriesBefore, RowOk, LogOk;
    OpenBatch(s, w);
    forall t | t in s.claims
      ensures t.1 !in s.batches[w].rows
    {
      LiveClaim(cfg, s, t);
    }
  }

  lemma HandedReturns(cfg: Config, claims: map<Token, Claim>, w: nat, b: Batch, d: Delivery)
    ensures Returning(cfg, claims + Handed(w, b), d) <= Returning(cfg, claims, d)
  {
  }

  lemma PassingCounts(cfg: Config, s: State, w: nat, acked: bool, d: Delivery)
    requires w in s.batches && PassesOver(cfg, s.batches[w], d) && Enabled(cfg, s, CommitClaim(w, acked))
    requires Inv(cfg, s)
    ensures |Ahead(cfg, Apply(cfg, s, CommitClaim(w, acked)), d)| + cfg.batchSize <= |Ahead(cfg, s, d)|
  {
    hide Inv, Enabled, Apply, Ahead;
    ClaimShrinks(cfg, s, w, acked, d);
    PassedRowsAhead(cfg, s, w, d);
    RemovalCardinality(Ahead(cfg, Apply(cfg, s, CommitClaim(w, acked)), d), Ahead(cfg, s, d), s.batches[w].rows.Keys);
    assert |s.batches[w].rows.Keys| == |s.batches[w].rows|;
  }

  lemma RemovalCardinality<T>(left: set<T>, all: set<T>, taken: set<T>)
    requires left <= all - taken && taken <= all
    ensures |left| + |taken| <= |all|
  {
    SubsetCardinality(left + taken, all);
  }

  lemma PassedRowsAhead(cfg: Config, s: State, w: nat, d: Delivery)
    requires Inv(cfg, s) && w in s.batches && PassesOver(cfg, s.batches[w], d)
    ensures s.batches[w].rows.Keys <= Ahead(cfg, s, d)
  {
    hide RowsOk, LogsOk, KeysOk, BatchesOk, ClaimsOk, CallersOk, ReceiptsOk, RepliesOk, AcceptedOk, CallsOk;
    OpenBatch(s, w);
  }

  /** Whoever selects while a delivery is due and unlocked takes it, or a full batch ahead of it. */
  lemma SelectTakesOrPasses(cfg: Config, s: State, w: nat, now: Time, batch: seq<Delivery>, id: Id)
    requires Enabled(cfg, s, SelectDue(w, now, batch)) && Due(s.db.rows, Locked(s.batches), now, id)
    requires s.db.rows[id].id == id
    ensures var s' := Apply(cfg, s, SelectDue(w, now, batch));
            w in s'.batches && (id in s'.batches[w].rows || PassesOver(cfg, s'.batches[w], s.db.rows[id]))
  {
    var s' := Apply(cfg, s, SelectDue(w, now, batch));
    DueBatchDistinct(s.db.rows, Locked(s.batches), now, cfg.batchSize, batch);
    assert s'.batches[w].rows.Keys == Ids(batch);
    assert |s'.batches[w].rows| == |Ids(batch)|;
    forall i | i in Ids(batch)
      ensures s.db.rows[i] in batch
    {
    }
  }

  /** The due deliveries nobody has locked that precede `id`. */
  function DueBefore(rows: Rows, locked: set<Id>, now: Time, id: Id): set<Id>
    requires id in rows
  {
    set i | i in rows && i !in locked && (rows[i].status == Pending || rows[i].status == Retrying)
            && (rows[i].nextAttempt < rows[id].nextAttempt || (rows[i].nextAttempt == rows[id].nextAttempt && i < id))
            && rows[i].nextAttempt <= now
  }

  lemma BatchTakesIff(rows: Rows, locked: set<Id>, now: Time, limit: int, batch: seq<Delivery>, id: Id)
    requires IsDueBatch(rows, locked, now, limit, batch) && id in rows
    requires forall i | i in rows :: rows[i].id == i
    ensures id in Ids(batch) <==> Due(rows, locked, now, id) && |DueBefore(rows, locked, now, id)| < limit
  {
    var ahead := DueBefore(rows, locked, now, id);
    DueBatchDistinct(rows, locked, now, limit, batch);
    if id in Ids(batch) {
      forall i | i in ahead
        ensures i in Ids(batch) - {id}
      {
        assert rows[id] in batch;
      }
      SubsetCardinality(ahead, Ids(batch) - {id});
    } else if Due(rows, locked, now, id) {
      forall i | i in Ids(batch)
        ensures i in ahead
      {
        assert rows[i] in batch;
      }
      SubsetCardinality(Ids(batch), ahead);
    }
  }

  lemma LockedIff(batches: map<nat, Batch>, id: Id)
    ensures id in Locked(batches) <==> exists v :: v in batches && id in batches[v].rows
  {
  }

  /** Exactly when a claim takes a delivery: it is due, unlocked, and fewer than a batch of such rows precede it. */
  lemma SelectTakesIff(cfg: Config, s: State, w: nat, now: Time, batch: seq<Delivery>, id: Id)
    requires Configured(cfg) && Reachable(cfg, s) && Enabled(cfg, s, SelectDue(w, now, batch)) && id in s.db.rows
    ensures var locked := Locked(s.batches);
            id in Apply(cfg, s, SelectDue(w, now, batch)).batches[w].rows <==>
            && (s.db.rows[id].status == Pending || s.db.rows[id].status == Retrying)
            && s.db.rows[id].nextAttempt <= now && (forall v | v in s.batches :: id !in s.batches[v].rows)
            && |DueBefore(s.db.rows, locked, now, id)| < cfg.batchSize
  {
    hide Inv, DueBefore, Locked;
    ReachableInv(cfg, s);
    RowIds(cfg, s);
    LockedIff(s.batches, id);
    BatchTakesIff(s.db.rows, Locked(s.batches), now, cfg.batchSize, batch, id);
  }

  // ----- whole runs

  /**
   * Fair batches were selected, in this run, while `id` was due and unlocked (or due, whoever had it locked, if
   * `evenLocked`): the dispatchers that hold one open, and the number of those that committed.
   */
  datatype Tally = Tally(fair: set<nat>, commits: nat)

  ghost function Tallied(cfg: Config, s: State, acts: seq<Action>, id: Id, evenLocked: bool): Tally
    requires Exec(cfg, s, acts).Some?
  {
    if acts == [] then Tally({}, 0)
    else
      var last := |acts| - 1;
      var t := Tallied(cfg, s, acts[..last], id, evenLocked);
      Tally(FairAfter(Exec(cfg, s, acts[..last]).value, acts[last], t.fair, id, evenLocked),
            if acts[last].CommitClaim? && acts[last].w in t.fair then t.commits + 1 else t.commits)
  }

  ghost function FairAfter(s: State, a: Action, fair: set<nat>, id: Id, evenLocked: bool): set<nat> {
    match a
    case SelectDue(w, now, _) =>
      if Due(s.db.rows, if evenLocked then {} else Locked(s.batches), now, id) then fair + {w} else fair
    case CommitClaim(w, _) => fair - {w}
    case AbortClaim(w) => fair - {w}
    case _ => fair
  }

  /** Every fair batch contains the delivery, or is full of deliveries ahead of it. */
  ghost predicate FairOk(cfg: Config, batches: map<nat, Batch>, fair: set<nat>, d: Delivery) {
    forall w | w in fair :: w in batches && (d.id in batches[w].rows || PassesOver(cfg, batches[w], d))
  }

  /** A row equal at both ends of a run was never different in between. */
  lemma RowBetween(cfg: Config, s: State, acts: seq<Action>, id: Id)
    requires Configured(cfg) && Inv(cfg, s) && acts != [] && Exec(cfg, s, acts).Some? && id in s.db.rows
    requires Row(Exec(cfg, s, acts).value, id) == Row(s, id)
    ensures Row(Exec(cfg, s, acts[..|acts| - 1]).value, id) == Row(s, id)
  {
    hide Inv, Apply, Enabled;
    var mid := Exec(cfg, s, acts[..|acts| - 1]).value;
    RunLater(cfg, s, acts[..|acts| - 1]);
    ExecInv(cfg, s, acts[..|acts| - 1]);
    StepLater(cfg, mid, acts[|acts| - 1]);
    var s' := Exec(cfg, s, acts).value;
    assert id in mid.db.rows ==> Became(s.db.rows[id], mid.db.rows[id]) && Became(mid.db.rows[id], s'.db.rows[id]);
  }

  lemma FairStep(cfg: Config, s: State, a: Action, fair: set<nat>, id: Id)
    requires id in s.db.rows && s.db.rows[id].id == id && Enabled(cfg, s, a)
    requires FairOk(cfg, s.batches, fair, s.db.rows[id])
    ensures FairOk(cfg, Apply(cfg, s, a).batches, FairAfter(s, a, fair, id, false), s.db.rows[id])
  {
    hide PassesOver, Apply, Enabled;
    BatchesAfter(cfg, s, a);
    if a.SelectDue? && Due(s.db.rows, Locked(s.batches), a.now, id) {
      SelectTakesOrPasses(cfg, s, a.w, a.now, a.batch, id);
    }
  }

  /** Only its own dispatcher opens or closes a batch, and one that is open is not replaced. */
  lemma BatchesAfter(cfg: Config, s: State, a: Action)
    requires Enabled(cfg, s, a)
    ensures match a
            case SelectDue(w, _, _) =>
              && w !in s.batches
              && forall v | v in s.batches ::
                   v in Apply(cfg, s, a).batches && Apply(cfg, s, a).batches[v] == s.batches[v]
            case CommitClaim(w, _) => Apply(cfg, s, a).batches == Without(s.batches, w)
            case AbortClaim(w) => Apply(cfg, s, a).batches == Without(s.batches, w)
            case _ => Apply(cfg, s, a).batches == s.batches
  {
  }

  /** A claim that takes the delivery changes its row; any other fair commit uses up a batch of those ahead. */
  lemma CommitStep(cfg: Config, s: State, w: nat, acked: bool, fair: set<nat>, id: Id)
    requires id in s.db.rows && w in fair && FairOk(cfg, s.batches, fair, s.db.rows[id])
    requires s.db.rows[id].id == id
    requires Enabled(cfg, s, CommitClaim(w, acked)) && Row(Apply(cfg, s, CommitClaim(w, acked)), id) == Row(s, id)
    requires Inv(cfg, s)
    ensures |Ahead(cfg, Apply(cfg, s, CommitClaim(w, acked)), s.db.rows[id])| + cfg.batchSize
              <= |Ahead(cfg, s, s.db.rows[id])|
  {
    hide RowsOk, LogsOk, KeysOk, BatchesOk, ClaimsOk, CallersOk, ReceiptsOk, RepliesOk, AcceptedOk, CallsOk, Ahead;
    var d := s.db.rows[id];
    assert Apply(cfg, s, CommitClaim(w, acked)).db.rows[id] ==
           if id in s.batches[w].rows then Claimed(d, s.batches[w].now) else d;
    PassingCounts(cfg, s, w, acked, d);
  }

  /** While the delivery waits, every fair commit shrinks the set ahead of it by a whole batch. */
  lemma {:induction false} WaitingRun(cfg: Config, s: State, acts: seq<Action>, id: Id)
    requires DelaysFit(cfg) && Inv(cfg, s) && Exec(cfg, s, acts).Some?
    requires id in s.db.rows && s.db.rows[id].nextAttempt < s.clock
    requires Row(Exec(cfg, s, acts).value, id) == Row(s, id)
    ensures FairOk(cfg, Exec(cfg, s, acts).value.batches, Tallied(cfg, s, acts, id, false).fair, s.db.rows[id])
    ensures |Ahead(cfg, Exec(cfg, s, acts).value, s.db.rows[id])| +
            cfg.batchSize * Tallied(cfg, s, acts, id, false).commits
            <= |Ahead(cfg, s, s.db.rows[id])|
  {
    hide Inv, Apply, Enabled, Ahead, FairOk;
    if acts == [] {
      NoneFair(cfg, s, s.db.rows[id]);
    } else {
      var last := |acts| - 1;
      var a := acts[last];
      var mid := Exec(cfg, s, acts[..last]).value;
      RowBetween(cfg, s, acts, id);
      WaitingRun(cfg, s, acts[..last], id);
      ExecInv(cfg, s, acts[..last]);
      RunLater(cfg, s, acts[..last]);
      RowIds(cfg, s);
      FairStep(cfg, mid, a, Tallied(cfg, s, acts[..last], id, false).fair, id);
      if a.CommitClaim? && a.w in Tallied(cfg, s, acts[..last], id, false).fair {
        CommitStep(cfg, mid, a.w, a.acked, Tallied(cfg, s, acts[..last], id, false).fair, id);
      } else {
        AheadShrinks(cfg, mid, a, s.db.rows[id]);
        SubsetCardinality(Ahead(cfg, Apply(cfg, mid, a), s.db.rows[id]), Ahead(cfg, mid, s.db.rows[id]));
      }
    }
  }

  lemma NoneFair(cfg: Config, s: State, d: Delivery)
    ensures FairOk(cfg, s.batches, {}, d)
  {
  }

  /**
   * Bounded waiting. Take any run from a state in which a waiting delivery is overdue with k deliveries
   * ahead of it. If floor(k / limit) + 1 claim batches that were selected while it was due and unlocked have
   * committed, it has been claimed: whatever sends, failures, receipts, aborts and deletions happened meanwhile.
   */
  lemma BoundedWaiting(cfg: Config, s: State, acts: seq<Action>, s': State, id: Id)
    requires DelaysFit(cfg) && Reachable(cfg, s) && Exec(cfg, s, acts) == Some(s')
    requires id in s.db.rows && Claimable(s.db.rows[id].status) && s.db.rows[id].nextAttempt < s.clock
    requires Tallied(cfg, s, acts, id, false).commits >= |Ahead(cfg, s, s.db.rows[id])| / cfg.batchSize + 1
    ensures id in s'.retired || (id in s'.db.rows && s'.db.rows[id].attempts > s.db.rows[id].attempts)
  {
    hide Inv, Apply, Enabled, Ahead;
    ReachableInv(cfg, s);
    if Row(s', id) == Row(s, id) {
      WaitingRun(cfg, s, acts, id);
      BatchesExceed(|Ahead(cfg, s, s.db.rows[id])|, Tallied(cfg, s, acts, id, false).commits, cfg.batchSize);
    }
    RunLater(cfg, s, acts);
    assert id in s'.db.rows ==> Became(s.db.rows[id], s'.db.rows[id]);
  }

  lemma BatchesExceed(ahead: nat, commits: nat, limit: int)
    requires limit >= 1 && commits >= ahead / limit + 1
    ensures limit * commits > ahead
  {
    assert limit * commits >= limit * (ahead / limit + 1);
  }
}
