/** How a delivery can change over whole runs: forwards only, a bounded number of times. */
module Runs {
  import opened Results
  import opened Deliveries
  import opened Store
  import opened Protocol
  import opened Invariant
  import opened Preservation

  /** The only ways a committed step changes a row that stays. */
  predicate Moves(d: Delivery, d': Delivery) {
    && Bumped(d, d')
    && match d.status
       case Processing =>
         (d'.status == Retrying || d'.status == Sent || d'.status == DeadLetter) && d'.attempts == d.attempts
       case Sent => ReceiptStatus(d'.status) && d'.attempts == d.attempts
       case _ => Claimable(d.status) && d'.status == Processing && d'.attempts == d.attempts + 1
  }

  /** A row after one step: the same, moved, or deleted by retention. */
  ghost predicate Steps(s: State, s': State, id: Id)
    requires id in s.db.rows
  {
    if id in s'.db.rows then s'.db.rows[id] == s.db.rows[id] || Moves(s.db.rows[id], s'.db.rows[id])
    else id in s'.retired && (s.db.rows[id].status == Sent || s.db.rows[id].status == DeadLetter)
  }

  lemma FinishMoves(cfg: Config, s: State, w: nat, id: Id)
    requires Inv(cfg, s) && Enabled(cfg, s, CommitFinish(w, id))
    ensures var s' := Apply(cfg, s, CommitFinish(w, id)); forall i | i in s.db.rows :: Steps(s, s', i)
  {
    hide RowsOk, LogsOk, KeysOk, CallersOk, BatchesOk, ClaimsOk, ReceiptsOk, RepliesOk, AcceptedOk, CallsOk, RowOk,
        LogOk;
    LiveClaim(cfg, s, (w, id));
  }

  lemma ReceiptMoves(cfg: Config, s: State, k: nat, now: Time)
    requires Inv(cfg, s) && Enabled(cfg, s, CommitReceipt(k, now))
    ensures var s' := Apply(cfg, s, CommitReceipt(k, now)); forall i | i in s.db.rows :: Steps(s, s', i)
  {
    hide LogsOk, KeysOk, CallersOk, BatchesOk, RepliesOk, AcceptedOk, CallsOk;
    assert ReceiptOk(s.receipts[k], s.db.rows, s.retired, s.clock);
  }

  lemma ClaimMoves(cfg: Config, s: State, w: nat, acked: bool)
    requires Inv(cfg, s) && Enabled(cfg, s, CommitClaim(w, acked))
    ensures var s' := Apply(cfg, s, CommitClaim(w, acked)); forall i | i in s.db.rows :: Steps(s, s', i)
  {
    hide LogsOk, KeysOk, CallersOk, ReceiptsOk, RepliesOk, AcceptedOk, CallsOk;
    assert BatchOk(s.batches[w], s.db.rows, s.clock);
  }

  lemma DeleteMoves(cfg: Config, s: State, k: nat)
    requires Enabled(cfg, s, DeleteSweep(k))
    ensures var s' := Apply(cfg, s, DeleteSweep(k)); forall i | i in s.db.rows :: Steps(s, s', i)
  {
  }

  lemma StepMoves(cfg: Config, s: State, a: Action)
    requires Inv(cfg, s) && Enabled(cfg, s, a)
    ensures forall id | id in s.db.rows :: Steps(s, Apply(cfg, s, a), id)
  {
    hide Inv;
    match a
    case CommitFinish(w, id) => FinishMoves(cfg, s, w, id);
    case CommitReceipt(k, now) => ReceiptMoves(cfg, s, k, now);
    case CommitClaim(w, acked) => ClaimMoves(cfg, s, w, acked);
    case DeleteSweep(k) => DeleteMoves(cfg, s, k);
    case _ =>
  }

  /** Nothing committed is forgotten: the clock, the used ids, the retired ids and the outbox only grow. */
  lemma StepGrows(cfg: Config, s: State, a: Action)
    requires Enabled(cfg, s, a)
    ensures var s' := Apply(cfg, s, a);
            s.clock <= s'.clock && s.used <= s'.used && s.retired <= s'.retired && s.db.outbox <= s'.db.outbox
  {
  }

  // ----- termination

  /** How far along its life a delivery is, within one attempt. */
  function Phase(status: Status): nat {
    match status
    case Pending => 5
    case Processing => 4
    case Retrying => 3
    case Sent => 2
    case _ => 1
  }

  /** Lexicographic order on (attempts left, phase). */
  predicate Lower(cfg: Config, d': Delivery, d: Delivery) {
    || cfg.maxAttempts - d'.attempts < cfg.maxAttempts - d.attempts
    || (d'.attempts == d.attempts && Phase(d'.status) < Phase(d.status))
  }

  /** Every committed step that changes a delivery lowers its rank, which never leaves the naturals. */
  lemma LifecycleRank(cfg: Config, s: State, a: Action, id: Id)
    requires Configured(cfg) && Reachable(cfg, s) && Enabled(cfg, s, a)
    requires id in s.db.rows && id in Apply(cfg, s, a).db.rows
    ensures var d, d' := s.db.rows[id], Apply(cfg, s, a).db.rows[id];
            && 0 <= d.attempts <= cfg.maxAttempts
            && (d == d' || Lower(cfg, d', d))
  {
    hide Apply, Enabled, LogsOk, KeysOk, CallersOk, BatchesOk, ClaimsOk, ReceiptsOk, RepliesOk, AcceptedOk, CallsOk;
    ReachableInv(cfg, s);
    StepMoves(cfg, s, a);
    assert RowOk(cfg, s.clock, s.db.rows[id]);
    assert Steps(s, Apply(cfg, s, a), id);
  }

  /** The number of steps of a schedule that change or delete the row of `id`. */
  ghost function Changes(cfg: Config, s: State, acts: seq<Action>, id: Id): nat
    requires Exec(cfg, s, acts).Some?
  {
    if acts == [] then 0
    else
      var last := |acts| - 1;
      var mid := Exec(cfg, s, acts[..last]).value;
      Changes(cfg, s, acts[..last], id) +
      (if Row(mid, id) != None && Row(Exec(cfg, s, acts).value, id) != Row(mid, id) then 1 else 0)
  }

  function Row(s: State, id: Id): Option<Delivery> {
    if id in s.db.rows then Some(s.db.rows[id]) else None
  }

  /** The changes a row has left: versions to go, and a deletion. */
  function Budget(cfg: Config, s: State, id: Id): int {
    if id in s.db.rows then 2 * cfg.maxAttempts + 2 - s.db.rows[id].version else 0
  }

  lemma BudgetStep(cfg: Config, s: State, a: Action, id: Id)
    requires Configured(cfg) && Inv(cfg, s) && Enabled(cfg, s, a) && (id in s.db.rows || id in s.retired)
    ensures var s' := Apply(cfg, s, a);
            && (id in s'.db.rows || id in s'.retired)
            && Budget(cfg, s', id) + (if Row(s, id) != None && Row(s', id) != Row(s, id) then 1 else 0)
               <= Budget(cfg, s, id)
  {
    hide Apply, Enabled, LogsOk, CallersOk, BatchesOk, ClaimsOk, ReceiptsOk, RepliesOk, AcceptedOk, CallsOk;
    StepMoves(cfg, s, a);
    StepInv(cfg, s, a);
    StepGrows(cfg, s, a);
    if id in s.db.rows {
      assert RowOk(cfg, s.clock, s.db.rows[id]);
      assert Steps(s, Apply(cfg, s, a), id);
    }
  }

  lemma {:induction false} BudgetRun(cfg: Config, s: State, acts: seq<Action>, id: Id)
    requires Configured(cfg) && Inv(cfg, s) && Exec(cfg, s, acts).Some? && id in s.db.rows
    ensures var s' := Exec(cfg, s, acts).value;
            && (id in s'.db.rows || id in s'.retired)
            && Budget(cfg, s', id) + Changes(cfg, s, acts, id) <= Budget(cfg, s, id)
  {
    hide Inv, Apply, Enabled, Budget;
    if acts != [] {
      var last := |acts| - 1;
      BudgetRun(cfg, s, acts[..last], id);
      ExecInv(cfg, s, acts[..last]);
      BudgetStep(cfg, Exec(cfg, s, acts[..last]).value, acts[last], id);
    }
  }

  // ----- what a later state remembers of an earlier one

  /**
   * A row and what became of it: never older, never different at the same version; a waiting row changes only by
   * being claimed.
   */
  predicate Became(d: Delivery, d': Delivery) {
    && d'.id == d.id && d'.req == d.req && d'.createdAt == d.createdAt
    && d'.version >= d.version && (d'.version == d.version ==> d' == d)
    && d'.attempts >= d.attempts && (Claimable(d.status) && d' != d ==> d'.attempts > d.attempts)
    && (Terminal(d.status) ==> d' == d)
    && (d.status == Sent ==> d' == d || ReceiptStatus(d'.status))
  }

  ghost predicate Later(s: State, s': State) {
    && s.clock <= s'.clock && s.retired <= s'.retired && s.db.outbox <= s'.db.outbox
    && (forall id | id in s.retired :: id !in s'.db.rows)
    && (forall id | id in s.db.rows && id !in s'.db.rows :: id in s'.retired && !ReceiptStatus(s.db.rows[id].status))
    && (forall id | id in s.db.rows && id in s'.db.rows :: Became(s.db.rows[id], s'.db.rows[id]))
  }

  lemma StepLater(cfg: Config, s: State, a: Action)
    requires Configured(cfg) && Inv(cfg, s) && Enabled(cfg, s, a)
    ensures Later(s, Apply(cfg, s, a))
  {
    hide Apply, Enabled, RowsOk, LogsOk, CallersOk, BatchesOk, ClaimsOk, ReceiptsOk, RepliesOk, AcceptedOk, CallsOk;
    StepMoves(cfg, s, a);
    StepInv(cfg, s, a);
    StepGrows(cfg, s, a);
    forall id | id in s.db.rows
      ensures Steps(s, Apply(cfg, s, a), id)
    {
    }
  }

  lemma LaterTransitive(s: State, mid: State, s': State)
    requires Later(s, mid) && Later(mid, s')
    ensures Later(s, s')
  {
  }

  lemma LaterReflexive(cfg: Config, s: State)
    requires Inv(cfg, s)
    ensures Later(s, s)
  {
    hide RowsOk, LogsOk, CallersOk, BatchesOk, ClaimsOk, ReceiptsOk, RepliesOk, AcceptedOk, CallsOk;
  }

  /** Every schedule leads to a later state. */
  lemma {:induction false} RunLater(cfg: Config, s: State, acts: seq<Action>)
    requires Configured(cfg) && Inv(cfg, s) && Exec(cfg, s, acts).Some?
    ensures Later(s, Exec(cfg, s, acts).value)
  {
    hide Inv, Apply, Enabled, Later;
    if acts == [] {
      LaterReflexive(cfg, s);
    } else {
      var last := |acts| - 1;
      var mid := Exec(cfg, s, acts[..last]).value;
      RunLater(cfg, s, acts[..last]);
      ExecInv(cfg, s, acts[..last]);
      StepLater(cfg, mid, acts[last]);
      LaterTransitive(s, mid, Apply(cfg, mid, acts[last]));
    }
  }

  /** However long the run, a delivery changes at most 2 * MaxAttempts + 1 times after its insert. */
  lemma FiniteHistory(cfg: Config, s: State, acts: seq<Action>, id: Id)
    requires Configured(cfg) && Reachable(cfg, s) && Exec(cfg, s, acts).Some? && id in s.db.rows
    ensures Changes(cfg, s, acts, id) <= 2 * cfg.maxAttempts + 1
  {
    hide Apply, Enabled, LogsOk, KeysOk, CallersOk, BatchesOk, ClaimsOk, ReceiptsOk, RepliesOk, AcceptedOk, CallsOk;
    ReachableInv(cfg, s);
    BudgetRun(cfg, s, acts, id);
    ExecInv(cfg, s, acts);
    assert RowOk(cfg, s.clock, s.db.rows[id]);
    var s' := Exec(cfg, s, acts).value;
    assert id in s'.db.rows ==> RowOk(cfg, s'.clock, s'.db.rows[id]);
  }

  /** Every change is one version: a run changes a row that stays exactly as often as its version says. */
  lemma {:induction false} ChangesAreVersions(cfg: Config, s: State, acts: seq<Action>, id: Id)
    requires Configured(cfg) && Inv(cfg, s) && Exec(cfg, s, acts).Some?
    requires id in s.db.rows && id in Exec(cfg, s, acts).value.db.rows
    ensures Changes(cfg, s, acts, id) == Exec(cfg, s, acts).value.db.rows[id].version - s.db.rows[id].version
  {
    hide Inv, Apply, Enabled;
    if acts != [] {
      var last := |acts| - 1;
      var mid := Exec(cfg, s, acts[..last]).value;
      ExecInv(cfg, s, acts[..last]);
      RunLater(cfg, s, acts[..last]);
      StepLater(cfg, mid, acts[last]);
      StepMoves(cfg, mid, acts[last]);
      ChangesAreVersions(cfg, s, acts[..last], id);
      assert Steps(mid, Apply(cfg, mid, acts[last]), id);
    }
  }

  // ----- a processing row nobody holds

  /** The row of `id` is processing and no worker has a claim on it. */
  ghost predicate Orphan(s: State, id: Id) {
    id in s.db.rows && s.db.rows[id].status == Processing && forall t | t in s.claims :: t.1 != id
  }

  lemma OrphanStep(cfg: Config, s: State, a: Action, id: Id)
    requires Inv(cfg, s) && Enabled(cfg, s, a) && Orphan(s, id)
    ensures Orphan(Apply(cfg, s, a), id) && Row(Apply(cfg, s, a), id) == Row(s, id)
  {
    hide Inv, Apply, Enabled;
    OrphanNotTouched(cfg, s, id);
    OrphanRow(cfg, s, a, id);
    OrphanClaims(cfg, s, a, id);
  }

  lemma OrphanRow(cfg: Config, s: State, a: Action, id: Id)
    requires Enabled(cfg, s, a) && Orphan(s, id)
    requires forall w | w in s.batches :: id !in s.batches[w].rows
    requires forall k | k in s.receipts && s.receipts[k].row.id == id ::
               s.db.rows[id].version != s.receipts[k].row.version
    requires forall t | t in s.claims :: s.claims[t].row.id != id
    ensures Row(Apply(cfg, s, a), id) == Row(s, id)
  {
  }

  lemma OrphanClaims(cfg: Config, s: State, a: Action, id: Id)
    requires Enabled(cfg, s, a) && forall t | t in s.claims :: t.1 != id
    requires forall w | w in s.batches :: id !in s.batches[w].rows
    ensures forall t | t in Apply(cfg, s, a).claims :: t.1 != id
  {
  }

  lemma OrphanNotTouched(cfg: Config, s: State, id: Id)
    requires Inv(cfg, s) && Orphan(s, id)
    ensures forall w | w in s.batches :: id !in s.batches[w].rows
    ensures forall k | k in s.receipts && s.receipts[k].row.id == id ::
              s.db.rows[id].version != s.receipts[k].row.version
    ensures forall t | t in s.claims :: s.claims[t].row.id != id
  {
    hide LogsOk, KeysOk, CallersOk, RepliesOk, AcceptedOk, CallsOk;
    forall t | t in s.claims
      ensures s.claims[t].row.id != id
    {
      assert ClaimOk(s.claims[t], t.1, s.db.rows, s.clock);
    }
    forall w | w in s.batches
      ensures id !in s.batches[w].rows
    {
      assert BatchOk(s.batches[w], s.db.rows, s.clock);
    }
    forall k | k in s.receipts && s.receipts[k].row.id == id
      ensures s.db.rows[id].version != s.receipts[k].row.version
    {
      assert ReceiptOk(s.receipts[k], s.db.rows, s.retired, s.clock);
    }
  }

  lemma {:induction false} OrphanForever(cfg: Config, s: State, acts: seq<Action>, id: Id)
    requires Configured(cfg) && Inv(cfg, s) && Exec(cfg, s, acts).Some? && Orphan(s, id)
    ensures var s' := Exec(cfg, s, acts).value; Orphan(s', id) && Row(s', id) == Row(s, id)
  {
    hide Inv, Apply, Enabled;
    if acts != [] {
      var last := |acts| - 1;
      OrphanForever(cfg, s, acts[..last], id);
      ExecInv(cfg, s, acts[..last]);
      OrphanStep(cfg, Exec(cfg, s, acts[..last]).value, acts[last], id);
    }
  }

  /** From a live claim two more steps are enough to move the row on. */
  lemma LiveClaimProgress(cfg: Config, s: State, t: Token) returns (acts: seq<Action>)
    requires Configured(cfg) && Inv(cfg, s) && t in s.claims
    ensures Exec(cfg, s, acts).Some? && Row(Exec(cfg, s, acts).value, t.1) != Row(s, t.1)
  {
    hide Inv, Exec, Finish, Settle;
    ExecNothing(cfg, s);
    if s.claims[t].Settled? {
      FinishSucceeds(cfg, s, t);
      StepOn(cfg, s, [], s, CommitFinish(t.0, t.1));
      acts := [] + [CommitFinish(t.0, t.1)];
      FinishChanges(cfg, s, t);
    } else {
      var deliver := Deliver(t.0, t.1, Rejected(""), 0);
      StepOn(cfg, s, [], s, deliver);
      var mid := Apply(cfg, s, deliver);
      FinishSucceeds(cfg, mid, t);
      StepOn(cfg, s, [] + [deliver], mid, CommitFinish(t.0, t.1));
      acts := [] + [deliver] + [CommitFinish(t.0, t.1)];
      FinishChanges(cfg, mid, t);
    }
  }

  lemma FinishChanges(cfg: Config, s: State, t: Token)
    requires Inv(cfg, s) && Enabled(cfg, s, CommitFinish(t.0, t.1))
    ensures Row(Apply(cfg, s, CommitFinish(t.0, t.1)), t.1) != Row(s, t.1)
  {
    hide RowsOk, LogsOk, KeysOk, CallersOk, ClaimsOk, RepliesOk, AcceptedOk, CallsOk, BatchesOk, ReceiptsOk, RowOk,
        LogOk, Settle;
    LiveClaim(cfg, s, t);
  }

  /**
   * There is no lease: a processing row can still change exactly when some worker holds a claim on it.
   * After a crash, a lost claim acknowledgement or a failed finish it stays processing for ever.
   */
  lemma ProcessingRecoversIff(cfg: Config, s: State, id: Id)
    requires Configured(cfg) && Reachable(cfg, s) && id in s.db.rows && s.db.rows[id].status == Processing
    ensures (exists acts :: Exec(cfg, s, acts).Some? && Row(Exec(cfg, s, acts).value, id) != Row(s, id))
            <==> exists t :: t in s.claims && t.1 == id
  {
    hide Inv, Apply, Enabled;
    ReachableInv(cfg, s);
    if t :| t in s.claims && t.1 == id {
      var acts := LiveClaimProgress(cfg, s, t);
    } else {
      forall acts | Exec(cfg, s, acts).Some?
        ensures Row(Exec(cfg, s, acts).value, id) == Row(s, id)
      {
        OrphanForever(cfg, s, acts, id);
      }
    }
  }
}
