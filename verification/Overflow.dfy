/** What retry delays that overflow do to the queue: bounded waiting needs delays that fit. */
module Overflow {
  import opened Results
  import opened Backoff
  import opened Deliveries
  import opened Store
  import opened Protocol
  import opened Invariant
  import opened Preservation
  import opened Runs
  import opened Waiting
  import opened Dispatching
  import opened Service
  import opened Journeys
  import opened Findings

  /** Deliveries 1..m, each under a live claim for its attempt number `k`, none sent yet. */
  ghost predicate Piled(s: State, k: nat, m: nat) {
    && Numbered(s, m) && s.batches == map[]
    && (forall t | t in s.claims :: s.claims[t].Held?)
    && (forall i | i in s.db.rows :: HeldAt(s, k, i) && !Claimable(s.db.rows[i].status))
  }

  ghost predicate HeldAt(s: State, k: nat, i: Id) {
    && i in s.db.rows && s.db.rows[i].attempts == k
    && (0, i) in s.claims && s.claims[(0, i)] == Held(s.db.rows[i])
  }

  /** One more delivery is sent, fails k-1 times and is claimed once more. */
  lemma PileOn(cfg: Config, s: State, k: nat, m: nat) returns (acts: seq<Action>, s': State)
    requires Configured(cfg) && Inv(cfg, s) && Piled(s, k, m) && 1 <= k <= cfg.maxAttempts
    ensures Exec(cfg, s, acts) == Some(s') && Inv(cfg, s') && Piled(s', k, m + 1)
  {
    hide Inv, Exec, Nth, UpTo, ScopeTaken, Punctual, FitsInt64, TotalWait;
    NextIsNew(s, m);
    var sent, s1 := Enter(cfg, s, m + 1, Nth(m + 1), s.clock, "");
    var failed, s2 := FailRepeatedly(cfg, s1, m + 1, k - 1);
    var claimed;
    claimed, s' := ClaimAlone(cfg, s2, m + 1, k - 1, Earliest(s2, m + 1));
    ExecConcat(cfg, s, sent, failed);
    ExecConcat(cfg, s, sent + failed, claimed);
    acts := sent + failed + claimed;
  }

  lemma NothingPiled(k: nat)
    ensures Piled(Start(0), k, 0)
  {
  }

  lemma {:induction false} PileUp(cfg: Config, k: nat, m: nat) returns (s: State)
    requires Configured(cfg) && 1 <= k <= cfg.maxAttempts
    ensures Reachable(cfg, s) && Inv(cfg, s) && Piled(s, k, m)
  {
    hide Inv, Exec, Reachable, Piled;
    if m == 0 {
      StartReachable(cfg, 0);
      s := Start(0);
      NothingPiled(k);
    } else {
      var before := PileUp(cfg, k, m - 1);
      var acts;
      acts, s := PileOn(cfg, before, k, m - 1);
      ReachableOn(cfg, before, acts, s);
    }
  }

  /** Of deliveries 1..m the first `j` went back into the queue at `next`, the others are still held; m+1 waits. */
  ghost predicate Returned(s: State, k: nat, m: nat, j: nat, next: Time, victim: Delivery) {
    && s.batches == map[] && s.db.rows.Keys == UpTo(m + 1) && m + 1 in s.db.rows && s.db.rows[m + 1] == victim
    && (forall i | i in s.db.rows :: s.db.rows[i].id == i)
    && (forall i | 1 <= i <= j :: i in s.db.rows && s.db.rows[i].status == Retrying && s.db.rows[i].nextAttempt == next)
    && (forall i | j < i <= m :: HeldAt(s, k, i))
  }

  lemma ReturnOne(cfg: Config, s: State, k: nat, m: nat, j: nat, victim: Delivery)
    returns (acts: seq<Action>, s': State)
    requires Configured(cfg) && Inv(cfg, s) && k < cfg.maxAttempts && j < m
    requires Returned(s, k, m, j, s.clock + RetryBackoff(cfg.retryBase, k), victim)
    ensures Exec(cfg, s, acts) == Some(s') && Inv(cfg, s') && s'.clock == s.clock
    ensures Returned(s', k, m, j + 1, s.clock + RetryBackoff(cfg.retryBase, k), victim)
  {
    hide Inv, Exec, RetryBackoff, UpTo;
    assert HeldAt(s, k, j + 1);
    acts, s' := DeliverRun(cfg, s, 0, j + 1, Rejected("refused"), 0, s.clock, true);
    FinishRows(s.db, Settle(cfg, s.db.rows[j + 1], Rejected("refused"), s.clock));
    forall i | j + 1 < i <= m
      ensures HeldAt(s', k, i)
    {
      assert HeldAt(s, k, i);
    }
  }

  lemma {:induction false} ReturnAll(cfg: Config, s: State, k: nat, m: nat, j: nat, victim: Delivery)
    returns (acts: seq<Action>, s': State)
    requires Configured(cfg) && Inv(cfg, s) && k < cfg.maxAttempts && j <= m
    requires Returned(s, k, m, 0, s.clock + RetryBackoff(cfg.retryBase, k), victim)
    ensures Exec(cfg, s, acts) == Some(s') && Inv(cfg, s') && s'.clock == s.clock
    ensures Returned(s', k, m, j, s.clock + RetryBackoff(cfg.retryBase, k), victim)
  {
    hide Inv, Exec, RetryBackoff, Returned;
    if j == 0 {
      ExecNothing(cfg, s);
      acts, s' := [], s;
    } else {
      var before, mid := ReturnAll(cfg, s, k, m, j - 1, victim);
      var more;
      more, s' := ReturnOne(cfg, mid, k, m, j - 1, victim);
      ExecConcat(cfg, s, before, more);
      acts := before + more;
    }
  }

  /** A full batch of returned deliveries, all before the one that waited. */
  lemma ReturnedBatch(s: State, k: nat, m: nat, next: Time, victim: Delivery) returns (batch: seq<Delivery>)
    requires Returned(s, k, m, m, next, victim) && Claimable(victim.status)
    requires next <= victim.nextAttempt && victim.nextAttempt <= s.clock
    ensures IsDueBatch(s.db.rows, Locked(s.batches), s.clock, m, batch) && Ids(batch) == UpTo(m)
  {
    hide UpTo;
    batch := seq(m, i requires 0 <= i < m => s.db.rows[i + 1]);
    forall i | i in UpTo(m)
      ensures i in Ids(batch)
    {
      assert batch[i - 1] in batch && batch[i - 1].id == i;
    }
  }

  /** Delivery m+1 is sent behind the pile and becomes overdue with nothing ahead of it. */
  lemma BehindThePile(cfg: Config, k: nat, m: nat) returns (s: State)
    requires Configured(cfg) && 1 <= k <= cfg.maxAttempts
    ensures Reachable(cfg, s) && Inv(cfg, s) && Overdue(s, m + 1) && s.db.rows[m + 1].nextAttempt == s.clock - 1
    ensures Returned(s, k, m, 0, s.clock + RetryBackoff(cfg.retryBase, k), s.db.rows[m + 1])
    ensures Ahead(cfg, s, s.db.rows[m + 1]) == {}
  {
    hide Inv, Exec, Reachable, RetryBackoff, ScopeTaken, Nth, UpTo;
    var piled := PileUp(cfg, k, m);
    NextIsNew(piled, m);
    var sent, s1 := Enter(cfg, piled, m + 1, Nth(m + 1), piled.clock, "");
    TickOn(cfg, s1, s1.clock + 1);
    s := s1.(clock := s1.clock + 1);
    ReachableOn(cfg, piled, sent, s1);
    ReachableOn(cfg, s1, [Tick(s.clock)], s);
    forall i | 0 < i <= m
      ensures HeldAt(s, k, i)
    {
      assert HeldAt(piled, k, i);
    }
  }

  /**
   * With delays that overflow: a delivery is overdue and nothing is ahead of it, yet a batch selected while it is
   * due and unlocked commits without it, because failed attempts were rescheduled into the past.
   */
  lemma Overrun(cfg: Config) returns (s: State, acts: seq<Action>, s': State, id: Id)
    requires Configured(cfg) && cfg.retryBase <= MAX_INT64 && !DelaysFit(cfg)
    ensures Reachable(cfg, s) && Exec(cfg, s, acts) == Some(s') && Overdue(s, id)
    ensures Ahead(cfg, s, s.db.rows[id]) == {} && Tallied(cfg, s, acts, id, false).commits >= 1
    ensures id in s'.db.rows && s'.db.rows[id] == s.db.rows[id] && Inv(cfg, s')
    ensures Enabled(cfg, s, Deliver(0, 1, Rejected("refused"), 0))
    ensures 1 in Ahead(cfg, Apply(cfg, s, Deliver(0, 1, Rejected("refused"), 0)), s.db.rows[id])
  {
    hide Inv, Exec, Reachable, RetryBackoff, FitsInt64, Ahead, Tallied, IsDueBatch, ClaimMatches, Returned;
    var k := FirstOverflow(cfg.retryBase, cfg.maxAttempts - 1);
    var m := cfg.batchSize;
    id := m + 1;
    s := BehindThePile(cfg, k, m);
    var victim := s.db.rows[id];
    DeliverGetsAhead(cfg, s, k, m);
    var returned, mid := ReturnAll(cfg, s, k, m, m, victim);
    var batch := ReturnedBatch(mid, k, m, s.clock + RetryBackoff(cfg.retryBase, k), victim);
    VictimStays(mid, k, m, s.clock + RetryBackoff(cfg.retryBase, k), victim);
    var select := SelectDue(0, mid.clock, batch);
    StepOn(cfg, s, returned, mid, select);
    var open := Apply(cfg, mid, select);
    SelectedMatches(cfg, open, 0);
    StepOn(cfg, s, returned + [select], open, CommitClaim(0, true));
    ClaimTallied(cfg, s, returned, mid, 0, mid.clock, batch, true, id, false);
    acts := returned + [select, CommitClaim(0, true)];
    s' := Apply(cfg, open, CommitClaim(0, true));
  }

  lemma VictimStays(s: State, k: nat, m: nat, next: Time, victim: Delivery)
    requires Returned(s, k, m, m, next, victim)
    ensures s.batches == map[] && Locked(s.batches) == {} && m + 1 in s.db.rows && s.db.rows[m + 1] == victim
    ensures m + 1 !in UpTo(m)
  {
  }

  /** The very step that fixes a retry in the past puts it ahead. */
  lemma DeliverGetsAhead(cfg: Config, s: State, k: nat, m: nat)
    requires Inv(cfg, s) && Overdue(s, m + 1) && s.db.rows[m + 1].nextAttempt == s.clock - 1
    requires Returned(s, k, m, 0, s.clock + RetryBackoff(cfg.retryBase, k), s.db.rows[m + 1])
    requires m >= 1 && k < cfg.maxAttempts && RetryBackoff(cfg.retryBase, k) < 0
    ensures Enabled(cfg, s, Deliver(0, 1, Rejected("refused"), 0))
    ensures 1 in Ahead(cfg, Apply(cfg, s, Deliver(0, 1, Rejected("refused"), 0)), s.db.rows[m + 1])
  {
    hide Inv, RetryBackoff, UpTo;
    assert HeldAt(s, k, 1);
    ClaimProcessing(cfg, s, (0, 1));
    var s' := Apply(cfg, s, Deliver(0, 1, Rejected("refused"), 0));
    assert RetriesBefore(cfg, s'.claims[(0, 1)], s.db.rows[m + 1]);
  }

  // ----- the exact condition

  /** From no reachable state does any step get ahead of an overdue delivery. */
  ghost predicate NobodyOvertakes(cfg: Config) {
    forall s, a, id | Reachable(cfg, s) && Enabled(cfg, s, a) && Overdue(s, id) ::
      Ahead(cfg, Apply(cfg, s, a), s.db.rows[id]) <= Ahead(cfg, s, s.db.rows[id])
  }

  /** In every run: once enough fair batches committed, an overdue delivery has been claimed. */
  ghost predicate WaitingIsBounded(cfg: Config)
    requires Configured(cfg)
  {
    forall s, acts, s', id | Reachable(cfg, s) && Exec(cfg, s, acts) == Some(s') && Overdue(s, id)
      && Tallied(cfg, s, acts, id, false).commits >= |Ahead(cfg, s, s.db.rows[id])| / cfg.batchSize + 1 ::
      id in s'.retired || (id in s'.db.rows && s'.db.rows[id].attempts > s.db.rows[id].attempts)
  }

  /** Both hold exactly when every retry delay in use fits int64. */
  lemma BoundedWaitingIff(cfg: Config)
    requires Configured(cfg) && cfg.retryBase <= MAX_INT64
    ensures WaitingIsBounded(cfg) <==> DelaysFit(cfg)
    ensures NobodyOvertakes(cfg) <==> DelaysFit(cfg)
  {
    hide Inv, Exec, Reachable, Apply, Enabled, Ahead, Tallied, DelaysFit;
    if DelaysFit(cfg) {
      forall s, acts, s', id | Reachable(cfg, s) && Exec(cfg, s, acts) == Some(s') && Overdue(s, id)
        && Tallied(cfg, s, acts, id, false).commits >= |Ahead(cfg, s, s.db.rows[id])| / cfg.batchSize + 1
        ensures id in s'.retired || (id in s'.db.rows && s'.db.rows[id].attempts > s.db.rows[id].attempts)
      {
        BoundedWaiting(cfg, s, acts, s', id);
      }
      forall s, a, id | Reachable(cfg, s) && Enabled(cfg, s, a) && Overdue(s, id)
        ensures Ahead(cfg, Apply(cfg, s, a), s.db.rows[id]) <= Ahead(cfg, s, s.db.rows[id])
      {
        NobodyGetsAhead(cfg, s, a, id);
      }
    } else {
      var s, acts, s', id := Overrun(cfg);
      StoredNotRetired(cfg, s', id);
      assert 0 / cfg.batchSize == 0;
    }
  }

  lemma StoredNotRetired(cfg: Config, s: State, id: Id)
    requires Inv(cfg, s) && id in s.db.rows
    ensures id !in s.retired
  {
    hide RowsOk, LogsOk, CallersOk, BatchesOk, ClaimsOk, ReceiptsOk, RepliesOk, AcceptedOk, CallsOk;
  }
}
