/** Runs of one delivery while nothing else is waiting: the pieces longer runs are made of. */
module Journeys {
  import opened Results
  import opened Backoff
  import opened Deliveries
  import opened Store
  import opened Protocol
  import opened Invariant
  import opened Preservation
  import opened Runs
  import opened Waiting
  import opened Dispatching
  import opened Service

  /** `id` waits after `n` attempts, no other row waits, and no claim transaction is open. */
  ghost predicate Waits(s: State, id: Id, n: nat) {
    && s.batches == map[] && id in s.db.rows
    && s.db.rows[id].id == id && Claimable(s.db.rows[id].status) && s.db.rows[id].attempts == n
    && forall i | i in s.db.rows && i != id :: !Claimable(s.db.rows[i].status)
  }

  /** Only the row of `id`, the outbox, the clock and the history may differ. */
  ghost predicate Beside(s: State, s': State, id: Id) {
    && s'.batches == s.batches && s'.claims == s.claims && s'.callers == s.callers && s'.receipts == s.receipts
    && s'.used == s.used
    && id in s.db.rows && id in s'.db.rows && s'.db.rows == s.db.rows[id := s'.db.rows[id]]
  }

  lemma RunIsReachable(cfg: Config, clock: Time, acts: seq<Action>, s: State)
    requires Exec(cfg, Start(clock), acts) == Some(s)
    ensures Reachable(cfg, s)
  {
  }

  /** A run from a reachable state ends in one. */
  lemma ReachableOn(cfg: Config, s: State, acts: seq<Action>, s': State)
    requires Reachable(cfg, s) && Exec(cfg, s, acts) == Some(s')
    ensures Reachable(cfg, s')
  {
    hide Exec;
    var clock, before :| Exec(cfg, Start(clock), before) == Some(s);
    ExecConcat(cfg, Start(clock), before, acts);
  }

  lemma StartReachable(cfg: Config, clock: Time)
    ensures Reachable(cfg, Start(clock)) && Inv(cfg, Start(clock))
  {
    hide Reachable;
    StartInv(cfg, clock);
    ExecNothing(cfg, Start(clock));
    RunIsReachable(cfg, clock, [], Start(clock));
  }

  lemma WaitingIsUnclaimed(cfg: Config, s: State, id: Id)
    requires Inv(cfg, s) && id in s.db.rows && Claimable(s.db.rows[id].status)
    ensures forall t | t in s.claims :: t.1 != id
  {
    hide Inv;
    forall t | t in s.claims
      ensures t.1 != id
    {
      ClaimProcessing(cfg, s, t);
    }
  }

  /** A send while nothing else waits. */
  lemma Enter(cfg: Config, s: State, id: Id, req: Request, now: Time, actor: string)
    returns (acts: seq<Action>, s': State)
    requires Configured(cfg) && Inv(cfg, s) && s.batches == map[] && s.callers == map[] && s.clock <= now
    requires id !in s.used && !ScopeTaken(s.db.rows, req)
    requires forall i | i in s.db.rows :: !Claimable(s.db.rows[i].status)
    ensures Exec(cfg, s, acts) == Some(s') && Inv(cfg, s') && Waits(s', id, 0)
    ensures s'.db.rows == s.db.rows[id := NewDelivery(id, req, now, actor)] && id !in s.db.rows
    ensures s'.clock == now && s'.used == s.used + {id} && s'.callers == map[] && s'.claims == s.claims
  {
    hide Inv, Exec, Scope;
    UnusedIsNew(cfg, s, id);
    acts, s' := SendRun(cfg, s, 0, req, id, now, actor, true, true);
  }

  lemma OnlyDueBatch(s: State, id: Id, n: nat, now: Time, limit: int)
    requires Waits(s, id, n) && s.db.rows[id].nextAttempt <= now && limit >= 1
    ensures Locked(s.batches) == {} && IsDueBatch(s.db.rows, {}, now, limit, [s.db.rows[id]])
  {
    assert s.db.rows[id] in [s.db.rows[id]];
  }

  /** Dispatcher 0 claims the waiting delivery and holds it. */
  lemma ClaimAlone(cfg: Config, s: State, id: Id, n: nat, now: Time) returns (acts: seq<Action>, s': State)
    requires Configured(cfg) && Inv(cfg, s) && Waits(s, id, n) && s.clock <= now && s.db.rows[id].nextAttempt <= now
    ensures Exec(cfg, s, acts) == Some(s') && Inv(cfg, s')
    ensures var c := Claimed(s.db.rows[id], now);
            s' == s.(clock := now, db := s.db.(rows := s.db.rows[id := c]), claims := s.claims[(0, id) := Held(c)])
  {
    hide Inv, Exec, IsDueBatch, Claimed;
    var batch := [s.db.rows[id]];
    OnlyDueBatch(s, id, n, now, cfg.batchSize);
    TickOn(cfg, s, now);
    var s1 := s.(clock := now);
    StepOn(cfg, s, [Tick(now)], s1, SelectDue(0, now, batch));
    var s2 := Apply(cfg, s1, SelectDue(0, now, batch));
    SelectedMatches(cfg, s2, 0);
    StepOn(cfg, s, [Tick(now)] + [SelectDue(0, now, batch)], s2, CommitClaim(0, true));
    acts := [Tick(now)] + [SelectDue(0, now, batch)] + [CommitClaim(0, true)];
    s' := Apply(cfg, s2, CommitClaim(0, true));
    ClaimedAlone(s, id, now);
  }

  lemma ClaimedAlone(s: State, id: Id, now: Time)
    requires id in s.db.rows && s.db.rows[id].id == id && s.batches == map[]
    ensures var c, b := Claimed(s.db.rows[id], now), Batch(now, map i | i in Ids([s.db.rows[id]]) :: s.db.rows[i]);
            && b.rows.Keys == {id} && Without(s.batches[0 := b], 0) == map[]
            && ClaimRows(s.db.rows, b.rows.Keys, now) == s.db.rows[id := c]
            && s.claims + Handed(0, b) == s.claims[(0, id) := Held(c)]
  {
    assert Ids([s.db.rows[id]]) == {id};
    assert Handed(0, Batch(now, map i | i in {id} :: s.db.rows[i]))
        == map[(0, id) := Held(Claimed(s.db.rows[id], now))];
  }

  /** One attempt, claimed at `now` and finished at once. */
  lemma AttemptAlone(cfg: Config, s: State, id: Id, n: nat, now: Time, outcome: Outcome)
    returns (acts: seq<Action>, s': State)
    requires Configured(cfg) && Inv(cfg, s) && Waits(s, id, n) && s.clock <= now && s.db.rows[id].nextAttempt <= now
    requires Filled(outcome)
    ensures Exec(cfg, s, acts) == Some(s') && Inv(cfg, s') && Beside(s, s', id) && s'.clock == now
    ensures var c := Claimed(s.db.rows[id], now); s'.db.rows[id] == Stored(c, Settle(cfg, c, outcome, now))
  {
    hide Inv, Exec, Settle, Stored, Claimed;
    WaitingIsUnclaimed(cfg, s, id);
    var claim, mid := ClaimAlone(cfg, s, id, n, now);
    ClaimProcessing(cfg, mid, (0, id));
    var deliver;
    deliver, s' := DeliverRun(cfg, mid, 0, id, outcome, 0, now, true);
    ExecConcat(cfg, s, claim, deliver);
    acts := claim + deliver;
    FinishRows(mid.db, Settle(cfg, mid.db.rows[id], outcome, now));
    assert Without(mid.claims, (0, id)) == s.claims;
  }

  /** The first instant at which the waiting delivery can be claimed. */
  function Earliest(s: State, id: Id): Time
    requires id in s.db.rows
  {
    if s.clock <= s.db.rows[id].nextAttempt then s.db.rows[id].nextAttempt else s.clock
  }

  /** Every attempt so far was made the moment it was due. */
  ghost predicate Punctual(cfg: Config, s: State, id: Id) {
    && id in s.db.rows && s.clock <= s.db.rows[id].nextAttempt && s.db.rows[id].attempts >= 0
    && s.db.rows[id].nextAttempt == s.db.rows[id].createdAt + TotalWait(cfg.retryBase, s.db.rows[id].attempts)
  }

  /** One failed attempt with more to come. */
  lemma FailOnce(cfg: Config, s: State, id: Id, n: nat) returns (acts: seq<Action>, s': State)
    requires Configured(cfg) && Inv(cfg, s) && Waits(s, id, n) && n + 1 < cfg.maxAttempts
    ensures Exec(cfg, s, acts) == Some(s') && Inv(cfg, s') && Beside(s, s', id) && Waits(s', id, n + 1)
    ensures s'.db.rows[id].createdAt == s.db.rows[id].createdAt && s'.db.rows[id].req == s.db.rows[id].req
    ensures Punctual(cfg, s, id) && FitsInt64(cfg.retryBase, n + 1) ==> Punctual(cfg, s', id)
  {
    hide Inv, Exec, RetryBackoff, FitsInt64;
    acts, s' := AttemptAlone(cfg, s, id, n, Earliest(s, id), Rejected("refused"));
    if FitsInt64(cfg.retryBase, n + 1) {
      BackoffNonNegative(cfg.retryBase, n + 1, n + 1);
    }
  }

  /** `n` failed attempts with more to come. */
  lemma {:induction false} FailRepeatedly(cfg: Config, s: State, id: Id, n: nat) returns (acts: seq<Action>, s': State)
    requires Configured(cfg) && Inv(cfg, s) && Waits(s, id, 0) && n < cfg.maxAttempts
    ensures Exec(cfg, s, acts) == Some(s') && Inv(cfg, s') && Beside(s, s', id) && Waits(s', id, n)
    ensures s'.db.rows[id].createdAt == s.db.rows[id].createdAt && s'.db.rows[id].req == s.db.rows[id].req
    ensures Punctual(cfg, s, id) && FitsInt64(cfg.retryBase, n) ==> Punctual(cfg, s', id)
  {
    hide Inv, Exec, Punctual;
    if n == 0 {
      ExecNothing(cfg, s);
      acts, s' := [], s;
    } else {
      if n > 1 && FitsInt64(cfg.retryBase, n) {
        FitsInt64Before(cfg.retryBase, n);
      }
      var before, mid := FailRepeatedly(cfg, s, id, n - 1);
      var more;
      more, s' := FailOnce(cfg, mid, id, n - 1);
      ExecConcat(cfg, s, before, more);
      acts := before + more;
    }
  }
}
