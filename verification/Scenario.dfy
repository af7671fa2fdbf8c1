/** The guarantees are about something: runs that go all the way, and runs that attain the bounds. */
module Scenario {
  import opened Results
  import opened Backoff
  import opened Deliveries
  import opened Store
  import opened Protocol
  import opened Invariant
  import opened Preservation
  import opened Runs
  import opened Dispatching
  import opened Service
  import opened Waiting
  import opened Journeys

  /** From an empty database a request is accepted: the first delivery waits, created at 0. */
  lemma FirstSend(cfg: Config, req: Request, actor: string) returns (s: State)
    requires Configured(cfg)
    ensures Reachable(cfg, s) && Inv(cfg, s) && Waits(s, 1, 0)
    ensures s.db.rows == map[1 := NewDelivery(1, req, 0, actor)] && s.clock == 0
    ensures s.claims == map[] && s.receipts == map[] && s.callers == map[] && s.used == {1}
  {
    hide Inv, Exec, Reachable;
    StartReachable(cfg, 0);
    var acts;
    acts, s := SendRun(cfg, Start(0), 0, req, 1, 0, actor, true, true);
    ReachableOn(cfg, Start(0), acts, s);
  }

  /** From an empty database, for every request: it is accepted once and ends delivered, with three events. */
  lemma DeliveryCompletes(cfg: Config, req: Request, actor: string) returns (s: State)
    requires Configured(cfg)
    ensures Reachable(cfg, s) && 1 in s.db.rows
    ensures s.db.rows[1].req == req && s.db.rows[1].status == Delivered && s.accepted[1] == 1
    ensures |Log(s.db.outbox, 1)| == 3
  {
    hide Inv, Exec, Reachable;
    var s1 := FirstSend(cfg, req, actor);
    var attempt, s2 := AttemptAlone(cfg, s1, 1, 0, 0, Accepted("in_app", "stored"));
    var receipt;
    receipt, s := ReceiptRun(cfg, s2, 0, 1, Delivered, "", actor, 0, true);
    ReachableOn(cfg, s1, attempt, s2);
    ReachableOn(cfg, s2, receipt, s);
    Facts(cfg, s);
  }

  lemma Facts(cfg: Config, s: State)
    requires Inv(cfg, s) && 1 in s.db.rows && s.db.rows[1].status == Delivered && s.db.rows[1].attempts == 1
    ensures s.accepted[1] == 1 && |Log(s.db.outbox, 1)| == 3
  {
    hide KeysOk, CallersOk, BatchesOk, ClaimsOk, ReceiptsOk, RepliesOk, CallsOk;
    assert RowOk(cfg, s.clock, s.db.rows[1]);
    assert LogOk(s.db.outbox, s.db.rows[1]);
  }

  /** The lower bound on giving up is attained: for every configuration and request some run reaches it exactly. */
  lemma DeadLetterTimingIsTight(cfg: Config, req: Request, actor: string) returns (s: State)
    requires DelaysFit(cfg)
    ensures Reachable(cfg, s) && 1 in s.db.rows && s.db.rows[1].status == DeadLetter
    ensures s.db.rows[1].updatedAt == s.db.rows[1].createdAt + TotalWait(cfg.retryBase, cfg.maxAttempts - 1)
  {
    hide Inv, Exec, Reachable;
    var n := cfg.maxAttempts - 1;
    var s1 := FirstSend(cfg, req, actor);
    var before, s2 := FailRepeatedly(cfg, s1, 1, n);
    var last;
    last, s := AttemptAlone(cfg, s2, 1, n, Earliest(s2, 1), Rejected("refused"));
    ReachableOn(cfg, s1, before, s2);
    ReachableOn(cfg, s2, last, s);
  }

  /** The bound on a delivery's history is attained too: every attempt but the last fails, then a receipt follows. */
  lemma FiniteHistoryIsTight(cfg: Config, req: Request, actor: string)
    returns (s: State, acts: seq<Action>, s': State)
    requires Configured(cfg)
    ensures Reachable(cfg, s) && Exec(cfg, s, acts) == Some(s') && 1 in s.db.rows && s.db.rows[1].req == req
    ensures Changes(cfg, s, acts, 1) == 2 * cfg.maxAttempts + 1
  {
    hide Inv, Exec, Reachable, Changes;
    var n := cfg.maxAttempts - 1;
    s := FirstSend(cfg, req, actor);
    var before, s2 := FailRepeatedly(cfg, s, 1, n);
    var last, s3 := AttemptAlone(cfg, s2, 1, n, Earliest(s2, 1), Accepted("in_app", "stored"));
    var receipt;
    receipt, s' := ReceiptRun(cfg, s3, 0, 1, Delivered, "", actor, s3.clock, true);
    ExecConcat(cfg, s, before, last);
    ExecConcat(cfg, s, before + last, receipt);
    acts := before + last + receipt;
    ChangesAreVersions(cfg, s, acts, 1);
    DeliveredVersion(cfg, s');
  }

  lemma DeliveredVersion(cfg: Config, s: State)
    requires Inv(cfg, s) && 1 in s.db.rows && s.db.rows[1].status == Delivered
    ensures s.db.rows[1].version == 2 * s.db.rows[1].attempts + 2
  {
    hide LogsOk, KeysOk, CallersOk, BatchesOk, ClaimsOk, ReceiptsOk, RepliesOk, AcceptedOk, CallsOk;
    assert RowOk(cfg, s.clock, s.db.rows[1]);
  }
}
