/** Where the engine does less than one might expect: runs that show it, and exact conditions. */
module Findings {
  import opened Results
  import opened Backoff
  import opened Deliveries
  import opened Store
  import opened Protocol
  import opened Invariant
  import opened Preservation
  import opened Runs
  import opened Waiting
  import opened Dispatching
  import opened Service
  import opened Journeys
  import opened Scenario

  /** A delivery that could have been claimed already. */
  ghost predicate Overdue(s: State, id: Id) {
    id in s.db.rows && Claimable(s.db.rows[id].status) && s.db.rows[id].nextAttempt < s.clock
  }

  // ----- work in flight gets ahead

  /** Step `a` puts `other` into the queue before the overdue delivery `id`. */
  ghost predicate Overtakes(cfg: Config, s: State, a: Action, id: Id, other: Id) {
    && Overdue(s, id) && Enabled(cfg, s, a)
    && other !in Queued(s.db.rows, s.db.rows[id]) && other in Queued(Apply(cfg, s, a).db.rows, s.db.rows[id])
  }

  /** A send is stamped, another enqueues a later row, and only when that is overdue the first one commits. */
  lemma SendOvertakes(cfg: Config, a: Request, b: Request, actor: string) returns (s: State)
    requires Configured(cfg) && Scope(a) != Scope(b)
    ensures Reachable(cfg, s) && Overtakes(cfg, s, CommitSend(0, true), 2, 1)
  {
    hide Inv, Exec, Reachable;
    StartReachable(cfg, 0);
    var s0 := Start(0);
    CheckOn(cfg, s0, 0, a);
    var s1 := s0.(callers := s0.callers[0 := Checked(a)]);
    StampOn(cfg, s0, [CheckKey(0, a)], s1, 0, 1, actor);
    var stamped := [CheckKey(0, a)] + [StampSend(0, 1, actor)];
    var s2 := s1.(used := s1.used + {1}, callers := s1.callers[0 := Stamped(NewDelivery(1, a, 0, actor))]);
    var sent, s3 := SendRun(cfg, s2, 1, b, 2, 5, actor, true, true);
    TickOn(cfg, s3, 10);
    s := s3.(clock := 10);
    ReachableOn(cfg, s0, stamped, s2);
    ReachableOn(cfg, s2, sent, s3);
    ReachableOn(cfg, s3, [Tick(10)], s);
  }

  /** An attempt failed and its retry time is past, but only once a later row is overdue its finish commits. */
  lemma RetryOvertakes(cfg: Config, a: Request, b: Request, actor: string) returns (s: State)
    requires DelaysFit(cfg) && cfg.maxAttempts >= 2 && Scope(a) != Scope(b)
    ensures Reachable(cfg, s) && Overtakes(cfg, s, CommitFinish(0, 1), 2, 1)
  {
    hide Inv, Exec, Reachable, Overtakes, Settle, Stored, RetryBackoff, Finish;
    var s1 := FirstSend(cfg, a, actor);
    var claim, s2 := ClaimAlone(cfg, s1, 1, 0, 0);
    ExecNothing(cfg, s2);
    var deliver := Deliver(0, 1, Rejected("refused"), 0);
    StepOn(cfg, s2, [], s2, deliver);
    var s3 := Apply(cfg, s2, deliver);
    BackoffNonNegative(cfg.retryBase, cfg.maxAttempts - 1, 1);
    var retry := RetryBackoff(cfg.retryBase, 1);
    var sent, s4 := SendRun(cfg, s3, 0, b, 2, retry + 1, actor, true, true);
    TickOn(cfg, s4, retry + 2);
    s := s4.(clock := retry + 2);
    ReachableOn(cfg, s1, claim, s2);
    ReachableOn(cfg, s2, [] + [deliver], s3);
    ReachableOn(cfg, s3, sent, s4);
    ReachableOn(cfg, s4, [Tick(retry + 2)], s);
    LateFinish(cfg, s);
  }

  lemma LateFinish(cfg: Config, s: State)
    requires Inv(cfg, s) && cfg.maxAttempts >= 2 && Overdue(s, 2) && s.db.rows[2].id == 2
    requires (0, 1) in s.claims && s.claims[(0, 1)].Settled?
    requires var c := s.claims[(0, 1)];
             c.outcome.Rejected? && c.at == 0 && c.row.attempts == 1
             && s.db.rows[2].nextAttempt == RetryBackoff(cfg.retryBase, 1) + 1
    ensures Overtakes(cfg, s, CommitFinish(0, 1), 2, 1)
  {
    hide Inv, RetryBackoff;
    ClaimProcessing(cfg, s, (0, 1));
    FinishSucceeds(cfg, s, (0, 1));
    FinishJoins(cfg, s, 0, 1, s.db.rows[2]);
  }

  // ----- processing for ever

  /** A claim commits, its acknowledgement is lost, and the row is processing with nobody to hold it. */
  lemma OrphanReachable(cfg: Config, req: Request, actor: string) returns (s: State)
    requires Configured(cfg)
    ensures Reachable(cfg, s) && Orphan(s, 1) && s.db.rows[1].req == req
  {
    hide Inv, Exec, Reachable;
    var s1 := FirstSend(cfg, req, actor);
    OnlyDueBatch(s1, 1, 0, 0, cfg.batchSize);
    var acts;
    acts, s := ClaimRun(cfg, s1, 0, 0, [s1.db.rows[1]], true, false);
    assert s1.db.rows[1] in [s1.db.rows[1]];
    ReachableOn(cfg, s1, acts, s);
  }

  // ----- one row per tenant, application and key

  lemma BothStored(cfg: Config, a: Request, b: Request) returns (s: State)
    requires Configured(cfg) && Scope(a) != Scope(b)
    ensures Reachable(cfg, s) && 1 in s.db.rows && 2 in s.db.rows && s.db.rows[1].req == a && s.db.rows[2].req == b
  {
    hide Inv, Exec, Reachable;
    var s1 := FirstSend(cfg, a, "");
    var acts;
    acts, s := SendRun(cfg, s1, 0, b, 2, 0, "", true, true);
    ReachableOn(cfg, s1, acts, s);
  }

  ghost predicate Coexist(cfg: Config, a: Request, b: Request) {
    exists s, i, j :: Reachable(cfg, s) && i in s.db.rows && j in s.db.rows && i != j
                      && s.db.rows[i].req == a && s.db.rows[j].req == b
  }

  /** Two requests can both have a row exactly if they differ in tenant, application or key. */
  lemma CoexistIff(cfg: Config, a: Request, b: Request)
    requires Configured(cfg)
    ensures Coexist(cfg, a, b) <==> a.tenant != b.tenant || a.application != b.application || a.key != b.key
  {
    hide Inv, Reachable;
    if Scope(a) != Scope(b) {
      var s := BothStored(cfg, a, b);
      assert 1 in s.db.rows && 2 in s.db.rows;
    } else {
      forall s, i, j | Reachable(cfg, s) && i in s.db.rows && j in s.db.rows && i != j
                       && s.db.rows[i].req == a && s.db.rows[j].req == b
        ensures false
      {
        ReachableInv(cfg, s);
        OneRowPerScope(cfg, s, i, j);
      }
    }
  }

  lemma OneRowPerScope(cfg: Config, s: State, i: Id, j: Id)
    requires Inv(cfg, s) && i in s.db.rows && j in s.db.rows && i != j
    ensures Scope(s.db.rows[i].req) != Scope(s.db.rows[j].req)
  {
    hide RowsOk, LogsOk, CallersOk, BatchesOk, ClaimsOk, ReceiptsOk, RepliesOk, AcceptedOk, CallsOk, Scope;
  }

  /** In particular the same tenant and key can have a row in two applications. */
  lemma TwoApplicationsOneKey(cfg: Config, req: Request, other: string) returns (s: State)
    requires Configured(cfg) && other != req.application
    ensures Reachable(cfg, s) && 1 in s.db.rows && 2 in s.db.rows
    ensures s.db.rows[1].req == req && s.db.rows[2].req == req.(application := other)
  {
    s := BothStored(cfg, req, req.(application := other));
  }

  // ----- batches that pass over a locked delivery

  /** Any number of requests, no two alike in key. */
  function Nth(i: nat): Request {
    Request("tenant", "application", "welcome", "in_app", "en", "user", "{}", seq(i + 1, _ => 'k'))
  }

  function UpTo(m: nat): (ids: set<Id>)
    ensures forall i :: i in ids <==> 1 <= i <= m
  {
    if m == 0 then {} else UpTo(m - 1) + {m}
  }

  /** The deliveries so far are 1..m, each with its own request. */
  ghost predicate Numbered(s: State, m: nat) {
    && s.used == UpTo(m) && s.db.rows.Keys == UpTo(m) && s.callers == map[]
    && forall i | i in s.db.rows :: s.db.rows[i].id == i && s.db.rows[i].req == Nth(i)
  }

  lemma NextIsNew(s: State, m: nat)
    requires Numbered(s, m)
    ensures m + 1 !in s.used && m + 1 !in s.db.rows && !ScopeTaken(s.db.rows, Nth(m + 1))
    ensures UpTo(m) + {m + 1} == UpTo(m + 1)
  {
    forall i | i in s.db.rows
      ensures Scope(s.db.rows[i].req) != Scope(Nth(m + 1))
    {
      assert |Scope(Nth(i)).2| != |Scope(Nth(m + 1)).2|;
    }
  }

  /** Delivery 1 waits, locked by dispatcher 0's open claim; nothing else waits. */
  ghost predicate Blocked(s: State, m: nat) {
    && Numbered(s, m) && 1 in s.db.rows && Overdue(s, 1)
    && s.batches.Keys == {0} && s.batches[0].rows.Keys == {1}
    && forall i | i in s.db.rows && i != 1 :: !Claimable(s.db.rows[i].status)
  }

  lemma {:induction false} TallyGrows(cfg: Config, s: State, before: seq<Action>, after: seq<Action>, id: Id,
                                      evenLocked: bool)
    requires Exec(cfg, s, before + after).Some?
    ensures Exec(cfg, s, before).Some?
    ensures Tallied(cfg, s, before + after, id, evenLocked).commits >= Tallied(cfg, s, before, id, evenLocked).commits
  {
    hide Enabled, Apply, FairAfter;
    if after == [] {
      assert before + after == before;
    } else {
      var last := |after| - 1;
      assert (before + after)[..|before + after| - 1] == before + after[..last];
      TallyGrows(cfg, s, before, after[..last], id, evenLocked);
    }
  }

  /** A claim that selects while the delivery counts as due, and commits, is tallied. */
  lemma ClaimTallied(cfg: Config, s: State, acts: seq<Action>, mid: State, w: nat, now: Time, batch: seq<Delivery>,
                     acked: bool, id: Id, evenLocked: bool)
    requires Exec(cfg, s, acts) == Some(mid) && Enabled(cfg, mid, SelectDue(w, now, batch))
    requires Enabled(cfg, Apply(cfg, mid, SelectDue(w, now, batch)), CommitClaim(w, acked))
    requires Due(mid.db.rows, if evenLocked then {} else Locked(mid.batches), now, id)
    ensures var end := Apply(cfg, Apply(cfg, mid, SelectDue(w, now, batch)), CommitClaim(w, acked));
            var claim := [SelectDue(w, now, batch), CommitClaim(w, acked)];
            && Exec(cfg, s, acts + claim) == Some(end)
            && Tallied(cfg, s, acts + claim, id, evenLocked).commits
               >= Tallied(cfg, s, acts, id, evenLocked).commits + 1
  {
    hide Enabled, Apply, Due;
    var select := acts + [SelectDue(w, now, batch)];
    assert select[..|select| - 1] == acts;
    var both := acts + [SelectDue(w, now, batch), CommitClaim(w, acked)];
    assert both == select + [CommitClaim(w, acked)];
    assert both[..|both| - 1] == select;
  }

  /** Dispatcher 0 locks the first delivery and lets it become overdue. */
  lemma BlockedStart(cfg: Config) returns (s: State)
    requires Configured(cfg)
    ensures Reachable(cfg, s) && Inv(cfg, s) && Blocked(s, 1) && Ahead(cfg, s, s.db.rows[1]) == {}
  {
    hide Inv, Exec, Reachable;
    var s1 := FirstSend(cfg, Nth(1), "");
    OnlyDueBatch(s1, 1, 0, 0, cfg.batchSize);
    var select, s2 := SelectRun(cfg, s1, 0, 0, [s1.db.rows[1]]);
    TickOn(cfg, s2, 1);
    s := s2.(clock := 1);
    ReachableOn(cfg, s1, select, s2);
    ReachableOn(cfg, s2, [Tick(1)], s);
    assert s.batches.Keys == Without(s.batches, 0).Keys + {0};
    assert UpTo(1) == {1};
    assert s1.db.rows[1] in [s1.db.rows[1]];
  }

  /** Someone else sends. */
  lemma SendAgain(cfg: Config, s: State, m: nat) returns (sent: seq<Action>, mid: State)
    requires Configured(cfg) && Inv(cfg, s) && Blocked(s, m)
    ensures Exec(cfg, s, sent) == Some(mid) && Inv(cfg, mid)
    ensures mid.clock == s.clock && mid.batches == s.batches && Numbered(mid, m + 1) && m + 1 !in s.db.rows
    ensures mid.db.rows == s.db.rows[m + 1 := NewDelivery(m + 1, Nth(m + 1), s.clock, "")]
  {
    hide Inv, Exec, ScopeTaken, Nth;
    NextIsNew(s, m);
    sent, mid := SendRun(cfg, s, 0, Nth(m + 1), m + 1, s.clock, "", true, true);
  }

  /** Dispatcher 1 claims just the row someone else sent: the locked one is passed over. */
  lemma PassOver(cfg: Config, s0: State, acts: seq<Action>, s: State, m: nat) returns (more: seq<Action>, s': State)
    requires Configured(cfg) && Exec(cfg, s0, acts) == Some(s) && Inv(cfg, s) && Blocked(s, m)
    ensures Exec(cfg, s0, more) == Some(s') && Inv(cfg, s') && Blocked(s', m + 1) && s'.db.rows[1] == s.db.rows[1]
    ensures Tallied(cfg, s0, more, 1, true).commits >= Tallied(cfg, s0, acts, 1, true).commits + 1
  {
    hide Inv, Exec, Tallied, Nth, UpTo, ClaimRows, Locked;
    var sent, mid := SendAgain(cfg, s, m);
    ExecConcat(cfg, s0, acts, sent);
    TallyGrows(cfg, s0, acts, sent, 1, true);
    PassedBatch(mid, m, mid.db.rows[m + 1], cfg.batchSize);
    more, s' := ClaimNext(cfg, s0, acts + sent, mid, mid.db.rows[m + 1]);
  }

  /** A claim of one row that is not delivery 1, its acknowledgement lost. */
  lemma ClaimNext(cfg: Config, s0: State, acts: seq<Action>, s: State, d: Delivery)
    returns (more: seq<Action>, s': State)
    requires Configured(cfg) && Exec(cfg, s0, acts) == Some(s) && Inv(cfg, s) && 1 !in s.batches && Overdue(s, 1)
    requires IsDueBatch(s.db.rows, Locked(s.batches), s.clock, cfg.batchSize, [d])
    requires d.id in s.db.rows && s.db.rows[d.id] == d
    ensures Exec(cfg, s0, more) == Some(s') && Inv(cfg, s')
    ensures s' == s.(db := s.db.(rows := s.db.rows[d.id := Claimed(d, s.clock)]))
    ensures Tallied(cfg, s0, more, 1, true).commits >= Tallied(cfg, s0, acts, 1, true).commits + 1
  {
    hide Inv, Exec, Tallied, IsDueBatch, ClaimMatches, ClaimRows, FairAfter;
    PassedRows(s, d);
    var select := SelectDue(1, s.clock, [d]);
    StepOn(cfg, s0, acts, s, select);
    var open := Apply(cfg, s, select);
    SelectedMatches(cfg, open, 1);
    StepOn(cfg, s0, acts + [select], open, CommitClaim(1, false));
    ClaimTallied(cfg, s0, acts, s, 1, s.clock, [d], false, 1, true);
    more := acts + [select, CommitClaim(1, false)];
    s' := Apply(cfg, open, CommitClaim(1, false));
  }

  lemma PassedBatch(s: State, m: nat, d: Delivery, limit: int)
    requires s.db.rows.Keys == UpTo(m + 1) && m >= 1 && d == s.db.rows[m + 1] && d.id == m + 1 && limit >= 1
    requires Claimable(d.status) && d.nextAttempt <= s.clock
    requires s.batches.Keys == {0} && s.batches[0].rows.Keys == {1}
    requires forall i | i in s.db.rows && i != 1 && i != m + 1 :: !Claimable(s.db.rows[i].status)
    ensures IsDueBatch(s.db.rows, Locked(s.batches), s.clock, limit, [d])
  {
    assert 1 in Locked(s.batches);
    assert d in [d];
    assert m + 1 !in Locked(s.batches);
  }

  lemma PassedRows(s: State, d: Delivery)
    requires d.id in s.db.rows && s.db.rows[d.id] == d && 1 !in s.batches
    ensures var b := Batch(s.clock, map i | i in Ids([d]) :: s.db.rows[i]);
            && b.rows.Keys == {d.id} && Without(s.batches[1 := b], 1) == s.batches
            && ClaimRows(s.db.rows, b.rows.Keys, s.clock) == s.db.rows[d.id := Claimed(d, s.clock)]
  {
    assert Ids([d]) == {d.id};
  }

  lemma {:induction false} PassOverRepeatedly(cfg: Config, s: State, n: nat) returns (acts: seq<Action>, s': State)
    requires Configured(cfg) && Inv(cfg, s) && Blocked(s, 1)
    ensures Exec(cfg, s, acts) == Some(s') && Inv(cfg, s') && Blocked(s', n + 1) && s'.db.rows[1] == s.db.rows[1]
    ensures Tallied(cfg, s, acts, 1, true).commits >= n
  {
    hide Inv, Exec, Tallied, Blocked;
    if n == 0 {
      ExecNothing(cfg, s);
      acts, s' := [], s;
    } else {
      var before, mid := PassOverRepeatedly(cfg, s, n - 1);
      acts, s' := PassOver(cfg, s, before, mid, n);
    }
  }

  /**
   * Counting batches that were selected while the delivery was due but locked gives no bound at all: with nothing
   * ahead of it any number of them commit, its own claim is aborted, and it still waits.
   */
  lemma LockedDeliveryWaitsOn(cfg: Config, n: nat) returns (s: State, acts: seq<Action>, s': State)
    requires Configured(cfg)
    ensures Reachable(cfg, s) && Exec(cfg, s, acts) == Some(s') && Overdue(s, 1) && Ahead(cfg, s, s.db.rows[1]) == {}
    ensures Tallied(cfg, s, acts, 1, true).commits >= n
    ensures 1 in s'.db.rows && s'.db.rows[1] == s.db.rows[1] && s'.batches == map[]
  {
    hide Inv, Exec, Reachable, Ahead, Tallied;
    s := BlockedStart(cfg);
    var before, mid := PassOverRepeatedly(cfg, s, n);
    StepOn(cfg, s, before, mid, AbortClaim(0));
    acts := before + [AbortClaim(0)];
    s' := Apply(cfg, mid, AbortClaim(0));
    TallyGrows(cfg, s, before, [AbortClaim(0)], 1, true);
  }
}
