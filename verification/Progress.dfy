/** The engine cannot get stuck, except on a processing row nobody holds. */
module Progress {
  import opened Results
  import opened Deliveries
  import opened Store
  import opened Protocol
  import opened Invariant
  import opened Preservation
  import opened Runs
  import opened Waiting
  import opened Dispatching

  ghost predicate Finished(s: State, id: Id) {
    id in s.db.rows && (SentLike(s.db.rows[id].status) || s.db.rows[id].status == DeadLetter)
  }

  /** A dispatcher that has no claim transaction open. */
  lemma {:induction false} FreshName(names: set<nat>) returns (w: nat)
    ensures forall v | v in names :: v < w
  {
    if names == {} {
      w := 0;
    } else {
      var v :| v in names;
      var rest := names - {v};
      w := FreshName(rest);
      w := if v < w then w else v + 1;
      assert forall u | u in names :: u == v || u in rest;
    }
  }

  lemma {:induction false} FirstRow(rows: Rows, ids: set<Id>) returns (first: Id)
    requires ids != {} && ids <= rows.Keys && forall id | id in rows :: rows[id].id == id
    ensures first in ids && forall id | id in ids && id != first :: Before(rows[first], rows[id])
  {
    var id: Id :| id in ids;
    if ids == {id} {
      first := id;
    } else {
      first := FirstRow(rows, ids - {id});
      first := if Before(rows[id], rows[first]) then id else first;
    }
  }

  lemma {:induction false} FirstRows(rows: Rows, ids: set<Id>, limit: nat) returns (batch: seq<Delivery>)
    requires ids <= rows.Keys && forall id | id in rows :: rows[id].id == id
    ensures |batch| <= limit && forall d | d in batch :: d.id in ids && rows[d.id] == d
    ensures forall i, j | 0 <= i < j < |batch| :: Before(batch[i], batch[j])
    ensures forall id | id in ids && id !in Ids(batch) :: |batch| == limit && forall d | d in batch ::
              Before(d, rows[id])
    decreases limit
  {
    if limit == 0 || ids == {} {
      batch := [];
    } else {
      var first := FirstRow(rows, ids);
      var rest := FirstRows(rows, ids - {first}, limit - 1);
      batch := [rows[first]] + rest;
      assert Ids(batch) == {first} + Ids(rest);
    }
  }

  /** The claiming SELECT always has an answer. */
  lemma DueBatchExists(cfg: Config, s: State, now: Time) returns (batch: seq<Delivery>)
    requires Inv(cfg, s) && Configured(cfg)
    ensures IsDueBatch(s.db.rows, Locked(s.batches), now, cfg.batchSize, batch)
  {
    hide Inv;
    RowIds(cfg, s);
    var due := set id | id in s.db.rows && Due(s.db.rows, Locked(s.batches), now, id);
    batch := FirstRows(s.db.rows, due, cfg.batchSize);
  }

  /** Whoever holds a claim can bring the delivery to its end. */
  lemma HeldFinishes(cfg: Config, s: State, t: Token) returns (acts: seq<Action>, s': State)
    requires Configured(cfg) && Inv(cfg, s) && t in s.claims && s.claims[t].Held?
    ensures Exec(cfg, s, acts) == Some(s') && Inv(cfg, s') && Finished(s', t.1)
  {
    hide Inv, Exec;
    ClaimProcessing(cfg, s, t);
    acts, s' := DeliverRun(cfg, s, t.0, t.1, Accepted("in_app", "stored"), 0, s.clock, true);
  }

  /** A claim whose attempt is over ends the delivery or puts it back into the queue. */
  lemma SettledFinishes(cfg: Config, s: State, t: Token) returns (acts: seq<Action>, s': State)
    requires Configured(cfg) && Inv(cfg, s) && t in s.claims && s.claims[t].Settled?
    ensures Exec(cfg, s, acts) == Some(s') && Inv(cfg, s')
    ensures Finished(s', t.1) || (t.1 in s'.db.rows && Claimable(s'.db.rows[t.1].status))
  {
    hide Inv, Exec;
    ClaimProcessing(cfg, s, t);
    ExecNothing(cfg, s);
    FinishSucceeds(cfg, s, t);
    StepOn(cfg, s, [], s, CommitFinish(t.0, t.1));
    acts := [] + [CommitFinish(t.0, t.1)];
    s' := Apply(cfg, s, CommitFinish(t.0, t.1));
  }

  /** A waiting delivery some open claim transaction has locked: that transaction commits. */
  lemma LockedFinishes(cfg: Config, s: State, w: nat, id: Id) returns (acts: seq<Action>, s': State)
    requires Configured(cfg) && Inv(cfg, s) && w in s.batches && id in s.batches[w].rows
    ensures Exec(cfg, s, acts) == Some(s') && Inv(cfg, s') && Finished(s', id)
  {
    hide Inv, Exec, ClaimMatches;
    ExecNothing(cfg, s);
    SelectedMatches(cfg, s, w);
    StepOn(cfg, s, [], s, CommitClaim(w, true));
    var claimed := Apply(cfg, s, CommitClaim(w, true));
    assert (w, id) in Handed(w, s.batches[w]);
    var more;
    more, s' := HeldFinishes(cfg, claimed, (w, id));
    ExecConcat(cfg, s, [] + [CommitClaim(w, true)], more);
    acts := [] + [CommitClaim(w, true)] + more;
  }

  /** A waiting delivery can always be taken to its end: claims use up what is ahead of it until one takes it. */
  lemma {:induction false} WaitingFinishes(cfg: Config, s: State, id: Id) returns (acts: seq<Action>, s': State)
    requires Configured(cfg) && Inv(cfg, s) && id in s.db.rows && Claimable(s.db.rows[id].status)
    ensures Exec(cfg, s, acts) == Some(s') && Inv(cfg, s') && Finished(s', id)
    decreases |Queued(s.db.rows, s.db.rows[id])|
  {
    hide Inv, Exec, IsDueBatch, ClaimRows, Claimed;
    if w :| w in s.batches && id in s.batches[w].rows {
      acts, s' := LockedFinishes(cfg, s, w, id);
    } else {
      var d := s.db.rows[id];
      var now := if s.clock < d.nextAttempt then d.nextAttempt else s.clock;
      var w := FreshName(s.batches.Keys);
      var batch := DueBatchExists(cfg, s, now);
      var takes := id in Ids(batch);
      var claim, mid := ClaimRun(cfg, s, w, now, batch, true, takes);
      RowIds(cfg, s);
      TakenOrPassed(s.db.rows, Locked(s.batches), now, cfg.batchSize, batch, id);
      var rest;
      if takes {
        rest, s' := HeldFinishes(cfg, mid, (w, id));
      } else {
        rest, s' := WaitingFinishes(cfg, mid, id);
      }
      ExecConcat(cfg, s, claim, rest);
      acts := claim + rest;
    }
  }

  lemma TakenOrPassed(rows: Rows, locked: set<Id>, now: Time, limit: int, batch: seq<Delivery>, id: Id)
    requires IsDueBatch(rows, locked, now, limit, batch) && Due(rows, locked, now, id) && limit >= 1
    requires forall i | i in rows :: rows[i].id == i
    ensures id in Ids(batch) ==> exists c :: c in ClaimedBatch(batch, now) && c.id == id
    ensures id !in Ids(batch) ==>
              && var rows' := ClaimRows(rows, Ids(batch), now);
                 id in rows' && rows'[id] == rows[id] && |Queued(rows', rows[id])| < |Queued(rows, rows[id])|
  {
    if id in Ids(batch) {
      var i :| 0 <= i < |batch| && batch[i].id == id;
      assert ClaimedBatch(batch, now)[i] in ClaimedBatch(batch, now);
    } else {
      var rows' := ClaimRows(rows, Ids(batch), now);
      assert batch[0] in batch && Before(batch[0], rows[id]);
      SubsetCardinality(Queued(rows', rows[id]), Queued(rows, rows[id]) - {batch[0].id});
    }
  }

  /**
   * From every reachable state, every delivery that is stored can still be sent or given up, in some
   * continuation, if and only if it is not a processing row nobody holds.
   */
  lemma FinishableIff(cfg: Config, s: State, id: Id)
    requires Configured(cfg) && Reachable(cfg, s) && id in s.db.rows
    ensures (exists acts, s' :: Exec(cfg, s, acts) == Some(s') && Finished(s', id)) <==> !Orphan(s, id)
  {
    hide Inv, Exec;
    ReachableInv(cfg, s);
    if Orphan(s, id) {
      forall acts, s' | Exec(cfg, s, acts) == Some(s')
        ensures !Finished(s', id)
      {
        OrphanForever(cfg, s, acts, id);
      }
    } else {
      var acts, s' := Finishes(cfg, s, id);
    }
  }

  lemma Finishes(cfg: Config, s: State, id: Id) returns (acts: seq<Action>, s': State)
    requires Configured(cfg) && Inv(cfg, s) && id in s.db.rows && !Orphan(s, id)
    ensures Exec(cfg, s, acts) == Some(s') && Finished(s', id)
  {
    hide Inv, Exec;
    if Finished(s, id) {
      ExecNothing(cfg, s);
      acts, s' := [], s;
    } else if Claimable(s.db.rows[id].status) {
      acts, s' := WaitingFinishes(cfg, s, id);
    } else {
      var t :| t in s.claims && t.1 == id;
      if s.claims[t].Held? {
        acts, s' := HeldFinishes(cfg, s, t);
      } else {
        acts, s' := SettledFinishes(cfg, s, t);
        if !Finished(s', id) {
          var more, end := WaitingFinishes(cfg, s', id);
          ExecConcat(cfg, s, acts, more);
          acts, s' := acts + more, end;
        }
      }
    }
  }
}
