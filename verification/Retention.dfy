/** The retention cleaner: bounded batches until one comes back short. */
module Retention {
  import opened Results
  import opened Deliveries
  import opened Store
  import opened Protocol
  import opened Invariant
  import opened Preservation
  import opened Repository
  import opened Dispatching

  /** The two statements of one round may fail. */
  datatype Round = Round(now: Time, selectFails: bool, deleteFails: bool)

  /** The rows a cutoff leaves: retention in one step. */
  ghost function Kept(rows: Rows, before: Time): Rows {
    map id | id in rows && !((rows[id].status == Sent || rows[id].status == DeadLetter) && rows[id].updatedAt < before)
      :: rows[id]
  }

  /** `left` is `rows` without some sent or dead rows from before the cutoff, the oldest of these first. */
  ghost predicate Trimmed(rows: Rows, left: Rows, before: Time) {
    && (forall id | id in left :: id in rows && left[id] == rows[id])
    && (forall id | id in rows && id !in left ::
          (rows[id].status == Sent || rows[id].status == DeadLetter) && rows[id].updatedAt < before)
    && (forall a, b | a in rows && a !in left && b in left && b !in Kept(rows, before) :: OlderThan(rows, a, b))
  }

  /** What trimmed and kept rows are, column by column. */
  lemma TrimmedColumns(rows: Rows, left: Rows, before: Time)
    requires Trimmed(rows, left, before)
    ensures forall id | id in left :: id in rows && left[id] == rows[id]
    ensures forall id | id in rows ::
              var d := rows[id]; id in left || ((d.status == Sent || d.status == DeadLetter) && d.updatedAt < before)
    ensures left == Kept(rows, before) ==> forall id | id in rows ::
              var d := rows[id]; id in left <==> !((d.status == Sent || d.status == DeadLetter) && d.updatedAt < before)
  {
  }

  /** The rows in `n` full batches. */
  function InBatches(n: nat, size: int): int {
    n * size
  }

  /** Later rounds read the clock later. */
  ghost predicate ClockMovesOn(rounds: nat -> Round) {
    forall i: nat, j: nat | i <= j :: rounds(i).now <= rounds(j).now
  }

  lemma NextRound(rounds: nat -> Round, i: nat)
    requires ClockMovesOn(rounds)
    ensures rounds(i).now <= rounds(i + 1).now
  {
  }

  /** No statement of the first `n` rounds failed. */
  ghost predicate NoneFailed(rounds: nat -> Round, n: nat) {
    forall i | 0 <= i < n :: !rounds(i).selectFails && !rounds(i).deleteFails
  }

  function Elements(ids: seq<Id>): set<Id> {
    set id | id in ids
  }

  lemma SweepRun(cfg: Config, s: State, k: nat, now: Time, before: Time, ids: set<Id>)
    returns (acts: seq<Action>, s': State)
    requires Configured(cfg) && Inv(cfg, s) && k !in s.sweeps && s.clock <= now
    requires forall id | id in ids :: id in s.db.rows && Expirable(s.db.rows[id], before)
    ensures Exec(cfg, s, acts) == Some(s') && Inv(cfg, s') && s'.clock == now && s'.batches == s.batches
              && s'.sweeps == s.sweeps
    ensures s'.db == s.db.(rows := DeleteExpired(s.db.rows, ids, before))
  {
    hide Inv, Exec, DeleteExpired;
    TickOn(cfg, s, now);
    var s1 := s.(clock := now);
    StepOn(cfg, s, [Tick(now)], s1, SelectExpired(k, before, ids));
    var s2 := Apply(cfg, s1, SelectExpired(k, before, ids));
    StepOn(cfg, s, [Tick(now)] + [SelectExpired(k, before, ids)], s2, DeleteSweep(k));
    acts := [Tick(now)] + [SelectExpired(k, before, ids)] + [DeleteSweep(k)];
    s' := Apply(cfg, s2, DeleteSweep(k));
    assert Without(s2.sweeps, k) == s.sweeps;
  }

  class Cleaner {
    const cfg: Config
    const db: Database
    const retention: int
    const batchSize: int

    /** NewRetentionCleaner replaces non-positive settings: thirty days, batches of five hundred. */
    constructor (cfg: Config, db: Database, retention: int, batchSize: int)
      ensures this.cfg == cfg && this.db == db
      ensures this.retention >= 1 && this.batchSize >= 1
      ensures this.retention == if retention <= 0 then 30 * 24 * 3_600_000_000_000 else retention
      ensures this.batchSize == if batchSize <= 0 then 500 else batchSize
    {
      this.cfg := cfg;
      this.db := db;
      this.retention := if retention <= 0 then 2_592_000_000_000_000 else retention;
      this.batchSize := if batchSize <= 0 then 500 else batchSize;
    }

    /** DeleteTerminalDeliveriesBefore, alone: the DELETE takes everything its SELECT named. */
    method DeleteTerminalBefore(ghost k: nat, round: Round, before: Time)
      returns (r: Result<nat>, ghost acts: seq<Action>)
      requires Configured(cfg) && batchSize >= 1 && db.Mirrors(cfg) && k !in db.sys.sweeps && db.sys.clock <= round.now
      modifies db`rows, db`sys
      ensures db.Mirrors(cfg) && Exec(cfg, old(db.sys), acts) == Some(db.sys)
      ensures db.sys.sweeps == old(db.sys.sweeps) && db.sys.clock <= round.now
      ensures r.Failure? ==> db.rows == old(db.rows)
      ensures r.Success? ==> r.value <= batchSize && |db.rows| + r.value == |old(db.rows)|
      ensures Trimmed(old(db.rows), db.rows, before)
      ensures r.Success? && r.value < batchSize ==> db.rows == Kept(old(db.rows), before)
      ensures r.Success? <==>
                !round.selectFails && (!round.deleteFails || Kept(old(db.rows), before) == old(db.rows))
      ensures r.Success? && r.value > 0 ==> !round.deleteFails
    {
      hide Inv, Exec, Locked, Expirable, Trimmed, Kept, Elements, DeleteExpired, OlderThan;
      ExecNothing(cfg, db.sys);
      Untrimmed(db.rows, before);
      if round.selectFails {
        return Failure(Unavailable), [];
      }
      var ids := db.SelectExpired(before, batchSize);
      Swept(db.rows, before, batchSize, ids);
      if ids == [] {
        return Success(0), [];
      }
      assert ids[0] in ids;
      SomethingExpired(db.rows, before, ids);
      if round.deleteFails {
        return Failure(Unavailable), [];
      }
      var named := Elements(ids);
      ghost var end: State;
      acts, end := SweepRun(cfg, db.sys, k, round.now, before, named);
      db.rows := DeleteExpired(db.rows, named, before);
      db.sys := end;
      return Success(|ids|), acts;
    }

    /**
     * clean: each round reads the clock again and deletes one batch, until a batch comes back short. Alone and
     * without errors it leaves exactly what the last cutoff keeps, after `full` full batches and a short one;
     * it fails only if a statement of the round it is in fails.
     */
    method Clean(ghost k: nat, rounds: nat -> Round)
      returns (r: Result<nat>, ghost full: nat, ghost last: Time, ghost acts: seq<Action>)
      requires Configured(cfg) && batchSize >= 1 && db.Mirrors(cfg) && k !in db.sys.sweeps
      requires db.sys.clock <= rounds(0).now && ClockMovesOn(rounds)
      modifies db`rows, db`sys
      ensures db.Mirrors(cfg) && Exec(cfg, old(db.sys), acts) == Some(db.sys)
      ensures last == rounds(full).now - retention
      ensures 0 <= |old(db.rows)| - |db.rows| - InBatches(full, batchSize) < batchSize
      ensures NoneFailed(rounds, full)
      ensures !rounds(full).selectFails && !rounds(full).deleteFails ==> r.Success?
      ensures r.Success? ==> db.rows == Kept(old(db.rows), last) && r.value == |old(db.rows)| - |db.rows|
      ensures Trimmed(old(db.rows), db.rows, last)
      ensures forall id | id in db.rows :: id in old(db.rows) && db.rows[id] == old(db.rows)[id]
      ensures forall id | id in old(db.rows) ::
                var d := old(db.rows)[id];
                id in db.rows || ((d.status == Sent || d.status == DeadLetter) && d.updatedAt < last)
      ensures r.Success? ==> forall id | id in old(db.rows) ::
                var d := old(db.rows)[id];
                id in db.rows <==> !((d.status == Sent || d.status == DeadLetter) && d.updatedAt < last)
    {
      hide Inv, Exec, Locked, Expirable, OlderThan, Kept, InBatches, Trimmed, ClockMovesOn, NoneFailed;
      acts := [];
      ExecNothing(cfg, db.sys);
      var total, i := 0, 0;
      last := rounds(0).now - retention;
      NoBatches(rounds, batchSize);
      Untrimmed(db.rows, last);
      while true
        invariant db.Mirrors(cfg) && Exec(cfg, old(db.sys), acts) == Some(db.sys) && k !in db.sys.sweeps
        invariant db.sys.clock <= rounds(i).now && last <= rounds(i).now - retention
        invariant total == |old(db.rows)| - |db.rows| == InBatches(i, batchSize)
        invariant NoneFailed(rounds, i)
        invariant Trimmed(old(db.rows), db.rows, last)
        decreases |db.rows|
      {
        var before := rounds(i).now - retention;
        ghost var earlier := last;
        last, full := before, i;
        NextRound(rounds, i);
        ghost var was := db.rows;
        var deleted;
        ghost var more;
        deleted, more := DeleteTerminalBefore(k, rounds(i), before);
        LaterCutoff(old(db.rows), was, db.rows, earlier, before);
        ExecConcat(cfg, old(db.sys), acts, more);
        acts := acts + more;
        TrimmedColumns(old(db.rows), db.rows, before);
        if deleted.Failure? {
          return Failure(deleted.error), full, last, acts;
        }
        total := total + deleted.value;
        if deleted.value < batchSize {
          return Success(total), full, last, acts;
        }
        OneMoreBatch(rounds, i, batchSize);
        i := i + 1;
      }
    }
  }

  /** What is expired stays expired: two rounds under a moving clock together delete what the later cutoff names. */
  lemma LaterCutoff(rows: Rows, mid: Rows, left: Rows, earlier: Time, before: Time)
    requires Trimmed(rows, mid, earlier) && Trimmed(mid, left, before) && earlier <= before
    ensures Trimmed(rows, left, before)
    ensures left == Kept(mid, before) ==> left == Kept(rows, before)
  {
    forall a, b | a in rows && a !in left && b in left && b !in Kept(rows, before)
      ensures OlderThan(rows, a, b)
    {
      OldestFirst(rows, mid, left, earlier, before, a, b);
    }
  }

  lemma OldestFirst(rows: Rows, mid: Rows, left: Rows, earlier: Time, before: Time, a: Id, b: Id)
    requires Trimmed(rows, mid, earlier) && Trimmed(mid, left, before) && earlier <= before
    requires a in rows && a !in left && b in left && b !in Kept(rows, before)
    ensures OlderThan(rows, a, b)
  {
    if a in mid {
      assert OlderThan(mid, a, b);
    } else if b !in Kept(rows, earlier) {
      assert OlderThan(rows, a, b);
    }
  }

  lemma Untrimmed(rows: Rows, before: Time)
    ensures Trimmed(rows, rows, before)
  {
  }

  lemma NoBatches(rounds: nat -> Round, size: int)
    ensures InBatches(0, size) == 0 && NoneFailed(rounds, 0)
  {
  }

  lemma OneMoreBatch(rounds: nat -> Round, n: nat, size: int)
    requires NoneFailed(rounds, n) && !rounds(n).selectFails && !rounds(n).deleteFails
    ensures InBatches(n + 1, size) == InBatches(n, size) + size && NoneFailed(rounds, n + 1)
  {
  }

  /** Deleting distinct expired rows shrinks the table by their number; a short batch was all of them. */
  lemma Swept(rows: Rows, before: Time, limit: int, ids: seq<Id>)
    requires forall id | id in ids ::
               id in rows && (rows[id].status == Sent || rows[id].status == DeadLetter) && rows[id].updatedAt < before
    requires forall i, j | 0 <= i < j < |ids| :: OlderThan(rows, ids[i], ids[j])
    requires forall id | id in rows && (rows[id].status == Sent || rows[id].status == DeadLetter)
                         && rows[id].updatedAt < before && id !in ids ::
               |ids| == limit && forall i | i in ids :: OlderThan(rows, i, id)
    ensures forall id | id in Elements(ids) :: id in rows && Expirable(rows[id], before)
    ensures var left := DeleteExpired(rows, Elements(ids), before);
            && |left| + |ids| == |rows| && Trimmed(rows, left, before)
            && (ids == [] ==> left == rows) && (|ids| < limit ==> left == Kept(rows, before))
  {
    hide OlderThan;
    Counted(rows, before, ids);
  }

  lemma SomethingExpired(rows: Rows, before: Time, ids: seq<Id>)
    requires ids != [] && ids[0] in rows
    requires (rows[ids[0]].status == Sent || rows[ids[0]].status == DeadLetter) && rows[ids[0]].updatedAt < before
    ensures Kept(rows, before) != rows
  {
    assert ids[0] !in Kept(rows, before);
  }

  lemma Counted(rows: Rows, before: Time, ids: seq<Id>)
    requires forall id | id in ids :: id in rows && Expirable(rows[id], before)
    requires forall i, j | 0 <= i < j < |ids| :: OlderThan(rows, ids[i], ids[j])
    ensures |DeleteExpired(rows, Elements(ids), before)| + |ids| == |rows|
  {
    var left := DeleteExpired(rows, Elements(ids), before);
    assert left.Keys == rows.Keys - Elements(ids);
    Distinct(ids);
    assert |rows.Keys - Elements(ids)| == |rows.Keys| - |Elements(ids)|;
    assert |left| == |left.Keys| && |rows| == |rows.Keys|;
  }

  lemma {:induction false} Distinct(ids: seq<Id>)
    requires forall i, j | 0 <= i < j < |ids| :: ids[i] != ids[j]
    ensures |Elements(ids)| == |ids|
  {
    if ids != [] {
      var n := |ids| - 1;
      Distinct(ids[..n]);
      assert ids == ids[..n] + [ids[n]];
      assert Elements(ids) == Elements(ids[..n]) + {ids[n]};
    }
  }
}
