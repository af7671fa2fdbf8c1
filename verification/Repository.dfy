/** The repository's statements on the delivery and outbox tables, and the transactions around them. */
module Repository {
  import opened Results
  import opened Deliveries
  import opened Store
  import opened Protocol
  import opened Invariant

  /** How a COMMIT ends: acknowledged, applied although the client saw an error, or not applied. */
  datatype CommitEnd = Acked | AckLost | NotApplied

  /** What the environment does to one transaction: BEGIN fails, statement number `failAt` fails, COMMIT ends so. */
  datatype Faults = Faults(begin: bool, failAt: Option<nat>, commit: CommitEnd)

  /** The first `n` statements go through. */
  predicate Undisturbed(f: Faults, n: nat) {
    !f.begin && (f.failAt == None || f.failAt.value >= n)
  }

  /** A transaction of `n` statements takes effect. */
  predicate Applied(f: Faults, n: nat) {
    Undisturbed(f, n) && f.commit != NotApplied
  }

  /** One more UPDATE of the claim loop. */
  lemma ClaimRowsStep(rows: Rows, batch: seq<Delivery>, i: nat, now: Time)
    requires i < |batch| && batch[i].id in rows && rows[batch[i].id] == batch[i]
    requires forall j | 0 <= j < i :: batch[j].id != batch[i].id
    ensures var before := ClaimRows(rows, Ids(batch[..i]), now);
            && batch[i].id in before && before[batch[i].id] == batch[i]
            && before[batch[i].id := Claimed(batch[i], now)] == ClaimRows(rows, Ids(batch[..i + 1]), now)
  {
  }

  lemma DueBatchRows(rows: Rows, locked: set<Id>, now: Time, limit: int, batch: seq<Delivery>)
    requires IsDueBatch(rows, locked, now, limit, batch)
    ensures forall i | 0 <= i < |batch| :: batch[i].id in rows && rows[batch[i].id] == batch[i]
  {
  }

  lemma NoClaimYet(rows: Rows, batch: seq<Delivery>, now: Time)
    ensures ClaimRows(rows, Ids(batch[..0]), now) == rows
  {
  }

  /** What a claim returns is what it stored, row for row and column by column, and it touched nothing else. */
  lemma ClaimedAsStored(rows: Rows, locked: set<Id>, now: Time, limit: int, batch: seq<Delivery>)
    requires IsDueBatch(rows, locked, now, limit, batch)
    ensures var rows' := ClaimRows(rows, Ids(batch), now);
            && (forall d | d in ClaimedBatch(batch, now) :: d.id in rows' && rows'[d.id] == d)
            && (forall i | 0 <= i < |batch| ::
                  var d := batch[i];
                  rows'[d.id] == d.(status := Processing, attempts := d.attempts + 1, version := d.version + 1,
                                    updatedAt := now))
            && (forall id | id in rows && id !in Ids(batch) :: rows'[id] == rows[id])
            && rows'.Keys == rows.Keys
  {
  }

  /** ORDER BY time, id. */
  predicate Earlier(times: map<Id, Time>, a: Id, b: Id) {
    a in times && b in times && (times[a] < times[b] || (times[a] == times[b] && a < b))
  }

  /** ORDER BY updated_at, id. */
  predicate OlderThan(rows: Rows, a: Id, b: Id) {
    a in rows && b in rows
    && (rows[a].updatedAt < rows[b].updatedAt || (rows[a].updatedAt == rows[b].updatedAt && a < b))
  }

  /** ORDER BY time, id LIMIT ? on the rows that satisfy a query. */
  method OrderedLimit(ids: set<Id>, times: map<Id, Time>, limit: int) returns (top: seq<Id>)
    requires limit >= 1 && ids <= times.Keys
    ensures |top| <= limit && forall id | id in top :: id in ids
    ensures forall i, j | 0 <= i < j < |top| :: Earlier(times, top[i], top[j])
    ensures forall id | id in ids && id !in top :: |top| == limit && forall t | t in top :: Earlier(times, t, id)
  {
    top := [];
    var left := ids;
    while |top| < limit && left != {}
      invariant |top| <= limit && left <= ids
      invariant forall id | id in top :: id in ids && id !in left
      invariant forall i, j | 0 <= i < j < |top| :: Earlier(times, top[i], top[j])
      invariant forall id | id in ids :: id in left || id in top
      invariant forall t, id | t in top && id in left :: Earlier(times, t, id)
      decreases |left|
    {
      var first := First(left, times);
      left := left - {first};
      top := top + [first];
    }
  }

  /** The first of some rows by (time, id). */
  method First(ids: set<Id>, times: map<Id, Time>) returns (first: Id)
    requires ids != {} && ids <= times.Keys
    ensures first in ids
    ensures forall id | id in ids && id != first :: Earlier(times, first, id)
  {
    first :| first in ids;
    var left := ids - {first};
    while left != {}
      invariant first in ids && left <= ids && first !in left
      invariant forall id | id in ids && id !in left && id != first :: Earlier(times, first, id)
      decreases |left|
    {
      var id :| id in left;
      left := left - {id};
      if Earlier(times, id, first) {
        first := id;
      }
    }
  }

  lemma BatchOfIds(rows: Rows, locked: set<Id>, now: Time, limit: int, ids: seq<Id>, batch: seq<Delivery>)
    requires forall id | id in rows :: rows[id].id == id
    requires |batch| == |ids| <= limit
    requires forall id | id in ids :: Due(rows, locked, now, id)
    requires forall i | 0 <= i < |ids| :: ids[i] in rows && batch[i] == rows[ids[i]]
    requires var times := map id | id in rows :: rows[id].nextAttempt;
             && (forall i, j | 0 <= i < j < |ids| :: Earlier(times, ids[i], ids[j]))
             && forall id | Due(rows, locked, now, id) && id !in ids ::
                  |ids| == limit && forall i | i in ids :: Earlier(times, i, id)
    ensures IsDueBatch(rows, locked, now, limit, batch)
  {
    forall id | Due(rows, locked, now, id) && id !in Ids(batch)
      ensures id !in ids
    {
      assert forall i | 0 <= i < |ids| :: batch[i] in batch && batch[i].id == ids[i];
    }
  }

  /** What the claiming SELECT returns, column by column. */
  lemma DueBatchColumns(rows: Rows, locked: set<Id>, now: Time, limit: int, batch: seq<Delivery>)
    requires IsDueBatch(rows, locked, now, limit, batch) && forall id | id in rows :: rows[id].id == id
    ensures |batch| <= limit
    ensures forall d | d in batch ::
              && d.id in rows && rows[d.id] == d && d.id !in locked
              && (d.status == Pending || d.status == Retrying) && d.nextAttempt <= now
    ensures forall i, j | 0 <= i < j < |batch| ::
              || batch[i].nextAttempt < batch[j].nextAttempt
              || (batch[i].nextAttempt == batch[j].nextAttempt && batch[i].id < batch[j].id)
    ensures forall id | id in rows && id !in locked && (rows[id].status == Pending || rows[id].status == Retrying)
                        && rows[id].nextAttempt <= now && rows[id] !in batch ::
              && |batch| == limit
              && forall d | d in batch ::
                   d.nextAttempt < rows[id].nextAttempt || (d.nextAttempt == rows[id].nextAttempt && d.id < id)
  {
  }

  class Database {
    var rows: Rows
    var outbox: seq<Event>
    var locked: set<Id>   // rows other open transactions hold FOR UPDATE
    var saved: Db         // what Rollback goes back to
    ghost var sys: State  // the step system's view of the same tables

    constructor (ghost clock: Time)
      ensures sys == Start(clock) && Tables() == sys.db && locked == Locked(sys.batches)
    {
      rows, outbox, locked, saved := map[], [], {}, Db(map[], []);
      sys := Start(clock);
    }

    /** The tables and locks are those of a state of the step system that satisfies its invariant. */
    ghost predicate Mirrors(cfg: Config)
      reads this
    {
      sys.db == Tables() && locked == Locked(sys.batches) && Inv(cfg, sys)
    }

    function Tables(): Db
      reads this
    {
      Db(rows, outbox)
    }

    // ----- Transactor.Within, split into the calls around its callback

    method Begin(f: Faults) returns (r: Result<()>)
      modifies this`saved
      ensures r == if f.begin then Failure(Unavailable) else Success(())
      ensures saved == if f.begin then old(saved) else Tables()
    {
      if f.begin {
        return Failure(Unavailable);
      }
      saved := Db(rows, outbox);
      return Success(());
    }

    method Rollback()
      modifies this`rows, this`outbox
      ensures Tables() == saved
    {
      rows, outbox := saved.rows, saved.outbox;
    }

    method Commit(f: Faults) returns (r: Result<()>)
      modifies this`rows, this`outbox
      ensures r == if f.commit == Acked then Success(()) else Failure(Unavailable)
      ensures Tables() == if f.commit == NotApplied then saved else old(Tables())
    {
      if f.commit == NotApplied {
        Rollback();
      }
      return if f.commit == Acked then Success(()) else Failure(Unavailable);
    }

    // ----- ClaimDue

    /** The claiming SELECT ... ORDER BY next_attempt_at,id LIMIT ? FOR UPDATE SKIP LOCKED. */
    method SelectDue(now: Time, limit: int) returns (batch: seq<Delivery>)
      requires limit >= 1 && forall id | id in rows :: rows[id].id == id
      ensures IsDueBatch(rows, locked, now, limit, batch)
      ensures |batch| <= limit
      ensures forall d | d in batch ::
                && d.id in rows && rows[d.id] == d && d.id !in locked
                && (d.status == Pending || d.status == Retrying) && d.nextAttempt <= now
      ensures forall i, j | 0 <= i < j < |batch| ::
                || batch[i].nextAttempt < batch[j].nextAttempt
                || (batch[i].nextAttempt == batch[j].nextAttempt && batch[i].id < batch[j].id)
      ensures forall id | id in rows && id !in locked && (rows[id].status == Pending || rows[id].status == Retrying)
                          && rows[id].nextAttempt <= now && rows[id] !in batch ::
                && |batch| == limit
                && forall d | d in batch ::
                     d.nextAttempt < rows[id].nextAttempt || (d.nextAttempt == rows[id].nextAttempt && d.id < id)
    {
      hide IsDueBatch;
      var table := rows;
      var due := set id | id in table && Due(table, locked, now, id);
      var ids := OrderedLimit(due, map id | id in table :: table[id].nextAttempt, limit);
      assert forall i | 0 <= i < |ids| :: ids[i] in ids;
      batch := seq(|ids|, i requires 0 <= i < |ids| && ids[i] in table => table[ids[i]]);
      BatchOfIds(table, locked, now, limit, ids, batch);
      DueBatchColumns(table, locked, now, limit, batch);
    }

    /** The retention SELECT ... ORDER BY updated_at,id LIMIT ?. */
    method SelectExpired(before: Time, limit: int) returns (ids: seq<Id>)
      requires limit >= 1
      ensures |ids| <= limit
      ensures forall id | id in ids ::
                id in rows && (rows[id].status == Sent || rows[id].status == DeadLetter) && rows[id].updatedAt < before
      ensures forall i, j | 0 <= i < j < |ids| :: OlderThan(rows, ids[i], ids[j])
      ensures forall id | id in rows && (rows[id].status == Sent || rows[id].status == DeadLetter)
                          && rows[id].updatedAt < before && id !in ids ::
                |ids| == limit && forall i | i in ids :: OlderThan(rows, i, id)
    {
      var expired := set id | id in rows && Expirable(rows[id], before);
      ids := OrderedLimit(expired, map id | id in rows :: rows[id].updatedAt, limit);
    }

    /**
     * ClaimDue inside its transaction: select, then update row by row, each update repeating id and version.
     * Statement 0 is the SELECT, statement i+1 the UPDATE of row i. On an error part of the batch may be updated.
     */
    method ClaimDue(now: Time, limit: int, f: Faults) returns (r: Result<seq<Delivery>>, ghost batch: seq<Delivery>)
      requires limit >= 1 && !f.begin && forall id | id in rows :: rows[id].id == id
      modifies this`rows
      ensures IsDueBatch(old(rows), locked, now, limit, batch)
      ensures r.Success? <==> Undisturbed(f, |batch| + 1)
      ensures r.Success? ==> r.value == ClaimedBatch(batch, now) && rows == ClaimRows(old(rows), Ids(batch), now)
    {
      hide IsDueBatch, ClaimRows, Ids, Claimed;
      var values := SelectDue(now, limit);
      batch := values;
      DueBatchDistinct(rows, locked, now, limit, batch);
      DueBatchRows(rows, locked, now, limit, batch);
      NoClaimYet(rows, batch, now);
      if f.failAt == Some(0) {
        return Failure(Unavailable), batch;
      }
      var index := 0;
      while index < |values|
        invariant 0 <= index <= |values| == |batch|
        invariant forall i | 0 <= i < |batch| :: values[i] == if i < index then Claimed(batch[i], now) else batch[i]
        invariant rows == ClaimRows(old(rows), Ids(batch[..index]), now)
        invariant f.failAt == None || f.failAt.value > index
      {
        if f.failAt == Some(index + 1) {
          return Failure(Unavailable), batch;
        }
        var value := values[index];
        ClaimRowsStep(old(rows), batch, index, now);
        if value.id !in rows || rows[value.id].version != value.version {
          return Failure(StaleVersion), batch;
        }
        rows := rows[value.id := Claimed(rows[value.id], now)];
        values := values[index := Claimed(value, now)];
        index := index + 1;
      }
      assert batch[..index] == batch;
      return Success(values), batch;
    }

    // ----- the other statements

    method UpdateFinished(v: Delivery, expected: int, fails: bool) returns (r: Result<()>)
      modifies this`rows
      ensures !fails && v.id in old(rows) && old(rows)[v.id].version == expected ==>
                r == Success(()) && rows == old(rows)[v.id := Stored(old(rows)[v.id], v)]
      ensures fails ==> r == Failure(Unavailable) && rows == old(rows)
      ensures !fails && !(v.id in old(rows) && old(rows)[v.id].version == expected) ==>
                r == Failure(StaleVersion) && rows == old(rows)
    {
      if fails {
        return Failure(Unavailable);
      }
      var changed := 0;
      if v.id in rows && rows[v.id].version == expected {
        rows := rows[v.id := Stored(rows[v.id], v)];
        changed := 1;
      }
      if changed != 1 {
        return Failure(StaleVersion);
      }
      return Success(());
    }

    method InsertRow(v: Delivery, fails: bool) returns (r: Result<()>)
      modifies this`rows
      ensures !fails && v.id !in old(rows) && !ScopeTaken(old(rows), v.req) ==>
                r == Success(()) && rows == old(rows)[v.id := v]
      ensures fails ==> r == Failure(Unavailable) && rows == old(rows)
      ensures !fails && (v.id in old(rows) || ScopeTaken(old(rows), v.req)) ==>
                r == Failure(Duplicate) && rows == old(rows)
    {
      if fails {
        return Failure(Unavailable);
      }
      if v.id in rows || ScopeTaken(rows, v.req) {
        return Failure(Duplicate);
      }
      rows := rows[v.id := v];
      return Success(());
    }

    method AddOutbox(kind: Kind, v: Delivery, fails: bool) returns (r: Result<()>)
      modifies this`outbox
      ensures r == if fails then Failure(Unavailable) else Success(())
      ensures outbox == if fails then old(outbox) else old(outbox) + [Event(kind, Published(v))]
    {
      if fails {
        return Failure(Unavailable);
      }
      outbox := outbox + [Event(kind, Published(v))];
      return Success(());
    }

    // ----- the three transactions of the service

    /** The claim transaction: all of the batch or nothing; an error may hide a commit whose answer got lost. */
    method Claim(now: Time, limit: int, f: Faults) returns (r: Result<seq<Delivery>>, ghost batch: seq<Delivery>)
      requires limit >= 1 && forall id | id in rows :: rows[id].id == id
      modifies this`rows, this`outbox, this`saved
      ensures IsDueBatch(old(rows), locked, now, limit, batch)
      ensures r.Success? <==> Applied(f, |batch| + 1) && f.commit == Acked
      ensures r.Success? ==> r.value == ClaimedBatch(batch, now)
      ensures Tables() == if Applied(f, |batch| + 1)
                          then old(Tables()).(rows := ClaimRows(old(rows), Ids(batch), now))
                          else old(Tables())
    {
      var begun := Begin(f);
      if begun.Failure? {
        batch := SelectDue(now, limit);
        return Failure(begun.error), batch;
      }
      r, batch := ClaimDue(now, limit, f);
      if r.Failure? {
        Rollback();
        return r, batch;
      }
      var ended := Commit(f);
      if ended.Failure? {
        return Failure(ended.error), batch;
      }
    }

    /** A transaction of Finish and its event: both or neither. */
    method FinishWithin(v: Delivery, expected: int, f: Faults) returns (r: Result<()>)
      modifies this`rows, this`outbox, this`saved
      ensures Tables() == if Applied(f, 2) && Finish(old(Tables()), v, expected).Success?
                          then Finish(old(Tables()), v, expected).value
                          else old(Tables())
      ensures r.Success? <==> Applied(f, 2) && f.commit == Acked && Finish(old(Tables()), v, expected).Success?
      ensures r.Success? ==>
                && v.id in old(rows) && old(rows)[v.id].version == expected
                && rows == old(rows)[v.id := old(rows)[v.id].(status := v.status, provider := v.provider,
                     messageId := v.messageId, failure := v.failure, nextAttempt := v.nextAttempt,
                     version := expected + 1, updatedAt := v.updatedAt, updatedBy := v.updatedBy)]
                && var sent := v.(version := expected + 1, req := v.req.(locale := "", key := ""));
                   outbox == old(outbox) + [Event(StatusChanged, sent)]
      ensures r == Failure(StaleVersion) <==>
                !f.begin && f.failAt != Some(0) && Finish(old(Tables()), v, expected).Failure?
      ensures r.Failure? ==> r.error == StaleVersion || r.error == Unavailable
    {
      r := Begin(f);
      if r.Failure? {
        return;
      }
      r := UpdateFinished(v, expected, f.failAt == Some(0));
      if r.Success? {
        r := AddOutbox(StatusChanged, v.(version := expected + 1), f.failAt == Some(1));
      }
      if r.Failure? {
        Rollback();
        return;
      }
      r := Commit(f);
    }

    /** The transaction of `Send`: the row and its NotificationRequested event, or neither. */
    method InsertWithin(v: Delivery, f: Faults) returns (r: Result<()>)
      modifies this`rows, this`outbox, this`saved
      ensures Tables() == if Applied(f, 2) && InsertDelivery(old(Tables()), v).Success?
                          then InsertDelivery(old(Tables()), v).value
                          else old(Tables())
      ensures r.Success? <==> Applied(f, 2) && f.commit == Acked && InsertDelivery(old(Tables()), v).Success?
      ensures r.Success? ==>
                && v.id !in old(rows) && rows == old(rows)[v.id := v]
                && outbox == old(outbox) + [Event(Requested, v.(req := v.req.(locale := "", key := "")))]
      ensures r == Failure(Duplicate) <==>
                !f.begin && f.failAt != Some(0) && InsertDelivery(old(Tables()), v).Failure?
      ensures r.Failure? ==> r.error == Duplicate || r.error == Unavailable
    {
      r := Begin(f);
      if r.Failure? {
        return;
      }
      r := InsertRow(v, f.failAt == Some(0));
      if r.Success? {
        r := AddOutbox(Requested, v, f.failAt == Some(1));
      }
      if r.Failure? {
        Rollback();
        return;
      }
      r := Commit(f);
    }
  }
}
