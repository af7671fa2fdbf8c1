/** The tables as values: what each committed transaction turns them into. */
module Store {
  import opened Results
  import opened Deliveries

  datatype Kind = Requested | StatusChanged

  /** An outbox row: the delivery as the event envelope carries it. */
  datatype Event = Event(kind: Kind, delivery: Delivery)

  type Rows = map<Id, Delivery>

  datatype Db = Db(rows: Rows, outbox: seq<Event>)

  /** The protobuf delivery has no locale and no idempotency key. */
  function Published(d: Delivery): Delivery {
    d.(req := d.req.(locale := "", key := ""))
  }

  // ----- claiming

  predicate Due(rows: Rows, locked: set<Id>, now: Time, id: Id) {
    id in rows && id !in locked && Claimable(rows[id].status) && rows[id].nextAttempt <= now
  }

  function Ids(batch: seq<Delivery>): set<Id> {
    set d | d in batch :: d.id
  }

  /** What the claiming SELECT returns: the first `limit` due rows, in order, that nobody has locked. */
  ghost predicate IsDueBatch(rows: Rows, locked: set<Id>, now: Time, limit: int, batch: seq<Delivery>) {
    && |batch| <= limit
    && (forall d | d in batch :: Due(rows, locked, now, d.id) && rows[d.id] == d)
    && (forall i, j | 0 <= i < j < |batch| :: Before(batch[i], batch[j]))
    && (forall id | Due(rows, locked, now, id) && id !in Ids(batch) ::
          |batch| == limit && forall d | d in batch :: Before(d, rows[id]))
  }

  /** The rows after every UPDATE of the claim loop went through. */
  function ClaimRows(rows: Rows, ids: set<Id>, now: Time): Rows {
    map id | id in rows :: if id in ids then Claimed(rows[id], now) else rows[id]
  }

  function ClaimedBatch(batch: seq<Delivery>, now: Time): (r: seq<Delivery>)
    ensures |r| == |batch|
    ensures forall i | 0 <= i < |batch| :: r[i] == Claimed(batch[i], now)
  {
    seq(|batch|, i requires 0 <= i < |batch| => Claimed(batch[i], now))
  }

  // ----- writing

  predicate ScopeTaken(rows: Rows, req: Request) {
    exists id | id in rows :: Scope(rows[id].req) == Scope(req)
  }

  /** InsertDelivery and the NotificationRequested event, in one transaction. */
  function InsertDelivery(db: Db, d: Delivery): Result<Db> {
    if d.id in db.rows || ScopeTaken(db.rows, d.req) then Failure(Duplicate)
    else Success(Db(db.rows[d.id := d], db.outbox + [Event(Requested, Published(d))]))
  }

  /** Finish and the NotificationStatusChanged event, in one transaction. */
  function Finish(db: Db, v: Delivery, expected: int): Result<Db> {
    if v.id !in db.rows || db.rows[v.id].version != expected then Failure(StaleVersion)
    else Success(Db(db.rows[v.id := Stored(db.rows[v.id], v)],
                    db.outbox + [Event(StatusChanged, Published(v.(version := expected + 1)))]))
  }

  /** The retention DELETE: it repeats the status and age conditions of its SELECT. */
  function DeleteExpired(rows: Rows, ids: set<Id>, before: Time): Rows {
    map id | id in rows && !(id in ids && Expirable(rows[id], before)) :: rows[id]
  }

  // ----- the log of one delivery

  /** The committed events of one delivery, oldest first. */
  function Log(outbox: seq<Event>, id: Id): seq<Event> {
    if outbox == [] then []
    else
      var e := outbox[|outbox| - 1];
      Log(outbox[..|outbox| - 1], id) + (if e.delivery.id == id then [e] else [])
  }

  lemma LogAppend(outbox: seq<Event>, e: Event, id: Id)
    ensures Log(outbox + [e], id) == Log(outbox, id) + (if e.delivery.id == id then [e] else [])
  {
  }

  lemma {:induction false} LogOnlyOf(outbox: seq<Event>, id: Id)
    ensures forall e | e in Log(outbox, id) :: e in outbox && e.delivery.id == id
    ensures (forall e | e in outbox :: e.delivery.id != id) ==> Log(outbox, id) == []
  {
    if outbox != [] {
      LogOnlyOf(outbox[..|outbox| - 1], id);
    }
  }

  // ----- the claiming SELECT has exactly one answer

  lemma {:induction false} IdsCount(batch: seq<Delivery>)
    requires forall i, j | 0 <= i < j < |batch| :: batch[i].id != batch[j].id
    ensures |Ids(batch)| == |batch|
  {
    if batch != [] {
      var n := |batch| - 1;
      IdsCount(batch[..n]);
      assert batch == batch[..n] + [batch[n]];
      assert Ids(batch) == Ids(batch[..n]) + {batch[n].id};
      assert batch[n].id !in Ids(batch[..n]);
    }
  }

  lemma DueBatchDistinct(rows: Rows, locked: set<Id>, now: Time, limit: int, batch: seq<Delivery>)
    requires IsDueBatch(rows, locked, now, limit, batch)
    ensures forall i, j | 0 <= i < j < |batch| :: batch[i].id != batch[j].id
    ensures |Ids(batch)| == |batch|
  {
    forall i, j | 0 <= i < j < |batch|
      ensures batch[i].id != batch[j].id
    {
      assert batch[i] in batch && batch[j] in batch;
      assert Before(batch[i], batch[j]);
    }
    IdsCount(batch);
  }

  /** Two answers to the same claiming SELECT agree position by position. */
  lemma {:induction false} DueBatchPrefix(rows: Rows, locked: set<Id>, now: Time, limit: int,
                                          a: seq<Delivery>, b: seq<Delivery>, n: nat)
    requires IsDueBatch(rows, locked, now, limit, a) && IsDueBatch(rows, locked, now, limit, b)
    requires n <= |a| && n <= |b|
    ensures a[..n] == b[..n]
  {
    if n > 0 {
      DueBatchPrefix(rows, locked, now, limit, a, b, n - 1);
      DueBatchNext(rows, locked, now, limit, a, b, n - 1);
      DueBatchNext(rows, locked, now, limit, b, a, n - 1);
      assert a[n - 1] in a && b[n - 1] in b;
      assert a[..n] == a[..n - 1] + [a[n - 1]];
      assert b[..n] == b[..n - 1] + [b[n - 1]];
    }
  }

  /** After a common prefix, the next row of `b` cannot come before the next row of `a`. */
  lemma DueBatchNext(rows: Rows, locked: set<Id>, now: Time, limit: int,
                     a: seq<Delivery>, b: seq<Delivery>, n: nat)
    requires IsDueBatch(rows, locked, now, limit, a) && IsDueBatch(rows, locked, now, limit, b)
    requires n < |a| && n < |b| && a[..n] == b[..n]
    ensures !Before(b[n], a[n])
  {
  }

  lemma DueBatchUnique(rows: Rows, locked: set<Id>, now: Time, limit: int, a: seq<Delivery>, b: seq<Delivery>)
    requires IsDueBatch(rows, locked, now, limit, a) && IsDueBatch(rows, locked, now, limit, b)
    ensures a == b
  {
    DueBatchNoShorter(rows, locked, now, limit, a, b);
    DueBatchNoShorter(rows, locked, now, limit, b, a);
    DueBatchPrefix(rows, locked, now, limit, a, b, |a|);
    assert a[..|a|] == a && b[..|b|] == b;
  }

  lemma DueBatchNoShorter(rows: Rows, locked: set<Id>, now: Time, limit: int, a: seq<Delivery>, b: seq<Delivery>)
    requires IsDueBatch(rows, locked, now, limit, a) && IsDueBatch(rows, locked, now, limit, b)
    ensures |a| >= |b|
  {
    if |a| < limit {
      forall d | d in b
        ensures d.id in Ids(a)
      {
        assert Due(rows, locked, now, d.id);
      }
      DueBatchDistinct(rows, locked, now, limit, a);
      DueBatchDistinct(rows, locked, now, limit, b);
      SubsetCardinality(Ids(b), Ids(a));
    }
  }

  lemma {:induction false} SubsetCardinality<T>(a: set<T>, b: set<T>)
    requires a <= b
    ensures |a| <= |b|
  {
    if a != {} {
      var x :| x in a;
      SubsetCardinality(a - {x}, b - {x});
    }
  }
}
