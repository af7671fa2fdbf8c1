/**
 * The delivery engine as a step system over one shared database. Any number of API callers,
 * dispatchers, receipt handlers and cleaners interleave; every step below is atomic in the program
 * (one transaction commit, one statement, or purely local work). A read and the write that depends
 * on it are always two steps.
 */
module Protocol {
  import opened Results
  import opened Deliveries
  import opened Store
  import Outbound

  /** A `Send` between its existence check and its commit. */
  datatype Caller = Checked(req: Request) | Stamped(row: Delivery)

  /** An open claim transaction: the rows it read, locked until it commits or aborts. */
  datatype Batch = Batch(now: Time, rows: Rows)

  /** A delivery a worker got from a committed claim: not yet sent, or sent and about to be finished. */
  datatype Claim = Held(row: Delivery) | Settled(row: Delivery, outcome: Outcome, at: Time)

  /** A `RecordReceipt` between its lookup and its commit. */
  datatype Receipt = Receipt(row: Delivery, since: Time, status: Status, reason: string, actor: string)

  /** A retention batch between its SELECT and its DELETE. */
  datatype Sweep = Sweep(before: Time, ids: set<Id>)

  /** A claim belongs to one dispatcher and one delivery; nothing here says that claims exclude each other. */
  type Token = (nat, Id)

  datatype State = State(
    db: Db,
    clock: Time,
    used: set<Id>,               // ids the UUID generator has handed out
    callers: map<nat, Caller>,
    batches: map<nat, Batch>,    // by dispatcher
    claims: map<Token, Claim>,
    receipts: map<nat, Receipt>,
    sweeps: map<nat, Sweep>,
    // history, for stating properties of whole runs
    retired: set<Id>,                              // deleted by retention
    replies: set<((string, string, string), Id)>,  // scope and id of every successful Send
    accepted: multiset<Id>,                        // sends a provider accepted
    answers: map<Id, Outcome>,                     // and what it answered
    calls: multiset<Id>)                           // HTTP calls made for a delivery

  datatype Action =
    | Tick(to: Time)
    | CheckKey(c: nat, req: Request)
    | Replay(req: Request, id: Id)
    | StampSend(c: nat, id: Id, actor: string)
    | CommitSend(c: nat, acked: bool)
    | AbandonSend(c: nat)
    | SelectDue(w: nat, now: Time, batch: seq<Delivery>)
    | CommitClaim(w: nat, acked: bool)
    | AbortClaim(w: nat)
    | Deliver(w: nat, id: Id, outcome: Outcome, posts: nat)
    | CommitFinish(w: nat, id: Id)
    | DropClaim(w: nat, id: Id)
    | ReadReceipt(k: nat, id: Id, provider: string, messageId: string, status: Status, reason: string, actor: string)
    | CommitReceipt(k: nat, now: Time)
    | DropReceipt(k: nat)
    | SelectExpired(k: nat, before: Time, ids: set<Id>)
    | DeleteSweep(k: nat)

  function Locked(batches: map<nat, Batch>): set<Id> {
    set w, id | w in batches && id in batches[w].rows :: id
  }

  function Without<K, V>(m: map<K, V>, k: K): map<K, V> {
    map x | x in m && x != k :: m[x]
  }

  function Start(clock: Time): State {
    State(Db(map[], []), clock, {}, map[], map[], map[], map[], map[], {}, {}, multiset{}, map[], multiset{})
  }

  /** The in-memory rows a committed claim hands to dispatcher `w`, each to be delivered. */
  function Handed(w: nat, b: Batch): map<Token, Claim> {
    map id | id in b.rows :: (w, id) := Held(Claimed(b.rows[id], b.now))
  }

  /** Every UPDATE of the claim loop, `WHERE id=? AND version=?`, matches its row. */
  predicate ClaimMatches(rows: Rows, b: Batch) {
    forall id | id in b.rows :: id in rows && rows[id].version == b.rows[id].version
  }

  /** The HTTP calls one attempt may cost: a provider POST without idempotency key, or none at all. */
  predicate PostsAllowed(cfg: Config, posts: nat) {
    posts <= Outbound.MaxCalls("POST", false, cfg.httpAttempts)
  }

  ghost predicate Enabled(cfg: Config, s: State, a: Action) {
    match a
    case Tick(to) => to >= s.clock
    case CheckKey(c, req) => c !in s.callers && !ScopeTaken(s.db.rows, req)
    case Replay(req, id) => id in s.db.rows && Scope(s.db.rows[id].req) == Scope(req)
    case StampSend(c, id, _) => c in s.callers && s.callers[c].Checked? && id !in s.used
    case CommitSend(c, _) => c in s.callers && s.callers[c].Stamped? && InsertDelivery(s.db, s.callers[c].row).Success?
    case AbandonSend(c) => c in s.callers
    case SelectDue(w, now, batch) =>
      w !in s.batches && now <= s.clock && IsDueBatch(s.db.rows, Locked(s.batches), now, cfg.batchSize, batch)
    case CommitClaim(w, _) => w in s.batches && ClaimMatches(s.db.rows, s.batches[w])
    case AbortClaim(w) => w in s.batches
    case Deliver(w, id, outcome, posts) =>
      && (w, id) in s.claims && s.claims[(w, id)].Held? && PostsAllowed(cfg, posts)
      && (outcome.Accepted? ==> outcome.provider != "" && outcome.messageId != "")
    case CommitFinish(w, id) =>
      && (w, id) in s.claims && s.claims[(w, id)].Settled?
      && Finish(s.db, FinishValue(cfg, s.claims[(w, id)]), s.claims[(w, id)].row.version).Success?
    case DropClaim(w, id) => (w, id) in s.claims
    case ReadReceipt(k, id, provider, messageId, status, _, _) =>
      && k !in s.receipts && id in s.db.rows && ReceiptStatus(status) && provider != "" && messageId != ""
      && s.db.rows[id].provider == provider && s.db.rows[id].messageId == messageId
      && s.db.rows[id].status != status && !Terminal(s.db.rows[id].status)
    case CommitReceipt(k, now) =>
      && k in s.receipts && s.receipts[k].since <= now <= s.clock
      && Finish(s.db, ReceiptValue(s.receipts[k], now), s.receipts[k].row.version).Success?
    case DropReceipt(k) => k in s.receipts
    case SelectExpired(k, before, ids) =>
      k !in s.sweeps && forall id | id in ids :: id in s.db.rows && Expirable(s.db.rows[id], before)
    case DeleteSweep(k) => k in s.sweeps
  }

  /** The in-memory delivery that goes into Finish. */
  function FinishValue(cfg: Config, c: Claim): Delivery
    requires c.Settled?
  {
    Settle(cfg, c.row, c.outcome, c.at)
  }

  function ReceiptValue(r: Receipt, now: Time): Delivery {
    WithReceipt(r.row, r.status, r.reason, now, r.actor)
  }

  ghost function Apply(cfg: Config, s: State, a: Action): State
    requires Enabled(cfg, s, a)
  {
    match a
    case Tick(to) => s.(clock := to)
    case CheckKey(c, req) => s.(callers := s.callers[c := Checked(req)])
    case Replay(req, id) => s.(replies := s.replies + {(Scope(req), id)})
    case StampSend(c, id, actor) =>
      s.(used := s.used + {id},
         callers := s.callers[c := Stamped(NewDelivery(id, s.callers[c].req, s.clock, actor))])
    case CommitSend(c, acked) =>
      var d := s.callers[c].row;
      s.(db := InsertDelivery(s.db, d).value, callers := Without(s.callers, c),
         replies := if acked then s.replies + {(Scope(d.req), d.id)} else s.replies)
    case AbandonSend(c) => s.(callers := Without(s.callers, c))
    case SelectDue(w, now, batch) =>
      s.(batches := s.batches[w := Batch(now, map id | id in Ids(batch) :: s.db.rows[id])])
    case CommitClaim(w, acked) =>
      var b := s.batches[w];
      s.(db := s.db.(rows := ClaimRows(s.db.rows, b.rows.Keys, b.now)), batches := Without(s.batches, w),
         claims := if acked then s.claims + Handed(w, b) else s.claims)
    case AbortClaim(w) => s.(batches := Without(s.batches, w))
    case Deliver(w, id, outcome, posts) =>
      var d := s.claims[(w, id)].row;
      s.(claims := s.claims[(w, id) := Settled(d, outcome, s.clock)],
         accepted := if outcome.Accepted? then s.accepted + multiset{id} else s.accepted,
         answers := if outcome.Accepted? then s.answers[id := outcome] else s.answers,
         calls := s.calls[id := s.calls[id] + posts])
    case CommitFinish(w, id) =>
      var c := s.claims[(w, id)];
      s.(db := Finish(s.db, FinishValue(cfg, c), c.row.version).value, claims := Without(s.claims, (w, id)))
    case DropClaim(w, id) => s.(claims := Without(s.claims, (w, id)))
    case ReadReceipt(k, id, _, _, status, reason, actor) =>
      s.(receipts := s.receipts[k := Receipt(s.db.rows[id], s.clock, status, reason, actor)])
    case CommitReceipt(k, now) =>
      var r := s.receipts[k];
      s.(db := Finish(s.db, ReceiptValue(r, now), r.row.version).value, receipts := Without(s.receipts, k))
    case DropReceipt(k) => s.(receipts := Without(s.receipts, k))
    case SelectExpired(k, before, ids) => s.(sweeps := s.sweeps[k := Sweep(before, ids)])
    case DeleteSweep(k) =>
      var left := DeleteExpired(s.db.rows, s.sweeps[k].ids, s.sweeps[k].before);
      s.(db := s.db.(rows := left), retired := s.retired + (s.db.rows.Keys - left.Keys), sweeps := Without(s.sweeps, k))
  }

  /** Runs a schedule; None if a step of it is not enabled when its turn comes. */
  ghost function Exec(cfg: Config, s: State, acts: seq<Action>): Option<State> {
    if acts == [] then Some(s)
    else
      var last := |acts| - 1;
      match Exec(cfg, s, acts[..last])
      case None => None
      case Some(mid) => Next(cfg, mid, acts[last])
  }

  /** One turn of a schedule. */
  ghost function Next(cfg: Config, s: State, a: Action): Option<State> {
    if Enabled(cfg, s, a) then Some(Apply(cfg, s, a)) else None
  }

  /** Reachable from an empty database by some schedule. */
  ghost predicate Reachable(cfg: Config, s: State) {
    exists clock, acts :: Exec(cfg, Start(clock), acts) == Some(s)
  }

  lemma ExecAppend(cfg: Config, s: State, acts: seq<Action>, a: Action)
    requires Exec(cfg, s, acts).Some? && Enabled(cfg, Exec(cfg, s, acts).value, a)
    ensures Exec(cfg, s, acts + [a]) == Some(Apply(cfg, Exec(cfg, s, acts).value, a))
  {
  }

  lemma {:induction false} ExecConcat(cfg: Config, s: State, before: seq<Action>, after: seq<Action>)
    requires Exec(cfg, s, before).Some?
    ensures Exec(cfg, s, before + after) == Exec(cfg, Exec(cfg, s, before).value, after)
  {
    if after == [] {
      assert before + after == before;
    } else {
      var last := |after| - 1;
      ExecConcat(cfg, s, before, after[..last]);
      assert (before + after)[..|before + after| - 1] == before + after[..last];
    }
  }
}
