/** RunOnce and deliver over the tables; each call is also a run of the step system. */
module Dispatching {
  import opened Results
  import opened Backoff
  import opened Deliveries
  import opened Store
  import opened Protocol
  import opened Invariant
  import opened Preservation
  import opened Repository
  import opened Sending
  import Outbound

  /** What `deliver` meets: a template or rendering error, the provider table, the wire, the clock, the transaction. */
  datatype Circumstances = Circumstances(
    unrendered: Option<string>, providers: Result<seq<ProviderRow>>, wire: Wire, at: Time, faults: Faults)

  predicate CodesGiven(c: Circumstances) {
    c.providers.Success? ==> forall p | p in c.providers.value :: p.code != ""
  }

  /** The clock may move on between any two steps. */
  lemma TickOn(cfg: Config, s: State, to: Time)
    requires Configured(cfg) && Inv(cfg, s) && s.clock <= to
    ensures Exec(cfg, s, [Tick(to)]) == Some(s.(clock := to)) && Inv(cfg, s.(clock := to))
  {
    hide Inv;
    StepOn(cfg, s, [], s, Tick(to));
    assert [] + [Tick(to)] == [Tick(to)];
  }

  /** `deliver` as steps: read the clock, send and settle, then either commit or lose the claim. */
  lemma DeliverRun(cfg: Config, s: State, w: nat, id: Id, outcome: Outcome, posts: nat, at: Time, committed: bool)
    returns (acts: seq<Action>, s': State)
    requires Configured(cfg) && Inv(cfg, s) && s.clock <= at
    requires (w, id) in s.claims && s.claims[(w, id)].Held? && Filled(outcome) && PostsAllowed(cfg, posts)
    ensures Exec(cfg, s, acts) == Some(s') && Inv(cfg, s') && s'.clock == at
    ensures s'.claims == Without(s.claims, (w, id)) && s'.batches == s.batches && s'.receipts == s.receipts
    ensures s'.callers == s.callers && s'.used == s.used && s'.calls == s.calls[id := s.calls[id] + posts]
    ensures var d := s.claims[(w, id)].row;
            var end := Finish(s.db, Settle(cfg, d, outcome, at), d.version);
            end.Success? && s'.db == if committed then end.value else s.db
  {
    hide Inv, Settle, Finish, Exec;
    TickOn(cfg, s, at);
    var s1 := s.(clock := at);
    var deliver := Action.Deliver(w, id, outcome, posts);
    StepOn(cfg, s, [Tick(at)], s1, deliver);
    var s2 := Apply(cfg, s1, deliver);
    FinishSucceeds(cfg, s2, (w, id));
    var end := if committed then CommitFinish(w, id) else DropClaim(w, id);
    StepOn(cfg, s, [Tick(at)] + [deliver], s2, end);
    acts := [Tick(at)] + [deliver] + [end];
    s' := Apply(cfg, s2, end);
    assert Without(s2.claims, (w, id)) == Without(s.claims, (w, id));
  }

  lemma SelectRun(cfg: Config, s: State, w: nat, now: Time, batch: seq<Delivery>) returns (acts: seq<Action>, s': State)
    requires Configured(cfg) && Inv(cfg, s) && s.clock <= now && w !in s.batches
    requires IsDueBatch(s.db.rows, Locked(s.batches), now, cfg.batchSize, batch)
    ensures Exec(cfg, s, acts) == Some(s') && Inv(cfg, s')
    ensures s' == s.(clock := now, batches := s'.batches) && Without(s'.batches, w) == s.batches
    ensures w in s'.batches && s'.batches[w].now == now && s'.batches[w].rows.Keys == Ids(batch)
    ensures forall d | d in ClaimedBatch(batch, now) ::
              d.id in Ids(batch) && d == Claimed(s'.batches[w].rows[d.id], now)
  {
    hide Inv, IsDueBatch, Exec, Ids, Claimed;
    TickOn(cfg, s, now);
    StepOn(cfg, s, [Tick(now)], s.(clock := now), SelectDue(w, now, batch));
    acts := [Tick(now)] + [SelectDue(w, now, batch)];
    s' := Apply(cfg, s.(clock := now), SelectDue(w, now, batch));
    BatchAsRead(s.db.rows, Locked(s.batches), now, cfg.batchSize, batch);
  }

  /** The claim transaction as steps: it selects, and then commits, acknowledged or not, or aborts. */
  lemma ClaimRun(cfg: Config, s: State, w: nat, now: Time, batch: seq<Delivery>, applied: bool, acked: bool)
    returns (acts: seq<Action>, s': State)
    requires Configured(cfg) && Inv(cfg, s) && s.clock <= now && w !in s.batches
    requires IsDueBatch(s.db.rows, Locked(s.batches), now, cfg.batchSize, batch)
    ensures Exec(cfg, s, acts) == Some(s') && Inv(cfg, s')
    ensures s'.clock == now && s'.batches == s.batches && s'.receipts == s.receipts
    ensures s'.db == if applied then s.db.(rows := ClaimRows(s.db.rows, Ids(batch), now)) else s.db
    ensures !(applied && acked) ==> s'.claims == s.claims
    ensures applied && acked ==> forall t | t in s.claims :: t in s'.claims
    ensures applied && acked ==> forall d | d in ClaimedBatch(batch, now) ::
              (w, d.id) in s'.claims && s'.claims[(w, d.id)] == Held(d)
  {
    hide Inv, ClaimRows, IsDueBatch, Exec, Ids, Claimed;
    var selected, mid := SelectRun(cfg, s, w, now, batch);
    SelectedMatches(cfg, mid, w);
    var end := if applied then CommitClaim(w, acked) else AbortClaim(w);
    StepOn(cfg, s, selected, mid, end);
    acts := selected + [end];
    s' := Apply(cfg, mid, end);
  }

  lemma SelectedMatches(cfg: Config, s: State, w: nat)
    requires Inv(cfg, s) && w in s.batches
    ensures ClaimMatches(s.db.rows, s.batches[w])
  {
    hide LogsOk, RowsOk, KeysOk, CallersOk, ClaimsOk, ReceiptsOk, RepliesOk, AcceptedOk, CallsOk;
    OpenBatch(s, w);
  }

  lemma BatchAsRead(rows: Rows, locked: set<Id>, now: Time, limit: int, batch: seq<Delivery>)
    requires IsDueBatch(rows, locked, now, limit, batch)
    ensures forall d | d in ClaimedBatch(batch, now) ::
              d.id in Ids(batch) && d.id in rows && d == Claimed(rows[d.id], now)
  {
  }

  // ----- what becomes of a claimed row, in its columns

  /** `row` is `d` sent: accepted by `provider` under `message`. */
  ghost predicate SentBy(d: Delivery, row: Delivery, provider: string, message: string, at: Time) {
    row == d.(status := Sent, provider := provider, messageId := message, failure := "",
              version := d.version + 1, updatedAt := at, updatedBy := "notification-dispatcher")
  }

  /** `row` is `d` after an attempt that failed for `reason`: to be retried, or given up after the last one. */
  ghost predicate FailedFor(cfg: Config, d: Delivery, row: Delivery, reason: string, at: Time) {
    row == if d.attempts < cfg.maxAttempts
           then d.(status := Retrying, failure := reason, nextAttempt := at + RetryBackoff(cfg.retryBase, d.attempts),
                   version := d.version + 1, updatedAt := at, updatedBy := "notification-dispatcher")
           else d.(status := DeadLetter, failure := reason,
                   version := d.version + 1, updatedAt := at, updatedBy := "notification-dispatcher")
  }

  lemma SettledEnds(cfg: Config, d: Delivery, outcome: Outcome, at: Time)
    ensures var row := Stored(d, Settle(cfg, d, outcome, at));
            match outcome
            case Accepted(provider, message) => SentBy(d, row, provider, message, at)
            case Rejected(reason) => FailedFor(cfg, d, row, reason, at)
  {
  }

  /** `row` is `d` after a POST to the provider with this code. */
  ghost predicate PostedTo(cfg: Config, d: Delivery, row: Delivery, code: string, w: Wire, at: Time) {
    if (w.hasBreaker && !w.admits) || !w.pathOk || !w.built || w.failed then FailedFor(cfg, d, row, w.problem, at)
    else if w.status < 200 || w.status >= 300 then FailedFor(cfg, d, row, "provider returned an error status", at)
    else match w.decoded
         case None => FailedFor(cfg, d, row, "decode provider response", at)
         case Some(message) =>
           if message == "" then FailedFor(cfg, d, row, "provider response omitted message_id", at)
           else SentBy(d, row, code, message, at)
  }

  class Dispatcher {
    const cfg: Config
    const name: nat
    const db: Database
    const senders: map<string, Sender>
    const allowed: set<string>
    const configured: set<string>
    const collate: string -> int

    constructor (settings: Config, name: nat, db: Database, senders: map<string, Sender>,
                 allowed: set<string>, configured: set<string>, collate: string -> int)
      ensures this.cfg == Config(
                if settings.batchSize <= 0 then 100 else settings.batchSize,
                if settings.maxAttempts <= 0 then 8 else settings.maxAttempts,
                if settings.retryBase <= 0 then 5 * 1_000_000_000 else settings.retryBase,
                settings.httpAttempts)
      ensures Configured(this.cfg) && this.name == name && this.db == db && this.collate == collate
      ensures this.senders == senders && this.allowed == allowed && this.configured == configured
    {
      this.cfg := WithDefaults(settings);
      this.name := name;
      this.db := db;
      this.senders := senders;
      this.allowed := allowed;
      this.configured := configured;
      this.collate := collate;
    }

    predicate Ready() {
      Configured(cfg) && forall channel | channel in senders :: Named(senders[channel])
    }

    function Fallback(channel: string): Option<Sender> {
      if channel in senders then Some(senders[channel]) else None
    }

    /** `sender`: whom a delivery goes to. */
    function SenderFor(d: Delivery, c: Circumstances): Resolution {
      Resolve(c.providers, collate, d.req, Fallback(d.req.channel), allowed, configured)
    }

    /** What the attempt comes to, and the HTTP calls it costs. */
    function Attempt(d: Delivery, c: Circumstances): (r: (Outcome, nat))
      requires Ready() && CodesGiven(c)
      ensures Filled(r.0)
      ensures r.0.Accepted? ==>
                c.unrendered == None && SenderFor(d, c).Use? && r.0 == Send(SenderFor(d, c).sender, c.wire)
      ensures r.1 == if c.unrendered == None && SenderFor(d, c).Use? && SenderFor(d, c).sender.Provider?
                        && (!c.wire.hasBreaker || c.wire.admits) && c.wire.pathOk && c.wire.built then 1 else 0
    {
      if c.unrendered.Some? then (Rejected(c.unrendered.value), 0)
      else
        match SenderFor(d, c)
        case Unresolved(reason) => (Rejected(reason), 0)
        case Nobody => (Rejected("sender is not configured"), 0)
        case Use(sender) => (Send(sender, c.wire), Posts(sender, c.wire))
    }

    /** What the row of a claimed delivery is in the end. */
    function RowAfter(d: Delivery, c: Circumstances): Delivery
      requires Ready() && CodesGiven(c)
    {
      if Applied(c.faults, 2) then Stored(d, Settle(cfg, d, Attempt(d, c).0, c.at)) else d
    }

    /**
     * How a claimed row ends: rendered and sent through the chosen provider or, if there is none, the registered
     * sender; sent, retried or given up by what came of it; unchanged if the transaction does not apply.
     */
    ghost predicate Ends(d: Delivery, c: Circumstances, row: Delivery) {
      if c.faults.begin || (c.faults.failAt.Some? && c.faults.failAt.value < 2) || c.faults.commit == NotApplied then
        row == d
      else if c.unrendered.Some? then FailedFor(cfg, d, row, c.unrendered.value, c.at)
      else if c.providers.Failure? then FailedFor(cfg, d, row, "resolve notification provider", c.at)
      else if NoneChosen(c.providers.value, d.req) then
        if d.req.channel !in senders then FailedFor(cfg, d, row, "sender is not configured", c.at)
        else match senders[d.req.channel]
             case InApp => SentBy(d, row, "in_app", "stored", c.at)
             case Unconfigured(channel) => FailedFor(cfg, d, row, channel + " provider is not configured", c.at)
             case Provider(code) => PostedTo(cfg, d, row, code, c.wire, c.at)
      else
        exists p :: Chosen(c.providers.value, collate, d.req, p) &&
          if p.upstream !in allowed then
            FailedFor(cfg, d, row, "notification provider upstream is not allowed", c.at)
          else if p.upstream !in configured then
            FailedFor(cfg, d, row, "notification provider upstream is not configured", c.at)
          else PostedTo(cfg, d, row, p.code, c.wire, c.at)
    }

    lemma RowAfterEnds(d: Delivery, c: Circumstances)
      requires Ready() && CodesGiven(c)
      ensures Ends(d, c, RowAfter(d, c))
    {
      hide Resolve, Chosen, NoneChosen, Settle, Stored, SentBy, FailedFor;
      if Applied(c.faults, 2) {
        SettledEnds(cfg, d, Attempt(d, c).0, c.at);
      }
    }

    /** Render, choose the sender, send: what comes of it, within the calls the retry loop allows one POST. */
    method Try(d: Delivery, c: Circumstances) returns (outcome: Outcome, posts: nat)
      requires Ready() && CodesGiven(c)
      ensures (outcome, posts) == Attempt(d, c)
      ensures PostsAllowed(cfg, posts)
    {
      Outbound.PlainPostIsOneCall(cfg.httpAttempts);
      if c.unrendered.Some? {
        return Rejected(c.unrendered.value), 0;
      }
      match SenderFor(d, c)
      case Unresolved(reason) =>
        return Rejected(reason), 0;
      case Nobody =>
        return Rejected("sender is not configured"), 0;
      case Use(sender) =>
        outcome, posts := Dispatch(sender, c.wire, cfg.httpAttempts);
    }

    /** One delivery: send it, then write the result and its event, whatever the transaction's fate. */
    method Deliver(d: Delivery, c: Circumstances) returns (ghost acts: seq<Action>)
      requires Ready() && CodesGiven(c) && db.Mirrors(cfg) && db.sys.clock <= c.at
      requires (name, d.id) in db.sys.claims && db.sys.claims[(name, d.id)] == Held(d)
      modifies db`rows, db`outbox, db`saved, db`sys
      ensures db.Mirrors(cfg) && db.sys.clock == c.at
      ensures Exec(cfg, old(db.sys), acts) == Some(db.sys)
      ensures db.sys.claims == Without(old(db.sys.claims), (name, d.id))
      ensures db.sys.batches == old(db.sys.batches)
      ensures d.id in old(db.rows) && old(db.rows)[d.id] == d && db.rows == old(db.rows)[d.id := RowAfter(d, c)]
      ensures Ends(d, c, db.rows[d.id])
      ensures db.sys.calls == old(db.sys.calls)[d.id := old(db.sys.calls)[d.id] + Attempt(d, c).1]
    {
      hide Inv, Exec, Attempt, Finish, Locked, Ends, Published;
      ClaimIsRow(cfg, db.sys, (name, d.id));
      RowAfterEnds(d, c);
      var delivery := d;
      var outcome, posts := Try(d, c);
      var now := c.at;
      delivery := delivery.(updatedAt := now, updatedBy := "notification-dispatcher");
      if outcome.Accepted? {
        delivery := delivery.(status := Sent, provider := outcome.provider);
        delivery := delivery.(messageId := outcome.messageId, failure := "");
      } else {
        delivery := delivery.(failure := outcome.reason);
        if delivery.attempts >= cfg.maxAttempts {
          delivery := delivery.(status := DeadLetter);
        } else {
          delivery := delivery.(status := Retrying);
          delivery := delivery.(nextAttempt := now + RetryBackoff(cfg.retryBase, delivery.attempts));
        }
      }
      var result := db.FinishWithin(delivery, delivery.version, c.faults);
      FinishRows(old(db.Tables()), delivery);
      ghost var end: State;
      acts, end := DeliverRun(cfg, db.sys, name, d.id, outcome, posts, now, Applied(c.faults, 2));
      db.sys := end;
    }

    /**
     * RunOnce: claim a batch in one transaction and deliver its rows one after the other. It is a run of the
     * step system; alone, it claims exactly the due batch and takes each of its rows to its outcome.
     */
    method RunOnce(now: Time, f: Faults, plan: nat -> Circumstances)
      returns (r: Result<nat>, ghost batch: seq<Delivery>, ghost acts: seq<Action>)
      requires Ready() && db.Mirrors(cfg) && name !in db.sys.batches && db.sys.clock <= now
      requires forall i: nat :: CodesGiven(plan(i)) && now <= plan(i).at
      requires forall i: nat, j: nat | i <= j :: plan(i).at <= plan(j).at
      modifies db`rows, db`outbox, db`saved, db`sys
      ensures db.Mirrors(cfg) && Exec(cfg, old(db.sys), acts) == Some(db.sys)
      ensures IsDueBatch(old(db.rows), db.locked, now, cfg.batchSize, batch)
      ensures r.Success? <==> Applied(f, |batch| + 1) && f.commit == Acked
      ensures r.Success? ==> r.value == |batch| && db.rows.Keys == old(db.rows).Keys
      ensures r.Success? ==> forall i | 0 <= i < |batch| ::
                var d := batch[i];
                var claimed := d.(status := Processing, attempts := d.attempts + 1, version := d.version + 1,
                                  updatedAt := now);
                d.id in db.rows && Ends(claimed, plan(i), db.rows[d.id])
      ensures r.Success? ==> forall id | id in old(db.rows) && id !in Ids(batch) ::
                id in db.rows && db.rows[id] == old(db.rows)[id]
      ensures r.Failure? ==>
                db.rows == if Applied(f, |batch| + 1) then ClaimRows(old(db.rows), Ids(batch), now) else old(db.rows)
    {
      hide Inv, IsDueBatch, Claimed, Ends, Exec, ClaimRows, Ids, Locked, CodesGiven, Named;
      RowIds(cfg, db.sys);
      var due;
      due, batch := db.Claim(now, cfg.batchSize, f);
      ghost var claimed: State;
      acts, claimed := ClaimRun(cfg, db.sys, name, now, batch, Applied(f, |batch| + 1), f.commit == Acked);
      db.sys := claimed;
      if due.Failure? {
        return Failure(due.error), batch, acts;
      }
      var values := due.value;
      ClaimedRows(old(db.rows), db.locked, now, cfg.batchSize, batch);
      ghost var rest := DeliverAll(values, plan);
      ExecConcat(cfg, old(db.sys), acts, rest);
      return Success(|values|), batch, acts + rest;
    }

    /** The loop of RunOnce over a claimed batch. */
    method DeliverAll(values: seq<Delivery>, plan: nat -> Circumstances) returns (ghost acts: seq<Action>)
      requires Ready() && db.Mirrors(cfg)
      requires values != [] ==> db.sys.clock <= plan(0).at
      requires forall i: nat :: CodesGiven(plan(i))
      requires forall i: nat, j: nat | i <= j :: plan(i).at <= plan(j).at
      requires forall i, j | 0 <= i < j < |values| :: values[i].id != values[j].id
      requires forall i | 0 <= i < |values| ::
                 (name, values[i].id) in db.sys.claims && db.sys.claims[(name, values[i].id)] == Held(values[i])
      modifies db`rows, db`outbox, db`saved, db`sys
      ensures db.Mirrors(cfg) && Exec(cfg, old(db.sys), acts) == Some(db.sys)
      ensures db.rows.Keys == old(db.rows).Keys
      ensures forall i | 0 <= i < |values| ::
                values[i].id in db.rows && Ends(values[i], plan(i), db.rows[values[i].id])
      ensures forall id | id in old(db.rows) && id !in Ids(values) :: db.rows[id] == old(db.rows)[id]
    {
      hide Inv, Ends, RowAfter, Exec, Locked, Configured, CodesGiven, Named, Filled, PostsAllowed, Ids;
      InIds(values);
      acts := [];
      ExecNothing(cfg, db.sys);
      var index := 0;
      while index < |values|
        invariant 0 <= index <= |values|
        invariant db.Mirrors(cfg) && Exec(cfg, old(db.sys), acts) == Some(db.sys)
        invariant index < |values| ==> db.sys.clock <= plan(index).at
        invariant forall i | index <= i < |values| ::
                    (name, values[i].id) in db.sys.claims && db.sys.claims[(name, values[i].id)] == Held(values[i])
        invariant db.rows.Keys == old(db.rows).Keys
        invariant forall i | 0 <= i < index ::
                    values[i].id in db.rows && Ends(values[i], plan(i), db.rows[values[i].id])
        invariant forall id | id in old(db.rows) && id !in Ids(values) :: db.rows[id] == old(db.rows)[id]
      {
        assert values[index].id in Ids(values);
        assert plan(index).at <= plan(index + 1).at;
        ghost var more := Deliver(values[index], plan(index));
        ExecConcat(cfg, old(db.sys), acts, more);
        acts := acts + more;
        index := index + 1;
      }
    }
  }

  lemma FinishRows(t: Db, v: Delivery)
    requires v.id in t.rows && t.rows[v.id].version == v.version
    ensures Finish(t, v, v.version).Success?
    ensures Finish(t, v, v.version).value.rows == t.rows[v.id := Stored(t.rows[v.id], v)]
  {
  }

  lemma InIds(values: seq<Delivery>)
    ensures forall i | 0 <= i < |values| :: values[i].id in Ids(values)
  {
    forall i | 0 <= i < |values| ensures values[i].id in Ids(values) { assert values[i] in values; }
  }

  lemma ClaimIsRow(cfg: Config, s: State, t: Token)
    requires Inv(cfg, s) && t in s.claims
    ensures t.1 in s.db.rows && s.claims[t].row == s.db.rows[t.1] && s.claims[t].row.id == t.1
  {
    hide LogsOk, RowsOk, KeysOk, CallersOk, BatchesOk, ClaimsOk, ReceiptsOk, RepliesOk, AcceptedOk, CallsOk, RowOk,
        LogOk;
    LiveClaim(cfg, s, t);
  }

  /** The rows of a batch are different rows, and the claim left all others alone. */
  lemma ClaimedRows(rows: Rows, locked: set<Id>, now: Time, limit: int, batch: seq<Delivery>)
    requires IsDueBatch(rows, locked, now, limit, batch)
    ensures var values := ClaimedBatch(batch, now);
            && (forall i, j | 0 <= i < j < |values| :: values[i].id != values[j].id)
            && (forall i | 0 <= i < |values| :: values[i].id == batch[i].id && values[i].id in rows)
            && (forall i | 0 <= i < |values| ::
                  var d := batch[i];
                  values[i] == d.(status := Processing, attempts := d.attempts + 1, version := d.version + 1,
                                  updatedAt := now))
            && Ids(values) == Ids(batch)
    ensures ClaimRows(rows, Ids(batch), now).Keys == rows.Keys
    ensures forall id | id in rows && id !in Ids(batch) :: ClaimRows(rows, Ids(batch), now)[id] == rows[id]
  {
  }
}
