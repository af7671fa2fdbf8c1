/** Send and RecordReceipt over the tables; each call is also a run of the step system. */
module Service {
  import opened Results
  import opened Deliveries
  import opened Store
  import opened Protocol
  import opened Invariant
  import opened Preservation
  import opened Repository
  import opened Dispatching

  /** What `Send` meets after its checks of the request: limiter, template, a new UUID, the clock, the transaction. */
  datatype Conditions = Conditions(
    limited: Option<Error>, template: Result<bool>, id: Id, now: Time, actor: string, faults: Faults)

  predicate ValidChannel(channel: string) {
    channel == "email" || channel == "sms" || channel == "webhook" || channel == "in_app"
  }

  /** What `Send` accepts, of a request whose fields are already trimmed and lower-cased. */
  ghost predicate ValidRequest(req: Request) {
    && req.tenant != "" && req.application != "" && req.template != "" && req.locale != ""
    && req.recipient != "" && req.key != ""
    && req.channel in {"email", "sms", "webhook", "in_app"}
  }

  /** There is a row for the tenant, application and idempotency key of a request. */
  ghost predicate KeyStored(rows: Rows, req: Request) {
    exists id | id in rows ::
      rows[id].req.tenant == req.tenant && rows[id].req.application == req.application && rows[id].req.key == req.key
  }

  /** There is a row with this provider message in the tenant and application. */
  ghost predicate MessageStored(rows: Rows, tenant: string, application: string, provider: string, messageId: string) {
    exists id | id in rows ::
      && rows[id].req.tenant == tenant && rows[id].req.application == application
      && rows[id].provider == provider && rows[id].messageId == messageId
  }

  /** A send that replays an existing row. */
  lemma ReplayRun(cfg: Config, s: State, req: Request, id: Id) returns (acts: seq<Action>, s': State)
    requires Configured(cfg) && Inv(cfg, s) && id in s.db.rows && Scope(s.db.rows[id].req) == Scope(req)
    ensures Exec(cfg, s, acts) == Some(s') && Inv(cfg, s')
    ensures s' == s.(replies := s.replies + {(Scope(req), id)})
  {
    hide Inv, Exec;
    ExecNothing(cfg, s);
    StepOn(cfg, s, [], s, Replay(req, id));
    acts := [] + [Replay(req, id)];
    s' := Apply(cfg, s, Replay(req, id));
  }

  /** A send that passed the existence check stamps its row. */
  lemma StampRun(cfg: Config, s: State, c: nat, req: Request, id: Id, now: Time, actor: string)
    returns (acts: seq<Action>, s': State)
    requires Configured(cfg) && Inv(cfg, s) && c !in s.callers && !ScopeTaken(s.db.rows, req)
    requires id !in s.used && s.clock <= now
    ensures Exec(cfg, s, acts) == Some(s') && Inv(cfg, s')
    ensures var stamped := s.callers[c := Checked(req)][c := Stamped(NewDelivery(id, req, now, actor))];
            s' == s.(clock := now, used := s.used + {id}, callers := stamped)
  {
    hide Inv, Exec, ScopeTaken, NewDelivery;
    var s1 := s.(callers := s.callers[c := Checked(req)]);
    var s2 := s1.(clock := now);
    var a := [CheckKey(c, req)];
    CheckOn(cfg, s, c, req);
    StepOn(cfg, s, a, s1, Tick(now));
    StampOn(cfg, s, a + [Tick(now)], s2, c, id, actor);
    acts := a + [Tick(now)] + [StampSend(c, id, actor)];
    s' := s2.(used := s2.used + {id}, callers := s2.callers[c := Stamped(NewDelivery(id, req, now, actor))]);
  }

  lemma InsertSucceeds(db: Db, d: Delivery)
    requires d.id !in db.rows && !ScopeTaken(db.rows, d.req)
    ensures InsertDelivery(db, d).Success?
  {
  }

  /** And commits it, or not. */
  lemma SendRun(cfg: Config, s: State, c: nat, req: Request, id: Id, now: Time, actor: string,
                applied: bool, acked: bool)
    returns (acts: seq<Action>, s': State)
    requires Configured(cfg) && Inv(cfg, s) && c !in s.callers && !ScopeTaken(s.db.rows, req)
    requires id !in s.used && s.clock <= now
    ensures Exec(cfg, s, acts) == Some(s') && Inv(cfg, s')
    ensures s'.clock == now && s'.used == s.used + {id} && s'.callers == s.callers
    ensures s'.batches == s.batches && s'.claims == s.claims && s'.receipts == s.receipts
    ensures var d := NewDelivery(id, req, now, actor);
            && InsertDelivery(s.db, d).Success?
            && s'.db == (if applied then InsertDelivery(s.db, d).value else s.db)
            && s'.replies == (if applied && acked then s.replies + {(Scope(req), id)} else s.replies)
  {
    hide Inv, Exec, ScopeTaken, Scope, InsertDelivery;
    UnusedIsNew(cfg, s, id);
    InsertSucceeds(s.db, NewDelivery(id, req, now, actor));
    var stamp, mid := StampRun(cfg, s, c, req, id, now, actor);
    var end := if applied then CommitSend(c, acked) else AbandonSend(c);
    StepOn(cfg, s, stamp, mid, end);
    acts := stamp + [end];
    s' := Apply(cfg, mid, end);
    assert Without(mid.callers, c) == s.callers;
  }

  lemma CheckOn(cfg: Config, s: State, c: nat, req: Request)
    requires Configured(cfg) && Inv(cfg, s) && c !in s.callers && !ScopeTaken(s.db.rows, req)
    ensures var s' := s.(callers := s.callers[c := Checked(req)]);
            Exec(cfg, s, [CheckKey(c, req)]) == Some(s') && Inv(cfg, s')
  {
    hide Inv, Exec, ScopeTaken;
    ExecNothing(cfg, s);
    StepOn(cfg, s, [], s, CheckKey(c, req));
    assert [] + [CheckKey(c, req)] == [CheckKey(c, req)];
  }

  lemma StampOn(cfg: Config, s0: State, acts: seq<Action>, s: State, c: nat, id: Id, actor: string)
    requires Configured(cfg) && Exec(cfg, s0, acts) == Some(s) && Inv(cfg, s)
    requires c in s.callers && s.callers[c].Checked? && id !in s.used
    ensures var s' := s.(used := s.used + {id},
              callers := s.callers[c := Stamped(NewDelivery(id, s.callers[c].req, s.clock, actor))]);
            Exec(cfg, s0, acts + [StampSend(c, id, actor)]) == Some(s') && Inv(cfg, s')
  {
  }

  lemma UnusedIsNew(cfg: Config, s: State, id: Id)
    requires Inv(cfg, s) && id !in s.used
    ensures id !in s.db.rows && id !in s.retired
  {
  }

  /** RecordReceipt's decision on the row it found. */
  datatype Decision = Answer | Refuse | Write

  function Decide(found: Status, status: Status): Decision {
    if found == status then Answer else if Terminal(found) then Refuse else Write
  }

  /** The transaction of a receipt on the row it read, column by column. */
  lemma ReceiptFinishes(db: Db, id: Id, status: Status, reason: string, now: Time, actor: string)
    requires id in db.rows && db.rows[id].id == id
    ensures var d := db.rows[id];
            var d' := d.(status := status, failure := reason, version := d.version + 1, updatedAt := now,
                         updatedBy := actor);
            var sent := d'.(req := d.req.(locale := "", key := ""));
            Finish(db, WithReceipt(d, status, reason, now, actor), d.version) ==
            Success(Db(db.rows[id := d'], db.outbox + [Event(StatusChanged, sent)]))
  {
  }

  lemma AsReceipt(d: Delivery, v: Delivery, status: Status, reason: string, now: Time, actor: string)
    requires v == d.(status := status, failure := reason, updatedAt := now, updatedBy := actor)
    ensures v == WithReceipt(d, status, reason, now, actor)
  {
  }

  /** The transaction of a send, column by column. */
  lemma SendInserts(db: Db, id: Id, req: Request, now: Time, actor: string)
    requires InsertDelivery(db, NewDelivery(id, req, now, actor)).Success?
    ensures var d := Delivery(id, req, Pending, "", "", "", 0, now, 1, now, now, actor, actor);
            InsertDelivery(db, NewDelivery(id, req, now, actor)) ==
            Success(Db(db.rows[id := d], db.outbox + [Event(Requested, d.(req := req.(locale := "", key := "")))]))
  {
  }

  lemma TakenIffStored(rows: Rows, req: Request)
    ensures ScopeTaken(rows, req) <==> KeyStored(rows, req)
  {
  }

  /** A receipt that goes to the database: it read a row, and its transaction commits or not. */
  lemma ReceiptRun(cfg: Config, s: State, k: nat, id: Id, status: Status, reason: string, actor: string, now: Time,
                   applied: bool)
    returns (acts: seq<Action>, s': State)
    requires Configured(cfg) && Inv(cfg, s) && k !in s.receipts && id in s.db.rows && s.clock <= now
               && ReceiptStatus(status)
    requires s.db.rows[id].provider != "" && s.db.rows[id].messageId != ""
               && Decide(s.db.rows[id].status, status) == Write
    ensures Exec(cfg, s, acts) == Some(s') && Inv(cfg, s') && s'.batches == s.batches && s'.claims == s.claims
    ensures s.db.rows[id].status == Sent && s.db.rows[id].id == id
    ensures var d := s.db.rows[id];
            var end := Finish(s.db, WithReceipt(d, status, reason, now, actor), d.version);
            end.Success? && s'.db == (if applied then end.value else s.db)
  {
    hide Inv, Exec, WithReceipt, Stored, Finish, Configured;
    RowIds(cfg, s);
    WritableIsSent(cfg, s, id);
    ReceiptFinishes(s.db, id, status, reason, now, actor);
    var read := ReadReceipt(k, id, s.db.rows[id].provider, s.db.rows[id].messageId, status, reason, actor);
    ExecNothing(cfg, s);
    StepOn(cfg, s, [], s, read);
    var s1 := Apply(cfg, s, read);
    StepOn(cfg, s, [] + [read], s1, Tick(now));
    var s2 := s1.(clock := now);
    var end := if applied then CommitReceipt(k, now) else DropReceipt(k);
    StepOn(cfg, s, [] + [read] + [Tick(now)], s2, end);
    acts := [] + [read] + [Tick(now)] + [end];
    s' := Apply(cfg, s2, end);
  }

  /** What a receipt names: a provider message within one tenant and application. */
  predicate Matches(d: Delivery, tenant: string, application: string, provider: string, messageId: string) {
    d.req.tenant == tenant && d.req.application == application && d.provider == provider && d.messageId == messageId
  }

  /** The code asks for a non-terminal row with a message id; only sent rows are that. */
  lemma WritableIsSent(cfg: Config, s: State, id: Id)
    requires Inv(cfg, s) && id in s.db.rows && s.db.rows[id].provider != "" && !Terminal(s.db.rows[id].status)
    ensures s.db.rows[id].status == Sent
  {
    hide LogsOk, KeysOk, CallersOk, BatchesOk, ClaimsOk, ReceiptsOk, RepliesOk, AcceptedOk, CallsOk;
    assert RowOk(cfg, s.clock, s.db.rows[id]);
  }

  class Api {
    const cfg: Config
    const db: Database

    constructor (cfg: Config, db: Database)
      ensures this.cfg == cfg && this.db == db
    {
      this.cfg := cfg;
      this.db := db;
    }

    /** GetDeliveryByKey. */
    method ByKey(req: Request) returns (r: Result<Delivery>)
      ensures r.Success? <==> KeyStored(db.rows, req)
      ensures r.Success? ==> exists id :: id in db.rows && db.rows[id] == r.value
      ensures r.Success? ==> r.value.req.tenant == req.tenant && r.value.req.application == req.application
                             && r.value.req.key == req.key
      ensures r.Failure? ==> r.error == NotFound
    {
      if id :| id in db.rows && Scope(db.rows[id].req) == Scope(req) {
        return Success(db.rows[id]);
      }
      return Failure(NotFound);
    }

    /**
     * Send. A success always names the live row of the scope; a failure leaves the tables alone, unless the
     * commit went through and only its answer was lost.
     */
    method Send(ghost caller: nat, req: Request, at: Conditions) returns (r: Result<Delivery>, ghost acts: seq<Action>)
      requires Configured(cfg) && db.Mirrors(cfg) && caller !in db.sys.callers && at.id !in db.sys.used
                 && db.sys.clock <= at.now
      modifies db`rows, db`outbox, db`saved, db`sys
      ensures db.Mirrors(cfg) && Exec(cfg, old(db.sys), acts) == Some(db.sys)
      ensures r.Success? ==> r.value.id in db.rows && db.rows[r.value.id] == r.value
      ensures r.Success? ==> r.value.req.tenant == req.tenant && r.value.req.application == req.application
                             && r.value.req.key == req.key
      ensures r.Success? ==> ((req.tenant, req.application, req.key), r.value.id) in db.sys.replies
      ensures !ValidRequest(req) ==> r == Failure(Invalid) && db.Tables() == old(db.Tables())
      ensures ValidRequest(req) && KeyStored(old(db.rows), req) ==> r.Success? && db.Tables() == old(db.Tables())
      ensures ValidRequest(req) && !KeyStored(old(db.rows), req) && at.limited.Some? ==>
                r == Failure(at.limited.value) && db.Tables() == old(db.Tables())
      ensures ValidRequest(req) && !KeyStored(old(db.rows), req) && at.limited == None
                && at.template != Success(true) ==>
                && r == Failure(if at.template.Failure? then at.template.error else Conflict)
                && db.Tables() == old(db.Tables())
      ensures ValidRequest(req) && !KeyStored(old(db.rows), req) && at.limited == None
                && at.template == Success(true) ==>
                var d := Delivery(at.id, req, Pending, "", "", "", 0, at.now, 1, at.now, at.now, at.actor, at.actor);
                && at.id !in old(db.rows)
                && (r.Success? <==> Applied(at.faults, 2) && at.faults.commit == Acked) && (r.Success? ==> r.value == d)
                && if Applied(at.faults, 2) then
                     && db.rows == old(db.rows)[at.id := d]
                     && db.outbox == old(db.outbox) + [Event(Requested, d.(req := req.(locale := "", key := "")))]
                   else
                     db.Tables() == old(db.Tables())
    {
      hide Inv, Exec, Locked, ValidRequest, KeyStored, ScopeTaken, Published, InsertDelivery, NewDelivery;
      ExecNothing(cfg, db.sys);
      TakenIffStored(db.rows, req);
      UnusedIsNew(cfg, db.sys, at.id);
      if !CheckRequest(req) {
        return Failure(Invalid), [];
      }
      var existing := ByKey(req);
      if existing.Success? {
        RowIds(cfg, db.sys);
        ghost var end: State;
        acts, end := ReplayRun(cfg, db.sys, req, existing.value.id);
        db.sys := end;
        return existing, acts;
      }
      if at.limited.Some? {
        return Failure(at.limited.value), [];
      }
      if at.template.Failure? {
        return Failure(at.template.error), [];
      }
      if !at.template.value {
        return Failure(Conflict), [];
      }
      var v := NewDelivery(at.id, req, at.now, at.actor);
      ghost var end: State;
      acts, end := SendRun(cfg, db.sys, caller, req, at.id, at.now, at.actor, Applied(at.faults, 2),
          at.faults.commit == Acked);
      SendInserts(db.Tables(), at.id, req, at.now, at.actor);
      var done := db.InsertWithin(v, at.faults);
      db.sys := end;
      return if done.Success? then Success(v) else Failure(done.error), acts;
    }

    predicate CheckRequest(req: Request)
      ensures CheckRequest(req) <==> ValidRequest(req)
    {
      !(req.tenant == "" || req.application == "" || req.template == "" || !ValidChannel(req.channel) ||
        req.locale == "" || req.recipient == "" || req.key == "")
    }

    /** GetDeliveryByProviderMessage: any row that matches; in-app sends all share one message id. */
    method ByMessage(tenant: string, application: string, provider: string, messageId: string)
      returns (r: Result<Delivery>)
      ensures r.Success? ==> exists id :: id in db.rows && db.rows[id] == r.value
      ensures r.Success? <==> MessageStored(db.rows, tenant, application, provider, messageId)
      ensures r.Success? ==> r.value.req.tenant == tenant && r.value.req.application == application
                             && r.value.provider == provider && r.value.messageId == messageId
      ensures r.Failure? ==> r.error == NotFound
    {
      if id :| id in db.rows && Matches(db.rows[id], tenant, application, provider, messageId) {
        return Success(db.rows[id]);
      }
      return Failure(NotFound);
    }

    /**
     * RecordReceipt. It answers a repeated receipt, refuses one for a finished delivery, and otherwise moves a
     * row that was sent; nothing but that row and its event changes.
     */
    method RecordReceipt(ghost k: nat, tenant: string, application: string, provider: string, messageId: string,
                         status: Status, reason: string, now: Time, actor: string, f: Faults)
      returns (r: Result<Delivery>, ghost acts: seq<Action>, ghost found: Option<Delivery>)
      requires Configured(cfg) && db.Mirrors(cfg) && k !in db.sys.receipts && db.sys.clock <= now
      modifies db`rows, db`outbox, db`saved, db`sys
      ensures db.Mirrors(cfg) && Exec(cfg, old(db.sys), acts) == Some(db.sys)
      ensures var valid := tenant != "" && application != "" && provider != "" && messageId != ""
                           && (status == Delivered || status == Bounced || status == Failed);
              && (found.Some? <==> valid && MessageStored(old(db.rows), tenant, application, provider, messageId))
              && (!valid ==> r == Failure(Invalid))
              && (valid && found == None ==> r == Failure(NotFound))
      ensures found == None ==> db.Tables() == old(db.Tables())
      ensures found.Some? ==> found.value.id in old(db.rows) && old(db.rows)[found.value.id] == found.value
      ensures found.Some? ==> found.value.req.tenant == tenant && found.value.req.application == application
                              && found.value.provider == provider && found.value.messageId == messageId
      ensures found.Some? && found.value.status == status ==>
                r == Success(found.value) && db.Tables() == old(db.Tables())
      ensures found.Some? && found.value.status != status
                && found.value.status in {Delivered, Bounced, Failed, DeadLetter} ==>
                r == Failure(Conflict) && db.Tables() == old(db.Tables())
      ensures found.Some? && found.value.status !in {Delivered, Bounced, Failed, DeadLetter} ==>
                var d := found.value;
                var d' := d.(status := status, failure := reason, version := d.version + 1, updatedAt := now,
                             updatedBy := actor);
                && d.status == Sent
                && (r.Success? <==> Applied(f, 2) && f.commit == Acked) && (r.Success? ==> r.value == d')
                && if Applied(f, 2) then
                     && db.rows == old(db.rows)[d.id := d']
                     && var sent := d'.(req := d.req.(locale := "", key := ""));
                        db.outbox == old(db.outbox) + [Event(StatusChanged, sent)]
                   else
                     db.Tables() == old(db.Tables())
    {
      hide Inv, Exec, Locked, MessageStored, Configured;
      found := None;
      ExecNothing(cfg, db.sys);
      if tenant == "" || application == "" || provider == "" || messageId == "" || !ReceiptStatus(status) {
        return Failure(Invalid), [], None;
      }
      RowIds(cfg, db.sys);
      var looked := ByMessage(tenant, application, provider, messageId);
      if looked.Failure? {
        return looked, [], None;
      }
      var delivery := looked.value;
      found := Some(delivery);
      if delivery.status == status {
        return Success(delivery), [], found;
      }
      if Terminal(delivery.status) {
        return Failure(Conflict), [], found;
      }
      r, acts := WriteReceipt(k, delivery, status, reason, now, actor, f);
    }

    /** The write of RecordReceipt: the row it read, changed as the receipt says, and its event. */
    method WriteReceipt(ghost k: nat, read: Delivery, status: Status, reason: string, now: Time, actor: string,
                        f: Faults)
      returns (r: Result<Delivery>, ghost acts: seq<Action>)
      requires Configured(cfg) && db.Mirrors(cfg) && k !in db.sys.receipts && db.sys.clock <= now
      requires ReceiptStatus(status)
      requires read.id in db.rows && db.rows[read.id] == read && read.provider != "" && read.messageId != ""
      requires Decide(read.status, status) == Write
      modifies db`rows, db`outbox, db`saved, db`sys
      ensures db.Mirrors(cfg) && Exec(cfg, old(db.sys), acts) == Some(db.sys)
      ensures read.status == Sent
      ensures r.Success? <==> Applied(f, 2) && f.commit == Acked
      ensures var d' := read.(status := status, failure := reason, version := read.version + 1, updatedAt := now,
                              updatedBy := actor);
              && (r.Success? ==> r.value == d')
              && if Applied(f, 2) then
                   && db.rows == old(db.rows)[read.id := d']
                   && var sent := d'.(req := read.req.(locale := "", key := ""));
                      db.outbox == old(db.outbox) + [Event(StatusChanged, sent)]
                 else
                   db.Tables() == old(db.Tables())
    {
      hide Inv, Exec, Locked, Finish, WithReceipt, Stored, Published, Configured;
      RowIds(cfg, db.sys);
      ReceiptFinishes(db.Tables(), read.id, status, reason, now, actor);
      ghost var end: State;
      acts, end := ReceiptRun(cfg, db.sys, k, read.id, status, reason, actor, now, Applied(f, 2));
      var delivery := read;
      delivery := delivery.(status := status, failure := reason);
      delivery := delivery.(updatedAt := now, updatedBy := actor);
      var expected := delivery.version;
      AsReceipt(read, delivery, status, reason, now, actor);
      var done := db.FinishWithin(delivery, expected, f);
      db.sys := end;
      if done.Failure? {
        return Failure(done.error), acts;
      }
      delivery := delivery.(version := expected + 1);
      return Success(delivery), acts;
    }
  }
}
