/** Choosing a sender, sending through the HTTP client, and what the answer means. */
module Sending {
  import opened Results
  import opened Deliveries
  import Outbound

  datatype Sender = InApp | Unconfigured(channel: string) | Provider(provider: string)

  /** A row of the provider table, as far as choosing a sender looks at it. */
  datatype ProviderRow = ProviderRow(
    tenant: string, application: string, code: string, channel: string, upstream: string, priority: int, active: bool)

  datatype Resolution = Use(sender: Sender) | Nobody | Unresolved(reason: string)

  predicate Named(sender: Sender) {
    sender.Provider? ==> sender.provider != ""
  }

  // ----- ListProviders(tenant, application, "", channel, "active", 1, 0)

  predicate Offered(p: ProviderRow, req: Request) {
    p.tenant == req.tenant && p.application == req.application && p.channel == req.channel && p.active
  }

  /** ORDER BY priority, code; how the database orders codes is `collate`. */
  predicate Precedes(collate: string -> int, p: ProviderRow, q: ProviderRow) {
    p.priority < q.priority || (p.priority == q.priority && collate(p.code) < collate(q.code))
  }

  /** The row that is to be used: an active one of the tenant, application and channel that comes before the others. */
  ghost predicate Chosen(table: seq<ProviderRow>, collate: string -> int, req: Request, p: ProviderRow) {
    && p in table && p.active
    && p.tenant == req.tenant && p.application == req.application && p.channel == req.channel
    && forall q | q in table && q.active && q.tenant == req.tenant && q.application == req.application
                  && q.channel == req.channel ::
         p.priority < q.priority || (p.priority == q.priority && collate(p.code) <= collate(q.code))
  }

  /** No active row of the tenant, application and channel. */
  ghost predicate NoneChosen(table: seq<ProviderRow>, req: Request) {
    forall p | p in table && p.active ::
      p.tenant != req.tenant || p.application != req.application || p.channel != req.channel
  }

  /** The first offered row, whatever order the table is stored in. */
  function Preferred(table: seq<ProviderRow>, collate: string -> int, req: Request): (r: Option<ProviderRow>)
    ensures r == None <==> NoneChosen(table, req)
    ensures r.Some? ==> Chosen(table, collate, req, r.value)
  {
    if table == [] then None
    else
      var rest := Preferred(table[1..], collate, req);
      if !Offered(table[0], req) then rest
      else if rest.Some? && !Precedes(collate, table[0], rest.value) then rest
      else Some(table[0])
  }

  /**
   * The registered sender is the fallback; an active provider row of the channel wins, the first by priority
   * and code, and then its upstream must be one that may be used.
   */
  function Resolve(table: Result<seq<ProviderRow>>, collate: string -> int, req: Request, fallback: Option<Sender>,
                   allowed: set<string>, configured: set<string>): (r: Resolution)
    ensures table.Failure? ==> r == Unresolved("resolve notification provider")
    ensures table.Success? && NoneChosen(table.value, req) ==>
              r == if fallback == None then Nobody else Use(fallback.value)
    ensures table.Success? && !NoneChosen(table.value, req) ==>
              exists p :: Chosen(table.value, collate, req, p) &&
                r == if p.upstream !in allowed then Unresolved("notification provider upstream is not allowed")
                     else if p.upstream !in configured
                          then Unresolved("notification provider upstream is not configured")
                     else Use(Provider(p.code))
  {
    match table
    case Failure(_) => Unresolved("resolve notification provider")
    case Success(rows) =>
      match Preferred(rows, collate, req)
      case None =>
        (match fallback
         case None => Nobody
         case Some(sender) => Use(sender))
      case Some(provider) =>
        if provider.upstream !in allowed then Unresolved("notification provider upstream is not allowed")
        else if provider.upstream !in configured then Unresolved("notification provider upstream is not configured")
        else Use(Provider(provider.code))
  }

  // ----- the message on the wire

  /**
   * What one POST meets: the breaker, the path, the request, the transport, the status of the answer and the
   * message id decoded from its body; `problem` is the text of whatever error comes of it.
   */
  datatype Wire = Wire(
    hasBreaker: bool, admits: bool, pathOk: bool, built: bool, failed: bool,
    status: int, decoded: Option<string>, problem: string)

  /** A call leaves the client. */
  predicate Called(w: Wire) {
    (!w.hasBreaker || w.admits) && w.pathOk && w.built
  }

  /** The provider answered. */
  predicate Answered(w: Wire) {
    Called(w) && !w.failed
  }

  /** The HTTP calls behind one send. */
  function Posts(sender: Sender, w: Wire): nat {
    if sender.Provider? && Called(w) then 1 else 0
  }

  /** A send counts as accepted only with a provider name and a message id. */
  function Send(sender: Sender, w: Wire): (o: Outcome)
    requires Named(sender)
    ensures o.Accepted? ==> o.provider != "" && o.messageId != ""
    ensures o.Accepted? && sender.Provider? ==> Answered(w) && 200 <= w.status < 300 && w.decoded == Some(o.messageId)
    ensures o.Accepted? ==> !sender.Unconfigured?
  {
    match sender
    case InApp => Accepted("in_app", "stored")
    case Unconfigured(channel) => Rejected(channel + " provider is not configured")
    case Provider(provider) => if Answered(w) then Read(provider, w.status, w.decoded) else Rejected(w.problem)
  }

  /** What ProviderSender makes of an answer. */
  function Read(provider: string, status: int, decoded: Option<string>): (o: Outcome)
    ensures o.Accepted? <==> 200 <= status < 300 && decoded.Some? && decoded.value != ""
    ensures o.Accepted? ==> o == Accepted(provider, decoded.value)
  {
    if status < 200 || status >= 300 then Rejected("provider returned an error status")
    else if decoded == None then Rejected("decode provider response")
    else if decoded.value == "" then Rejected("provider response omitted message_id")
    else Accepted(provider, decoded.value)
  }

  /** The script holds, in its first exchange, the answer the wire describes. */
  predicate Carries(script: seq<Outbound.Exchange>, w: Wire) {
    && |script| >= 1 && script[0].built == w.built && script[0].reply.failed == w.failed
    && (!w.failed ==> script[0].reply.response != null && script[0].reply.response.status == w.status)
  }

  /**
   * ProviderSender.Send through the HTTP client. Its outcome and its number of calls are those of `Send` and
   * `Posts`; the body of an answer is closed exactly once, accepted or not, and no other body is.
   */
  method ProviderSend(provider: string, w: Wire, configured: int, script: seq<Outbound.Exchange>)
    returns (o: Outcome, posts: nat)
    requires provider != "" && Outbound.FreshReplies(script) && Carries(script, w)
    modifies Outbound.Bodies(script)
    ensures o == Send(Provider(provider), w) && posts == Posts(Provider(provider), w)
    ensures posts <= Outbound.MaxCalls("POST", false, configured)
    ensures forall i | 0 <= i < |script| && script[i].reply.response != null ::
              script[i].reply.response.closes == old(script[i].reply.response.closes) +
                (if i == 0 && Answered(w) then 1 else 0)
  {
    Outbound.PlainPostIsOneCall(configured);
    var result, calls, seen, _ := Outbound.Execute(w.hasBreaker, w.admits, w.pathOk, "POST", false, configured, script);
    posts := calls;
    if result.Errored? {
      return Rejected(w.problem), posts;
    }
    var response := result.response;
    assert script[0] in script;
    o := Read(provider, response.status, w.decoded);
    response.Close();
  }

  /** One send, whichever sender it is; the exchange with the provider happens inside. */
  method Dispatch(sender: Sender, w: Wire, configured: int) returns (o: Outcome, posts: nat)
    requires Named(sender)
    ensures o == Send(sender, w) && posts == Posts(sender, w)
    ensures sender.InApp? ==> o == Accepted("in_app", "stored")
    ensures sender.Unconfigured? ==> o == Rejected(sender.channel + " provider is not configured")
    ensures sender.Provider? ==> (o.Accepted? <==>
              && (!w.hasBreaker || w.admits) && w.pathOk && w.built && !w.failed
              && 200 <= w.status < 300 && w.decoded.Some? && w.decoded.value != "")
    ensures sender.Provider? && o.Accepted? ==> o == Accepted(sender.provider, w.decoded.value)
    ensures posts == if sender.Provider? && (!w.hasBreaker || w.admits) && w.pathOk && w.built then 1 else 0
    ensures posts <= Outbound.MaxCalls("POST", false, configured)
  {
    match sender
    case InApp =>
      Outbound.PlainPostIsOneCall(configured);
      return Accepted("in_app", "stored"), 0;
    case Unconfigured(channel) =>
      Outbound.PlainPostIsOneCall(configured);
      return Rejected(channel + " provider is not configured"), 0;
    case Provider(provider) =>
      var response := new Outbound.Response(w.status);
      var script := [Outbound.Exchange(w.built, Outbound.Reply(if w.failed then null else response, w.failed), false)];
      o, posts := ProviderSend(provider, w, configured, script);
  }
}
