/** The skill-messaging router: parses an inbound message, dispatches each request
    by (operation, object type) to one facade method, collects the response entries,
    builds the response envelope and, when asked, writes the body to the callback
    store. The host client is an oracle indexed by the request's position. */
module Router {
  import opened Values
  import opened Messages
  import Lists = ListModels
  import LM = ListManagement
  import opened Store

  /** The host client as seen by request number `i` of the batch. */
  type Host = (nat, LM.ClientCall) -> LM.ClientReply

  const ServiceExceptionDetail: string := "Alexa service exception; are the provided object ids accurate?"

  // ---------------------------------------------------------------- dispatch table

  datatype FacadeMethod =
    | ReadAllLists | ReadList | CreateList | UpdateList | DeleteList
    | ReadListItem | CreateListItem | UpdateListItem | DeleteListItem

  function MethodOperation(m: FacadeMethod): Operation {
    match m
    case ReadAllLists => ReadAll
    case ReadList | ReadListItem => Read
    case CreateList | CreateListItem => Create
    case UpdateList | UpdateListItem => Update
    case DeleteList | DeleteListItem => Delete
  }

  function MethodObjectType(m: FacadeMethod): ObjectType {
    match m
    case ReadAllLists | ReadList | CreateList | UpdateList | DeleteList => ListObject
    case _ => ListItemObject
  }

  /** The router's dispatch table. Only read_all on list items has no method. */
  function Dispatch(op: Operation, ot: ObjectType): (m: Option<FacadeMethod>)
    ensures m.None? <==> op == ReadAll && ot == ListItemObject
    ensures m.Some? ==> MethodOperation(m.value) == op && MethodObjectType(m.value) == ot
  {
    match (op, ot)
    case (ReadAll, ListObject) => Some(ReadAllLists)
    case (ReadAll, ListItemObject) => None
    case (Read, ListObject) => Some(ReadList)
    case (Read, ListItemObject) => Some(ReadListItem)
    case (Create, ListObject) => Some(CreateList)
    case (Update, ListObject) => Some(UpdateList)
    case (Delete, ListObject) => Some(DeleteList)
    case (Create, ListItemObject) => Some(CreateListItem)
    case (Update, ListItemObject) => Some(UpdateListItem)
    case (Delete, ListItemObject) => Some(DeleteListItem)
  }

  /** Every facade method is reached by exactly its own (operation, object type) pair. */
  lemma DispatchIsInverse(m: FacadeMethod)
    ensures Dispatch(MethodOperation(m), MethodObjectType(m)) == Some(m)
  {
  }

  function MethodOf(q: LM.ListRequest): FacadeMethod {
    match q
    case ReadAllListsRq => ReadAllLists
    case ReadListRq(_) => ReadList
    case CreateListRq(_) => CreateList
    case UpdateListRq(_) => UpdateList
    case DeleteListRq(_) => DeleteList
    case ReadListItemRq(_) => ReadListItem
    case CreateListItemRq(_) => CreateListItem
    case UpdateListItemRq(_) => UpdateListItem
    case DeleteListItemRq(_) => DeleteListItem
  }

  /** Parses the request's object data into the method's typed request; read_all ignores it. */
  function TypedRequest(m: FacadeMethod, data: Option<Dict>): (r: Result<LM.ListRequest>)
    ensures m == ReadAllLists ==> r == Ok(LM.ReadAllListsRq)
    ensures r.Ok? ==> MethodOf(r.value) == m
    ensures m == ReadList ==> (r.Ok? <==> Lists.ParseReadList(data).Ok?)
    ensures m == CreateList ==> (r.Ok? <==> Lists.ParseCreateList(data).Ok?)
    ensures m == UpdateList ==> (r.Ok? <==> Lists.ParseUpdateList(data).Ok?)
    ensures m == DeleteList ==> (r.Ok? <==> Lists.ParseDeleteList(data).Ok?)
    ensures m == ReadListItem ==> (r.Ok? <==> Lists.ParseReadListItem(data).Ok?)
    ensures m == CreateListItem ==> (r.Ok? <==> Lists.ParseCreateListItem(data).Ok?)
    ensures m == UpdateListItem ==> (r.Ok? <==> Lists.ParseUpdateListItem(data).Ok?)
    ensures m == DeleteListItem ==> (r.Ok? <==> Lists.ParseDeleteListItem(data).Ok?)
    ensures r.Ok? && r.value.ReadListRq? ==> Lists.ParseReadList(data) == Ok(r.value.readList)
    ensures r.Ok? && r.value.CreateListRq? ==> Lists.ParseCreateList(data) == Ok(r.value.createList)
    ensures r.Ok? && r.value.UpdateListRq? ==> Lists.ParseUpdateList(data) == Ok(r.value.updateList)
    ensures r.Ok? && r.value.DeleteListRq? ==> Lists.ParseDeleteList(data) == Ok(r.value.deleteList)
    ensures r.Ok? && r.value.ReadListItemRq? ==> Lists.ParseReadListItem(data) == Ok(r.value.readItem)
    ensures r.Ok? && r.value.CreateListItemRq? ==> Lists.ParseCreateListItem(data) == Ok(r.value.createItem)
    ensures r.Ok? && r.value.UpdateListItemRq? ==> Lists.ParseUpdateListItem(data) == Ok(r.value.updateItem)
    ensures r.Ok? && r.value.DeleteListItemRq? ==> Lists.ParseDeleteListItem(data) == Ok(r.value.deleteItem)
  {
    match m
    case ReadAllLists => Ok(LM.ReadAllListsRq)
    case ReadList => (match Lists.ParseReadList(data) case Ok(x) => Ok(LM.ReadListRq(x)) case Err(f) => Err(f))
    case CreateList => (match Lists.ParseCreateList(data) case Ok(x) => Ok(LM.CreateListRq(x)) case Err(f) => Err(f))
    case UpdateList => (match Lists.ParseUpdateList(data) case Ok(x) => Ok(LM.UpdateListRq(x)) case Err(f) => Err(f))
    case DeleteList => (match Lists.ParseDeleteList(data) case Ok(x) => Ok(LM.DeleteListRq(x)) case Err(f) => Err(f))
    case ReadListItem => (match Lists.ParseReadListItem(data) case Ok(x) => Ok(LM.ReadListItemRq(x)) case Err(f) => Err(f))
    case CreateListItem => (match Lists.ParseCreateListItem(data) case Ok(x) => Ok(LM.CreateListItemRq(x)) case Err(f) => Err(f))
    case UpdateListItem => (match Lists.ParseUpdateListItem(data) case Ok(x) => Ok(LM.UpdateListItemRq(x)) case Err(f) => Err(f))
    case DeleteListItem => (match Lists.ParseDeleteListItem(data) case Ok(x) => Ok(LM.DeleteListItemRq(x)) case Err(f) => Err(f))
  }

  // ---------------------------------------------------------------- one request

  /** A non-empty response dictionary becomes an entry whose "metadata" key is overwritten
      with the request's metadata; an empty one (falsy) adds nothing. */
  function Entry(data: Dict, metadata: Option<Dict>): (e: Option<Dict>)
    ensures e.Some? <==> |data| > 0
    ensures e.Some? ==> "metadata" in e.value && e.value["metadata"] == DictOrNull(metadata)
    ensures e.Some? ==> forall k :: k != "metadata" ==> (k in e.value <==> k in data)
    ensures e.Some? ==> forall k :: k != "metadata" && k in data ==> e.value[k] == data[k]
  {
    if |data| == 0 then None else Some(data["metadata" := DictOrNull(metadata)])
  }

  datatype StepOutcome =
    | Skipped                                             // no method for the pair: `response` stays None
    | Answered(response: LM.FacadeResult, entry: Option<Dict>)
    | StepAborted                                         // the host raised a ServiceException
    | StepEscaped(fault: Fault)                           // any other exception leaves the handler

  datatype Step = Step(call: Option<LM.ClientCall>, outcome: StepOutcome) {
    predicate Continues() {
      outcome.Skipped? || outcome.Answered?
    }

    /** After this step, `isinstance(response, Error)`. */
    predicate LeavesError() {
      outcome.Answered? && outcome.response.HostError?
    }
  }

  /** What the loop makes of a facade result: a ServiceException aborts, any other
      exception escapes, `to_dict()` on a missing entity escapes, and an entity or error
      becomes an entry. */
  function Outcome(result: LM.FacadeResult, mutation: bool, metadata: Option<Dict>): (o: StepOutcome)
    ensures o == StepAborted <==> result == LM.Thrown(ServiceFault)
    ensures result.Thrown? && result.fault != ServiceFault ==> o == StepEscaped(result.fault)
    ensures result.Nothing? ==> o == if mutation then Answered(result, None) else StepEscaped(AttributeError)
    ensures result.HostError? ==> o == Answered(result, Entry(result.error, metadata))
    ensures result.Entity? ==> o == Answered(result, Entry(result.entity, metadata))
  {
    match result
    case Thrown(ServiceFault) => StepAborted
    case Thrown(f) => StepEscaped(f)
    case Nothing => if mutation then Answered(result, None) else StepEscaped(AttributeError)
    case Entity(d) => Answered(result, Entry(d, metadata))
    case HostError(e) => Answered(result, Entry(e, metadata))
  }

  /** One iteration of the router's loop for request number `i`. */
  function Process(q: MessageRequest, i: nat, host: Host): (s: Step)
    ensures Dispatch(q.operation, q.objectType).None? ==> s == Step(None, Skipped)
    ensures s.call.Some? <==> Dispatch(q.operation, q.objectType).Some?
                              && TypedRequest(Dispatch(q.operation, q.objectType).value, q.objectData).Ok?
    ensures Dispatch(q.operation, q.objectType).Some? && s.call.None? ==> s.outcome.StepEscaped? && s.outcome.fault.ValidationError?
    ensures s.call.Some? ==>
              s.call.value == LM.Invoke(TypedRequest(Dispatch(q.operation, q.objectType).value, q.objectData).value,
                                        c => host(i, c)).call
    ensures s.call.Some? ==> (s.outcome == StepAborted <==> host(i, s.call.value) == LM.Throws(ServiceFault))
    ensures s.call.Some? && host(i, s.call.value).Throws? && host(i, s.call.value).fault != ServiceFault ==>
              s.outcome == StepEscaped(host(i, s.call.value).fault)
    ensures s.call.Some? && host(i, s.call.value).NoContent? ==>
              s.outcome == if q.operation == Update || q.operation == Delete then Answered(LM.Nothing, None)
                           else StepEscaped(AttributeError)
    ensures s.call.Some? && host(i, s.call.value).ErrorReply? ==>
              s.outcome == Answered(LM.HostError(host(i, s.call.value).error), Entry(host(i, s.call.value).error, q.metadata))
    ensures s.call.Some? && host(i, s.call.value).Body? ==>
              s.outcome == if q.operation == Update || q.operation == Delete then Answered(LM.Nothing, None)
                           else Answered(LM.Entity(host(i, s.call.value).entity), Entry(host(i, s.call.value).entity, q.metadata))
    ensures s.outcome.Answered? && s.outcome.entry.Some? ==>
              "metadata" in s.outcome.entry.value && s.outcome.entry.value["metadata"] == DictOrNull(q.metadata)
    ensures s.outcome.Answered? && (q.operation == Update || q.operation == Delete) ==>
              (s.outcome.entry.Some? <==> s.outcome.response.HostError? && |s.outcome.response.error| > 0)
    ensures s.outcome.Answered? && (q.operation == Read || q.operation == ReadAll || q.operation == Create) ==>
              && (s.outcome.response.Entity? || s.outcome.response.HostError?)
              && (s.outcome.entry.Some? <==>
                    if s.outcome.response.Entity? then |s.outcome.response.entity| > 0 else |s.outcome.response.error| > 0)
  {
    match Dispatch(q.operation, q.objectType)
    case None => Step(None, Skipped)
    case Some(m) =>
      match TypedRequest(m, q.objectData)
      case Err(f) => Step(None, StepEscaped(f))
      case Ok(rq) =>
        var inv := LM.Invoke(rq, c => host(i, c));
        LM.InvokeResult(rq, c => host(i, c));
        assert rq.IsMutation() <==> q.operation == Update || q.operation == Delete;
        Step(Some(inv.call), Outcome(inv.result, rq.IsMutation(), q.metadata))
  }

  // ---------------------------------------------------------------- the batch

  /** The step each request would take; the loop only runs them up to the first halt. */
  function Steps(reqs: seq<MessageRequest>, host: Host): (steps: seq<Step>)
    ensures |steps| == |reqs|
    ensures forall i :: 0 <= i < |reqs| ==> steps[i] == Process(reqs[i], i, host)
  {
    seq(|reqs|, i requires 0 <= i < |reqs| => Process(reqs[i], i, host))
  }

  function CallOf(s: Step): seq<LM.ClientCall> {
    if s.call.Some? then [s.call.value] else []
  }

  function EntryOf(s: Step): seq<Dict> {
    if s.outcome.Answered? && s.outcome.entry.Some? then [s.outcome.entry.value] else []
  }

  /** The host calls of steps `0 .. k - 1`, in order. */
  function CallsBefore(steps: seq<Step>, k: nat): seq<LM.ClientCall>
    requires k <= |steps|
  {
    if k == 0 then [] else CallsBefore(steps, k - 1) + CallOf(steps[k - 1])
  }

  /** The entries of steps `0 .. k - 1`, in order. */
  function EntriesBefore(steps: seq<Step>, k: nat): seq<Dict>
    requires k <= |steps|
  {
    if k == 0 then [] else EntriesBefore(steps, k - 1) + EntryOf(steps[k - 1])
  }

  /** Step `k` is the first one that does not let the loop continue. */
  predicate FirstHalt(steps: seq<Step>, k: nat)
    requires k < |steps|
  {
    && !steps[k].Continues()
    && forall i :: 0 <= i < k ==> steps[i].Continues()
  }

  datatype BatchStatus =
    | Completed(entries: seq<Dict>, lastIsError: Option<bool>)   // `None`: `response` was never assigned
    | BatchAborted
    | BatchEscaped(fault: Fault)

  datatype Batch = Batch(calls: seq<LM.ClientCall>, status: BatchStatus)

  /** The loop over the first `n` steps: it stops at the first halting step. */
  function RunPrefix(steps: seq<Step>, n: nat): (b: Batch)
    requires n <= |steps|
    ensures b.status.Completed? <==> forall i :: 0 <= i < n ==> steps[i].Continues()
    ensures b.status.Completed? ==> b.calls == CallsBefore(steps, n) && b.status.entries == EntriesBefore(steps, n)
    ensures b.status.Completed? && n == 0 ==> b.status.lastIsError == None
    ensures b.status.Completed? && n > 0 ==> b.status.lastIsError == Some(steps[n - 1].LeavesError())
  {
    if n == 0 then Batch([], Completed([], None))
    else
      var prev := RunPrefix(steps, n - 1);
      if !prev.status.Completed? then prev
      else
        var s := steps[n - 1];
        var calls := prev.calls + CallOf(s);
        match s.outcome
        case Skipped => Batch(calls, Completed(prev.status.entries, Some(false)))
        case Answered(resp, e) => Batch(calls, Completed(prev.status.entries + EntryOf(s), Some(resp.HostError?)))
        case StepAborted => Batch(calls, BatchAborted)
        case StepEscaped(f) => Batch(calls, BatchEscaped(f))
  }

  /** The batch status a halting step leaves behind. */
  function HaltStatus(s: Step): BatchStatus
    requires !s.Continues()
  {
    if s.outcome.StepAborted? then BatchAborted else BatchEscaped(s.outcome.fault)
  }

  /** Once step `k` halts the loop, later steps change nothing: the batch is exactly
      the calls up to and including `k` and that step's halt. */
  lemma {:induction false} HaltedPrefix(steps: seq<Step>, n: nat, k: nat)
    requires k < n <= |steps|
    requires FirstHalt(steps, k)
    ensures RunPrefix(steps, n) == Batch(CallsBefore(steps, k + 1), HaltStatus(steps[k]))
    decreases n
  {
    if n > k + 1 {
      HaltedPrefix(steps, n - 1, k);
    }
  }

  // ---------------------------------------------------------------- the handler

  datatype Routed =
    | BareResponse                                             // no message payload
    | RouteEscaped(calls: seq<LM.ClientCall>, fault: Fault)    // no envelope, no callback record
    | Replied(calls: seq<LM.ClientCall>, response: MessageResponse, apiResponse: Json, puts: seq<Dict>)

  /** The body after the loop: the fixed failure on a ServiceException, otherwise the
      entries with `success` taken from the last request alone. */
  function BodyOf(b: BatchStatus): (r: Result<MessageResponseBody>)
    requires !b.BatchEscaped?
    ensures b.BatchAborted? ==> r == Ok(MessageResponseBody(false, Some(ServiceExceptionDetail), None))
    ensures b.Completed? && b.lastIsError.None? ==> r == Err(UnboundResponse)
    ensures b.Completed? && b.lastIsError.Some? ==>
              r == Ok(MessageResponseBody(!b.lastIsError.value, None, Some(b.entries)))
  {
    match b
    case BatchAborted => Ok(MessageResponseBody(false, Some(ServiceExceptionDetail), None))
    case Completed(entries, last) =>
      if last.None? then Err(UnboundResponse)
      else Ok(MessageResponseBody(!last.value, None, Some(entries)))
  }

  /** The callback record written for a response, stamped with its expiry. */
  function CallbackItem(r: MessageResponse, table: Table, expiration: int, now: real,
                        dumps: Json -> string): Dict {
    var event := CallbackEvent(r.sourceMessage.source, r.sourceMessage.eventId, dumps(BodyToJson(r.body)));
    Put(table, CallbackRecord(event), Some(expiration), now)
  }

  /** Everything `route_message` does once the message has parsed: run the loop, build
      the envelope, write the callback record to the callback table when the message asks
      for one, and hand the envelope to the skill as its API response. `tablename` is the
      configured callback table (whose TTL column is the default), `expiration` the
      configured callback lifetime in seconds, `now` the wall clock, and `dumps` the JSON
      text encoder. */
  function Respond(msg: Message, host: Host, tablename: string, expiration: int, now: real,
                   dumps: Json -> string): (r: Routed)
    ensures !r.BareResponse?
    ensures r.Replied? ==> r.response.sourceMessage == msg
    ensures r.Replied? ==> r.apiResponse == ResponseToJson(r.response)
    ensures r.Replied? ==> |r.puts| == (if msg.sendCallbackResponse == Some(true) then 1 else 0)
    ensures r.Replied? && |r.puts| == 1 ==>
              r.puts[0] == CallbackItem(r.response, NewTable(tablename), expiration, now, dumps)
  {
    var batch := RunPrefix(Steps(msg.requests, host), |msg.requests|);
    if batch.status.BatchEscaped? then RouteEscaped(batch.calls, batch.status.fault)
    else
      match BodyOf(batch.status)
      case Err(f) => RouteEscaped(batch.calls, f)
      case Ok(body) =>
        var response := MessageResponse(msg, body);
        var puts := if msg.sendCallbackResponse == Some(true)
                    then [CallbackItem(response, NewTable(tablename), expiration, now, dumps)] else [];
        Replied(batch.calls, response, ResponseToJson(response), puts)
  }

  /** `route_message`: an absent or empty payload gets the bare response; a payload that
      does not parse as a message raises; anything else is routed. */
  function RouteMessage(message: Json, host: Host, tablename: string, expiration: int, now: real,
                        dumps: Json -> string): (r: Routed)
    ensures !Truthy(message) <==> r.BareResponse?
    ensures Truthy(message) && ParseMessage(message).Err? ==> r == RouteEscaped([], ParseMessage(message).fault)
    ensures Truthy(message) && ParseMessage(message).Ok? ==>
              r == Respond(ParseMessage(message).value, host, tablename, expiration, now, dumps)
  {
    if !Truthy(message) then BareResponse
    else
      match ParseMessage(message)
      case Err(f) => RouteEscaped([], f)
      case Ok(msg) => Respond(msg, host, tablename, expiration, now, dumps)
  }
}

/** Properties of the router that relate several requests or the whole handler. */
module RouterProperties {
  import opened Values
  import opened Messages
  import Lists = ListModels
  import LM = ListManagement
  import opened Store
  import opened Router

  /** A message that parses is a non-empty object, hence truthy, so it is routed. */
  lemma ParsedMessageIsRouted(message: Json, host: Host, tablename: string, expiration: int, now: real,
                              dumps: Json -> string)
    requires ParseMessage(message).Ok?
    ensures RouteMessage(message, host, tablename, expiration, now, dumps)
              == Respond(ParseMessage(message).value, host, tablename, expiration, now, dumps)
  {
    assert "source" in message.fields;
    assert message.fields.Keys != {};
  }

  /** A message serialised with `exclude_none` and handed back to the router is routed
      as the message itself. */
  lemma SerialisedMessageIsRouted(m: Message, host: Host, tablename: string, expiration: int, now: real,
                                  dumps: Json -> string)
    ensures RouteMessage(MessageToJson(m), host, tablename, expiration, now, dumps)
              == Respond(m, host, tablename, expiration, now, dumps)
  {
    MessageRoundTrip(m);
    ParsedMessageIsRouted(MessageToJson(m), host, tablename, expiration, now, dumps);
  }

  /** Without a service exception or escape, `success` is true exactly when the last
      request did not leave an `Error`; earlier errors do not matter. The data holds
      every entry in request order. */
  lemma SuccessReflectsLastRequest(msg: Message, host: Host, tablename: string, expiration: int, now: real,
                                   dumps: Json -> string)
    requires var reqs := msg.requests;
             |reqs| > 0 && forall i :: 0 <= i < |reqs| ==> Steps(reqs, host)[i].Continues()
    ensures var reqs := msg.requests;
            var r := Respond(msg, host, tablename, expiration, now, dumps);
            && r.Replied?
            && r.response.body.success == !Steps(reqs, host)[|reqs| - 1].LeavesError()
            && r.response.body.detail == None
            && r.response.body.data == Some(EntriesBefore(Steps(reqs, host), |reqs|))
            && r.calls == CallsBefore(Steps(reqs, host), |reqs|)
  {
  }

  /** With an empty request list, reading the last `response` fails: the handler raises,
      returns no envelope and writes no callback record. */
  lemma EmptyRequestsEscape(msg: Message, host: Host, tablename: string, expiration: int, now: real,
                            dumps: Json -> string)
    requires msg.requests == []
    ensures Respond(msg, host, tablename, expiration, now, dumps) == RouteEscaped([], UnboundResponse)
  {
  }

  /** When the host raises a ServiceException for request `k`, the batch stops there: no
      later request reaches the host and the body is the fixed failure without data. */
  lemma ServiceExceptionAbortsBatch(msg: Message, host: Host, tablename: string, expiration: int, now: real,
                                    dumps: Json -> string, k: nat)
    requires var reqs := msg.requests;
             && k < |reqs|
             && (forall i :: 0 <= i < k ==> Steps(reqs, host)[i].Continues())
             && Steps(reqs, host)[k].call.Some?
             && host(k, Steps(reqs, host)[k].call.value) == LM.Throws(ServiceFault)
    ensures var reqs := msg.requests;
            var r := Respond(msg, host, tablename, expiration, now, dumps);
            && r.Replied?
            && r.response.body == MessageResponseBody(false, Some(ServiceExceptionDetail), None)
            && r.calls == CallsBefore(Steps(reqs, host), k + 1)
  {
    var reqs := msg.requests;
    HaltedPrefix(Steps(reqs, host), |reqs|, k);
  }

  /** Any other exception on request `k` (invalid object data, a transport fault, a
      missing response body) leaves the handler: no envelope and no callback record. */
  lemma OtherFailureEscapes(msg: Message, host: Host, tablename: string, expiration: int, now: real,
                            dumps: Json -> string, k: nat)
    requires var reqs := msg.requests;
             && k < |reqs|
             && (forall i :: 0 <= i < k ==> Steps(reqs, host)[i].Continues())
             && Steps(reqs, host)[k].outcome.StepEscaped?
    ensures var reqs := msg.requests;
            Respond(msg, host, tablename, expiration, now, dumps)
              == RouteEscaped(CallsBefore(Steps(reqs, host), k + 1), Steps(reqs, host)[k].outcome.fault)
  {
    var reqs := msg.requests;
    HaltedPrefix(Steps(reqs, host), |reqs|, k);
  }

  /** An update whose object data has no version fails typed parsing before any host call,
      and that failure is not the ServiceException the router catches. */
  lemma UpdateWithoutVersionEscapes(q: MessageRequest, i: nat, host: Host)
    requires q.operation == Update && q.objectData.Some? && "version" !in q.objectData.value
    ensures Process(q, i, host).call == None
    ensures Process(q, i, host).outcome.StepEscaped? && Process(q, i, host).outcome.fault.ValidationError?
  {
  }

  /** An update-list request with well-formed object data makes exactly the update call;
      an `Error` reply becomes an entry and an empty reply adds nothing. */
  lemma UpdateListStep(q: MessageRequest, i: nat, host: Host, u: Lists.UpdateList, md: Option<Dict>)
    requires q == MessageRequest(Update, ListObject, Some(Lists.UpdateListData(u)), md)
    ensures var call := LM.UpdateListCall(u.listId, u.Request());
            && Process(q, i, host).call == Some(call)
            && (host(i, call).ErrorReply? ==>
                  Process(q, i, host).outcome == Answered(LM.HostError(host(i, call).error), Entry(host(i, call).error, md)))
            && (host(i, call).NoContent? ==> Process(q, i, host).outcome == Answered(LM.Nothing, None))
  {
    Lists.UpdateListRoundTrip(u);
    assert TypedRequest(UpdateList, q.objectData) == Ok(LM.UpdateListRq(u));
  }

  /** Two updates where the first gets an `Error` and the second succeeds: the envelope
      reports success and carries one entry, the first request's error. */
  lemma ErrorThenSuccessReportsSuccess(m: Message, u0: Lists.UpdateList, u1: Lists.UpdateList,
                                       md0: Option<Dict>, md1: Option<Dict>, err: Dict, host: Host,
                                       tablename: string, expiration: int, now: real, dumps: Json -> string)
    requires m.requests == [MessageRequest(Update, ListObject, Some(Lists.UpdateListData(u0)), md0),
                            MessageRequest(Update, ListObject, Some(Lists.UpdateListData(u1)), md1)]
    requires |err| > 0
    requires forall c :: host(0, c) == LM.ErrorReply(err)
    requires forall c :: host(1, c) == LM.NoContent
    ensures var r := Respond(m, host, tablename, expiration, now, dumps);
            && r.Replied?
            && r.response.body.success
            && r.response.body.data == Some([err["metadata" := DictOrNull(md0)]])
  {
    var reqs := m.requests;
    UpdateListStep(reqs[0], 0, host, u0, md0);
    UpdateListStep(reqs[1], 1, host, u1, md1);
    var s0 := Steps(reqs, host)[0];
    var s1 := Steps(reqs, host)[1];
    assert s0.outcome == Answered(LM.HostError(err), Entry(err, md0));
    assert s1.outcome == Answered(LM.Nothing, None);
    assert EntriesBefore(Steps(reqs, host), 1) == [err["metadata" := DictOrNull(md0)]];
    assert EntriesBefore(Steps(reqs, host), 2) == [err["metadata" := DictOrNull(md0)]];
    assert forall i :: 0 <= i < |reqs| ==> Steps(reqs, host)[i].Continues();
    SuccessReflectsLastRequest(m, host, tablename, expiration, now, dumps);
  }

  /** The callback record is written exactly when the message asks for it, keyed by the
      message's source and event id, holding the serialised body and the expiry. */
  lemma CallbackRecordContents(msg: Message, host: Host, tablename: string, expiration: int, now: real,
                               dumps: Json -> string)
    ensures var r := Respond(msg, host, tablename, expiration, now, dumps);
            r.Replied? ==>
              && r.response.sourceMessage == msg
              && (|r.puts| == 1 <==> msg.sendCallbackResponse == Some(true))
              && (|r.puts| == 1 ==>
                    && r.puts[0]["event_source"] == JStr(msg.source)
                    && r.puts[0]["event_id"] == JStr(msg.eventId)
                    && r.puts[0]["data"] == JStr(dumps(BodyToJson(r.response.body)))
                    && (expiration != 0 <==> DefaultTtlColumn in r.puts[0]))
  {
  }
}
