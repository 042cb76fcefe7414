/** The handler for household list-item events: it maps the event kind to an
    operation, validates the body, stops quietly for unlinked users, forwards a
    list-event record to the external API, and answers with a one-request message.
    The post itself is an external call whose outcome is a parameter. */
module ListEvents {
  import opened Values
  import opened Messages
  import opened ApiFacade

  const ItemsCreated: string := "AlexaHouseholdListEvent.ItemsCreated"
  const ItemsUpdated: string := "AlexaHouseholdListEvent.ItemsUpdated"
  const ItemsDeleted: string := "AlexaHouseholdListEvent.ItemsDeleted"

  const ResponseSource: string := "Alexa"

  /** `is_list_item_event`: the request type is one of the three item events. */
  predicate IsListItemEvent(requestType: string) {
    requestType == ItemsCreated || requestType == ItemsUpdated || requestType == ItemsDeleted
  }

  /** The operation an event kind stands for; any other kind raises. */
  function EventOperation(requestType: string): (r: Result<Operation>)
    ensures r.Ok? <==> IsListItemEvent(requestType)
    ensures r.Err? ==> r.fault == UnsupportedEvent
    ensures requestType == ItemsCreated ==> r == Ok(Create)
    ensures requestType == ItemsUpdated ==> r == Ok(Update)
    ensures requestType == ItemsDeleted ==> r == Ok(Delete)
  {
    if requestType == ItemsCreated then Ok(Create)
    else if requestType == ItemsUpdated then Ok(Update)
    else if requestType == ItemsDeleted then Ok(Delete)
    else Err(UnsupportedEvent)
  }

  /** The event body as delivered: both fields may be missing. */
  datatype EventBody = EventBody(listId: Option<string>, listItemIds: Option<seq<string>>)

  /** An inbound list-items event; `timestamp` is seconds since the epoch when present. */
  datatype ItemsEvent = ItemsEvent(
    requestType: string,
    requestId: string,
    timestamp: Option<int>,
    body: Option<EventBody>)

  /** The outbound record forwarded to the external API. */
  datatype ListEvent = ListEvent(
    requestId: string,
    timestamp: int,
    operation: Operation,
    objectType: ObjectType,
    listId: Option<string>,
    listItemIds: seq<string>)

  datatype HandlerOutput = EmptyResponse | ApiResponse(body: Json) | HandlerRaised(fault: Fault)

  /** `posted` is the record handed to the external call, if the handler got that far. */
  datatype EventHandled = EventHandled(posted: Option<ListEvent>, output: HandlerOutput)

  /** A body is usable when it is present and names at least one item. */
  predicate HasItems(body: Option<EventBody>) {
    body.Some? && body.value.listItemIds.Some? && |body.value.listItemIds.value| > 0
  }

  /** The one-request message the handler answers with. */
  function ResponseMessage(op: Operation, requestId: string): (m: Message)
    ensures m.source == ResponseSource && m.eventId == requestId
    ensures m.requests == [MessageRequest(op, ListItemObject, None, None)]
    ensures m.metadata == None && m.sendCallbackResponse == None
  {
    Message(ResponseSource, requestId, [MessageRequest(op, ListItemObject, None, None)], None, None)
  }

  /** `handle_event_response`: the message serialised with `None` fields omitted. */
  function HandleEventResponse(m: Message): (out: HandlerOutput)
    ensures out.ApiResponse? && out.body == MessageToJson(m)
    ensures ParseMessage(out.body) == Ok(m)
  {
    MessageRoundTrip(m);
    ApiResponse(MessageToJson(m))
  }

  /** `handle_list_item_event`. `accessToken` is the account-linking token, `baseUrl` the
      configured API address, `now` the wall clock, and `postFault` what the external
      post raises, if anything. */
  function HandleListItemEvent(ev: ItemsEvent, accessToken: Option<string>, baseUrl: string,
                               now: int, postFault: Option<Fault>): (r: EventHandled)
    ensures !IsListItemEvent(ev.requestType) ==> r == EventHandled(None, HandlerRaised(UnsupportedEvent))
    ensures IsListItemEvent(ev.requestType) && !HasItems(ev.body) ==>
              r.posted.None? && r.output.HandlerRaised? && r.output.fault.ValueError?
    ensures IsListItemEvent(ev.requestType) && HasItems(ev.body) && (accessToken.None? || accessToken.value == "") ==>
              r == EventHandled(None, EmptyResponse)
    ensures r.posted.Some? ==>
              && Ok(r.posted.value.operation) == EventOperation(ev.requestType)
              && r.posted.value.requestId == ev.requestId
              && r.posted.value.objectType == ListItemObject
              && r.posted.value.listId == ev.body.value.listId
              && Some(r.posted.value.listItemIds) == ev.body.value.listItemIds
              && r.posted.value.timestamp == (if ev.timestamp.Some? then ev.timestamp.value else now)
    ensures (IsListItemEvent(ev.requestType) && HasItems(ev.body) && accessToken.Some?
             && accessToken.value != "" && baseUrl != "") ==> r.posted.Some?
    ensures r.posted.Some? && postFault.Some? ==> r.output == HandlerRaised(postFault.value)
    ensures r.output.ApiResponse? ==>
              && r.posted.Some? && postFault.None?
              && r.output == HandleEventResponse(ResponseMessage(r.posted.value.operation, ev.requestId))
  {
    match EventOperation(ev.requestType)
    case Err(f) => EventHandled(None, HandlerRaised(f))
    case Ok(op) =>
      if !HasItems(ev.body) then
        EventHandled(None, HandlerRaised(ValueError("Request body and list item ids should not be null")))
      else if accessToken.None? || accessToken.value == "" then
        EventHandled(None, EmptyResponse)
      else
        var body := ev.body.value;
        var event := ListEvent(ev.requestId, if ev.timestamp.Some? then ev.timestamp.value else now,
                               op, ListItemObject, body.listId, body.listItemIds.value);
        match NewInterface(baseUrl, accessToken.value)
        case Err(f) => EventHandled(None, HandlerRaised(f))
        case Ok(_) =>
          if postFault.Some? then EventHandled(Some(event), HandlerRaised(postFault.value))
          else EventHandled(Some(event), HandleEventResponse(ResponseMessage(op, ev.requestId)))
  }

  /** A linked user's valid event is posted and answered whenever the API address is
      configured and the post succeeds. */
  lemma LinkedEventIsForwarded(ev: ItemsEvent, token: string, baseUrl: string, now: int)
    requires IsListItemEvent(ev.requestType) && HasItems(ev.body)
    requires token != "" && baseUrl != ""
    ensures var r := HandleListItemEvent(ev, Some(token), baseUrl, now, None);
            r.posted.Some? && r.output.ApiResponse?
  {
  }

  /** With no API address configured, constructing the facade fails before anything is posted. */
  lemma MissingBaseUrlFailsBeforePost(ev: ItemsEvent, token: string, now: int, postFault: Option<Fault>)
    requires IsListItemEvent(ev.requestType) && HasItems(ev.body) && token != ""
    ensures var r := HandleListItemEvent(ev, Some(token), "", now, postFault);
            r.posted.None? && r.output.HandlerRaised? && r.output.fault.ValueError?
  {
  }

  /** The answer names the event's operation on list items, with no object data, no
      metadata and no callback flag in its serialised form. */
  lemma ResponseOmitsNoneFields(op: Operation, requestId: string)
    ensures var d := HandleEventResponse(ResponseMessage(op, requestId)).body.fields;
            && d.Keys == {"source", "event_id", "requests"}
            && d["requests"] == JArr([JObj(map["operation" := JStr(OperationValue(op)),
                                               "object_type" := JStr("list_item")])])
  {
    var m := ResponseMessage(op, requestId);
    assert MessageToJson(m).fields["requests"].items == [RequestToJson(m.requests[0])];
  }
}
