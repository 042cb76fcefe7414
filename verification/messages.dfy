/** The messaging schema: operations, object types, inbound messages and the
    response envelope, with parsing from JSON (required fields, optional fields
    defaulting to `None`, unknown keys ignored) and `.dict(exclude_none=True)`. */
module Messages {
  import opened Values

  datatype Operation = Create | Read | ReadAll | Update | Delete

  datatype ObjectType = ListObject | ListItemObject

  function OperationValue(op: Operation): string {
    match op
    case Create => "create"
    case Read => "read"
    case ReadAll => "read_all"
    case Update => "update"
    case Delete => "delete"
  }

  function ObjectTypeValue(t: ObjectType): string {
    match t
    case ListObject => "list"
    case ListItemObject => "list_item"
  }

  /** An operation is given by its value string; exactly five strings are accepted. */
  function ParseOperation(j: Json): (r: Result<Operation>)
    ensures r.Ok? <==> j in {JStr("create"), JStr("read"), JStr("read_all"), JStr("update"), JStr("delete")}
    ensures r.Ok? ==> j == JStr(OperationValue(r.value))
  {
    match j
    case JStr("create") => Ok(Create)
    case JStr("read") => Ok(Read)
    case JStr("read_all") => Ok(ReadAll)
    case JStr("update") => Ok(Update)
    case JStr("delete") => Ok(Delete)
    case _ => Err(ValidationError("operation"))
  }

  /** An object type is given by its value string; exactly two strings are accepted. */
  function ParseObjectType(j: Json): (r: Result<ObjectType>)
    ensures r.Ok? <==> j in {JStr("list"), JStr("list_item")}
    ensures r.Ok? ==> j == JStr(ObjectTypeValue(r.value))
  {
    match j
    case JStr("list") => Ok(ListObject)
    case JStr("list_item") => Ok(ListItemObject)
    case _ => Err(ValidationError("object_type"))
  }

  datatype MessageRequest = MessageRequest(
    operation: Operation,
    objectType: ObjectType,
    objectData: Option<Dict>,
    metadata: Option<Dict>)

  datatype Message = Message(
    source: string,
    eventId: string,
    requests: seq<MessageRequest>,
    metadata: Option<Dict>,
    sendCallbackResponse: Option<bool>)

  datatype MessageResponseBody = MessageResponseBody(
    success: bool,
    detail: Option<string>,
    data: Option<seq<Dict>>)

  datatype MessageResponse = MessageResponse(sourceMessage: Message, body: MessageResponseBody)

  // ---------------------------------------------------------------- parsing

  /** An optional boolean field: absent or `null` is `None`. */
  function OptionalBool(d: Dict, key: string): (r: Result<Option<bool>>)
    ensures key !in d || d[key] == JNull ==> r == Ok(None)
    ensures r.Ok? && r.value.Some? ==> d[key] == JBool(r.value.value)
    ensures key in d && d[key].JBool? ==> r == Ok(Some(d[key].b))
    ensures r.Err? <==> key in d && !d[key].JNull? && !d[key].JBool?
  {
    if key !in d || d[key] == JNull then Ok(None)
    else if d[key].JBool? then Ok(Some(d[key].b))
    else Err(ValidationError(key))
  }

  /** A request needs an operation and an object type; object data and metadata are optional. */
  function ParseRequest(j: Json): (r: Result<MessageRequest>)
    ensures r.Ok? <==> j.JObj? && "operation" in j.fields && "object_type" in j.fields
                       && ParseOperation(j.fields["operation"]).Ok? && ParseObjectType(j.fields["object_type"]).Ok?
                       && OptionalDict(j.fields, "object_data").Ok? && OptionalDict(j.fields, "metadata").Ok?
    ensures r.Ok? ==> j.JObj? && "operation" in j.fields && "object_type" in j.fields
    ensures r.Ok? ==> ParseOperation(j.fields["operation"]) == Ok(r.value.operation)
    ensures r.Ok? ==> ParseObjectType(j.fields["object_type"]) == Ok(r.value.objectType)
    ensures r.Ok? ==> OptionalDict(j.fields, "object_data") == Ok(r.value.objectData)
    ensures r.Ok? ==> OptionalDict(j.fields, "metadata") == Ok(r.value.metadata)
  {
    if !j.JObj? then Err(ValidationError("requests"))
    else
      var d := j.fields;
      if "operation" !in d then Err(ValidationError("operation"))
      else if "object_type" !in d then Err(ValidationError("object_type"))
      else
        match (ParseOperation(d["operation"]), ParseObjectType(d["object_type"]),
               OptionalDict(d, "object_data"), OptionalDict(d, "metadata"))
        case (Ok(op), Ok(ot), Ok(od), Ok(md)) => Ok(MessageRequest(op, ot, od, md))
        case (Err(f), _, _, _) => Err(f)
        case (_, Err(f), _, _) => Err(f)
        case (_, _, Err(f), _) => Err(f)
        case (_, _, _, Err(f)) => Err(f)
  }

  /** `Message.parse_obj`: source, event id and requests are required; metadata and the
      callback flag are optional. */
  function ParseMessage(j: Json): (r: Result<Message>)
    ensures r.Ok? <==> j.JObj? && RequiredStr(j.fields, "source").Ok? && RequiredStr(j.fields, "event_id").Ok?
                       && "requests" in j.fields && j.fields["requests"].JArr?
                       && ParseEach(j.fields["requests"].items, ParseRequest).Ok?
                       && OptionalDict(j.fields, "metadata").Ok?
                       && OptionalBool(j.fields, "send_callback_response").Ok?
    ensures r.Ok? ==> j.JObj?
    ensures r.Ok? ==> RequiredStr(j.fields, "source") == Ok(r.value.source)
    ensures r.Ok? ==> RequiredStr(j.fields, "event_id") == Ok(r.value.eventId)
    ensures r.Ok? ==> "requests" in j.fields && j.fields["requests"].JArr?
    ensures r.Ok? ==> ParseEach(j.fields["requests"].items, ParseRequest) == Ok(r.value.requests)
    ensures r.Ok? ==> OptionalDict(j.fields, "metadata") == Ok(r.value.metadata)
    ensures r.Ok? ==> OptionalBool(j.fields, "send_callback_response") == Ok(r.value.sendCallbackResponse)
    ensures j.JObj? && ("source" !in j.fields || "event_id" !in j.fields || "requests" !in j.fields) ==> r.Err?
  {
    if !j.JObj? then Err(ValidationError(RootField))
    else
      var d := j.fields;
      if "requests" !in d || !d["requests"].JArr? then Err(ValidationError("requests"))
      else
        match (RequiredStr(d, "source"), RequiredStr(d, "event_id"), ParseEach(d["requests"].items, ParseRequest),
               OptionalDict(d, "metadata"), OptionalBool(d, "send_callback_response"))
        case (Ok(src), Ok(id), Ok(qs), Ok(md), Ok(cb)) => Ok(Message(src, id, qs, md, cb))
        case (Err(f), _, _, _, _) => Err(f)
        case (_, Err(f), _, _, _) => Err(f)
        case (_, _, Err(f), _, _) => Err(f)
        case (_, _, _, Err(f), _) => Err(f)
        case (_, _, _, _, Err(f)) => Err(f)
  }

  // ---------------------------------------------------------------- `.dict(exclude_none=True)`

  /** Adds `key: value` to an object only when the optional value is present. */
  function WithOptional(d: Dict, key: string, v: Option<Json>): (r: Dict)
    ensures v.None? ==> r == d
    ensures v.Some? ==> r == d[key := v.value]
  {
    match v
    case None => d
    case Some(x) => d[key := x]
  }

  function OptionalObj(d: Option<Dict>): Option<Json> {
    match d
    case None => None
    case Some(m) => Some(JObj(m))
  }

  function RequestToJson(q: MessageRequest): Json {
    var base := map["operation" := JStr(OperationValue(q.operation)),
                    "object_type" := JStr(ObjectTypeValue(q.objectType))];
    JObj(WithOptional(WithOptional(base, "object_data", OptionalObj(q.objectData)),
                      "metadata", OptionalObj(q.metadata)))
  }

  function MessageToJson(m: Message): Json {
    var base := map["source" := JStr(m.source), "event_id" := JStr(m.eventId),
                    "requests" := JArr(seq(|m.requests|, i requires 0 <= i < |m.requests| => RequestToJson(m.requests[i])))];
    var cb := match m.sendCallbackResponse
              case None => None
              case Some(b) => Some(JBool(b));
    JObj(WithOptional(WithOptional(base, "metadata", OptionalObj(m.metadata)), "send_callback_response", cb))
  }

  function BodyToJson(b: MessageResponseBody): Json {
    var detail := match b.detail
                  case None => None
                  case Some(s) => Some(JStr(s));
    var data := match b.data
                case None => None
                case Some(ds) => Some(JArr(seq(|ds|, i requires 0 <= i < |ds| => JObj(ds[i]))));
    JObj(WithOptional(WithOptional(map["success" := JBool(b.success)], "detail", detail), "data", data))
  }

  /** The API response: the source message and the body, each without its `None` fields. */
  function ResponseToJson(resp: MessageResponse): (j: Json)
    ensures j.JObj? && j.fields.Keys == {"source_message", "body"}
    ensures ParseMessage(j.fields["source_message"]) == Ok(resp.sourceMessage)
    ensures j.fields["body"] == BodyToJson(resp.body)
  {
    MessageRoundTrip(resp.sourceMessage);
    JObj(map["source_message" := MessageToJson(resp.sourceMessage), "body" := BodyToJson(resp.body)])
  }

  // ---------------------------------------------------------------- round trips and omissions

  lemma RequestRoundTrip(q: MessageRequest)
    ensures ParseRequest(RequestToJson(q)) == Ok(q)
  {
  }

  /** Serialising a message with `None` fields omitted and parsing it back gives the same message. */
  lemma MessageRoundTrip(m: Message)
    ensures ParseMessage(MessageToJson(m)) == Ok(m)
  {
    var items := MessageToJson(m).fields["requests"].items;
    forall i | 0 <= i < |items|
      ensures ParseRequest(items[i]) == Ok(m.requests[i])
    {
      RequestRoundTrip(m.requests[i]);
    }
    var parsed := ParseEach(items, ParseRequest);
    assert parsed.Ok?;
    assert parsed.value == m.requests;
    var d := MessageToJson(m).fields;
    assert RequiredStr(d, "source") == Ok(m.source);
    assert RequiredStr(d, "event_id") == Ok(m.eventId);
    assert OptionalDict(d, "metadata") == Ok(m.metadata);
    assert OptionalBool(d, "send_callback_response") == Ok(m.sendCallbackResponse);
  }

  /** The serialised form has a key for an optional field exactly when the field is not `None`. */
  lemma NoneFieldsOmitted(m: Message)
    ensures var d := MessageToJson(m).fields;
            && ("metadata" in d <==> m.metadata.Some?)
            && ("send_callback_response" in d <==> m.sendCallbackResponse.Some?)
            && forall i :: 0 <= i < |m.requests| ==>
                 var qd := d["requests"].items[i].fields;
                 && ("object_data" in qd <==> m.requests[i].objectData.Some?)
                 && ("metadata" in qd <==> m.requests[i].metadata.Some?)
  {
  }

  /** The body's serialised form omits `detail` and `data` exactly when they are `None`. */
  lemma BodyNoneFieldsOmitted(b: MessageResponseBody)
    ensures var d := BodyToJson(b).fields;
            && d["success"] == JBool(b.success)
            && ("detail" in d <==> b.detail.Some?)
            && ("data" in d <==> b.data.Some?)
  {
  }
}
