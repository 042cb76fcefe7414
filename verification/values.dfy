/** Shared value types: optional values, results, and the JSON-like values that
    travel through messages, object data and store records. */
module Values {

  datatype Option<+T> = None | Some(value: T)

  /** The failure kinds that escape a call in the modelled code. */
  datatype Fault =
    | ValueError(reason: string)        // an explicit `raise ValueError(...)`
    | ValidationError(field: string)    // a typed parse that rejects its input
    | HttpFailure(status: int)          // `requests.HTTPError` carrying the final status
    | TransportFault(kind: string)      // connection failure, timeout, any non-HTTP exception
    | ServiceFault                      // a host `ServiceException`
    | AttributeError                    // `.to_dict()` called on `None`
    | UnboundResponse                   // reading the router's `response` before any assignment
    | UnsupportedEvent                  // the list-event handler's catch-all `raise Exception(...)`

  datatype Result<+T> = Ok(value: T) | Err(fault: Fault)

  /** A JSON value as produced by `json.loads` or a `.dict()` call. */
  datatype Json =
    | JNull
    | JBool(b: bool)
    | JInt(i: int)
    | JStr(s: string)
    | JArr(items: seq<Json>)
    | JObj(fields: map<string, Json>)

  type Dict = map<string, Json>

  /** The field pydantic names when the object being parsed is itself missing or not an object. */
  const RootField: string := "__root__"

  /** Python truthiness of a JSON value: `None`, `False`, `0` and empty containers are falsy. */
  predicate Truthy(j: Json) {
    match j
    case JNull => false
    case JBool(b) => b
    case JInt(i) => i != 0
    case JStr(s) => |s| > 0
    case JArr(a) => |a| > 0
    case JObj(m) => |m| > 0
  }

  /** An optional dictionary rendered as a JSON value (`None` becomes `null`). */
  function DictOrNull(d: Option<Dict>): (j: Json)
    ensures d.None? <==> j == JNull
    ensures d.Some? ==> j == JObj(d.value)
  {
    match d
    case None => JNull
    case Some(m) => JObj(m)
  }

  /** Reads an optional dictionary field: absent or `null` is `None`, an object is kept,
      anything else is a validation error. */
  function OptionalDict(d: Dict, key: string): (r: Result<Option<Dict>>)
    ensures key !in d || d[key] == JNull ==> r == Ok(None)
    ensures key in d && d[key].JObj? ==> r == Ok(Some(d[key].fields))
    ensures r.Err? <==> key in d && !d[key].JNull? && !d[key].JObj?
  {
    if key !in d || d[key] == JNull then Ok(None)
    else if d[key].JObj? then Ok(Some(d[key].fields))
    else Err(ValidationError(key))
  }

  /** Reads a required string field. */
  function RequiredStr(d: Dict, key: string): (r: Result<string>)
    ensures r.Ok? <==> key in d && d[key].JStr?
    ensures r.Ok? ==> d[key] == JStr(r.value)
  {
    if key in d && d[key].JStr? then Ok(d[key].s) else Err(ValidationError(key))
  }

  /** Reads a required integer field. */
  function RequiredInt(d: Dict, key: string): (r: Result<int>)
    ensures r.Ok? <==> key in d && d[key].JInt?
    ensures r.Ok? ==> d[key] == JInt(r.value)
  {
    if key in d && d[key].JInt? then Ok(d[key].i) else Err(ValidationError(key))
  }

  /** Parses every element of a JSON array with `parse`; all must succeed, and the
      parsed values keep the order of the input. */
  function ParseEach<T>(items: seq<Json>, parse: Json -> Result<T>): (r: Result<seq<T>>)
    ensures r.Ok? <==> forall i :: 0 <= i < |items| ==> parse(items[i]).Ok?
    ensures r.Ok? ==> |r.value| == |items|
    ensures r.Ok? ==> forall i :: 0 <= i < |items| ==> parse(items[i]) == Ok(r.value[i])
  {
    if items == [] then Ok([])
    else
      match (parse(items[0]), ParseEach(items[1..], parse))
      case (Ok(x), Ok(xs)) =>
        assert forall i :: 1 <= i < |items| ==> items[i] == items[1..][i - 1];
        Ok([x] + xs)
      case (Err(f), _) => Err(f)
      case (_, Err(f)) =>
        assert forall i :: 0 <= i < |items[1..]| ==> items[1..][i] == items[i + 1];
        Err(f)
  }
}
