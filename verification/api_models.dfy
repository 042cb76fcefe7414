/** The external API's item schema: an item with an id, a value and a status that
    defaults to active and is serialised as its value string; and a batch of items
    sharing one list id. */
module ApiModels {
  import opened Values
  import opened ListModels

  datatype ApiListItem = ApiListItem(id: string, value: string, status: ItemStatus)

  datatype ApiListItems = ApiListItems(listId: string, listItems: seq<ApiListItem>)

  /** `.dict()` of an item; `use_enum_values` makes the status its value string. */
  function ItemToJson(it: ApiListItem): Json {
    JObj(map["id" := JStr(it.id), "value" := JStr(it.value), "status" := JStr(ItemStatusValue(it.status))])
  }

  function ItemsToJson(b: ApiListItems): Json {
    JObj(map["list_id" := JStr(b.listId),
             "list_items" := JArr(seq(|b.listItems|, i requires 0 <= i < |b.listItems| => ItemToJson(b.listItems[i])))])
  }

  /** An item needs a string id and value; the status may be left out and is then active. */
  function ParseItem(j: Json): (r: Result<ApiListItem>)
    ensures r.Ok? <==> j.JObj? && RequiredStr(j.fields, "id").Ok? && RequiredStr(j.fields, "value").Ok?
                       && OptionalItemStatus(j.fields, "status").Ok?
    ensures r.Ok? ==> j.fields["id"] == JStr(r.value.id) && j.fields["value"] == JStr(r.value.value)
    ensures r.Ok? && "status" !in j.fields ==> r.value.status == ItemActive
    ensures r.Ok? && "status" in j.fields ==> j.fields["status"] == JStr(ItemStatusValue(r.value.status))
  {
    if !j.JObj? then Err(ValidationError("list_items"))
    else
      var d := j.fields;
      match (RequiredStr(d, "id"), RequiredStr(d, "value"), OptionalItemStatus(d, "status"))
      case (Ok(id), Ok(v), Ok(st)) => Ok(ApiListItem(id, v, st))
      case (Err(f), _, _) => Err(f)
      case (_, Err(f), _) => Err(f)
      case (_, _, Err(f)) => Err(f)
  }

  /** A batch needs a list id and an array of items, each of which must parse. */
  function ParseItems(j: Json): (r: Result<ApiListItems>)
    ensures r.Ok? <==> j.JObj? && RequiredStr(j.fields, "list_id").Ok?
                       && "list_items" in j.fields && j.fields["list_items"].JArr?
                       && ParseEach(j.fields["list_items"].items, ParseItem).Ok?
    ensures r.Ok? ==> j.JObj? && RequiredStr(j.fields, "list_id") == Ok(r.value.listId)
    ensures r.Ok? ==> "list_items" in j.fields && j.fields["list_items"].JArr?
    ensures r.Ok? ==> ParseEach(j.fields["list_items"].items, ParseItem) == Ok(r.value.listItems)
  {
    if !j.JObj? then Err(ValidationError(RootField))
    else
      var d := j.fields;
      if "list_items" !in d || !d["list_items"].JArr? then Err(ValidationError("list_items"))
      else
        match (RequiredStr(d, "list_id"), ParseEach(d["list_items"].items, ParseItem))
        case (Ok(id), Ok(items)) => Ok(ApiListItems(id, items))
        case (Err(f), _) => Err(f)
        case (_, Err(f)) => Err(f)
  }

  lemma ItemRoundTrip(it: ApiListItem)
    ensures ParseItem(ItemToJson(it)) == Ok(it)
  {
  }

  /** Serialising a batch and parsing it back gives the same batch, items in order. */
  lemma ItemsRoundTrip(b: ApiListItems)
    ensures ParseItems(ItemsToJson(b)) == Ok(b)
  {
    var items := ItemsToJson(b).fields["list_items"].items;
    forall i | 0 <= i < |items|
      ensures ParseItem(items[i]) == Ok(b.listItems[i])
    {
      ItemRoundTrip(b.listItems[i]);
    }
    var parsed := ParseEach(items, ParseItem);
    assert parsed.Ok? && parsed.value == b.listItems;
  }
}
