/** The typed request objects that the message router builds from a request's
    `object_data`, and the host request bodies their `request()` builders produce.
    Parsing follows the declared fields: a field without a default is required,
    `state`/`status` default to active, and unknown keys are ignored. */
module ListModels {
  import opened Values

  datatype ListState = ListActive | ListArchived
  datatype ItemStatus = ItemActive | ItemCompleted

  function ListStateValue(s: ListState): string {
    match s
    case ListActive => "active"
    case ListArchived => "archived"
  }

  function ItemStatusValue(s: ItemStatus): string {
    match s
    case ItemActive => "active"
    case ItemCompleted => "completed"
  }

  /** An optional list-state field: absent means active, otherwise it must name a state. */
  function OptionalListState(d: Dict, key: string): (r: Result<ListState>)
    ensures key !in d ==> r == Ok(ListActive)
    ensures key in d ==> (r.Ok? <==> d[key] == JStr("active") || d[key] == JStr("archived"))
    ensures key in d && r.Ok? ==> d[key] == JStr(ListStateValue(r.value))
  {
    if key !in d then Ok(ListActive)
    else if d[key] == JStr("active") then Ok(ListActive)
    else if d[key] == JStr("archived") then Ok(ListArchived)
    else Err(ValidationError(key))
  }

  /** An optional item-status field: absent means active, otherwise it must name a status. */
  function OptionalItemStatus(d: Dict, key: string): (r: Result<ItemStatus>)
    ensures key !in d ==> r == Ok(ItemActive)
    ensures key in d ==> (r.Ok? <==> d[key] == JStr("active") || d[key] == JStr("completed"))
    ensures key in d && r.Ok? ==> d[key] == JStr(ItemStatusValue(r.value))
  {
    if key !in d then Ok(ItemActive)
    else if d[key] == JStr("active") then Ok(ItemActive)
    else if d[key] == JStr("completed") then Ok(ItemCompleted)
    else Err(ValidationError(key))
  }

  // ---------------------------------------------------------------- host request bodies

  datatype CreateListRequest = CreateListRequest(name: string, state: ListState)
  datatype UpdateListRequest = UpdateListRequest(name: string, state: ListState, version: int)
  datatype CreateListItemRequest = CreateListItemRequest(value: string, status: ItemStatus)
  datatype UpdateListItemRequest = UpdateListItemRequest(value: string, status: ItemStatus, version: int)

  // ---------------------------------------------------------------- lists

  datatype ReadList = ReadList(listId: string, state: ListState)

  datatype CreateList = CreateList(name: string, state: ListState) {
    function Request(): CreateListRequest {
      CreateListRequest(name, state)
    }
  }

  datatype UpdateList = UpdateList(listId: string, name: string, state: ListState, version: int) {
    function Request(): UpdateListRequest {
      UpdateListRequest(name, state, version)
    }
  }

  datatype DeleteList = DeleteList(listId: string)

  // ---------------------------------------------------------------- list items

  datatype ReadListItem = ReadListItem(listId: string, itemId: string)

  datatype CreateListItem = CreateListItem(listId: string, value: string, status: ItemStatus) {
    function Request(): CreateListItemRequest {
      CreateListItemRequest(value, status)
    }
  }

  datatype UpdateListItem = UpdateListItem(listId: string, itemId: string, value: string, status: ItemStatus, version: int) {
    function Request(): UpdateListItemRequest {
      UpdateListItemRequest(value, status, version)
    }
  }

  datatype DeleteListItem = DeleteListItem(listId: string, itemId: string)

  // ---------------------------------------------------------------- parsing `object_data`

  function ParseReadList(data: Option<Dict>): (r: Result<ReadList>)
    ensures r.Ok? <==> data.Some? && RequiredStr(data.value, "list_id").Ok? && OptionalListState(data.value, "state").Ok?
    ensures r.Ok? ==> data.value["list_id"] == JStr(r.value.listId)
    ensures r.Ok? && "state" !in data.value ==> r.value.state == ListActive
    ensures r.Ok? && "state" in data.value ==> data.value["state"] == JStr(ListStateValue(r.value.state))
  {
    if data.None? then Err(ValidationError(RootField))
    else
      var d := data.value;
      match (RequiredStr(d, "list_id"), OptionalListState(d, "state"))
      case (Ok(id), Ok(st)) => Ok(ReadList(id, st))
      case (Err(f), _) => Err(f)
      case (_, Err(f)) => Err(f)
  }

  function ParseCreateList(data: Option<Dict>): (r: Result<CreateList>)
    ensures r.Ok? <==> data.Some? && RequiredStr(data.value, "name").Ok? && OptionalListState(data.value, "state").Ok?
    ensures r.Ok? ==> data.value["name"] == JStr(r.value.name)
    ensures r.Ok? && "state" !in data.value ==> r.value.state == ListActive
    ensures r.Ok? && "state" in data.value ==> data.value["state"] == JStr(ListStateValue(r.value.state))
  {
    if data.None? then Err(ValidationError(RootField))
    else
      var d := data.value;
      match (RequiredStr(d, "name"), OptionalListState(d, "state"))
      case (Ok(name), Ok(st)) => Ok(CreateList(name, st))
      case (Err(f), _) => Err(f)
      case (_, Err(f)) => Err(f)
  }

  /** `version` has no default: object data without an integer version is rejected. */
  function ParseUpdateList(data: Option<Dict>): (r: Result<UpdateList>)
    ensures r.Ok? <==> data.Some? && RequiredStr(data.value, "list_id").Ok? && RequiredStr(data.value, "name").Ok?
                       && OptionalListState(data.value, "state").Ok? && RequiredInt(data.value, "version").Ok?
    ensures data.Some? && "version" !in data.value ==> r.Err?
    ensures r.Ok? ==> data.value["list_id"] == JStr(r.value.listId) && data.value["name"] == JStr(r.value.name)
    ensures r.Ok? ==> data.value["version"] == JInt(r.value.version)
    ensures r.Ok? && "state" !in data.value ==> r.value.state == ListActive
    ensures r.Ok? && "state" in data.value ==> data.value["state"] == JStr(ListStateValue(r.value.state))
  {
    if data.None? then Err(ValidationError(RootField))
    else
      var d := data.value;
      match (RequiredStr(d, "list_id"), RequiredStr(d, "name"), OptionalListState(d, "state"), RequiredInt(d, "version"))
      case (Ok(id), Ok(name), Ok(st), Ok(v)) => Ok(UpdateList(id, name, st, v))
      case (Err(f), _, _, _) => Err(f)
      case (_, Err(f), _, _) => Err(f)
      case (_, _, Err(f), _) => Err(f)
      case (_, _, _, Err(f)) => Err(f)
  }

  function ParseDeleteList(data: Option<Dict>): (r: Result<DeleteList>)
    ensures r.Ok? <==> data.Some? && RequiredStr(data.value, "list_id").Ok?
    ensures r.Ok? ==> data.value["list_id"] == JStr(r.value.listId)
  {
    if data.None? then Err(ValidationError(RootField))
    else
      match RequiredStr(data.value, "list_id")
      case Ok(id) => Ok(DeleteList(id))
      case Err(f) => Err(f)
  }

  function ParseReadListItem(data: Option<Dict>): (r: Result<ReadListItem>)
    ensures r.Ok? <==> data.Some? && RequiredStr(data.value, "list_id").Ok? && RequiredStr(data.value, "item_id").Ok?
    ensures r.Ok? ==> data.value["list_id"] == JStr(r.value.listId) && data.value["item_id"] == JStr(r.value.itemId)
  {
    if data.None? then Err(ValidationError(RootField))
    else
      var d := data.value;
      match (RequiredStr(d, "list_id"), RequiredStr(d, "item_id"))
      case (Ok(id), Ok(item)) => Ok(ReadListItem(id, item))
      case (Err(f), _) => Err(f)
      case (_, Err(f)) => Err(f)
  }

  function ParseCreateListItem(data: Option<Dict>): (r: Result<CreateListItem>)
    ensures r.Ok? <==> data.Some? && RequiredStr(data.value, "list_id").Ok? && RequiredStr(data.value, "value").Ok?
                       && OptionalItemStatus(data.value, "status").Ok?
    ensures r.Ok? ==> data.value["list_id"] == JStr(r.value.listId) && data.value["value"] == JStr(r.value.value)
    ensures r.Ok? && "status" !in data.value ==> r.value.status == ItemActive
    ensures r.Ok? && "status" in data.value ==> data.value["status"] == JStr(ItemStatusValue(r.value.status))
  {
    if data.None? then Err(ValidationError(RootField))
    else
      var d := data.value;
      match (RequiredStr(d, "list_id"), RequiredStr(d, "value"), OptionalItemStatus(d, "status"))
      case (Ok(id), Ok(value), Ok(st)) => Ok(CreateListItem(id, value, st))
      case (Err(f), _, _) => Err(f)
      case (_, Err(f), _) => Err(f)
      case (_, _, Err(f)) => Err(f)
  }

  /** `version` has no default: object data without an integer version is rejected. */
  function ParseUpdateListItem(data: Option<Dict>): (r: Result<UpdateListItem>)
    ensures r.Ok? <==> data.Some? && RequiredStr(data.value, "list_id").Ok? && RequiredStr(data.value, "item_id").Ok?
                       && RequiredStr(data.value, "value").Ok? && OptionalItemStatus(data.value, "status").Ok?
                       && RequiredInt(data.value, "version").Ok?
    ensures data.Some? && "version" !in data.value ==> r.Err?
    ensures r.Ok? ==> data.value["list_id"] == JStr(r.value.listId) && data.value["item_id"] == JStr(r.value.itemId)
    ensures r.Ok? ==> data.value["value"] == JStr(r.value.value) && data.value["version"] == JInt(r.value.version)
    ensures r.Ok? && "status" !in data.value ==> r.value.status == ItemActive
    ensures r.Ok? && "status" in data.value ==> data.value["status"] == JStr(ItemStatusValue(r.value.status))
  {
    if data.None? then Err(ValidationError(RootField))
    else
      var d := data.value;
      match (RequiredStr(d, "list_id"), RequiredStr(d, "item_id"), RequiredStr(d, "value"),
             OptionalItemStatus(d, "status"), RequiredInt(d, "version"))
      case (Ok(id), Ok(item), Ok(value), Ok(st), Ok(v)) => Ok(UpdateListItem(id, item, value, st, v))
      case (Err(f), _, _, _, _) => Err(f)
      case (_, Err(f), _, _, _) => Err(f)
      case (_, _, Err(f), _, _) => Err(f)
      case (_, _, _, Err(f), _) => Err(f)
      case (_, _, _, _, Err(f)) => Err(f)
  }

  function ParseDeleteListItem(data: Option<Dict>): (r: Result<DeleteListItem>)
    ensures r.Ok? <==> data.Some? && RequiredStr(data.value, "list_id").Ok? && RequiredStr(data.value, "item_id").Ok?
    ensures r.Ok? ==> data.value["list_id"] == JStr(r.value.listId) && data.value["item_id"] == JStr(r.value.itemId)
  {
    if data.None? then Err(ValidationError(RootField))
    else
      var d := data.value;
      match (RequiredStr(d, "list_id"), RequiredStr(d, "item_id"))
      case (Ok(id), Ok(item)) => Ok(DeleteListItem(id, item))
      case (Err(f), _) => Err(f)
      case (_, Err(f)) => Err(f)
  }

  // ---------------------------------------------------------------- `.dict()` and round trips

  function UpdateListData(u: UpdateList): Dict {
    map["list_id" := JStr(u.listId), "name" := JStr(u.name),
        "state" := JStr(ListStateValue(u.state)), "version" := JInt(u.version)]
  }

  function UpdateListItemData(u: UpdateListItem): Dict {
    map["list_id" := JStr(u.listId), "item_id" := JStr(u.itemId), "value" := JStr(u.value),
        "status" := JStr(ItemStatusValue(u.status)), "version" := JInt(u.version)]
  }

  function CreateListData(c: CreateList): Dict {
    map["name" := JStr(c.name), "state" := JStr(ListStateValue(c.state))]
  }

  function CreateListItemData(c: CreateListItem): Dict {
    map["list_id" := JStr(c.listId), "value" := JStr(c.value), "status" := JStr(ItemStatusValue(c.status))]
  }

  /** Serialising a typed request and parsing it back gives the same request. */
  lemma UpdateListRoundTrip(u: UpdateList)
    ensures ParseUpdateList(Some(UpdateListData(u))) == Ok(u)
  {
  }

  lemma UpdateListItemRoundTrip(u: UpdateListItem)
    ensures ParseUpdateListItem(Some(UpdateListItemData(u))) == Ok(u)
  {
  }

  lemma CreateListRoundTrip(c: CreateList)
    ensures ParseCreateList(Some(CreateListData(c))) == Ok(c)
  {
  }

  lemma CreateListItemRoundTrip(c: CreateListItem)
    ensures ParseCreateListItem(Some(CreateListItemData(c))) == Ok(c)
  {
  }

  /** The host request built from valid object data carries the caller's own name,
      state and version; without a state the request says active. */
  lemma UpdateListRequestFromData(d: Dict)
    requires ParseUpdateList(Some(d)).Ok?
    ensures var q := ParseUpdateList(Some(d)).value.Request();
            && d["name"] == JStr(q.name) && d["version"] == JInt(q.version)
            && ("state" in d ==> d["state"] == JStr(ListStateValue(q.state)))
            && ("state" !in d ==> q.state == ListActive)
  {
  }

  /** The host request built from valid object data carries the caller's own value,
      status and version, but not the list id; without a status the request says active. */
  lemma UpdateListItemRequestFromData(d: Dict)
    requires ParseUpdateListItem(Some(d)).Ok?
    ensures var q := ParseUpdateListItem(Some(d)).value.Request();
            && d["value"] == JStr(q.value) && d["version"] == JInt(q.version)
            && ("status" in d ==> d["status"] == JStr(ItemStatusValue(q.status)))
            && ("status" !in d ==> q.status == ItemActive)
  {
  }

  /** The create-list request carries the caller's name and state, the state defaulting
      to active. */
  lemma CreateListRequestFromData(d: Dict)
    requires ParseCreateList(Some(d)).Ok?
    ensures var q := ParseCreateList(Some(d)).value.Request();
            && d["name"] == JStr(q.name)
            && ("state" in d ==> d["state"] == JStr(ListStateValue(q.state)))
            && ("state" !in d ==> q.state == ListActive)
  {
  }

  /** The create-item request carries the caller's value and status, the status defaulting
      to active, but not the list id. */
  lemma CreateListItemRequestFromData(d: Dict)
    requires ParseCreateListItem(Some(d)).Ok?
    ensures var q := ParseCreateListItem(Some(d)).value.Request();
            && d["value"] == JStr(q.value)
            && ("status" in d ==> d["status"] == JStr(ItemStatusValue(q.status)))
            && ("status" !in d ==> q.status == ItemActive)
  {
  }
}
