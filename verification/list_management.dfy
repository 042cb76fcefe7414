/** The list-management facade: nine methods, one per (operation, object type)
    pair, each making one host client call and turning the host's error replies
    into values. The host client is an oracle from calls to replies. */
module ListManagement {
  import opened Values
  import opened ListModels

  /** A host client call, with exactly the arguments the facade passes. */
  datatype ClientCall =
    | GetListsMetadata
    | GetList(listId: string, status: string)
    | CreateListCall(createList: CreateListRequest)
    | UpdateListCall(listId: string, updateList: UpdateListRequest)
    | DeleteListCall(listId: string)
    | GetListItem(listId: string, itemId: string)
    | CreateListItemCall(listId: string, createItem: CreateListItemRequest)
    | UpdateListItemCall(listId: string, itemId: string, updateItem: UpdateListItemRequest)
    | DeleteListItemCall(listId: string, itemId: string)

  /** What the host client gives back: an entity, an `Error` object, nothing, or an exception. */
  datatype ClientReply = Body(entity: Dict) | ErrorReply(error: Dict) | NoContent | Throws(fault: Fault)

  /** What a facade method gives back: `Entity`, `Error` or `None` as values, or an exception. */
  datatype FacadeResult = Entity(entity: Dict) | HostError(error: Dict) | Nothing | Thrown(fault: Fault)

  datatype Invocation = Invocation(call: ClientCall, result: FacadeResult)

  /** Read and create methods: an error is returned as is, anything else is cast and returned. */
  function Fetched(reply: ClientReply): (r: FacadeResult)
    ensures reply.ErrorReply? <==> r.HostError?
    ensures reply.ErrorReply? ==> r.error == reply.error
    ensures reply.Body? <==> r.Entity?
    ensures reply.Body? ==> r.entity == reply.entity
    ensures reply.Throws? <==> r.Thrown?
    ensures reply.Throws? ==> r.fault == reply.fault
  {
    match reply
    case ErrorReply(e) => HostError(e)
    case Body(d) => Entity(d)
    case NoContent => Nothing
    case Throws(f) => Thrown(f)
  }

  /** Update and delete methods: an error is returned as is, any other reply becomes `None`. */
  function Mutated(reply: ClientReply): (r: FacadeResult)
    ensures !r.Entity?
    ensures reply.ErrorReply? <==> r.HostError?
    ensures reply.ErrorReply? ==> r.error == reply.error
    ensures reply.Throws? <==> r.Thrown?
    ensures reply.Throws? ==> r.fault == reply.fault
  {
    match reply
    case ErrorReply(e) => HostError(e)
    case Throws(f) => Thrown(f)
    case _ => Nothing
  }

  function ReadAllLists(host: ClientCall -> ClientReply): (r: Invocation)
    ensures r.call == GetListsMetadata
    ensures r.result == Fetched(host(GetListsMetadata))
  {
    Invocation(GetListsMetadata, Fetched(host(GetListsMetadata)))
  }

  /** Passes the list id and the state's value string. */
  function ReadList(l: ListModels.ReadList, host: ClientCall -> ClientReply): (r: Invocation)
    ensures r.call == GetList(l.listId, ListStateValue(l.state))
    ensures r.result == Fetched(host(r.call))
  {
    var call := GetList(l.listId, ListStateValue(l.state));
    Invocation(call, Fetched(host(call)))
  }

  function CreateList(l: ListModels.CreateList, host: ClientCall -> ClientReply): (r: Invocation)
    ensures r.call.CreateListCall? && r.call.createList.name == l.name && r.call.createList.state == l.state
    ensures r.result == Fetched(host(r.call))
  {
    var call := CreateListCall(l.Request());
    Invocation(call, Fetched(host(call)))
  }

  /** Sends the list id and a request carrying the version; success is `None`. */
  function UpdateList(l: ListModels.UpdateList, host: ClientCall -> ClientReply): (r: Invocation)
    ensures r.call.UpdateListCall? && r.call.listId == l.listId
    ensures r.call.updateList == UpdateListRequest(l.name, l.state, l.version)
    ensures r.result == Mutated(host(r.call))
  {
    var call := UpdateListCall(l.listId, l.Request());
    Invocation(call, Mutated(host(call)))
  }

  /** Sends only the list id; success is `None`. */
  function DeleteList(l: ListModels.DeleteList, host: ClientCall -> ClientReply): (r: Invocation)
    ensures r.call == DeleteListCall(l.listId)
    ensures r.result == Mutated(host(r.call))
  {
    var call := DeleteListCall(l.listId);
    Invocation(call, Mutated(host(call)))
  }

  /** Passes the list id and the item id. */
  function ReadListItem(i: ListModels.ReadListItem, host: ClientCall -> ClientReply): (r: Invocation)
    ensures r.call == GetListItem(i.listId, i.itemId)
    ensures r.result == Fetched(host(r.call))
  {
    var call := GetListItem(i.listId, i.itemId);
    Invocation(call, Fetched(host(call)))
  }

  /** The list id goes alongside the request, which carries only value and status. */
  function CreateListItem(i: ListModels.CreateListItem, host: ClientCall -> ClientReply): (r: Invocation)
    ensures r.call.CreateListItemCall? && r.call.listId == i.listId
    ensures r.call.createItem == CreateListItemRequest(i.value, i.status)
    ensures r.result == Fetched(host(r.call))
  {
    var call := CreateListItemCall(i.listId, i.Request());
    Invocation(call, Fetched(host(call)))
  }

  /** Sends both ids and a request carrying the version; success is `None`. */
  function UpdateListItem(i: ListModels.UpdateListItem, host: ClientCall -> ClientReply): (r: Invocation)
    ensures r.call.UpdateListItemCall? && r.call.listId == i.listId && r.call.itemId == i.itemId
    ensures r.call.updateItem == UpdateListItemRequest(i.value, i.status, i.version)
    ensures r.result == Mutated(host(r.call))
  {
    var call := UpdateListItemCall(i.listId, i.itemId, i.Request());
    Invocation(call, Mutated(host(call)))
  }

  /** Sends only the two ids; success is `None`. */
  function DeleteListItem(i: ListModels.DeleteListItem, host: ClientCall -> ClientReply): (r: Invocation)
    ensures r.call == DeleteListItemCall(i.listId, i.itemId)
    ensures r.result == Mutated(host(r.call))
  {
    var call := DeleteListItemCall(i.listId, i.itemId);
    Invocation(call, Mutated(host(call)))
  }

  // ---------------------------------------------------------------- one entry point

  /** A typed request for one of the nine facade methods. */
  datatype ListRequest =
    | ReadAllListsRq
    | ReadListRq(readList: ListModels.ReadList)
    | CreateListRq(createList: ListModels.CreateList)
    | UpdateListRq(updateList: ListModels.UpdateList)
    | DeleteListRq(deleteList: ListModels.DeleteList)
    | ReadListItemRq(readItem: ListModels.ReadListItem)
    | CreateListItemRq(createItem: ListModels.CreateListItem)
    | UpdateListItemRq(updateItem: ListModels.UpdateListItem)
    | DeleteListItemRq(deleteItem: ListModels.DeleteListItem)
  {
    /** Update and delete methods return `None` on success. */
    predicate IsMutation() {
      UpdateListRq? || DeleteListRq? || UpdateListItemRq? || DeleteListItemRq?
    }
  }

  function Invoke(q: ListRequest, host: ClientCall -> ClientReply): Invocation {
    match q
    case ReadAllListsRq => ReadAllLists(host)
    case ReadListRq(l) => ReadList(l, host)
    case CreateListRq(l) => CreateList(l, host)
    case UpdateListRq(l) => UpdateList(l, host)
    case DeleteListRq(l) => DeleteList(l, host)
    case ReadListItemRq(i) => ReadListItem(i, host)
    case CreateListItemRq(i) => CreateListItem(i, host)
    case UpdateListItemRq(i) => UpdateListItem(i, host)
    case DeleteListItemRq(i) => DeleteListItem(i, host)
  }

  /** Read and create methods treat the host's reply as `Fetched` does, update and delete
      methods as `Mutated` does. */
  lemma InvokeResult(q: ListRequest, host: ClientCall -> ClientReply)
    ensures var inv := Invoke(q, host);
            inv.result == if q.IsMutation() then Mutated(host(inv.call)) else Fetched(host(inv.call))
  {
  }

  /** Every method returns the host's error value unchanged and lets host exceptions through. */
  lemma ErrorsPassThrough(q: ListRequest, host: ClientCall -> ClientReply)
    ensures var inv := Invoke(q, host);
            && (host(inv.call).ErrorReply? <==> inv.result.HostError?)
            && (host(inv.call).ErrorReply? ==> inv.result.error == host(inv.call).error)
            && (host(inv.call).Throws? <==> inv.result.Thrown?)
            && (host(inv.call).Throws? ==> inv.result.fault == host(inv.call).fault)
  {
  }

  /** Update and delete methods never return an entity; read and create methods return
      the host's entity unchanged. */
  lemma MutationsReturnNoEntity(q: ListRequest, host: ClientCall -> ClientReply)
    ensures var inv := Invoke(q, host);
            && (q.IsMutation() ==> !inv.result.Entity?)
            && (q.IsMutation() && !host(inv.call).ErrorReply? && !host(inv.call).Throws? ==> inv.result == Nothing)
            && (!q.IsMutation() && host(inv.call).Body? ==> inv.result == Entity(host(inv.call).entity))
  {
  }

  /** Delete calls carry no version; update calls carry the request's version. */
  lemma VersionOnlyOnUpdates(q: ListRequest, host: ClientCall -> ClientReply)
    ensures var call := Invoke(q, host).call;
            && (q.UpdateListRq? ==> call.UpdateListCall? && call.updateList.version == q.updateList.version)
            && (q.UpdateListItemRq? ==> call.UpdateListItemCall? && call.updateItem.version == q.updateItem.version)
            && (q.DeleteListRq? ==> call == DeleteListCall(q.deleteList.listId))
            && (q.DeleteListItemRq? ==> call == DeleteListItemCall(q.deleteItem.listId, q.deleteItem.itemId))
  {
  }
}
