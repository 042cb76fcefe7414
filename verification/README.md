# Unified Shopping List Helper — routing and retry core in Dafny

This project models the request-routing and retry layer of the Unified Shopping List Helper Alexa
skill. The skill relays Alexa household-list events to an external shopping-list HTTP API. It also
runs list CRUD operations that reach it as skill messages.

The model covers these pieces:

- **`HttpClient`**: the low-level HTTP client. It normalises the base URL, joins endpoints onto it,
  and runs the bounded retry loop. The network is a sequence of per-attempt outcomes (a response
  with a status, or a transport exception). Sleeps and attempts are counted, not timed.
- **`ApiModels` and `ApiFacade`**: the item and batch records of the external API, and the typed
  facade over the client (`is_valid`, `create_shopping_list_items`).
- **`ListModels` and `ListManagement`**: the typed list and list-item requests with their required
  fields and defaults, and the error-as-value facade over the Alexa list-management client. The
  host client is an oracle from calls to replies.
- **`Messages`**: the skill-message, request and response-envelope records, parsed from and
  serialised to JSON with `None` fields omitted.
- **`Router` and `RouterProperties`**: `route_message`. It dispatches each request by
  (operation, object type), collects the entries, builds the envelope, and decides on the
  callback write.
- **`ListEvents`**: the list-item event handler.
- **`Store`**: the DynamoDB wrapper's TTL computation and `put`, plus the callback record.
- **`Values` and `Text`**: shared helpers. `Values` holds JSON values, Python truthiness, and
  `Result`/`Option`. `Text` holds substring search and ASCII upper-casing.

The model follows the code as written; in particular:

- `success` in the envelope reflects only the LAST request's response. It is not an aggregate.
  `response` is reset per iteration (skill_messaging.py:64) and read after the loop
  (skill_messaging.py:145).
  - A trailing `read_all` on list items therefore reports success.
  - An empty request list reads an unassigned variable, so the handler raises.
- Only a `ServiceException` produces the uniform failure envelope. Every other exception leaves
  the handler with no envelope and no callback record. This includes typed-parsing failures,
  transport faults, and `to_dict` on a missing entity.
- Only 429 and 500 are retried, not every 5xx. At least one attempt is always made, even when
  `max_attempts` is below one.
- The created-items event is handled exactly like the updated and deleted events. Each is
  forwarded as one list-event record and answered with a one-request message; no items are
  filtered, batch-created or marked complete.

## Model

| member | source | states |
|---|---|---|
| `HttpClient.NormaliseBaseUrl` | Lambda/src/clients/shopping_list_api.py:21-30 | an empty base URL is a ValueError; otherwise the result ends with "/", contains "http", keeps the URL and adds "https://" exactly when "http" did not occur |
| `HttpClient.NormaliseIdempotent` | Lambda/src/clients/shopping_list_api.py:21-30 | normalising an already normalised base URL returns it unchanged |
| `HttpClient.SchemeAddedIffMissing` | Lambda/src/clients/shopping_list_api.py:27-28 | "https://" is prepended if and only if "http" occurs nowhere in the given URL |
| `HttpClient.SlashKeepsScheme` | Lambda/src/clients/shopping_list_api.py:24-28 | appending the trailing slash before the scheme test neither creates nor hides an occurrence of "http" |
| `HttpClient.NewClient` | Lambda/src/clients/shopping_list_api.py:13-41 | construction fails exactly for an empty base URL and otherwise keeps the token, timeout, throttle and attempt bound |
| `HttpClient.ResolveUrl` | Lambda/src/clients/shopping_list_api.py:51-57 | "" and "/" are ValueErrors; any other endpoint yields a URL that starts with the base and continues with the endpoint minus one leading "/" |
| `HttpClient.BuildRequest` | Lambda/src/clients/shopping_list_api.py:51-70 | the request of every attempt has the upper-cased method, the joined URL and the given payload |
| `HttpClient.AttemptBound` | Lambda/src/clients/shopping_list_api.py:59-76 | the loop can run at most max(1, max_attempts) attempts |
| `HttpClient.Surface` | Lambda/src/clients/shopping_list_api.py:62-80 | a response whose status is outside 400–599 is returned, a 4xx/5xx becomes an HTTP error carrying its status, a transport exception propagates as itself |
| `HttpClient.Run` | Lambda/src/clients/shopping_list_api.py:59-83 | the loop makes between 1 and max(1, max_attempts) attempts and sleeps once fewer; every attempt but the last was a retryable 429/500 below the bound, and the last attempt's outcome is the result |
| `HttpClient.RetryLoop` | Lambda/src/clients/shopping_list_api.py:59-83 | the while-loop over attempts computes the same exchange as the recursive definition, with attempts and sleeps counted |
| `HttpClient.Perform` | Lambda/src/clients/shopping_list_api.py:43-83 | an invalid endpoint raises before any attempt; otherwise the built request is sent and the retry loop decides the result |
| `HttpClient.Request` | Lambda/src/clients/shopping_list_api.py:43-83 | `_request` as a method: nothing sent for "" or "/", else an upper-cased request to a URL under the base, 1..bound attempts and one sleep fewer |
| `HttpClient.SuccessOnAttempt` | Lambda/src/clients/shopping_list_api.py:59-72 | success on attempt k returns that response after exactly k requests and k-1 sleeps |
| `HttpClient.StopsAt` | Lambda/src/clients/shopping_list_api.py:59-83 | the loop stops at the first attempt that does not retry |
| `HttpClient.NonRetryableStatusStops` | Lambda/src/clients/shopping_list_api.py:74-80 | an HTTP error outside {429, 500} is re-raised on the attempt that got it, with no further requests |
| `HttpClient.TransportFaultStops` | Lambda/src/clients/shopping_list_api.py:62-76 | a non-HTTP exception propagates on the attempt that raised it, without retry |
| `HttpClient.AllRetryableExhausts` | Lambda/src/clients/shopping_list_api.py:7-83 | when every attempt gets 429 or 500, exactly max(1, max_attempts) requests and one sleep fewer are made and the last status propagates |
| `HttpClient.Send` | Lambda/src/clients/shopping_list_api.py:85-129 | a request is sent exactly when the endpoint is neither "" nor "/", to the endpoint joined onto the base URL; the verb helpers send their verb's name; GET and HEAD send no payload, the others forward it |
| `ApiModels.ParseItem` | Lambda/src/models/shopping_list_api.py:6-12 | an item parses exactly when id and value are strings and the status is absent or a valid state; a given status is kept and a missing one is active |
| `ApiModels.ParseItems` | Lambda/src/models/shopping_list_api.py:15-17 | a batch parses exactly when list_id is a string and list_items is an array whose every element parses; it then holds the list_id and the items in order |
| `ApiModels.ItemRoundTrip` | Lambda/src/models/shopping_list_api.py:6-12 | an item serialised with its status as the enum's value string parses back to itself |
| `ApiModels.ItemsRoundTrip` | Lambda/src/models/shopping_list_api.py:15-17 | a serialised batch parses back to the same list_id and items |
| `ApiFacade.NewInterface` | Lambda/src/interfaces/shopping_list_api.py:12-13 | constructing the facade fails exactly when the base URL is empty; the client gets the default attempt bound |
| `ApiFacade.IsValid` | Lambda/src/interfaces/shopping_list_api.py:15-24 | valid is true when the validation GET completes, false on an HTTP error after retries, and other exceptions propagate |
| `ApiFacade.ValidationGivesUpAfterRetries` | Lambda/src/interfaces/shopping_list_api.py:15-24 | with three attempts and a route that keeps answering 429/500, the check reports invalid after three requests and two sleeps |
| `ApiFacade.CreateShoppingListItems` | Lambda/src/interfaces/shopping_list_api.py:26-33 | the batch is POSTed as its serialised form to the create-items route through the retrying client; an HTTP failure propagates, otherwise the response is parsed as a batch |
| `ApiFacade.CreateEchoReturnsBatch` | Lambda/src/interfaces/shopping_list_api.py:26-33 | when the API echoes the batch it was sent, the facade returns exactly that batch |
| `ListModels.OptionalListState` | Lambda/src/models/lists.py:18-38 | a missing state defaults to active; a present one must be "active" or "archived" |
| `ListModels.OptionalItemStatus` | Lambda/src/models/lists.py:51-68 | a missing status defaults to active; a present one must be "active" or "completed" |
| `ListModels.ParseReadList` | Lambda/src/models/lists.py:18-20 | a read-list request needs a list_id string; a given state is kept and a missing one is active |
| `ListModels.ParseCreateList` | Lambda/src/models/lists.py:23-25 | a create-list request needs a name; a given state is kept and a missing one is active |
| `ListModels.ParseUpdateList` | Lambda/src/models/lists.py:31-35 | an update-list request needs list_id, name and an integer version (no default); state defaults to active |
| `ListModels.ParseDeleteList` | Lambda/src/models/lists.py:41-42 | a delete-list request needs only list_id |
| `ListModels.ParseReadListItem` | Lambda/src/models/lists.py:46-48 | a read-item request needs both list_id and item_id |
| `ListModels.ParseCreateListItem` | Lambda/src/models/lists.py:51-54 | a create-item request needs list_id and value; a given status is kept and a missing one is active |
| `ListModels.ParseUpdateListItem` | Lambda/src/models/lists.py:60-65 | an update-item request needs list_id, item_id, value and an integer version; status defaults to active |
| `ListModels.ParseDeleteListItem` | Lambda/src/models/lists.py:71-73 | a delete-item request needs only list_id and item_id |
| `ListModels.UpdateListRoundTrip` | Lambda/src/models/lists.py:31-35 | an update-list request's object data parses back to the same request |
| `ListModels.UpdateListItemRoundTrip` | Lambda/src/models/lists.py:60-65 | an update-item request's object data parses back to the same request |
| `ListModels.CreateListRoundTrip` | Lambda/src/models/lists.py:23-25 | a create-list request's object data parses back to the same request |
| `ListModels.CreateListItemRoundTrip` | Lambda/src/models/lists.py:51-54 | a create-item request's object data parses back to the same request |
| `ListModels.UpdateListRequestFromData` | Lambda/src/models/lists.py:37-38 | the update-list host request carries the parsed name, state and version |
| `ListModels.UpdateListItemRequestFromData` | Lambda/src/models/lists.py:67-68 | the update-item host request carries the parsed value, status and version |
| `ListModels.CreateListRequestFromData` | Lambda/src/models/lists.py:27-28 | the create-list host request carries exactly the parsed name and state |
| `ListModels.CreateListItemRequestFromData` | Lambda/src/models/lists.py:56-57 | the create-item host request carries value and status, not the list id |
| `ListManagement.Fetched` | Lambda/src/interfaces/list_management.py:32-53 | read and create methods return the host's error value or entity unchanged and let exceptions through |
| `ListManagement.Mutated` | Lambda/src/interfaces/list_management.py:55-67 | update and delete methods return the host's error unchanged and otherwise None, never an entity |
| `ListManagement.ReadAllLists` | Lambda/src/interfaces/list_management.py:32-39 | one metadata call; its reply is returned as entity or error |
| `ListManagement.ReadList` | Lambda/src/interfaces/list_management.py:41-46 | passes the list id and the state's value string |
| `ListManagement.CreateList` | Lambda/src/interfaces/list_management.py:48-53 | sends a create request carrying the name and state |
| `ListManagement.UpdateList` | Lambda/src/interfaces/list_management.py:55-60 | sends the list id and a request with name, state and version; success is None |
| `ListManagement.DeleteList` | Lambda/src/interfaces/list_management.py:62-67 | sends only the list id; success is None |
| `ListManagement.ReadListItem` | Lambda/src/interfaces/list_management.py:69-74 | passes the list id and the item id |
| `ListManagement.CreateListItem` | Lambda/src/interfaces/list_management.py:76-81 | sends the list id beside a request carrying value and status |
| `ListManagement.UpdateListItem` | Lambda/src/interfaces/list_management.py:83-90 | sends both ids and a request with value, status and version; success is None |
| `ListManagement.DeleteListItem` | Lambda/src/interfaces/list_management.py:92-97 | sends only the two ids; success is None |
| `ListManagement.InvokeResult` | Lambda/src/interfaces/list_management.py:32-97 | read and create methods treat the host reply as `Fetched` does, update and delete methods as `Mutated` does |
| `ListManagement.ErrorsPassThrough` | Lambda/src/interfaces/list_management.py:32-97 | every method returns the host's Error unchanged and no method catches host exceptions |
| `ListManagement.MutationsReturnNoEntity` | Lambda/src/interfaces/list_management.py:32-97 | update/delete never return an entity and return None on success; read/create return the host's entity |
| `ListManagement.VersionOnlyOnUpdates` | Lambda/src/interfaces/list_management.py:55-97 | update calls carry the request's version, delete calls carry only ids |
| `Messages.ParseOperation` | Lambda/src/models/messages.py:7-12 | exactly the five strings create, read, read_all, update, delete are operations |
| `Messages.ParseObjectType` | Lambda/src/models/messages.py:15-17 | exactly the two strings list and list_item are object types |
| `Messages.ParseRequest` | Lambda/src/models/messages.py:20-25 | a request parses exactly when operation and object_type are valid and object_data and metadata are absent, null or objects; the parsed fields are those values |
| `Messages.ParseMessage` | Lambda/src/models/messages.py:28-34 | a message parses exactly when source and event_id are strings, requests is an array of valid requests, and metadata and send_callback_response are absent, null or of their kind; the parsed fields are those values |
| `Messages.OptionalBool` | Lambda/src/models/messages.py:34 | an absent or null flag is None, a given boolean is kept as itself, anything else fails |
| `Messages.ResponseToJson` | Lambda/src/models/messages.py:43-45 | the API response has exactly source_message and body; the source message part parses back to the message |
| `Messages.RequestRoundTrip` | Lambda/src/models/messages.py:20-25 | a request serialised without its None fields parses back to itself |
| `Messages.MessageRoundTrip` | Lambda/src/models/messages.py:28-34 | a message serialised without its None fields parses back to itself |
| `Messages.NoneFieldsOmitted` | Lambda/src/models/messages.py:28-34 | the serialised message holds the required keys and an optional key exactly when its value is present |
| `Messages.BodyNoneFieldsOmitted` | Lambda/src/models/messages.py:37-40 | the serialised body holds success, and detail and data exactly when present |
| `Store.DefaultColumnIsExpires` | Lambda/src/interfaces/dynamodb.py:15-17 | the TTL column defaults to "expires" |
| `Store.Ceil` | Lambda/src/interfaces/dynamodb.py:22 | the ceiling of the clock is the least integer not below it |
| `Store.TtlTimestamp` | Lambda/src/interfaces/dynamodb.py:19-23 | the timestamp is start + seconds; an absent or zero start is replaced by the ceiling of now |
| `Store.Put` | Lambda/src/interfaces/dynamodb.py:31-37 | a non-zero expiration sets the TTL column to the timestamp; None or 0 writes the item unchanged; no other key changes |
| `Store.PutExpiresAfter` | Lambda/src/interfaces/dynamodb.py:19-37 | a positive expiration stamps a time at least that many seconds after now and less than one second more |
| `Store.CallbackRecord` | Lambda/src/models/dynamodb.py:6-9 | the callback record has exactly event_source, event_id and data (pre-serialised text), and no expiry field |
| `Router.Dispatch` | Lambda/src/handlers/skill_messaging.py:67-131 | every (operation, object type) pair maps to the facade method for that pair, except read_all on list items, which has none |
| `Router.DispatchIsInverse` | Lambda/src/handlers/skill_messaging.py:67-131 | each of the nine facade methods is reached by its own pair |
| `Router.TypedRequest` | Lambda/src/handlers/skill_messaging.py:74-131 | the object data is parsed into the chosen method's typed request, which succeeds exactly when that model's parse succeeds and then holds the parsed request; read_all ignores the data |
| `Router.Entry` | Lambda/src/handlers/skill_messaging.py:133-135 | a non-empty response dict becomes an entry whose "metadata" key is overwritten with the request's metadata, every other key kept |
| `Router.Outcome` | Lambda/src/handlers/skill_messaging.py:69-141 | a ServiceException aborts, any other exception escapes, `to_dict()` on a missing read/create result escapes, and an entity or error becomes an entry |
| `Router.Process` | Lambda/src/handlers/skill_messaging.py:64-141 | one request: unmatched pairs are skipped; bad object data escapes before any call; the call is the facade call of the parsed request; a host ServiceException aborts and any other host exception escapes; a read/create answered with None escapes; update/delete add an entry only for an Error; read/read_all/create add the entity or error |
| `Router.RunPrefix` | Lambda/src/handlers/skill_messaging.py:61-137 | the loop completes exactly when no request halts it; the calls and entries then follow request order, and the error flag is the last request's |
| `Router.HaltedPrefix` | Lambda/src/handlers/skill_messaging.py:61-141 | once a request raises, later requests make no call and the batch ends with that request's exception |
| `Router.BodyOf` | Lambda/src/handlers/skill_messaging.py:137-147 | a ServiceException gives the fixed failure detail without data; otherwise success is "the last response is not an Error" and data holds the entries; with no requests the read of `response` fails |
| `Router.Respond` | Lambda/src/handlers/skill_messaging.py:53-162 | the envelope echoes the source message and is handed back as the API response without None fields; exactly one callback put, to the callback table, when send_callback_response is true, none otherwise |
| `Router.RouteMessage` | Lambda/src/handlers/skill_messaging.py:49-53 | an absent or empty payload gives the bare response; a payload that fails to parse raises; otherwise the parsed message is routed |
| `RouterProperties.ParsedMessageIsRouted` | Lambda/src/handlers/skill_messaging.py:49-53 | a payload that parses as a message is a non-empty object, so it is routed as that message rather than given the bare response |
| `RouterProperties.SerialisedMessageIsRouted` | Lambda/src/handlers/skill_messaging.py:49-53 | the serialised form of a message is routed as that message |
| `RouterProperties.SuccessReflectsLastRequest` | Lambda/src/handlers/skill_messaging.py:64-147 | without an exception, success is true exactly when the last request did not leave an Error; data holds all entries in order |
| `RouterProperties.EmptyRequestsEscape` | Lambda/src/handlers/skill_messaging.py:143-147 | an empty request list raises at the read of `response`: no envelope and no callback |
| `RouterProperties.ServiceExceptionAbortsBatch` | Lambda/src/handlers/skill_messaging.py:137-141 | when the host raises a ServiceException for request k, the batch stops: no later call, success false, the fixed detail, no data |
| `RouterProperties.OtherFailureEscapes` | Lambda/src/handlers/skill_messaging.py:61-137 | any other exception on request k leaves the handler with no envelope and no callback, after the calls up to k |
| `RouterProperties.UpdateWithoutVersionEscapes` | Lambda/src/handlers/skill_messaging.py:93-96 | an update without a version fails typed parsing before any host call and is not caught |
| `RouterProperties.UpdateListStep` | Lambda/src/handlers/skill_messaging.py:93-99 | an update-list request makes the update call; an Error reply becomes an entry, an empty reply adds nothing |
| `RouterProperties.ErrorThenSuccessReportsSuccess` | Lambda/src/handlers/skill_messaging.py:98-147 | an Error on the first update followed by a successful second update reports success with the first error as the only entry |
| `RouterProperties.CallbackRecordContents` | Lambda/src/handlers/skill_messaging.py:152-159 | a put happens exactly when asked, keyed by source and event id, with the serialised body and an "expires" TTL exactly when the expiration is non-zero |
| `ListEvents.EventOperation` | Lambda/src/handlers/list_events.py:32-62 | exactly the three item events are accepted: created maps to create, updated to update, deleted to delete; anything else raises |
| `ListEvents.ResponseMessage` | Lambda/src/handlers/list_events.py:89-98 | the answer has source "Alexa", the request id, and one list-item request with the event's operation and no object data |
| `ListEvents.HandleEventResponse` | Lambda/src/handlers/list_events.py:103-105 | the API response is the message serialised without its None fields, and it parses back to the same message |
| `ListEvents.HandleListItemEvent` | Lambda/src/handlers/list_events.py:42-100 | body checked before the token; no token gives an empty response and no post; the posted record copies the event's ids, its timestamp falls back to now, a linked valid event with a base URL is always posted, and a failed post propagates |
| `ListEvents.LinkedEventIsForwarded` | Lambda/src/handlers/list_events.py:69-100 | a linked user's valid event is posted and answered when the API address is configured and the post succeeds |
| `ListEvents.MissingBaseUrlFailsBeforePost` | Lambda/src/handlers/list_events.py:86-87 | with no API address the facade constructor raises before anything is posted |
| `ListEvents.ResponseOmitsNoneFields` | Lambda/src/handlers/list_events.py:89-105 | the serialised answer has only source, event_id and requests, and the one request has only operation and object_type |
| `Values.ParseEach` | Lambda/src/models/messages.py:31 | a list parses exactly when every element parses, keeping length and order |
| `Text.OccursIsWindow` | Lambda/src/clients/shopping_list_api.py:27 | the recursive substring test agrees with "some window of the string equals the pattern" |
| `Text.Upper` | Lambda/src/clients/shopping_list_api.py:64 | upper-casing keeps the length and maps each character |
| `Text.UpperIdempotent` | Lambda/src/clients/shopping_list_api.py:64 | upper-casing an upper-cased method name changes nothing |

## Left out

- Network, sessions, headers, query parameters, the bearer header and the per-request timeout are
  not modelled. Each attempt's outcome is a parameter.
- `time.sleep` and the throttle delay are not modelled: sleeps are counted. `time.time()` and
  `datetime.now()` are the `now` parameters.
- `json.dumps` is the `dumps` parameter, and the JSON text is not modelled. The pydantic coercions
  (`parse_obj` turning "1" into 1 or "true" into True) are also left out: each field accepts only
  its own JSON kind. Extra keys are ignored, as in pydantic's default configuration.
- The `to_dict()` of host entities is not modelled: an entity or error is its dictionary.
- Text.Upper: upper-cases ASCII letters only. Python's `str.upper` also maps non-ASCII letters;
  the method names passed here are ASCII.
- `models/_base.py` (the `AlexaBase` configuration) and `config.py` are not part of this model.
  Field names are taken as declared. The two API routes, the callback table name
  (`CALLBACK_EVENT_TABLENAME`), `CALLBACK_EVENT_EXPIRATION` and `USL_BASE_URL` are parameters.
- `ShoppingListAPIListEvent` and `post_list_item_event` are not part of this model: neither is
  defined in the interface or model files it covers. The post is an external call whose failure is the `postFault` parameter, and its
  serialisation is not modelled.
- ListEvents.HandleListItemEvent: the list-management client the handler builds and the log line
  are not modelled, because neither influences the result.
- `DynamoDB.get`, boto3 and the DynamoDB JSON encoding are left out as I/O. `Store.Put` returns the
  item it would write.
- The skill's voice-intent handlers, account linking, the secrets fetch and the SDK bootstrap are
  left out as I/O around the core.
- The callback store's own reaping of expired records is left out; it belongs to the service, not
  to this code.
