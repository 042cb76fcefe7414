/** The typed facade over the HTTP client: a credential check and a batch create.
    Routes come from configuration and are parameters here. */
module ApiFacade {
  import opened Values
  import opened HttpClient
  import opened ApiModels

  datatype Routes = Routes(validation: string, createListItems: string)

  /** The facade owns a client built with the client's default timeout, throttle and attempts. */
  datatype ApiInterface = ApiInterface(client: Client)

  /** Construction delegates to the client, so an empty base URL fails here. */
  function NewInterface(baseUrl: string, authToken: string): (r: Result<ApiInterface>)
    ensures r.Err? <==> baseUrl == ""
    ensures r.Err? ==> r.fault.ValueError?
    ensures r.Ok? ==> Ok(r.value.client.baseUrl) == NormaliseBaseUrl(baseUrl)
    ensures r.Ok? ==> r.value.client.authToken == authToken && r.value.client.maxAttempts == DefaultMaxAttempts
  {
    match NewClient(baseUrl, authToken)
    case Err(f) => Err(f)
    case Ok(c) => Ok(ApiInterface(c))
  }

  datatype Validity = Validity(call: Call, valid: Result<bool>)

  /** `is_valid`: a GET of the validation route. It is true when the call completes,
      false on an HTTP error (after the client's retries), and any other failure
      propagates. */
  function IsValid(api: ApiInterface, routes: Routes, outcomes: seq<AttemptOutcome>): (r: Validity)
    requires AttemptBound(api.client.maxAttempts) <= |outcomes|
    ensures r.call == Send(api.client, Get, routes.validation, None, outcomes)
    ensures r.valid == Ok(true) <==> r.call.exchange.result.Ok?
    ensures r.valid == Ok(false) <==> r.call.exchange.result.Err? && r.call.exchange.result.fault.HttpFailure?
    ensures r.valid.Err? ==> r.valid.fault == r.call.exchange.result.fault && !r.valid.fault.HttpFailure?
  {
    var call := Send(api.client, Get, routes.validation, None, outcomes);
    var valid := match call.exchange.result
                 case Ok(_) => Ok(true)
                 case Err(HttpFailure(_)) => Ok(false)
                 case Err(f) => Err(f);
    Validity(call, valid)
  }

  /** With the default three attempts, a validation route that keeps answering 429 or 500
      is reported invalid after exactly three requests and two sleeps. */
  lemma ValidationGivesUpAfterRetries(api: ApiInterface, routes: Routes, outcomes: seq<AttemptOutcome>)
    requires api.client.maxAttempts == DefaultMaxAttempts && |outcomes| >= 3
    requires routes.validation != "" && routes.validation != "/"
    requires forall j :: 0 <= j < 3 ==> outcomes[j].Responded? && IsRetryStatus(outcomes[j].response.status)
    ensures var r := IsValid(api, routes, outcomes);
            r.valid == Ok(false) && r.call.exchange.attempts == 3 && r.call.exchange.sleeps == 2
  {
    AllRetryableExhausts(outcomes, api.client.maxAttempts);
    assert outcomes[2].response.status in RetryStatuses;
  }

  datatype Created = Created(call: Call, items: Result<ApiListItems>)

  /** `create_shopping_list_items`: POSTs the serialised batch to the create route and parses
      the response back into a batch; HTTP and transport failures propagate. */
  function CreateShoppingListItems(api: ApiInterface, routes: Routes, items: ApiListItems,
                                   outcomes: seq<AttemptOutcome>): (r: Created)
    requires AttemptBound(api.client.maxAttempts) <= |outcomes|
    ensures r.call == Send(api.client, Post, routes.createListItems, Some(ItemsToJson(items)), outcomes)
    ensures r.call.sent.Some? ==> r.call.sent.value.httpMethod == "POST"
    ensures r.call.sent.Some? ==> r.call.sent.value.payload == Some(ItemsToJson(items))
    ensures r.call.exchange.result.Err? ==> r.items == Err(r.call.exchange.result.fault)
    ensures r.call.exchange.result.Ok? ==> r.items == ParseItems(r.call.exchange.result.value.body)
  {
    var call := Send(api.client, Post, routes.createListItems, Some(ItemsToJson(items)), outcomes);
    var parsed := match call.exchange.result
                  case Err(f) => Err(f)
                  case Ok(resp) => ParseItems(resp.body);
    Created(call, parsed)
  }

  /** When the API answers with the batch it was sent, the facade returns that batch. */
  lemma CreateEchoReturnsBatch(api: ApiInterface, routes: Routes, items: ApiListItems,
                               outcomes: seq<AttemptOutcome>)
    requires AttemptBound(api.client.maxAttempts) <= |outcomes|
    requires CreateShoppingListItems(api, routes, items, outcomes).call.exchange.result.Ok?
    requires CreateShoppingListItems(api, routes, items, outcomes).call.exchange.result.value.body == ItemsToJson(items)
    ensures CreateShoppingListItems(api, routes, items, outcomes).items == Ok(items)
  {
    ItemsRoundTrip(items);
  }
}
