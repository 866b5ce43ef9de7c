/** The last step every endpoint adapter shares: fetch the shared client,
    post the envelope, and decode the table with the adapter's coercion rule. */
module Endpoint {
  import opened Wrappers
  import opened JsValues
  import opened Errors
  import opened Http
  import opened Columnar

  /** What one adapter call comes to: it threw before any request was sent,
      or exactly one request went out and the call ended with the whole
      decoded table or an error (never a partial table). */
  datatype Call =
    | Rejected(error: Error)
    | Sent(request: HttpRequest, outcome: Result<seq<Row>, Error>)

  /** A request handed to the `request` method of a base class that is not
      part of this model (kline and stock adapters). */
  datatype Request = Request(apiName: string, params: Options, fields: Value)

  /** The `...rest` of an object destructuring: every key not named, with
      its value. */
  function Omit(o: Options, named: set<string>): (r: Options)
    ensures r.Keys == o.Keys - named
    ensures forall k :: k in r ==> r[k] == o[k]
  {
    map k | k in o && k !in named :: o[k]
  }

  /** `const { fields, ...params } = options`: the `fields` option taken
      apart from all the others, which keep their values. */
  function SplitFields(o: Options): (r: (Value, Options))
    ensures r.0 == Lookup(o, "fields")
    ensures r.1.Keys == o.Keys - {"fields"}
    ensures forall k :: k in r.1 ==> r.1[k] == o[k]
  {
    (Lookup(o, "fields"), Omit(o, {"fields"}))
  }

  /** getHttpClient, then post, then decode; `response` is what the network
      answers to the request. */
  function Deliver(client: HttpClient?, apiName: string, params: Options, fields: Value,
                   response: HttpResponse, rule: Coercion): (c: Call)
    ensures client == null <==> c.Rejected?
    ensures client == null ==> c.error == PlainError(NotInitializedMessage)
    ensures c.Sent? ==> c.request.url == client.baseUrl && c.request.body.token == client.token
    ensures c.Sent? ==> c.request.body.apiName == apiName && c.request.body.params == params &&
                        c.request.body.fields == fields
    ensures c.Sent? ==> (c.outcome.Success? <==> Classify(response).Success?)
    ensures c.Sent? && c.outcome.Failure? ==> Classify(response) == Failure(c.outcome.error)
    ensures c.Sent? && c.outcome.Success? ==>
              |c.outcome.value| == |response.body.data.items| &&
              c.outcome.value == DecodeTable(response.body.data, rule)
  {
    if client == null then Rejected(PlainError(NotInitializedMessage))
    else
      var (request, result) := client.Post(apiName, params, fields, response);
      match result
      case Failure(e) => Sent(request, Failure(e))
      case Success(p) => Sent(request, Success(DecodeTable(p, rule)))
  }

  /** The shared tail of every getData, as the adapters run it. */
  method Send(shared: SharedClient, apiName: string, params: Options, fields: Value,
              response: HttpResponse, rule: Coercion) returns (c: Call)
    ensures c == Deliver(shared.httpClient, apiName, params, fields, response, rule)
  {
    var got := shared.GetHttpClient();
    if got.Failure? {
      return Rejected(got.error);
    }
    var (request, result) := got.value.Post(apiName, params, fields, response);
    if result.Failure? {
      return Sent(request, Failure(result.error));
    }
    var rows := DecodeRows(result.value, rule);
    return Sent(request, Success(rows));
  }
}
