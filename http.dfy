/** The HTTP client: the request envelope every endpoint sends, the
    classification of the provider's answer, and the module-level client
    that initHttpClient sets and getHttpClient reads. The network itself is
    not modelled: a call is given the response the network returns. */
module Http {
  import opened Wrappers
  import opened Formats
  import opened JsValues
  import opened Errors

  /** The provider's production URL, used when no base URL is given. */
  const DefaultBaseUrl: string := "http://api.tushare.pro"

  const NotInitializedMessage: string :=
    "HTTP client not initialized. Please call initHttpClient first."

  /** The JSON body of every request: `{api_name, token, params, fields}`. */
  datatype Envelope = Envelope(apiName: string, token: string, params: Options, fields: Value)

  /** What is handed to fetch: the URL it POSTs to and the body. */
  datatype HttpRequest = HttpRequest(url: string, body: Envelope)

  /** The provider's columnar table: column names and one value list per row. */
  datatype Payload = Payload(fields: seq<string>, items: seq<seq<Value>>)

  /** The parsed JSON body of a response: `{code, msg, data}`. */
  datatype ResponseBody = ResponseBody(code: Value, msg: Value, data: Payload)

  /** A transport response: `response.ok`, `response.status`, and the body
      that `response.json()` would parse. */
  datatype HttpResponse = HttpResponse(ok: bool, status: int, body: ResponseBody)

  function HttpErrorMessage(status: int): string {
    "HTTP error! status: " + DecimalString(status)
  }

  function ApiErrorMessage(msg: Value): string {
    "API error: " + ToJsString(msg)
  }

  /** The two checks of HttpClient.post: a transport failure first, then a
      provider error code; on success the envelope's `data` is returned as it is. */
  function Classify(response: HttpResponse): (r: Result<Payload, Error>)
    ensures r.Success? <==> response.ok && response.body.code == Num(0)
    ensures r.Success? ==> r.value == response.body.data
    ensures !response.ok ==> r == Failure(PlainError(HttpErrorMessage(response.status)))
    ensures response.ok && response.body.code != Num(0) ==>
              r == Failure(PlainError(ApiErrorMessage(response.body.msg)))
  {
    if !response.ok then Failure(PlainError(HttpErrorMessage(response.status)))
    else if response.body.code != Num(0) then Failure(PlainError(ApiErrorMessage(response.body.msg)))
    else Success(response.body.data)
  }

  /** A non-ok response fails before its body is looked at: any other body
      gives the same result. */
  lemma BodyUnreadWhenNotOk(response: HttpResponse, other: ResponseBody)
    requires !response.ok
    ensures Classify(response.(body := other)) == Classify(response)
  {
  }

  /** A provider error fails whatever the table holds. */
  lemma DataUnreadOnApiError(response: HttpResponse, other: Payload)
    requires response.body.code != Num(0)
    ensures Classify(response.(body := response.body.(data := other))) == Classify(response)
  {
  }

  /** Failures are plain Errors: neither HTTPError nor TushareAPIError is raised. */
  lemma OnlyPlainErrors(response: HttpResponse)
    ensures Classify(response).Failure? ==>
              !Classify(response).error.HTTPError? && !Classify(response).error.TushareAPIError?
  {
  }

  /** The HTTP error message carries the status: different statuses give
      different messages. */
  lemma HttpErrorMessageInjective(a: int, b: int)
    requires HttpErrorMessage(a) == HttpErrorMessage(b)
    ensures a == b
  {
    var prefix := "HTTP error! status: ";
    assert HttpErrorMessage(a)[|prefix|..] == DecimalString(a);
    assert HttpErrorMessage(b)[|prefix|..] == DecimalString(b);
    DecimalStringInjective(a, b);
  }

  /** The API error message carries the provider's message text. */
  lemma ApiErrorMessageCarriesMsg(msg: string)
    ensures ApiErrorMessage(Str(msg))[|"API error: "|..] == msg
  {
  }

  function BaseUrlOrDefault(baseUrl: Option<string>): string {
    if baseUrl.Some? then baseUrl.value else DefaultBaseUrl
  }

  /** HttpClient: a base URL and a token, fixed at construction. */
  class HttpClient {
    const baseUrl: string
    const token: string

    /** `new HttpClient(baseUrl, token)`; an omitted (undefined) base URL
        takes the default. */
    constructor(baseUrl: Option<string>, token: string)
      ensures this.baseUrl == BaseUrlOrDefault(baseUrl)
      ensures this.token == token
    {
      this.baseUrl := BaseUrlOrDefault(baseUrl);
      this.token := token;
    }

    /** HttpClient.post: POST the envelope to the base URL, then classify
        the response the network returns. */
    function Post(apiName: string, params: Options, fields: Value, response: HttpResponse)
      : (r: (HttpRequest, Result<Payload, Error>))
      ensures r.0.url == baseUrl
      ensures r.0.body.token == token
      ensures r.0.body.apiName == apiName && r.0.body.params == params && r.0.body.fields == fields
      ensures r.1 == Classify(response)
    {
      (HttpRequest(baseUrl, Envelope(apiName, token, params, fields)), Classify(response))
    }
  }

  /** The module-level `httpClient` variable of the HTTP utility, with the
      two functions that set and read it. */
  class SharedClient {
    var httpClient: HttpClient?

    /** Module load: no client yet. */
    constructor()
      ensures httpClient == null
    {
      httpClient := null;
    }

    /** initHttpClient: a new client replaces whatever was there. */
    method InitHttpClient(token: string, baseUrl: Option<string>)
      modifies this
      ensures httpClient != null && fresh(httpClient)
      ensures httpClient.token == token && httpClient.baseUrl == BaseUrlOrDefault(baseUrl)
    {
      httpClient := new HttpClient(baseUrl, token);
    }

    /** getHttpClient: fails until initHttpClient has been called. */
    method GetHttpClient() returns (r: Result<HttpClient, Error>)
      ensures httpClient == null ==> r == Failure(PlainError(NotInitializedMessage))
      ensures httpClient != null ==> r == Success(httpClient)
    {
      if httpClient == null {
        return Failure(PlainError(NotInitializedMessage));
      }
      return Success(httpClient);
    }
  }

  /** The lifecycle: getHttpClient fails before any initHttpClient; after
      it, the client has that token; a second initHttpClient replaces the
      first client. */
  method Lifecycle(t1: string, t2: string, url: Option<string>)
    returns (before: Result<HttpClient, Error>, first: Result<HttpClient, Error>, second: Result<HttpClient, Error>)
    ensures before == Failure(PlainError(NotInitializedMessage))
    ensures first.Success? && first.value.token == t1 && first.value.baseUrl == BaseUrlOrDefault(url)
    ensures second.Success? && second.value.token == t2 && second.value.baseUrl == DefaultBaseUrl
    ensures second.value != first.value
  {
    var shared := new SharedClient();
    before := shared.GetHttpClient();
    shared.InitHttpClient(t1, url);
    first := shared.GetHttpClient();
    shared.InitHttpClient(t2, None);
    second := shared.GetHttpClient();
  }
}
