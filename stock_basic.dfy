/** The stock_basic adapter (StockBasicAPI): the listing of stocks. Two
    parameters have enumeration validators; `fields` is taken out of the
    options and sent as an array; the decode is a plain zip. */
module StockBasic {
  import opened Wrappers
  import opened JsValues
  import opened Errors
  import opened Base
  import opened Http
  import opened Columnar
  import opened Endpoint

  /** `['L', 'D', 'P'].includes(value)`: strict equality, no conversion. */
  function ListStatusCheck(v: Value): (r: Verdict)
    ensures r == Accepts <==> v in [Str("L"), Str("D"), Str("P")]
    ensures !r.Throws?
  {
    FromBool(v == Str("L") || v == Str("D") || v == Str("P"))
  }

  /** `['N', 'H', 'S'].includes(value)`. */
  function IsHsCheck(v: Value): (r: Verdict)
    ensures r == Accepts <==> v in [Str("N"), Str("H"), Str("S")]
    ensures !r.Throws?
  {
    FromBool(v == Str("N") || v == Str("H") || v == Str("S"))
  }

  const ListStatusSpec: ParamSpec := ParamSpec("list_status", false, Some(Str("L")), Some(ListStatusCheck))
  const IsHsSpec: ParamSpec := ParamSpec("is_hs", false, None, Some(IsHsCheck))

  /** StockBasicAPI.requestParams, in declaration order. */
  const Specs: seq<ParamSpec> := [
    ParamSpec("ts_code", false, None, None),
    ParamSpec("name", false, None, None),
    ParamSpec("exchange", false, None, None),
    ParamSpec("market", false, None, None),
    ListStatusSpec,
    IsHsSpec,
    ParamSpec("fields", false, None, None)
  ]

  const DefaultFields: seq<string> := ["ts_code", "symbol", "name", "area", "industry", "list_date"]

  /** Validation passes exactly when a given list_status is L, D or P and a
      given is_hs is N, H or S; every other parameter accepts any value. */
  lemma {:induction false} ValidationPassIff(o: Options)
    ensures CheckSpecs(Specs, o) == Pass <==>
              && (Lookup(o, "list_status") == Undefined || Lookup(o, "list_status") in [Str("L"), Str("D"), Str("P")])
              && (Lookup(o, "is_hs") == Undefined || Lookup(o, "is_hs") in [Str("N"), Str("H"), Str("S")])
  {
    PassIffAllPass(Specs, o);
    forall i | 0 <= i < |Specs| && i != 4 && i != 5 ensures CheckSpec(Specs[i], o) == Pass {
      assert !Specs[i].required && Specs[i].validator.None?;
    }
    assert Specs[4] == ListStatusSpec && Specs[5] == IsHsSpec;
  }

  /** `fields || this.defaultFields`: the array itself, not joined. Every
      array is truthy, so an empty one is sent as it is. */
  function FieldsArgument(fields: Value): (f: Value)
    ensures Truthy(fields) ==> f == fields
    ensures !Truthy(fields) ==> f == StrArray(DefaultFields)
  {
    if Truthy(fields) then fields else StrArray(DefaultFields)
  }

  /** What getData does, as one function of the shared client, the options
      and the network's response. */
  function StockBasicCall(client: HttpClient?, o: Options, response: HttpResponse): Call {
    match CheckSpecs(Specs, o)
    case Fail(f) => Rejected(ErrorOf(f))
    case Pass =>
      var (fields, params) := SplitFields(o);
      Deliver(client, "stock_basic", params, FieldsArgument(fields), response, Verbatim)
  }

  /** StockBasicAPI.getData. */
  method GetData(shared: SharedClient, options: Options, response: HttpResponse) returns (c: Call)
    ensures c == StockBasicCall(shared.httpClient, options, response)
  {
    var checked := ValidateParams(Specs, options);
    if checked.Fail? {
      return Rejected(ErrorOf(checked.error));
    }
    var (fields, params) := SplitFields(options);
    c := Send(shared, "stock_basic", params, FieldsArgument(fields), response, Verbatim);
  }

  /** A request carries every option but `fields`, unchanged, and the
      supplied fields when truthy, else the default array. */
  lemma CallShape(client: HttpClient?, o: Options, response: HttpResponse)
    ensures StockBasicCall(client, o, response).Sent? <==> client != null && CheckSpecs(Specs, o) == Pass
    ensures StockBasicCall(client, o, response).Sent? ==>
              var body := StockBasicCall(client, o, response).request.body;
              && body.apiName == "stock_basic"
              && body.params.Keys == o.Keys - {"fields"}
              && (forall k :: k in body.params ==> body.params[k] == o[k])
              && body.fields == (if Truthy(Lookup(o, "fields")) then Lookup(o, "fields") else StrArray(DefaultFields))
  {
  }

  /** The declared default `L` is neither checked nor inserted: options
      without list_status send none. */
  lemma DefaultNotInserted(client: HttpClient?, o: Options, response: HttpResponse)
    requires "list_status" !in o
    ensures StockBasicCall(client, o, response).Sent? ==>
              "list_status" !in StockBasicCall(client, o, response).request.body.params
  {
  }

  /** A list_status other than L, D and P fails validation before any request. */
  lemma BadListStatusRejected(client: HttpClient?, o: Options, response: HttpResponse)
    requires Lookup(o, "list_status") != Undefined
    requires Lookup(o, "list_status") !in [Str("L"), Str("D"), Str("P")]
    ensures StockBasicCall(client, o, response) == Rejected(PlainError("参数 list_status 验证失败"))
  {
    BadListStatusFails(o);
    assert ErrorOf(Invalid("list_status")) == PlainError("参数 list_status 验证失败");
  }

  /** The four specs before list_status pass whatever the options, so the
      list_status failure is the first. */
  lemma BadListStatusFails(o: Options)
    requires Lookup(o, "list_status") != Undefined
    requires Lookup(o, "list_status") !in [Str("L"), Str("D"), Str("P")]
    ensures CheckSpecs(Specs, o) == Fail(Invalid("list_status"))
  {
    forall j | 0 <= j < 4 ensures CheckSpec(Specs[j], o) == Pass {
      assert !Specs[j].required && Specs[j].validator.None?;
    }
    assert Specs[4] == ListStatusSpec;
    assert CheckSpec(Specs[4], o) == Fail(Invalid("list_status"));
    FirstFailureWins(Specs, o, 4);
  }
}
