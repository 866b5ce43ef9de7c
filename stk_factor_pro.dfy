/** The stk_factor_pro adapter (StkFactorProAPI): technical factors with a
    caller-chosen field list. Nothing is validated; `fields` is taken out of
    the options and sent as the field list; the decode is a plain zip. */
module StkFactorPro {
  import opened Wrappers
  import opened Formats
  import opened JsValues
  import opened Errors
  import opened Base
  import opened Http
  import opened Columnar
  import opened Endpoint

  /** StkFactorProAPI.requestParams: five optional parameters, no validator. */
  const Specs: seq<ParamSpec> := [
    ParamSpec("ts_code", false, None, None),
    ParamSpec("trade_date", false, None, None),
    ParamSpec("start_date", false, None, None),
    ParamSpec("end_date", false, None, None),
    ParamSpec("fields", false, None, None)
  ]

  const DefaultFields: seq<string> := [
    "ts_code", "trade_date", "open", "high", "low", "close",
    "pre_close", "change", "pct_chg", "vol", "amount"
  ]

  /** No spec is required or has a validator: validation never fails. */
  lemma ValidationNeverFails(o: Options)
    ensures CheckSpecs(Specs, o) == Pass
  {
    forall i | 0 <= i < |Specs| ensures CheckSpec(Specs[i], o) == Pass {
      assert !Specs[i].required && Specs[i].validator.None?;
    }
    PassIffAllPass(Specs, o);
  }

  /** `fields || this.defaultFields.join(',')`. */
  function FieldsArgument(fields: Value): (f: Value)
    ensures Truthy(fields) ==> f == fields
    ensures !Truthy(fields) ==> f == Str(JoinStrings(DefaultFields, ","))
  {
    if Truthy(fields) then fields else Str(JoinStrings(DefaultFields, ","))
  }

  /** What getData does, as one function of the shared client, the options
      and the network's response. */
  function StkFactorProCall(client: HttpClient?, o: Options, response: HttpResponse): Call {
    match CheckSpecs(Specs, o)
    case Fail(f) => Rejected(ErrorOf(f))
    case Pass =>
      var (fields, params) := SplitFields(o);
      Deliver(client, "stk_factor_pro", params, FieldsArgument(fields), response, Verbatim)
  }

  /** StkFactorProAPI.getData. */
  method GetData(shared: SharedClient, options: Options, response: HttpResponse) returns (c: Call)
    ensures c == StkFactorProCall(shared.httpClient, options, response)
  {
    var checked := ValidateParams(Specs, options);
    if checked.Fail? {
      return Rejected(ErrorOf(checked.error));
    }
    var (fields, params) := SplitFields(options);
    c := Send(shared, "stk_factor_pro", params, FieldsArgument(fields), response, Verbatim);
  }

  /** A request goes out exactly when the client is set. It carries every
      option but `fields`, unchanged, and the supplied fields when truthy,
      else the default list joined by commas (so `""` falls back too). */
  lemma CallShape(client: HttpClient?, o: Options, response: HttpResponse)
    ensures StkFactorProCall(client, o, response).Sent? <==> client != null
    ensures StkFactorProCall(client, o, response).Sent? ==>
              var body := StkFactorProCall(client, o, response).request.body;
              && body.apiName == "stk_factor_pro"
              && body.params.Keys == o.Keys - {"fields"}
              && (forall k :: k in body.params ==> body.params[k] == o[k])
              && body.fields == (if Truthy(Lookup(o, "fields")) then Lookup(o, "fields")
                                 else Str(JoinStrings(DefaultFields, ",")))
  {
    ValidationNeverFails(o);
  }

  /** An empty `fields` string falls back to the default field list. */
  lemma EmptyFieldsFallBack(client: HttpClient?, o: Options, response: HttpResponse)
    requires client != null && Lookup(o, "fields") == Str("")
    ensures StkFactorProCall(client, o, response).Sent?
    ensures StkFactorProCall(client, o, response).request.body.fields == Str(JoinStrings(DefaultFields, ","))
  {
    CallShape(client, o, response);
  }
}
