/** The stk_factor adapter (StkFactorAPI): technical factors. Every parameter
    is optional, every validator lets a falsy value through, and the decode
    coerces every column but the code and the date. */
module StkFactor {
  import opened Wrappers
  import opened Formats
  import opened JsValues
  import opened Errors
  import opened Base
  import opened Http
  import opened Columnar
  import opened Endpoint

  /** isValidDate: a truthy value whose string form is exactly eight digits. */
  predicate IsValidDate(v: Value) {
    Truthy(v) && Digits(ToJsString(v), 8)
  }

  /** `/^\d{6}\.(SH|SZ|BJ)$/`, anchored at both ends. */
  predicate TsCodePattern(s: string) {
    |s| == 9 && AllDigits(s[..6]) && s[6] == '.' && s[7..] in ["SH", "SZ", "BJ"]
  }

  predicate IsValidTsCode(v: Value) {
    Truthy(v) && TsCodePattern(ToJsString(v))
  }

  /** The spec validators `value => !value || check(value)`. */
  function TsCodeCheck(v: Value): (r: Verdict)
    ensures !r.Throws?
    ensures r == Accepts <==> !Truthy(v) || TsCodePattern(ToJsString(v))
  {
    FromBool(!Truthy(v) || IsValidTsCode(v))
  }

  function DateCheck(v: Value): (r: Verdict)
    ensures r == Accepts <==> !Truthy(v) || Digits(ToJsString(v), 8)
  {
    FromBool(!Truthy(v) || IsValidDate(v))
  }

  const TsCodeSpec: ParamSpec := ParamSpec("ts_code", false, None, Some(TsCodeCheck))
  const TradeDateSpec: ParamSpec := ParamSpec("trade_date", false, None, Some(DateCheck))
  const StartDateSpec: ParamSpec := ParamSpec("start_date", false, None, Some(DateCheck))
  const EndDateSpec: ParamSpec := ParamSpec("end_date", false, None, Some(DateCheck))

  /** StkFactorAPI.requestParams, in declaration order. */
  const Specs: seq<ParamSpec> := [TsCodeSpec, TradeDateSpec, StartDateSpec, EndDateSpec]

  const DefaultFields: seq<string> := [
    "ts_code", "trade_date", "close", "open", "high", "low", "pre_close",
    "change", "pct_change", "vol", "amount", "adj_factor",
    "open_hfq", "open_qfq", "close_hfq", "close_qfq",
    "high_hfq", "high_qfq", "low_hfq", "low_qfq",
    "pre_close_hfq", "pre_close_qfq",
    "macd_dif", "macd_dea", "macd",
    "kdj_k", "kdj_d", "kdj_j",
    "rsi_6", "rsi_12", "rsi_24",
    "boll_upper", "boll_mid", "boll_lower",
    "cci"
  ]

  /** The two columns getData keeps as they are; every other one is coerced. */
  const Rule: Coercion := DenyList({"ts_code", "trade_date"})

  predicate Tolerated(v: Value, ok: bool) {
    !Truthy(v) || ok
  }

  /** Each spec of the list on its own. */
  lemma SpecPassConditions(o: Options)
    ensures CheckSpec(TsCodeSpec, o) == Pass <==>
              Tolerated(Lookup(o, "ts_code"), TsCodePattern(ToJsString(Lookup(o, "ts_code"))))
    ensures CheckSpec(TradeDateSpec, o) == Pass <==>
              Tolerated(Lookup(o, "trade_date"), Digits(ToJsString(Lookup(o, "trade_date")), 8))
    ensures CheckSpec(StartDateSpec, o) == Pass <==>
              Tolerated(Lookup(o, "start_date"), Digits(ToJsString(Lookup(o, "start_date")), 8))
    ensures CheckSpec(EndDateSpec, o) == Pass <==>
              Tolerated(Lookup(o, "end_date"), Digits(ToJsString(Lookup(o, "end_date")), 8))
  {
  }

  /** Validation passes exactly when every truthy parameter has its format:
      falsy values (`""`, `null`, `0`) pass as well as absent ones. */
  lemma {:induction false} ValidationPassIff(o: Options)
    ensures CheckSpecs(Specs, o) == Pass <==>
              && Tolerated(Lookup(o, "ts_code"), TsCodePattern(ToJsString(Lookup(o, "ts_code"))))
              && Tolerated(Lookup(o, "trade_date"), Digits(ToJsString(Lookup(o, "trade_date")), 8))
              && Tolerated(Lookup(o, "start_date"), Digits(ToJsString(Lookup(o, "start_date")), 8))
              && Tolerated(Lookup(o, "end_date"), Digits(ToJsString(Lookup(o, "end_date")), 8))
  {
    var t3 := [EndDateSpec];
    var t2 := [StartDateSpec] + t3;
    var t1 := [TradeDateSpec] + t2;
    assert Specs == [TsCodeSpec] + t1;
    CheckCons(TsCodeSpec, t1, o);
    CheckCons(TradeDateSpec, t2, o);
    CheckCons(StartDateSpec, t3, o);
    CheckCons(EndDateSpec, [], o);
    assert CheckSpecs([], o) == Pass;
    SpecPassConditions(o);
  }

  /** Nothing is required, so empty options validate. */
  lemma EmptyOptionsValidate()
    ensures CheckSpecs(Specs, map[]) == Pass
  {
    ValidationPassIff(map[]);
  }

  /** What getData does, as one function of the shared client, the options
      and the network's response. */
  function StkFactorCall(client: HttpClient?, o: Options, response: HttpResponse): Call {
    match CheckSpecs(Specs, o)
    case Fail(f) => Rejected(ErrorOf(f))
    case Pass => Deliver(client, "stk_factor", o, Str(JoinStrings(DefaultFields, ",")), response, Rule)
  }

  /** StkFactorAPI.getData. */
  method GetData(shared: SharedClient, options: Options, response: HttpResponse) returns (c: Call)
    ensures c == StkFactorCall(shared.httpClient, options, response)
  {
    var checked := ValidateParams(Specs, options);
    if checked.Fail? {
      return Rejected(ErrorOf(checked.error));
    }
    var fields := JoinStrings(DefaultFields, ",");
    c := Send(shared, "stk_factor", options, Str(fields), response, Rule);
  }

  /** A request goes out exactly when validation passes and the client is
      set; it carries the options as they are and always the default fields. */
  lemma CallShape(client: HttpClient?, o: Options, response: HttpResponse)
    ensures StkFactorCall(client, o, response).Sent? <==> client != null && CheckSpecs(Specs, o) == Pass
    ensures StkFactorCall(client, o, response).Sent? ==>
              && StkFactorCall(client, o, response).request.body.apiName == "stk_factor"
              && StkFactorCall(client, o, response).request.body.params == o
              && StkFactorCall(client, o, response).request.body.fields == Str(JoinStrings(DefaultFields, ","))
  {
  }

  /** Decoding a stk_factor table: every column but ts_code and trade_date is
      coerced, unknown columns included. */
  lemma DecodedCells(p: Payload, k: nat, i: nat)
    requires k < |p.items| && i < |p.fields| == |p.items[k]|
    requires forall j, l :: 0 <= j < l < |p.fields| ==> p.fields[j] != p.fields[l]
    ensures p.fields[i] in DecodeTable(p, Rule)[k]
    ensures DecodeTable(p, Rule)[k][p.fields[i]] ==
              if p.fields[i] in ["ts_code", "trade_date"] then Raw(p.items[k][i]) else ToNum(p.items[k][i])
  {
    TableCell(p, Rule, k, i);
  }

  lemma TsCodeExamples()
    ensures TsCodePattern("830799.BJ")
    ensures !TsCodePattern("600519.SH.junk")
    ensures TsCodeCheck(Str("")) == Accepts
  {
    assert "830799.BJ"[..6] == "830799" && "830799.BJ"[7..] == "BJ";
  }
}
