/** The stock adapter (StockAPI.getStockBasic): two guarded checks, then
    every option forwarded to `stock_basic`. Its validateTsCode and request
    belong to a base class that is not part of this model: the check is a
    parameter and the prepared request is returned. */
module Stock {
  import opened Wrappers
  import opened JsValues
  import opened Errors
  import opened Endpoint

  const TsCodeMessage: string := "无效的股票代码格式"
  const ExchangeMessage: string := "无效的交易所代码"

  /** The exchanges a truthy `exchange` must name (strict equality). */
  const Exchanges: seq<Value> := [Str("SSE"), Str("SZSE"), Str("BSE")]

  /** The keys the destructuring names; they are written back first, so
      they are present even when `undefined`. */
  const Named: set<string> := {"ts_code", "name", "exchange", "market", "is_hs", "list_status", "limit", "offset"}

  /** getStockBasic: `options` defaults to `{}` when omitted. */
  function GetStockBasic(validTsCode: Value -> bool, options: Option<Options>): (r: Result<Request, Error>)
    ensures var o := if options.Some? then options.value else map[];
            && (Truthy(Lookup(o, "ts_code")) && !validTsCode(Lookup(o, "ts_code")) ==>
                  r == Failure(ValidationError(TsCodeMessage)))
            && (!(Truthy(Lookup(o, "ts_code")) && !validTsCode(Lookup(o, "ts_code"))) &&
                Truthy(Lookup(o, "exchange")) && Lookup(o, "exchange") !in Exchanges ==>
                  r == Failure(ValidationError(ExchangeMessage)))
            && (r.Success? <==>
                  && (!Truthy(Lookup(o, "ts_code")) || validTsCode(Lookup(o, "ts_code")))
                  && (!Truthy(Lookup(o, "exchange")) || Lookup(o, "exchange") in Exchanges))
            && (r.Success? ==>
                  && r.value.apiName == "stock_basic"
                  && r.value.fields == Undefined
                  && r.value.params.Keys == o.Keys + Named
                  && (forall k :: k in r.value.params ==> r.value.params[k] == Lookup(o, k)))
  {
    var o := if options.Some? then options.value else map[];
    var tsCode := Lookup(o, "ts_code");
    var exchange := Lookup(o, "exchange");
    if Truthy(tsCode) && !validTsCode(tsCode) then Failure(ValidationError(TsCodeMessage))
    else if Truthy(exchange) && exchange !in Exchanges then Failure(ValidationError(ExchangeMessage))
    else
      var written := map k | k in Named :: Lookup(o, k);
      Success(Request("stock_basic", written + Omit(o, Named), Undefined))
  }

  /** Omitted options pass both checks whatever validateTsCode says; the
      request then carries the eight named keys, all `undefined`. */
  lemma DefaultOptionsPass(validTsCode: Value -> bool)
    ensures GetStockBasic(validTsCode, None).Success?
    ensures GetStockBasic(validTsCode, None).value.params.Keys == Named
    ensures forall k :: k in Named ==> GetStockBasic(validTsCode, None).value.params[k] == Undefined
  {
  }

  /** ts_code is checked before exchange: with both bad, the ts_code error wins. */
  lemma TsCodeCheckedFirst(validTsCode: Value -> bool, o: Options)
    requires Truthy(Lookup(o, "ts_code")) && !validTsCode(Lookup(o, "ts_code"))
    requires Truthy(Lookup(o, "exchange")) && Lookup(o, "exchange") !in Exchanges
    ensures GetStockBasic(validTsCode, Some(o)) == Failure(ValidationError(TsCodeMessage))
  {
  }

  /** Every option is forwarded unchanged, `limit`, `offset`, `fields` and
      unknown keys included. */
  lemma OptionsForwarded(validTsCode: Value -> bool, o: Options, k: string)
    requires GetStockBasic(validTsCode, Some(o)).Success?
    requires k in o
    ensures k in GetStockBasic(validTsCode, Some(o)).value.params
    ensures GetStockBasic(validTsCode, Some(o)).value.params[k] == o[k]
  {
  }

  /** A lower-case exchange is not an exchange. */
  lemma ExchangeIsCaseSensitive(validTsCode: Value -> bool)
    ensures GetStockBasic(validTsCode, Some(map["exchange" := Str("sse")])) ==
              Failure(ValidationError(ExchangeMessage))
  {
  }
}
