/** The kline adapter (KlineAPI): daily-or-longer and minute bars, driven
    by the configuration table it is constructed with. Its format checks
    validateTsCode and validateDate, and the request method it hands the
    prepared call to, belong to a base class that is not part of this model:
    the checks are parameters of the adapter and the request is returned. */
module Kline {
  import opened Wrappers
  import opened Formats
  import opened JsValues
  import opened Errors
  import opened Endpoint
  import opened Config

  const TsCodeMessage: string := "无效的股票代码格式"
  const StartDateMessage: string := "无效的开始日期格式"
  const EndDateMessage: string := "无效的结束日期格式"
  const TradeDateMessage: string := "无效的交易日期格式"

  function UnsupportedPeriodMessage(p: Period): string {
    "不支持的周期类型: " + PeriodName(p)
  }

  function UnsupportedFrequencyMessage(freq: int): string {
    "不支持的分钟频率: " + DecimalString(freq)
  }

  /** A guarded check `if (v && !ok(v)) throw`: it passes for a falsy value. */
  predicate Checked(v: Value, ok: bool) {
    !Truthy(v) || ok
  }

  /** The keys the destructuring names; everything else is `...rest`. */
  const Named: set<string> := {"ts_code", "start_date", "end_date", "trade_date", "fields"}

  /** `{ ts_code, start_date, end_date, trade_date }`: the four named keys,
      present even when their value is `undefined`. */
  function QueryKeys(o: Options): (q: Options)
    ensures q.Keys == {"ts_code", "start_date", "end_date", "trade_date"}
    ensures forall k :: k in q ==> q[k] == Lookup(o, k)
  {
    map["ts_code" := Lookup(o, "ts_code"), "start_date" := Lookup(o, "start_date"),
        "end_date" := Lookup(o, "end_date"), "trade_date" := Lookup(o, "trade_date")]
  }

  /** `{ ts_code, start_date, end_date, trade_date, ...rest }`: every
      option but `fields`, and the four query keys even when absent. */
  function PeriodParams(o: Options): (p: Options)
    ensures p.Keys == (o.Keys - {"fields"}) + {"ts_code", "start_date", "end_date", "trade_date"}
    ensures forall k :: k in p ==> p[k] == Lookup(o, k)
  {
    QueryKeys(o) + Omit(o, Named)
  }

  /** `{ ts_code, start_date, end_date, trade_date, freq, ...rest }`: as
      above, with `freq` from the entry unless the rest carries its own. */
  function MinuteParams(o: Options, freq: string): (p: Options)
    ensures p.Keys == (o.Keys - {"fields"}) + {"ts_code", "start_date", "end_date", "trade_date", "freq"}
    ensures p["freq"] == if "freq" in o then o["freq"] else Str(freq)
    ensures forall k :: k in p && k != "freq" ==> p[k] == Lookup(o, k)
  {
    QueryKeys(o)["freq" := Str(freq)] + Omit(o, Named)
  }

  /** `fields || config.defaultFields`. */
  function FieldsOr(fields: Value, defaults: string): Value {
    if Truthy(fields) then fields else Str(defaults)
  }

  class KlineApi {
    const config: ApiConfig
    const validTsCode: Value -> bool
    const validDate: Value -> bool

    /** `new KlineAPI(token, baseURL, config)`: the token and base URL go to
        the base class, which is not part of this model. */
    constructor(config: ApiConfig, validTsCode: Value -> bool, validDate: Value -> bool)
      ensures this.config == config
      ensures this.validTsCode == validTsCode && this.validDate == validDate
    {
      this.config := config;
      this.validTsCode := validTsCode;
      this.validDate := validDate;
    }

    /** validateParams: ts_code, start_date, end_date and trade_date, each
        checked only when truthy, in that order; the first failure throws
        the ValidationError for its field. */
    function Validate(o: Options): (r: Option<Error>)
      ensures r.None? <==>
                && Checked(Lookup(o, "ts_code"), validTsCode(Lookup(o, "ts_code")))
                && Checked(Lookup(o, "start_date"), validDate(Lookup(o, "start_date")))
                && Checked(Lookup(o, "end_date"), validDate(Lookup(o, "end_date")))
                && Checked(Lookup(o, "trade_date"), validDate(Lookup(o, "trade_date")))
      ensures !Checked(Lookup(o, "ts_code"), validTsCode(Lookup(o, "ts_code"))) ==>
                r == Some(ValidationError(TsCodeMessage))
      ensures Checked(Lookup(o, "ts_code"), validTsCode(Lookup(o, "ts_code"))) &&
              !Checked(Lookup(o, "start_date"), validDate(Lookup(o, "start_date"))) ==>
                r == Some(ValidationError(StartDateMessage))
      ensures r.Some? ==>
                (r.value.ValidationError? &&
                 r.value.message in [TsCodeMessage, StartDateMessage, EndDateMessage, TradeDateMessage])
    {
      var ts := Lookup(o, "ts_code");
      var start := Lookup(o, "start_date");
      var end := Lookup(o, "end_date");
      var trade := Lookup(o, "trade_date");
      if Truthy(ts) && !validTsCode(ts) then Some(ValidationError(TsCodeMessage))
      else if Truthy(start) && !validDate(start) then Some(ValidationError(StartDateMessage))
      else if Truthy(end) && !validDate(end) then Some(ValidationError(EndDateMessage))
      else if Truthy(trade) && !validDate(trade) then Some(ValidationError(TradeDateMessage))
      else None
    }

    /** getKlineData: validate, look the period up, and prepare the request
        with the four query keys, the rest of the options, and the supplied
        fields or the period's default fields. */
    function GetKlineData(period: Period, o: Options): (r: Result<Request, Error>)
      ensures Validate(o).Some? ==> r == Failure(Validate(o).value)
      ensures Validate(o).None? && period !in config.periods ==>
                r == Failure(ValidationError(UnsupportedPeriodMessage(period)))
      ensures r.Success? <==> Validate(o).None? && period in config.periods
      ensures r.Success? ==>
                && r.value.apiName == config.periods[period].apiName
                && r.value.fields == FieldsOr(Lookup(o, "fields"), config.periods[period].defaultFields)
                && r.value.params == PeriodParams(o)
    {
      match Validate(o)
      case Some(e) => Failure(e)
      case None =>
        if period !in config.periods then Failure(ValidationError(UnsupportedPeriodMessage(period)))
        else
          var entry := config.periods[period];
          Success(Request(entry.apiName, PeriodParams(o), FieldsOr(Lookup(o, "fields"), entry.defaultFields)))
    }

    /** getMinuteData: validate, look `min${freq}` up, and prepare the
        request with the four query keys, the entry's provider frequency,
        then the rest of the options, which are spread last and so win. */
    function GetMinuteData(freq: int, o: Options): (r: Result<Request, Error>)
      ensures Validate(o).Some? ==> r == Failure(Validate(o).value)
      ensures Validate(o).None? && MinuteKey(freq) !in config.minutes ==>
                r == Failure(ValidationError(UnsupportedFrequencyMessage(freq)))
      ensures r.Success? <==> Validate(o).None? && MinuteKey(freq) in config.minutes
      ensures r.Success? ==>
                && r.value.apiName == config.minutes[MinuteKey(freq)].apiName
                && r.value.fields == FieldsOr(Lookup(o, "fields"), config.minutes[MinuteKey(freq)].defaultFields)
                && r.value.params == MinuteParams(o, config.minutes[MinuteKey(freq)].freq)
    {
      match Validate(o)
      case Some(e) => Failure(e)
      case None =>
        var key := MinuteKey(freq);
        if key !in config.minutes then Failure(ValidationError(UnsupportedFrequencyMessage(freq)))
        else
          var entry := config.minutes[key];
          Success(Request(entry.apiName, MinuteParams(o, entry.freq), FieldsOr(Lookup(o, "fields"), entry.defaultFields)))
    }

    function GetMin1(o: Options): Result<Request, Error> { GetMinuteData(1, o) }
    function GetMin5(o: Options): Result<Request, Error> { GetMinuteData(5, o) }
    function GetMin15(o: Options): Result<Request, Error> { GetMinuteData(15, o) }
    function GetMin30(o: Options): Result<Request, Error> { GetMinuteData(30, o) }
    function GetMin60(o: Options): Result<Request, Error> { GetMinuteData(60, o) }
    function GetDaily(o: Options): Result<Request, Error> { GetKlineData(Daily, o) }
    function GetWeekly(o: Options): Result<Request, Error> { GetKlineData(Weekly, o) }
    function GetMonthly(o: Options): Result<Request, Error> { GetKlineData(Monthly, o) }
    function GetYearly(o: Options): Result<Request, Error> { GetKlineData(Yearly, o) }
  }

  /** The ordered checks: a bad ts_code wins over every bad date, a bad start
      date over a bad end or trade date, a bad end date over a bad trade date. */
  lemma ValidationOrder(api: KlineApi, o: Options)
    ensures !Checked(Lookup(o, "ts_code"), api.validTsCode(Lookup(o, "ts_code"))) ==>
              api.Validate(o) == Some(ValidationError(TsCodeMessage))
    ensures && Checked(Lookup(o, "ts_code"), api.validTsCode(Lookup(o, "ts_code")))
            && Checked(Lookup(o, "start_date"), api.validDate(Lookup(o, "start_date")))
            && !Checked(Lookup(o, "end_date"), api.validDate(Lookup(o, "end_date"))) ==>
              api.Validate(o) == Some(ValidationError(EndDateMessage))
    ensures && Checked(Lookup(o, "ts_code"), api.validTsCode(Lookup(o, "ts_code")))
            && Checked(Lookup(o, "start_date"), api.validDate(Lookup(o, "start_date")))
            && Checked(Lookup(o, "end_date"), api.validDate(Lookup(o, "end_date")))
            && !Checked(Lookup(o, "trade_date"), api.validDate(Lookup(o, "trade_date"))) ==>
              api.Validate(o) == Some(ValidationError(TradeDateMessage))
  {
  }

  /** A falsy value is never checked: with every query key falsy, any
      format checks pass. */
  lemma FalsyNeverChecked(api: KlineApi, o: Options)
    requires !Truthy(Lookup(o, "ts_code")) && !Truthy(Lookup(o, "start_date"))
    requires !Truthy(Lookup(o, "end_date")) && !Truthy(Lookup(o, "trade_date"))
    ensures api.Validate(o) == None
  {
  }

  /** Validation runs before the lookup: with options that fail it, even an
      unsupported frequency reports the validation error. */
  lemma ValidationBeforeLookup(api: KlineApi, freq: int, o: Options)
    requires api.Validate(o).Some?
    ensures api.GetMinuteData(freq, o) == Failure(api.Validate(o).value)
  {
  }

  /** A caller's own `freq` key overrides the entry's provider frequency. */
  lemma CallerFreqOverrides(api: KlineApi, freq: int, o: Options, f: Value)
    requires api.Validate(o).None? && MinuteKey(freq) in api.config.minutes
    requires "freq" in o && o["freq"] == f
    ensures api.GetMinuteData(freq, o).Success?
    ensures api.GetMinuteData(freq, o).value.params["freq"] == f
  {
  }

  /** With the shipped table, a supported frequency is sent to pro_bar
      with the frequency followed by `min`. */
  lemma ShippedMinuteEntry(api: KlineApi, freq: int, o: Options)
    requires api.config == Table && api.Validate(o).None? && "freq" !in o
    requires freq in MinuteFrequencies
    ensures api.GetMinuteData(freq, o).Success?
    ensures api.GetMinuteData(freq, o).value.apiName == "pro_bar"
    ensures api.GetMinuteData(freq, o).value.params["freq"] == Str(DecimalString(freq) + "min")
  {
    MinuteEntries(freq);
  }

  /** The minute wrappers pass 1, 5, 15, 30 and 60. */
  lemma ShippedMinuteWrappers(api: KlineApi, o: Options)
    requires api.config == Table && api.Validate(o).None? && "freq" !in o
    ensures api.GetMin1(o).Success? && api.GetMin1(o).value.params["freq"] == Str("1min")
    ensures api.GetMin5(o).Success? && api.GetMin5(o).value.params["freq"] == Str("5min")
    ensures api.GetMin15(o).Success? && api.GetMin15(o).value.params["freq"] == Str("15min")
    ensures api.GetMin30(o).Success? && api.GetMin30(o).value.params["freq"] == Str("30min")
    ensures api.GetMin60(o).Success? && api.GetMin60(o).value.params["freq"] == Str("60min")
  {
    FrequencyDigits();
    assert "1" + "min" == "1min" && "5" + "min" == "5min" && "15" + "min" == "15min";
    assert "30" + "min" == "30min" && "60" + "min" == "60min";
    ShippedMinuteEntry(api, 1, o);
    ShippedMinuteEntry(api, 5, o);
    ShippedMinuteEntry(api, 15, o);
    ShippedMinuteEntry(api, 30, o);
    ShippedMinuteEntry(api, 60, o);
  }

  /** The period wrappers send to the endpoint named after their period. */
  lemma ShippedPeriodWrappers(api: KlineApi, o: Options)
    requires api.config == Table && api.Validate(o).None?
    ensures api.GetDaily(o).Success? && api.GetDaily(o).value.apiName == "daily"
    ensures api.GetWeekly(o).Success? && api.GetWeekly(o).value.apiName == "weekly"
    ensures api.GetMonthly(o).Success? && api.GetMonthly(o).value.apiName == "monthly"
    ensures api.GetYearly(o).Success? && api.GetYearly(o).value.apiName == "yearly"
  {
  }

  /** With the shipped table, only the five listed frequencies are served. */
  lemma ShippedFrequencies(api: KlineApi, freq: int, o: Options)
    requires api.config == Table && api.Validate(o).None?
    ensures api.GetMinuteData(freq, o).Success? <==> freq in MinuteFrequencies
    ensures freq !in MinuteFrequencies ==>
              api.GetMinuteData(freq, o) == Failure(ValidationError(UnsupportedFrequencyMessage(freq)))
  {
    MinuteKeysExactly(freq);
  }
}
