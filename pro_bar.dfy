/** The pro_bar adapter (ProBarAPI): quotes for several asset classes. Its
    validators are regular expressions, written here over characters; its
    getData picks the provider endpoint from the asset class and frequency,
    builds the request parameters by conditional additions, and coerces an
    allow-list of numeric columns. */
module ProBar {
  import opened Wrappers
  import opened Formats
  import opened JsValues
  import opened Errors
  import opened Base
  import opened Http
  import opened Columnar
  import opened Endpoint

  // -----------------------------------------------------------------------
  // isValidDate: /^\d{8}$/ or /^\d{4}-\d{2}-\d{2}(\s\d{2}:\d{2}:\d{2})?$/
  // -----------------------------------------------------------------------

  /** `DDDD-DD-DD` */
  predicate DashedDay(s: string) {
    |s| == 10 && AllDigits(s[..4]) && s[4] == '-' && AllDigits(s[5..7]) && s[7] == '-' && AllDigits(s[8..])
  }

  /** `DD:DD:DD` */
  predicate ClockTime(s: string) {
    |s| == 8 && AllDigits(s[..2]) && s[2] == ':' && AllDigits(s[3..5]) && s[5] == ':' && AllDigits(s[6..])
  }

  predicate DatePattern(s: string) {
    || Digits(s, 8)
    || DashedDay(s)
    || (|s| == 19 && DashedDay(s[..10]) && IsJsSpace(s[10]) && ClockTime(s[11..]))
  }

  /** isValidDate applied to an option value: falsy values fail, anything
      else is tested in its string form. */
  predicate IsValidDate(v: Value) {
    Truthy(v) && DatePattern(ToJsString(v))
  }

  // -----------------------------------------------------------------------
  // isValidTsCode: /^\d{6}\.(SH|SZ|BJ)|[A-Z]+\.[A-Z]+$/
  // The `^` binds only the first alternative and the `$` only the second.
  // -----------------------------------------------------------------------

  /** First alternative: the string STARTS with six digits, a dot and an
      exchange suffix; anything may follow. */
  predicate StartsWithListedCode(s: string) {
    |s| >= 9 && AllDigits(s[..6]) && s[6] == '.' && s[7..9] in ["SH", "SZ", "BJ"]
  }

  /** The length of the longest suffix of capital letters. */
  function UpperSuffixLength(s: string): (n: nat)
    ensures n <= |s| && AllUpper(s[|s| - n..])
    ensures n == |s| || !IsUpper(s[|s| - n - 1])
  {
    if |s| == 0 || !IsUpper(s[|s| - 1]) then 0
    else
      var n := 1 + UpperSuffixLength(s[..|s| - 1]);
      assert s[|s| - n..] == s[..|s| - 1][|s| - n..] + [s[|s| - 1]];
      n
  }

  /** Second alternative: the string ENDS with capitals, a dot and capitals;
      anything may precede. */
  predicate EndsWithDottedCapitals(s: string) {
    var n := UpperSuffixLength(s);
    n >= 1 && |s| >= n + 2 && s[|s| - n - 1] == '.' && IsUpper(s[|s| - n - 2])
  }

  predicate TsCodePattern(s: string) {
    StartsWithListedCode(s) || EndsWithDottedCapitals(s)
  }

  predicate IsValidTsCode(v: Value) {
    Truthy(v) && TsCodePattern(ToJsString(v))
  }

  /** The second alternative as the regular expression reads:
      some `[A-Z]+` then `.` then `[A-Z]+` reaching the end. */
  ghost predicate DottedCapitalsMatch(s: string) {
    exists i, k :: 0 <= i < k < |s| - 1 && AllUpper(s[i..k]) && s[k] == '.' && AllUpper(s[k + 1..])
  }

  lemma UpperSuffixExact(s: string, m: nat)
    requires m < |s| && AllUpper(s[|s| - m..]) && !IsUpper(s[|s| - m - 1])
    ensures UpperSuffixLength(s) == m
  {
  }

  /** The character-level predicate is the regular expression's alternative. */
  lemma EndsWithDottedCapitalsIsMatch(s: string)
    ensures EndsWithDottedCapitals(s) <==> DottedCapitalsMatch(s)
  {
    if EndsWithDottedCapitals(s) {
      DottedCapitalsWitness(s);
    }
    if DottedCapitalsMatch(s) {
      var i, k :| 0 <= i < k < |s| - 1 && AllUpper(s[i..k]) && s[k] == '.' && AllUpper(s[k + 1..]);
      MatchEndsWithDottedCapitals(s, i, k);
    }
  }

  /** The character-level predicate yields a match: the capital before the dot. */
  lemma DottedCapitalsWitness(s: string)
    requires EndsWithDottedCapitals(s)
    ensures DottedCapitalsMatch(s)
  {
    var n := UpperSuffixLength(s);
    var k := |s| - n - 1;
    assert AllUpper(s[k - 1..k]);
    assert s[k + 1..] == s[|s| - n..];
    assert 0 <= k - 1 < k < |s| - 1 && AllUpper(s[k - 1..k]) && s[k] == '.' && AllUpper(s[k + 1..]);
  }

  /** A match at any position ends the string with capitals, a dot and a capital. */
  lemma MatchEndsWithDottedCapitals(s: string, i: int, k: int)
    requires 0 <= i < k < |s| - 1 && AllUpper(s[i..k]) && s[k] == '.' && AllUpper(s[k + 1..])
    ensures EndsWithDottedCapitals(s)
  {
    var m := |s| - k - 1;
    assert s[|s| - m..] == s[k + 1..];
    UpperSuffixExact(s, m);
    assert s[i..k][k - 1 - i] == s[k - 1];
  }

  // -----------------------------------------------------------------------
  // isValidFreq: /^(D|W|M|\d+min)$/
  // -----------------------------------------------------------------------

  predicate FreqPattern(s: string) {
    || s == "D" || s == "W" || s == "M"
    || (|s| >= 4 && AllDigits(s[..|s| - 3]) && s[|s| - 3..] == "min")
  }

  predicate IsValidFreq(v: Value) {
    Truthy(v) && FreqPattern(ToJsString(v))
  }

  // -----------------------------------------------------------------------
  // The enumeration and list validators
  // -----------------------------------------------------------------------

  predicate AssetOk(v: Value) {
    v in [Str("E"), Str("I"), Str("C"), Str("FT"), Str("FD"), Str("O"), Str("CB")]
  }

  predicate AdjOk(v: Value) {
    v in [Str("qfq"), Str("hfq"), Null]
  }

  /** `Array.isArray(value) && value.every(n => Number.isInteger(n) && n > 0)` */
  predicate MaOk(v: Value) {
    v.Arr? && forall k :: 0 <= k < |v.elems| ==> v.elems[k].Num? && v.elems[k].i > 0
  }

  /** `Array.isArray(value) && value.every(f => ['tor', 'vr'].includes(f))` */
  predicate FactorsOk(v: Value) {
    v.Arr? && forall k :: 0 <= k < |v.elems| ==> v.elems[k] in [Str("tor"), Str("vr")]
  }

  function TsCodeCheck(v: Value): Verdict { FromBool(IsValidTsCode(v)) }
  function DateCheck(v: Value): Verdict { FromBool(IsValidDate(v)) }
  function AssetCheck(v: Value): Verdict { FromBool(AssetOk(v)) }
  function AdjCheck(v: Value): Verdict { FromBool(AdjOk(v)) }
  function FreqCheck(v: Value): Verdict { FromBool(IsValidFreq(v)) }
  function MaCheck(v: Value): Verdict { FromBool(MaOk(v)) }
  function FactorsCheck(v: Value): Verdict { FromBool(FactorsOk(v)) }

  const TsCodeSpec: ParamSpec := ParamSpec("ts_code", true, None, Some(TsCodeCheck))
  const StartDateSpec: ParamSpec := ParamSpec("start_date", false, None, Some(DateCheck))
  const EndDateSpec: ParamSpec := ParamSpec("end_date", false, None, Some(DateCheck))
  const AssetSpec: ParamSpec := ParamSpec("asset", true, Some(Str("E")), Some(AssetCheck))
  const AdjSpec: ParamSpec := ParamSpec("adj", false, None, Some(AdjCheck))
  const FreqSpec: ParamSpec := ParamSpec("freq", true, Some(Str("D")), Some(FreqCheck))
  const MaSpec: ParamSpec := ParamSpec("ma", false, None, Some(MaCheck))
  const FactorsSpec: ParamSpec := ParamSpec("factors", false, None, Some(FactorsCheck))
  const AdjfactorSpec: ParamSpec := ParamSpec("adjfactor", false, None, None)

  /** ProBarAPI.requestParams, in declaration order. */
  const Specs: seq<ParamSpec> := [
    TsCodeSpec, StartDateSpec, EndDateSpec, AssetSpec, AdjSpec,
    FreqSpec, MaSpec, FactorsSpec, AdjfactorSpec
  ]

  const DefaultFields: seq<string> := [
    "ts_code", "trade_date", "open", "high", "low", "close",
    "pre_close", "change", "pct_chg", "vol", "amount"
  ]

  /** The columns getData passes through parseFloat. */
  const NumericFields: set<string> := {
    "open", "high", "low", "close", "pre_close",
    "change", "pct_chg", "vol", "amount",
    "ma_5", "ma_20", "ma_50", "tor", "vr", "adj_factor"
  }

  const Rule: Coercion := AllowList(NumericFields)

  const UnsupportedAssetMessage: string := "不支持的资产类别"

  /** Optional parameters pass when absent or when their validator accepts. */
  predicate OptionalOk(v: Value, ok: bool) {
    v == Undefined || ok
  }

  /** What validation asks of the options, parameter by parameter. */
  predicate Acceptable(o: Options) {
    && IsValidTsCode(Lookup(o, "ts_code"))
    && OptionalOk(Lookup(o, "start_date"), IsValidDate(Lookup(o, "start_date")))
    && OptionalOk(Lookup(o, "end_date"), IsValidDate(Lookup(o, "end_date")))
    && AssetOk(Lookup(o, "asset"))
    && OptionalOk(Lookup(o, "adj"), AdjOk(Lookup(o, "adj")))
    && IsValidFreq(Lookup(o, "freq"))
    && OptionalOk(Lookup(o, "ma"), MaOk(Lookup(o, "ma")))
    && OptionalOk(Lookup(o, "factors"), FactorsOk(Lookup(o, "factors")))
  }

  /** Spec-driven validation of pro_bar options passes exactly when every
      parameter is acceptable; `adjfactor` is never checked, and `asset` and
      `freq` must be supplied although they declare defaults. */
  lemma {:induction false} ValidationPassIff(o: Options)
    ensures CheckSpecs(Specs, o) == Pass <==> Acceptable(o)
  {
    SpecsUnfold(o);
    FormatSpecsPass(o);
    ChoiceSpecsPass(o);
  }

  /** The check of the spec list, one spec at a time. */
  lemma SpecsUnfold(o: Options)
    ensures CheckSpecs(Specs, o) == Pass <==>
              && CheckSpec(TsCodeSpec, o) == Pass && CheckSpec(StartDateSpec, o) == Pass
              && CheckSpec(EndDateSpec, o) == Pass && CheckSpec(AssetSpec, o) == Pass
              && CheckSpec(AdjSpec, o) == Pass && CheckSpec(FreqSpec, o) == Pass
              && CheckSpec(MaSpec, o) == Pass && CheckSpec(FactorsSpec, o) == Pass
  {
    var t8 := [AdjfactorSpec];
    var t7 := [FactorsSpec] + t8;
    var t6 := [MaSpec] + t7;
    var t5 := [FreqSpec] + t6;
    var t4 := [AdjSpec] + t5;
    var t3 := [AssetSpec] + t4;
    var t2 := [EndDateSpec] + t3;
    var t1 := [StartDateSpec] + t2;
    SpecsChain();
    CheckConsPass(TsCodeSpec, t1, o);
    CheckConsPass(StartDateSpec, t2, o);
    CheckConsPass(EndDateSpec, t3, o);
    CheckConsPass(AssetSpec, t4, o);
    CheckConsPass(AdjSpec, t5, o);
    CheckConsPass(FreqSpec, t6, o);
    CheckConsPass(MaSpec, t7, o);
    CheckConsPass(FactorsSpec, t8, o);
    CheckConsPass(AdjfactorSpec, [], o);
    assert CheckSpecs([], o) == Pass;
    assert CheckSpec(AdjfactorSpec, o) == Pass;
  }

  lemma SpecsChain()
    ensures Specs == [TsCodeSpec] + ([StartDateSpec] + ([EndDateSpec] + ([AssetSpec] + ([AdjSpec] +
              ([FreqSpec] + ([MaSpec] + ([FactorsSpec] + [AdjfactorSpec])))))))
  {
  }

  /** The code and date specs, and the asset class, on their own. */
  lemma FormatSpecsPass(o: Options)
    ensures CheckSpec(TsCodeSpec, o) == Pass <==> IsValidTsCode(Lookup(o, "ts_code"))
    ensures CheckSpec(StartDateSpec, o) == Pass <==> OptionalOk(Lookup(o, "start_date"), IsValidDate(Lookup(o, "start_date")))
    ensures CheckSpec(EndDateSpec, o) == Pass <==> OptionalOk(Lookup(o, "end_date"), IsValidDate(Lookup(o, "end_date")))
    ensures CheckSpec(AssetSpec, o) == Pass <==> AssetOk(Lookup(o, "asset"))
  {
  }

  /** The adjustment, frequency and indicator specs on their own. */
  lemma ChoiceSpecsPass(o: Options)
    ensures CheckSpec(AdjSpec, o) == Pass <==> OptionalOk(Lookup(o, "adj"), AdjOk(Lookup(o, "adj")))
    ensures CheckSpec(FreqSpec, o) == Pass <==> IsValidFreq(Lookup(o, "freq"))
    ensures CheckSpec(MaSpec, o) == Pass <==> OptionalOk(Lookup(o, "ma"), MaOk(Lookup(o, "ma")))
    ensures CheckSpec(FactorsSpec, o) == Pass <==> OptionalOk(Lookup(o, "factors"), FactorsOk(Lookup(o, "factors")))
  {
  }

  // -----------------------------------------------------------------------
  // getData: dispatch and request parameters
  // -----------------------------------------------------------------------

  /** The daily endpoint for each asset class that has a minute variant. */
  const DailyEndpoint: map<string, string> :=
    map["E" := "daily", "I" := "index_daily", "FT" := "fut_daily", "FD" := "fund_daily"]

  const MinuteEndpoint: map<string, string> :=
    map["E" := "stk_mins", "I" := "index_mins", "FT" := "fut_mins", "FD" := "fund_mins"]

  /** The `switch (options.asset)` of getData. */
  function Dispatch(asset: Value, freq: Value): (r: Result<string, Error>)
    ensures r.Success? <==> asset in [Str("E"), Str("I"), Str("FT"), Str("FD"), Str("O"), Str("CB")]
    ensures r.Failure? ==> r.error == PlainError(UnsupportedAssetMessage)
    ensures asset.Str? && asset.s in DailyEndpoint ==>
              r == Success(if freq == Str("D") then DailyEndpoint[asset.s] else MinuteEndpoint[asset.s])
    ensures asset == Str("O") ==> r == Success("opt_daily")
    ensures asset == Str("CB") ==> r == Success("cb_daily")
  {
    var daily := freq == Str("D");
    if asset == Str("E") then Success(if daily then "daily" else "stk_mins")
    else if asset == Str("I") then Success(if daily then "index_daily" else "index_mins")
    else if asset == Str("FT") then Success(if daily then "fut_daily" else "fut_mins")
    else if asset == Str("FD") then Success(if daily then "fund_daily" else "fund_mins")
    else if asset == Str("O") then Success("opt_daily")
    else if asset == Str("CB") then Success("cb_daily")
    else Failure(PlainError(UnsupportedAssetMessage))
  }

  /** `C` is an accepted asset class that no endpoint serves. */
  lemma AssetCAcceptedButUnsupported(freq: Value)
    ensures AssetOk(Str("C"))
    ensures Dispatch(Str("C"), freq) == Failure(PlainError(UnsupportedAssetMessage))
  {
  }

  /** Weekly and monthly bars of E, I, FT and FD go to the minute endpoint,
      because only `D` selects the daily one. */
  lemma WeeklyMonthlyUseMinuteEndpoint(a: string, freq: Value)
    requires a in DailyEndpoint
    requires freq in [Str("W"), Str("M")]
    ensures Dispatch(Str(a), freq) == Success(MinuteEndpoint[a])
  {
  }

  /** `ma` and `factors` can be joined when truthy: they are arrays. */
  predicate JoinableOrFalsy(v: Value) {
    !Truthy(v) || v.Arr?
  }

  lemma ValidatedJoinable(o: Options)
    requires CheckSpecs(Specs, o) == Pass
    ensures JoinableOrFalsy(Lookup(o, "ma")) && JoinableOrFalsy(Lookup(o, "factors"))
  {
    ValidationPassIff(o);
  }

  /** The request parameters getData assembles; FixedParams and
      OptionalParams state what they hold. */
  function RequestParams(o: Options): Options
    requires JoinableOrFalsy(Lookup(o, "ma")) && JoinableOrFalsy(Lookup(o, "factors"))
  {
    var base := map["ts_code" := Lookup(o, "ts_code"), "start_date" := Lookup(o, "start_date"),
                    "end_date" := Lookup(o, "end_date"), "freq" := Lookup(o, "freq")];
    var withAdj := if Lookup(o, "asset") == Str("E") && Truthy(Lookup(o, "adj"))
                   then base["adj" := Lookup(o, "adj")] else base;
    var withMa := if Truthy(Lookup(o, "ma"))
                  then withAdj["ma" := Str(JoinValues(Lookup(o, "ma").elems))] else withAdj;
    var withFactors := if Truthy(Lookup(o, "factors"))
                       then withMa["factors" := Str(JoinValues(Lookup(o, "factors").elems))] else withMa;
    if Lookup(o, "adjfactor") != Undefined then withFactors["adjfactor" := Lookup(o, "adjfactor")]
    else withFactors
  }

  /** The four query keys are always sent, as given. */
  lemma FixedParams(o: Options)
    requires JoinableOrFalsy(Lookup(o, "ma")) && JoinableOrFalsy(Lookup(o, "factors"))
    ensures var p := RequestParams(o);
            && "ts_code" in p && p["ts_code"] == Lookup(o, "ts_code")
            && "start_date" in p && p["start_date"] == Lookup(o, "start_date")
            && "end_date" in p && p["end_date"] == Lookup(o, "end_date")
            && "freq" in p && p["freq"] == Lookup(o, "freq")
  {
  }

  /** `asset` is never sent, and nothing beyond the four query keys and the
      four optional additions is. */
  lemma ParamKeys(o: Options)
    requires JoinableOrFalsy(Lookup(o, "ma")) && JoinableOrFalsy(Lookup(o, "factors"))
    ensures "asset" !in RequestParams(o)
    ensures RequestParams(o).Keys <= {"ts_code", "start_date", "end_date", "freq", "adj", "ma", "factors", "adjfactor"}
  {
  }

  /** The conditional additions: `adj` only for stocks and only when truthy,
      `ma` and `factors` comma-joined when truthy, and `adjfactor` whenever it
      is not `undefined`. */
  lemma OptionalParams(o: Options)
    requires JoinableOrFalsy(Lookup(o, "ma")) && JoinableOrFalsy(Lookup(o, "factors"))
    ensures var p := RequestParams(o);
            && ("adj" in p <==> Lookup(o, "asset") == Str("E") && Truthy(Lookup(o, "adj")))
            && ("adj" in p ==> p["adj"] == Lookup(o, "adj"))
            && ("ma" in p <==> Truthy(Lookup(o, "ma")))
            && ("ma" in p ==> p["ma"] == Str(JoinValues(Lookup(o, "ma").elems)))
            && ("factors" in p <==> Truthy(Lookup(o, "factors")))
            && ("factors" in p ==> p["factors"] == Str(JoinValues(Lookup(o, "factors").elems)))
            && ("adjfactor" in p <==> Lookup(o, "adjfactor") != Undefined)
            && ("adjfactor" in p ==> p["adjfactor"] == Lookup(o, "adjfactor"))
  {
  }

  /** `adjfactor: false` is sent: only `undefined` leaves it out. */
  lemma AdjfactorFalseIsSent(o: Options)
    requires JoinableOrFalsy(Lookup(o, "ma")) && JoinableOrFalsy(Lookup(o, "factors"))
    requires Lookup(o, "adjfactor") == Bool(false)
    ensures "adjfactor" in RequestParams(o) && RequestParams(o)["adjfactor"] == Bool(false)
  {
    OptionalParams(o);
  }

  /** What getData does, as one function of the shared client, the options
      and the network's response. */
  function ProBarCall(client: HttpClient?, o: Options, response: HttpResponse): Call {
    match CheckSpecs(Specs, o)
    case Fail(f) => Rejected(ErrorOf(f))
    case Pass =>
      match Dispatch(Lookup(o, "asset"), Lookup(o, "freq"))
      case Failure(e) => Rejected(e)
      case Success(apiName) =>
        ValidatedJoinable(o);
        Deliver(client, apiName, RequestParams(o), Str(JoinStrings(DefaultFields, ",")), response, Rule)
  }

  /** The parameter object getData builds up, one conditional addition at a time. */
  method AssembleParams(options: Options) returns (requestParams: Options)
    requires JoinableOrFalsy(Lookup(options, "ma")) && JoinableOrFalsy(Lookup(options, "factors"))
    ensures requestParams == RequestParams(options)
  {
    requestParams := map[
      "ts_code" := Lookup(options, "ts_code"),
      "start_date" := Lookup(options, "start_date"),
      "end_date" := Lookup(options, "end_date"),
      "freq" := Lookup(options, "freq")];
    if Lookup(options, "asset") == Str("E") && Truthy(Lookup(options, "adj")) {
      requestParams := requestParams["adj" := Lookup(options, "adj")];
    }
    if Truthy(Lookup(options, "ma")) {
      requestParams := requestParams["ma" := Str(JoinValues(Lookup(options, "ma").elems))];
    }
    if Truthy(Lookup(options, "factors")) {
      requestParams := requestParams["factors" := Str(JoinValues(Lookup(options, "factors").elems))];
    }
    if Lookup(options, "adjfactor") != Undefined {
      requestParams := requestParams["adjfactor" := Lookup(options, "adjfactor")];
    }
  }

  /** ProBarAPI.getData. */
  method GetData(shared: SharedClient, options: Options, response: HttpResponse) returns (c: Call)
    ensures c == ProBarCall(shared.httpClient, options, response)
  {
    var checked := ValidateParams(Specs, options);
    if checked.Fail? {
      return Rejected(ErrorOf(checked.error));
    }
    ValidatedJoinable(options);

    var asset := Lookup(options, "asset");
    var daily := Lookup(options, "freq") == Str("D");
    var apiName := "";
    if asset == Str("E") {
      apiName := if daily then "daily" else "stk_mins";
    } else if asset == Str("I") {
      apiName := if daily then "index_daily" else "index_mins";
    } else if asset == Str("FT") {
      apiName := if daily then "fut_daily" else "fut_mins";
    } else if asset == Str("FD") {
      apiName := if daily then "fund_daily" else "fund_mins";
    } else if asset == Str("O") {
      apiName := "opt_daily";
    } else if asset == Str("CB") {
      apiName := "cb_daily";
    } else {
      return Rejected(PlainError(UnsupportedAssetMessage));
    }

    assert apiName == Dispatch(asset, Lookup(options, "freq")).value;
    var requestParams := AssembleParams(options);
    var fields := JoinStrings(DefaultFields, ",");
    c := Send(shared, apiName, requestParams, Str(fields), response, Rule);
  }

  // -----------------------------------------------------------------------
  // Properties of a whole call
  // -----------------------------------------------------------------------

  /** A request is sent exactly when the client is set, validation passes
      and the asset class is served; it goes to the dispatched endpoint with
      the assembled parameters and the default field list. */
  lemma CallShape(client: HttpClient?, o: Options, response: HttpResponse)
    ensures ProBarCall(client, o, response).Sent? <==>
              client != null && Acceptable(o) && Dispatch(Lookup(o, "asset"), Lookup(o, "freq")).Success?
    ensures ProBarCall(client, o, response).Sent? ==>
              && JoinableOrFalsy(Lookup(o, "ma")) && JoinableOrFalsy(Lookup(o, "factors"))
              && var body := ProBarCall(client, o, response).request.body;
                 && body.params == RequestParams(o)
                 && body.apiName == Dispatch(Lookup(o, "asset"), Lookup(o, "freq")).value
                 && body.fields == Str(JoinStrings(DefaultFields, ","))
                 && "asset" !in body.params
                 && "ts_code" in body.params && body.params["ts_code"] == Lookup(o, "ts_code")
  {
    ValidationPassIff(o);
    if CheckSpecs(Specs, o) == Pass {
      ValidatedJoinable(o);
      FixedParams(o);
      ParamKeys(o);
    }
  }

  /** Decoding a pro_bar table: the fifteen listed columns are coerced, every
      other column (ts_code, trade_date, unknown ones) is kept as it is. */
  lemma DecodedCells(p: Payload, k: nat, i: nat)
    requires k < |p.items| && i < |p.fields| == |p.items[k]|
    requires forall j, l :: 0 <= j < l < |p.fields| ==> p.fields[j] != p.fields[l]
    ensures p.fields[i] in DecodeTable(p, Rule)[k]
    ensures DecodeTable(p, Rule)[k][p.fields[i]] ==
              if p.fields[i] in NumericFields then ToNum(p.items[k][i]) else Raw(p.items[k][i])
  {
    TableCell(p, Rule, k, i);
  }

  /** A required parameter with a declared default is still required: valid
      ts_code and dates without `asset` fail on `asset`. */
  lemma DefaultNotApplied(client: HttpClient?, o: Options, response: HttpResponse)
    requires IsValidTsCode(Lookup(o, "ts_code"))
    requires Lookup(o, "start_date") == Undefined && Lookup(o, "end_date") == Undefined
    requires Lookup(o, "asset") == Undefined
    ensures ProBarCall(client, o, response) == Rejected(PlainError("参数 asset 是必填项"))
  {
    var t4 := [AdjSpec] + ([FreqSpec] + ([MaSpec] + ([FactorsSpec] + [AdjfactorSpec])));
    var t3 := [AssetSpec] + t4;
    var t2 := [EndDateSpec] + t3;
    var t1 := [StartDateSpec] + t2;
    SpecsChain();
    FormatSpecsPass(o);
    CheckCons(TsCodeSpec, t1, o);
    CheckCons(StartDateSpec, t2, o);
    CheckCons(EndDateSpec, t3, o);
    CheckCons(AssetSpec, t4, o);
    assert CheckSpecs(Specs, o) == Fail(Missing("asset"));
    assert ErrorOf(Missing("asset")) == PlainError("参数 asset 是必填项");
  }

  /** The date examples: both shapes accepted. */
  lemma DateExamples()
    ensures IsValidDate(Str("20240101"))
    ensures IsValidDate(Str("2024-01-01"))
  {
    assert Digits("20240101", 8);
    assert DashedDay("2024-01-01");
  }

  /** A dashed date with a time after a space is accepted. */
  lemma DateTimeExample()
    ensures IsValidDate(Str("2024-01-01 09:30:00"))
  {
    var s := "2024-01-01 09:30:00";
    assert s[..10] == "2024-01-01" && s[11..] == "09:30:00";
    assert DashedDay("2024-01-01");
    assert ClockTime("09:30:00");
    assert IsJsSpace(s[10]);
  }

  /** The empty string and a space-separated 8-digit date with a time are rejected. */
  lemma DateRejections()
    ensures !IsValidDate(Str(""))
    ensures !IsValidDate(Str("20190901 09:00:00"))
  {
    assert |"20190901 09:00:00"| == 17;
  }

  /** Whatever follows a listed code, the string is accepted. */
  lemma ListedCodeAccepted(code: string, tail: string)
    requires |code| == 9 && AllDigits(code[..6]) && code[6] == '.' && code[7..] in ["SH", "SZ", "BJ"]
    ensures IsValidTsCode(Str(code + tail))
  {
    assert (code + tail)[..6] == code[..6] && (code + tail)[6] == '.' && (code + tail)[7..9] == code[7..];
  }

  /** A listed code is accepted. */
  lemma TsCodeListed()
    ensures IsValidTsCode(Str("600519.SH"))
  {
    var c := "600519.SH";
    assert c[..6] == "600519" && c[7..] == "SH";
    ListedCodeAccepted(c, "");
    assert c + "" == c;
  }

  /** The first alternative is not anchored at the end: trailing text passes. */
  lemma TsCodeTrailingText()
    ensures IsValidTsCode(Str("600519.SH.junk"))
  {
    var c := "600519.SH";
    assert c[..6] == "600519" && c[7..] == "SH";
    ListedCodeAccepted(c, ".junk");
    assert c + ".junk" == "600519.SH.junk";
  }

  /** The second alternative is not anchored at the start: leading text passes. */
  lemma TsCodeLeadingText()
    ensures IsValidTsCode(Str("x AB.CD"))
  {
    var s := "x AB.CD";
    assert s[5..] == "CD";
    UpperSuffixExact(s, 2);
  }

  /** The empty string and a bare six-digit code are rejected. */
  lemma TsCodeRejected()
    ensures !IsValidTsCode(Str(""))
    ensures !IsValidTsCode(Str("600519"))
  {
    assert UpperSuffixLength("600519") == 0;
  }

  lemma FreqExamples()
    ensures IsValidFreq(Str("D")) && IsValidFreq(Str("W")) && IsValidFreq(Str("M"))
    ensures IsValidFreq(Str("5min")) && IsValidFreq(Str("120min"))
    ensures !IsValidFreq(Str("")) && !IsValidFreq(Str("min")) && !IsValidFreq(Str("d"))
  {
    assert "5min"[..1] == "5" && "5min"[1..] == "min";
    assert "120min"[..3] == "120" && "120min"[3..] == "min";
  }
}
