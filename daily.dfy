/** The daily adapter (DailyAPI): A-share daily bars. Every parameter is
    optional but at least one query condition must be given; a ts_code may
    list several codes separated by commas. */
module Daily {
  import opened Wrappers
  import opened Formats
  import opened JsValues
  import opened Errors
  import opened Base
  import opened Http
  import opened Columnar
  import opened Endpoint
  import ProBar

  /** isValidDate: a truthy value whose string form is exactly eight digits. */
  predicate IsValidDate(v: Value) {
    Truthy(v) && Digits(ToJsString(v), 8)
  }

  /** One code: `/^\d{6}\.(SH|SZ)$/`. */
  predicate ListedCode(c: string) {
    |c| == 9 && AllDigits(c[..6]) && c[6] == '.' && c[7..] in ["SH", "SZ"]
  }

  /** Every comma-separated piece is a code once trimmed. */
  predicate CodeList(s: string) {
    var pieces := Split(s, ',');
    forall k :: 0 <= k < |pieces| ==> ListedCode(Trim(pieces[k]))
  }

  /** The TypeError a truthy non-string value raises at `code.split`. */
  const SplitTypeError: Error := TypeError("code.split is not a function")

  /** isValidTsCode applied to an option value. A falsy value is rejected; a
      truthy string is split and every piece checked; any other truthy value
      has no `split` method, so the validator throws. */
  function TsCodeCheck(v: Value): (r: Verdict)
    ensures !Truthy(v) ==> r == Rejects
    ensures Truthy(v) && !v.Str? ==> r == Throws(SplitTypeError)
    ensures v.Str? && v.s != "" ==> (r == Accepts <==> CodeList(v.s)) && !r.Throws?
  {
    if !Truthy(v) then Rejects
    else if !v.Str? then Throws(SplitTypeError)
    else FromBool(CodeList(v.s))
  }

  function DateCheck(v: Value): Verdict { FromBool(IsValidDate(v)) }

  const TsCodeSpec: ParamSpec := ParamSpec("ts_code", false, None, Some(TsCodeCheck))
  const TradeDateSpec: ParamSpec := ParamSpec("trade_date", false, None, Some(DateCheck))
  const StartDateSpec: ParamSpec := ParamSpec("start_date", false, None, Some(DateCheck))
  const EndDateSpec: ParamSpec := ParamSpec("end_date", false, None, Some(DateCheck))

  /** DailyAPI.requestParams, in declaration order. */
  const Specs: seq<ParamSpec> := [TsCodeSpec, TradeDateSpec, StartDateSpec, EndDateSpec]

  const DefaultFields: seq<string> := [
    "ts_code", "trade_date", "open", "high", "low", "close",
    "pre_close", "change", "pct_chg", "vol", "amount"
  ]

  /** The nine price and volume columns getData passes through parseFloat. */
  const NumericFields: set<string> := {
    "open", "high", "low", "close", "pre_close", "change", "pct_chg", "vol", "amount"
  }

  const Rule: Coercion := AllowList(NumericFields)

  const NoConditionMessage: string := "至少需要提供一个查询条件：股票代码、交易日期、开始日期或结束日期"

  /** The guard of getData: none of the four query conditions is truthy. */
  predicate NoCondition(o: Options) {
    && !Truthy(Lookup(o, "ts_code")) && !Truthy(Lookup(o, "trade_date"))
    && !Truthy(Lookup(o, "start_date")) && !Truthy(Lookup(o, "end_date"))
  }

  predicate OptionalDate(v: Value) {
    v == Undefined || IsValidDate(v)
  }

  /** Each spec of the list on its own. */
  lemma SpecPassConditions(o: Options)
    ensures CheckSpec(TsCodeSpec, o) == Pass <==>
              Lookup(o, "ts_code") == Undefined || TsCodeCheck(Lookup(o, "ts_code")) == Accepts
    ensures CheckSpec(TradeDateSpec, o) == Pass <==> OptionalDate(Lookup(o, "trade_date"))
    ensures CheckSpec(StartDateSpec, o) == Pass <==> OptionalDate(Lookup(o, "start_date"))
    ensures CheckSpec(EndDateSpec, o) == Pass <==> OptionalDate(Lookup(o, "end_date"))
  {
  }

  /** Validation passes exactly when a given ts_code is a non-empty string of
      listed codes and every given date is eight digits. */
  lemma {:induction false} ValidationPassIff(o: Options)
    ensures CheckSpecs(Specs, o) == Pass <==>
              && (Lookup(o, "ts_code") == Undefined ||
                  (Lookup(o, "ts_code").Str? && Lookup(o, "ts_code").s != "" && CodeList(Lookup(o, "ts_code").s)))
              && OptionalDate(Lookup(o, "trade_date"))
              && OptionalDate(Lookup(o, "start_date"))
              && OptionalDate(Lookup(o, "end_date"))
  {
    var t3 := [EndDateSpec];
    var t2 := [StartDateSpec] + t3;
    var t1 := [TradeDateSpec] + t2;
    assert Specs == [TsCodeSpec] + t1;
    CheckCons(TsCodeSpec, t1, o);
    CheckCons(TradeDateSpec, t2, o);
    CheckCons(StartDateSpec, t3, o);
    CheckCons(EndDateSpec, [], o);
    assert CheckSpecs([], o) == Pass;
    SpecPassConditions(o);
  }

  /** What getData does, as one function of the shared client, the options
      and the network's response. */
  function DailyCall(client: HttpClient?, o: Options, response: HttpResponse): Call {
    match CheckSpecs(Specs, o)
    case Fail(f) => Rejected(ErrorOf(f))
    case Pass =>
      if NoCondition(o) then Rejected(PlainError(NoConditionMessage))
      else Deliver(client, "daily", o, Str(JoinStrings(DefaultFields, ",")), response, Rule)
  }

  /** DailyAPI.getData. */
  method GetData(shared: SharedClient, options: Options, response: HttpResponse) returns (c: Call)
    ensures c == DailyCall(shared.httpClient, options, response)
  {
    var checked := ValidateParams(Specs, options);
    if checked.Fail? {
      return Rejected(ErrorOf(checked.error));
    }
    if !Truthy(Lookup(options, "ts_code")) && !Truthy(Lookup(options, "trade_date")) &&
       !Truthy(Lookup(options, "start_date")) && !Truthy(Lookup(options, "end_date")) {
      return Rejected(PlainError(NoConditionMessage));
    }
    var fields := JoinStrings(DefaultFields, ",");
    c := Send(shared, "daily", options, Str(fields), response, Rule);
  }

  // -----------------------------------------------------------------------
  // Properties of a whole call
  // -----------------------------------------------------------------------

  /** A request is sent only when validation passes and some condition is
      given; it goes to `daily` with the options as they are and the default
      fields joined by commas. */
  lemma CallShape(client: HttpClient?, o: Options, response: HttpResponse)
    ensures DailyCall(client, o, response).Sent? <==>
              client != null && CheckSpecs(Specs, o) == Pass && !NoCondition(o)
    ensures DailyCall(client, o, response).Sent? ==>
              && DailyCall(client, o, response).request.body.apiName == "daily"
              && DailyCall(client, o, response).request.body.params == o
              && DailyCall(client, o, response).request.body.fields == Str(JoinStrings(DefaultFields, ","))
  {
  }

  /** Validation comes first: a failing spec wins over the missing-condition
      guard. */
  lemma ValidationBeforeGuard(client: HttpClient?, o: Options, response: HttpResponse)
    requires CheckSpecs(Specs, o).Fail?
    ensures DailyCall(client, o, response) == Rejected(ErrorOf(CheckSpecs(Specs, o).error))
  {
  }

  /** Empty options pass validation and then fail the guard, before any request. */
  lemma EmptyOptionsRejected(client: HttpClient?, response: HttpResponse)
    ensures CheckSpecs(Specs, map[]) == Pass
    ensures DailyCall(client, map[], response) == Rejected(PlainError(NoConditionMessage))
  {
    ValidationPassIff(map[]);
  }

  /** A numeric ts_code makes the validator throw a TypeError, which the call
      propagates. */
  lemma NumericTsCodeThrows(client: HttpClient?, o: Options, response: HttpResponse, n: int)
    requires n != 0 && Lookup(o, "ts_code") == Num(n)
    ensures DailyCall(client, o, response) == Rejected(SplitTypeError)
  {
    assert Specs[0] == TsCodeSpec;
    assert CheckSpec(Specs[0], o) == Fail(Raised("ts_code", SplitTypeError));
    FirstFailureWins(Specs, o, 0);
  }

  // -----------------------------------------------------------------------
  // The validators
  // -----------------------------------------------------------------------

  /** Six digits, a dot and two capitals: a listed code up to its exchange. */
  predicate CodeShape(c: string) {
    |c| == 9 && AllDigits(c[..6]) && c[6] == '.' && AllUpper(c[7..])
  }

  lemma ListedCodeShape(c: string)
    requires ListedCode(c)
    ensures CodeShape(c)
  {
  }

  lemma CodeShapeHasNoComma(c: string)
    requires CodeShape(c)
    ensures ',' !in c
  {
    forall k | 0 <= k < |c| ensures c[k] != ',' {
      if k < 6 {
        assert c[..6][k] == c[k];
      } else if k > 6 {
        assert c[7..][k - 7] == c[k];
      }
    }
  }

  lemma CodeShapeTrimmed(c: string)
    requires CodeShape(c)
    ensures Trim(c) == c
  {
    assert IsDigit(c[..6][0]) && c[..6][0] == c[0];
    assert IsUpper(c[7..][1]) && c[7..][1] == c[8];
    TrimPadded("", c, "");
    assert "" + c + "" == c;
  }

  lemma ListedCodeHasNoComma(c: string)
    requires ListedCode(c)
    ensures ',' !in c
  {
    ListedCodeShape(c);
    CodeShapeHasNoComma(c);
  }

  lemma ListedCodeTrimmed(c: string)
    requires ListedCode(c)
    ensures Trim(c) == c
  {
    ListedCodeShape(c);
    CodeShapeTrimmed(c);
  }

  /** Listed codes joined by commas form a ts_code the validator accepts. */
  lemma JoinedCodesAccepted(codes: seq<string>)
    requires |codes| >= 1
    requires forall k :: 0 <= k < |codes| ==> ListedCode(codes[k])
    ensures TsCodeCheck(Str(JoinStrings(codes, ","))) == Accepts
  {
    var j := JoinStrings(codes, ",");
    forall k | 0 <= k < |codes| ensures ',' !in codes[k] {
      ListedCodeHasNoComma(codes[k]);
    }
    SplitJoin(codes, ',');
    assert Split(j, ',') == codes;
    forall k | 0 <= k < |codes| ensures ListedCode(Trim(codes[k])) {
      ListedCodeTrimmed(codes[k]);
    }
    assert CodeList(j);
    JoinPrefix(codes, ",");
    assert |j| >= 9;
  }

  /** The first piece of a join starts the joined string. */
  lemma JoinPrefix(xs: seq<string>, sep: string)
    requires |xs| >= 1
    ensures |JoinStrings(xs, sep)| >= |xs[0]| && JoinStrings(xs, sep)[..|xs[0]|] == xs[0]
  {
    if |xs| > 1 {
      assert JoinStrings(xs, sep) == xs[0] + (sep + JoinStrings(xs[1..], sep));
    }
  }

  /** A code with a `BJ` suffix is rejected here, although pro_bar accepts it. */
  lemma BeijingRejected(c: string)
    requires |c| == 9 && AllDigits(c[..6]) && c[6] == '.' && c[7..] == "BJ"
    ensures TsCodeCheck(Str(c)) == Rejects
    ensures ProBar.IsValidTsCode(Str(c))
  {
    assert CodeShape(c);
    CodeShapeHasNoComma(c);
    SplitJoin([c], ',');
    assert JoinStrings([c], ",") == c;
    CodeShapeTrimmed(c);
    assert !ListedCode(Trim(Split(c, ',')[0]));
    assert c[7..9] == "BJ";
    assert ProBar.StartsWithListedCode(c);
  }

  /** An empty piece, as in a trailing comma, is rejected. */
  lemma EmptyPieceRejected(c: string)
    requires ListedCode(c)
    ensures TsCodeCheck(Str(c + ",")) == Rejects
  {
    ListedCodeHasNoComma(c);
    SplitJoin([c, ""], ',');
    assert JoinStrings([c, ""], ",") == c + ",";
    assert Trim("") == "";
  }

  /** White space around a piece is trimmed away. */
  lemma PaddedPieceAccepted(c: string)
    requires ListedCode(c)
    ensures TsCodeCheck(Str(" " + c + " ")) == Accepts
  {
    ListedCodeHasNoComma(c);
    var s := " " + c + " ";
    assert ',' !in s;
    SplitJoin([s], ',');
    assert JoinStrings([s], ",") == s;
    assert Split(s, ',') == [s];
    assert IsDigit(c[..6][0]) && c[..6][0] == c[0];
    assert c[7..][1] == c[8] && c[8] in "HZ";
    TrimPadded(" ", c, " ");
    assert ListedCode(Trim(Split(s, ',')[0]));
  }

  /** Every daily date is a pro_bar date. */
  lemma DateStricterThanProBar(v: Value)
    requires IsValidDate(v)
    ensures ProBar.IsValidDate(v)
  {
  }

  lemma DateExamples()
    ensures IsValidDate(Str("20240101"))
    ensures !IsValidDate(Str(""))
    ensures !IsValidDate(Str("2024-01-01"))
  {
    assert Digits("20240101", 8);
  }

  // -----------------------------------------------------------------------
  // Decoding
  // -----------------------------------------------------------------------

  /** Decoding a daily table: the nine listed columns are coerced, every
      other column (ts_code, trade_date, unknown ones) is kept as it is. */
  lemma DecodedCells(p: Payload, k: nat, i: nat)
    requires k < |p.items| && i < |p.fields| == |p.items[k]|
    requires forall j, l :: 0 <= j < l < |p.fields| ==> p.fields[j] != p.fields[l]
    ensures p.fields[i] in DecodeTable(p, Rule)[k]
    ensures DecodeTable(p, Rule)[k][p.fields[i]] ==
              if p.fields[i] in NumericFields then ToNum(p.items[k][i]) else Raw(p.items[k][i])
  {
    TableCell(p, Rule, k, i);
  }

  /** A three-column row: the code and date verbatim, the close coerced. */
  lemma DecodeExample()
    ensures DecodeRow(["ts_code", "trade_date", "close"],
                      [Str("000001.SZ"), Str("20240102"), Str("9.39")], Rule)
         == map["ts_code" := Raw(Str("000001.SZ")), "trade_date" := Raw(Str("20240102")),
                "close" := ToNum(Str("9.39"))]
  {
    var fields := ["ts_code", "trade_date", "close"];
    var item := [Str("000001.SZ"), Str("20240102"), Str("9.39")];
    assert RowPrefix(fields, item, Rule, 1) == map["ts_code" := Raw(Str("000001.SZ"))];
    assert RowPrefix(fields, item, Rule, 2) ==
             map["ts_code" := Raw(Str("000001.SZ")), "trade_date" := Raw(Str("20240102"))];
  }
}
