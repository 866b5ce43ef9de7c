# A Dafny model of the tushare client's request and response core

The tushare client is a thin TypeScript wrapper around the Tushare Pro
market-data service. Each endpoint adapter (pro_bar, daily, stk_factor,
stk_factor_pro, stock_basic, kline, stock) works in three steps:

1. It checks the caller's options. Most adapters walk a declarative list of
   parameter specs (`BaseAPI.validateParams`). kline and stock use their own
   guarded checks.
2. It picks the provider endpoint and assembles the request parameters and
   field list.
3. The five spec-driven adapters (pro_bar, daily, stk_factor,
   stk_factor_pro, stock_basic) post one JSON envelope through the shared
   `HttpClient` and zip the provider's columnar answer (`fields` plus
   `items`) into row objects, coercing some columns with `parseFloat`.
   kline and stock instead hand the prepared request to their base class's
   `request` method, which is not part of this model: the request is
   returned as a value and nothing is decoded.

This project models those steps and proves what each adapter accepts,
rejects, sends and returns.

Layout:

- `wrappers.dfy`: Option, Result and Outcome.
- `formats.dfy`: the character classes behind the regular expressions (`\d`, `[A-Z]`, `\s`). Also:
  - decimal printing;
  - `Array.prototype.join` and `String.prototype.split` on one separator, with their round trip;
  - `String.prototype.trim`.
- `js_values.dfy`: JavaScript values, option records, truthiness, and the conversion `String(v)`.
- `errors.dfy`: the error kinds the library raises.
- `base.dfy`: `RequestParamSpec` and `validateParams`. It is a loop method, proved against a recursive first-failure function.
- `http.dfy`: the request envelope and the classification of a response. It also has the `HttpClient` class and the module-level client that `initHttpClient` sets and `getHttpClient` reads.
- `columnar.dfy`: the column-to-row decode with its three coercion rules (allow-list, deny-list, verbatim). The row and table loops are methods proved against functions.
- `endpoint.dfy`: the tail that every `getData` shares (get the client, post, decode), and the `{ fields, ...rest }` split.
- `pro_bar.dfy`, `daily.dfy`, `stk_factor.dfy`, `stk_factor_pro.dfy`, `stock_basic.dfy`: one module per spec-driven adapter.
  - Each has its validators, its spec list and an if-and-only-if lemma for validation.
  - Its `getData` is a method proved equal to a call function. That function takes the shared client, the options, and the response the network returns.
- `config.dfy`: the `API_CONFIG` table of kline endpoints.
- `kline.dfy` and `stock.dfy`: KlineAPI and StockAPI.

A call to a spec-driven adapter ends in one of two ways:

- `Rejected(error)`: it threw before anything was sent;
- `Sent(request, outcome)`: exactly one request went out, and the call returned the decoded table or the error the client raised.

`parseFloat` is an uninterpreted tag `ToNum`, so the model states which cells are coerced, not what number results.

## Model

| member | source | states |
|---|---|---|
| Base.ValidateParams | src/api/base.ts:26-41 | The `forEach` over the spec list returns exactly the first-failure outcome of the declared order. |
| Base.MissingIffUndefined | src/api/base.ts:29-39 | A required spec fails as missing iff its value is `undefined`, so `null` and `""` are not missing. A defined value with a validator gets that validator's verdict. Rejection gives an invalid-parameter failure; a throw propagates. |
| Base.ValidatorSkippedWhenUndefined | src/api/base.ts:37 | The validator is never invoked for an `undefined` value: swapping it changes nothing. |
| Base.NoValidatorAcceptsDefined | src/api/base.ts:37 | A spec without a validator never fails on a defined value. |
| Base.PassIffAllPass | src/api/base.ts:28-40 | The whole check passes iff every spec passes on its own. |
| Base.FirstFailureWins | src/api/base.ts:28-40 | If every spec before index i passes and spec i fails, the result is spec i's failure, whatever follows. |
| Base.FailingIndex | src/api/base.ts:28-40 | A failing check names a spec that fails, and every earlier spec passes. |
| Base.CheckCons | src/api/base.ts:28-40 | The first spec is examined first, and the rest only when it passes. |
| Base.CheckConsPass | src/api/base.ts:28-40 | A list passes iff its first spec passes and the rest of the list passes. |
| Base.CheckAppend | src/api/base.ts:28-40 | Specs after a failing prefix are never examined. After a passing prefix, the rest decides. |
| Base.DefaultsIgnored | src/api/base.ts:26-41 | A spec's declared `default` is never consulted: replacing every default leaves the outcome unchanged. |
| Base.OnlyNamedKeysMatter | src/api/base.ts:28-29 | Options that agree on the named keys get the same outcome, whatever other keys they carry. |
| Base.WithDefault | src/types/api.ts:4-11 | Replacing a spec's default keeps its name and required flag. |
| JsValues.StrArray | src/api/stock_basic.ts:92-99 | A string list becomes an array value whose elements are those strings, in order. |
| JsValues.JoinStrArray | src/api/pro_bar.ts:212 | `join(',')` on an array of strings is the strings joined by commas. |
| Formats.JoinSplit | src/api/daily.ts:48 | Splitting a string on `,` and joining the pieces with `,` gives the string back. |
| Formats.SplitJoin | src/api/daily.ts:48 | Splitting a comma-join of comma-free pieces gives the pieces back. |
| Formats.Split | src/api/daily.ts:48 | `split(',')` yields at least one piece (the empty string gives one empty piece), and no piece contains the separator. |
| Formats.SplitPrefix | src/api/daily.ts:48 | A separator-free prefix becomes part of the first piece of what follows it. |
| Formats.TrimPadded | src/api/daily.ts:49 | `trim` removes white space around a core that starts and ends with non-space characters, and only that white space. |
| Formats.DecimalStringInjective | src/utils/http.ts:35 | Different integers print differently. |
| Http.Classify | src/utils/http.ts:34-45 | A non-ok response fails with `HTTP error! status: <status>`. Otherwise `code !== 0` fails with `API error: <msg>`. The call succeeds iff ok and `code === 0`, and then returns exactly `data.data`. |
| Http.BodyUnreadWhenNotOk | src/utils/http.ts:34-36 | A non-ok response fails without its body being read: any other body gives the same result. |
| Http.DataUnreadOnApiError | src/utils/http.ts:41-43 | A provider error fails whatever the table holds. |
| Http.OnlyPlainErrors | src/utils/http.ts:35-42 | Failures are plain Errors, never HTTPError or TushareAPIError. |
| Http.HttpErrorMessageInjective | src/utils/http.ts:35 | The HTTP error message carries the status: different statuses give different messages. |
| Http.ApiErrorMessageCarriesMsg | src/utils/http.ts:42 | The API error message ends with the provider's message text. |
| Http.HttpClient.constructor | src/utils/http.ts:8-11 | Stores the token; an omitted base URL becomes `http://api.tushare.pro`. |
| Http.HttpClient.Post | src/utils/http.ts:20-46 | POSTs to the base URL an envelope of `api_name`, the client's token, `params` and `fields`, each passed through unchanged. The result is the response's classification. |
| Http.SharedClient.constructor | src/utils/http.ts:50 | At module load there is no client. |
| Http.SharedClient.InitHttpClient | src/utils/http.ts:57-59 | Installs a fresh client with the given token and base URL (or the default), replacing any earlier one. |
| Http.SharedClient.GetHttpClient | src/utils/http.ts:64-69 | Fails with the not-initialized error when no client is set; otherwise returns the installed client. |
| Http.Lifecycle | src/utils/http.ts:50-69 | Before any init, get fails. After `init(t1, url)`, get returns a client with token t1. A second init replaces it with a different client. |
| Columnar.BuildRow | src/api/stk_factor_pro.ts:360-364 | The `forEach` over the columns builds exactly the row where each column is assigned in index order under the adapter's coercion rule. |
| Columnar.DecodeRows | src/api/pro_bar.ts:219-234 | `items.map`: one row per item, in item order, each the decoded row. |
| Columnar.RowKeys | src/api/stock_basic.ts:121-124 | A row's keys are exactly the response's column names: unknown columns are kept. |
| Columnar.LastColumnWins | src/api/stk_factor_pro.ts:361-363 | With no later duplicate of its name, column i's cell is its own value, coerced per the rule, so of a repeated name the last column wins. |
| Columnar.DistinctColumns | src/api/pro_bar.ts:221-232 | With distinct names over a full-width item, each column keeps its own value, and is coerced iff the rule says so. |
| Columnar.TableCell | src/api/pro_bar.ts:219-234 | For distinct column names, row k holds column i of item k, coerced iff the rule says so. |
| Columnar.VerbatimZip | src/api/stk_factor_pro.ts:359-365 | The verbatim decode is a plain zip. Row count equals item count. Column i of item k lands raw under its name when no later column repeats it. |
| Columnar.DecodeRoundTrip | src/api/stock_basic.ts:120-126 | With distinct names, reading a row back column by column recovers the item under every rule. |
| Columnar.VerbatimKeepsRaw | src/api/stock_basic.ts:122-124 | Under the verbatim rule no cell is coerced. |
| Endpoint.Omit | src/api/kline.ts:62 | `...rest` holds every option not named, with its value. |
| Endpoint.SplitFields | src/api/stk_factor_pro.ts:347 | `{ fields, ...params }` takes `fields` out and keeps every other key with its value. |
| Endpoint.Deliver | src/api/stk_factor_pro.ts:353-365 | Covers getHttpClient, post and decode. With no client, nothing is sent and the not-initialized error results. Otherwise one request goes out with the given endpoint, parameters and fields. It fails iff the response is classified as a failure, and otherwise yields the decoded table, one row per item. |
| Endpoint.Send | src/api/stk_factor_pro.ts:353-365 | The imperative tail does exactly what Deliver describes. |
| ProBar.UpperSuffixLength | src/api/pro_bar.ts:50 | The result is the length of the maximal all-capital suffix. |
| ProBar.EndsWithDottedCapitalsIsMatch | src/api/pro_bar.ts:50 | The character-level check equals the regex alternative `[A-Z]+\.[A-Z]+$`, which is anchored only at the end. |
| ProBar.DottedCapitalsWitness | src/api/pro_bar.ts:50 | Capitals, a dot and capitals at the end form a match of `[A-Z]+\.[A-Z]+$`. |
| ProBar.MatchEndsWithDottedCapitals | src/api/pro_bar.ts:50 | A match of `[A-Z]+\.[A-Z]+$` at any position means the string ends with capitals, a dot and capitals. |
| ProBar.UpperSuffixExact | src/api/pro_bar.ts:50 | A capital suffix bounded by a non-capital is the maximal one. |
| ProBar.DateExamples | src/api/pro_bar.ts:40-44 | `isValidDate` accepts `20240101` and `2024-01-01`. |
| ProBar.DateTimeExample | src/api/pro_bar.ts:40-44 | `isValidDate` accepts `2024-01-01 09:30:00`: a dashed date, a space and a time. |
| ProBar.DateRejections | src/api/pro_bar.ts:40-44 | `isValidDate` rejects `""` and `20190901 09:00:00`. |
| ProBar.ListedCodeAccepted | src/api/pro_bar.ts:47-51 | A string that starts with six digits, a dot and SH, SZ or BJ is accepted, whatever follows. |
| ProBar.TsCodeListed | src/api/pro_bar.ts:47-51 | `600519.SH` is accepted. |
| ProBar.TsCodeTrailingText | src/api/pro_bar.ts:50 | The first alternative is anchored only at the start, so `600519.SH.junk` is accepted. |
| ProBar.TsCodeLeadingText | src/api/pro_bar.ts:50 | The second alternative is anchored only at the end, so `x AB.CD` is accepted. |
| ProBar.TsCodeRejected | src/api/pro_bar.ts:47-51 | `""` and `600519` are rejected. |
| ProBar.FreqExamples | src/api/pro_bar.ts:54-57 | `D`, `W`, `M`, `5min` and `120min` are accepted. `""`, `min` and `d` are rejected. |
| ProBar.SpecsUnfold | src/api/base.ts:28-40 | The pro_bar list passes iff each of its eight validated specs passes. The ninth, adjfactor, has no validator and never fails. |
| ProBar.FormatSpecsPass | src/api/pro_bar.ts:68-96 | ts_code passes iff it matches the code pattern, so it is required. Each date passes iff it is absent or matches. asset passes iff it is one of E I C FT FD O CB, which an absent asset is not. |
| ProBar.ChoiceSpecsPass | src/api/pro_bar.ts:97-125 | adj passes iff absent or qfq, hfq or null. freq passes iff it matches the frequency pattern. ma passes iff absent or an array of positive integers. factors passes iff absent or an array of tor/vr. |
| ProBar.ValidationPassIff | src/api/pro_bar.ts:67-132 | Validation passes iff all of the following hold: the ts_code matches; any dates match; asset is one of E I C FT FD O CB; any adj is qfq, hfq or null; freq matches; any ma is an array of positive integers (the empty one included); any factors is an array of tor/vr. adjfactor is never checked. |
| ProBar.Dispatch | src/api/pro_bar.ts:158-180 | Dispatch succeeds iff asset is E, I, FT, FD, O or CB; otherwise it fails with the unsupported-asset error. E, I, FT and FD map to their daily endpoint iff freq is `D`, else to their minute endpoint. O maps to opt_daily and CB to cb_daily. |
| ProBar.AssetCAcceptedButUnsupported | src/api/pro_bar.ts:95-179 | Asset C passes the spec validator but dispatch throws the unsupported-asset error. |
| ProBar.WeeklyMonthlyUseMinuteEndpoint | src/api/pro_bar.ts:159-171 | W and M bars of E, I, FT and FD go to the `*_mins` endpoint. |
| ProBar.ValidatedJoinable | src/api/pro_bar.ts:117-124 | After validation, a truthy ma or factors is an array, so `join` applies. |
| ProBar.FixedParams | src/api/pro_bar.ts:183-188 | The parameters always hold ts_code, start_date, end_date and freq, each with the option's value. |
| ProBar.ParamKeys | src/api/pro_bar.ts:183-208 | asset is never sent. No key is sent beyond the four query keys and adj, ma, factors and adjfactor. |
| ProBar.OptionalParams | src/api/pro_bar.ts:190-208 | adj is present iff asset is E and adj is truthy, and then as given. ma and factors are present iff truthy, comma-joined. adjfactor is present iff not `undefined`, as given. |
| ProBar.AssembleParams | src/api/pro_bar.ts:183-208 | The step-by-step parameter object equals RequestParams, the object FixedParams, ParamKeys and OptionalParams describe. |
| ProBar.AdjfactorFalseIsSent | src/api/pro_bar.ts:206-208 | `adjfactor: false` is sent, with the value `false`. |
| ProBar.GetData | src/api/pro_bar.ts:153-235 | The method (validate, switch, conditional adds, post, decode) computes exactly ProBarCall. |
| ProBar.CallShape | src/api/pro_bar.ts:153-216 | A request is sent iff the client is set, the options are acceptable and the asset class is served. A sent request goes to the dispatched endpoint with exactly the assembled parameters RequestParams (holding the given ts_code and no asset) and the default fields joined by commas. |
| ProBar.DecodedCells | src/api/pro_bar.ts:219-234 | The fifteen listed columns are coerced; ts_code, trade_date and unknown columns are kept as they are. |
| ProBar.DefaultNotApplied | src/api/pro_bar.ts:89-96 | Omitting `asset`, though it declares default E, fails with `参数 asset 是必填项`. |
| Daily.TsCodeCheck | src/api/daily.ts:45-50 | A falsy value is rejected. A truthy non-string throws the `split` TypeError. A string is accepted iff every comma-separated piece, trimmed, is six digits, `.`, SH or SZ. |
| Daily.SpecPassConditions | src/api/daily.ts:58-87 | Each optional spec passes when absent or when its validator accepts. |
| Daily.ValidationPassIff | src/api/daily.ts:58-87 | Validation passes iff any ts_code is a non-empty string of listed codes and every given date is eight digits. |
| Daily.GetData | src/api/daily.ts:99-129 | The method computes exactly DailyCall. |
| Daily.CallShape | src/api/daily.ts:101-114 | A request is sent iff the client is set, validation passes, and some condition is truthy. It goes to `daily` with the options unchanged and the default fields joined by commas. |
| Daily.ValidationBeforeGuard | src/api/daily.ts:101-106 | A failing spec wins over the missing-condition guard. |
| Daily.EmptyOptionsRejected | src/api/daily.ts:104-106 | Empty options pass validation, then fail the guard before any request. |
| Daily.NumericTsCodeThrows | src/api/daily.ts:46-48 | A truthy number as ts_code makes the validator throw, and the call propagates that TypeError. |
| Daily.JoinedCodesAccepted | src/api/daily.ts:45-50 | Any non-empty list of listed codes, joined by commas, is accepted. |
| Daily.BeijingRejected | src/api/daily.ts:49 | Every `DDDDDD.BJ` code is rejected here, although pro_bar accepts it. |
| Daily.EmptyPieceRejected | src/api/daily.ts:48-49 | A trailing comma (an empty piece) is rejected. |
| Daily.PaddedPieceAccepted | src/api/daily.ts:49 | White space around a code is trimmed away. |
| Daily.DateStricterThanProBar | src/api/daily.ts:37-40 | Every daily date is a pro_bar date. |
| Daily.DateExamples | src/api/daily.ts:37-40 | `20240101` is accepted. `""` and `2024-01-01` are rejected. |
| Daily.DecodedCells | src/api/daily.ts:117-128 | The nine listed columns are coerced; ts_code, trade_date and unknown columns are kept. |
| Daily.DecodeExample | src/api/daily.ts:119-126 | A three-column row keeps the code and date and coerces the close. |
| StkFactor.TsCodeCheck | src/api/stk_factor.ts:59-76 | The spec validator accepts any falsy value. Otherwise it accepts exactly six digits, `.`, and SH/SZ/BJ, anchored at both ends. |
| StkFactor.DateCheck | src/api/stk_factor.ts:53-97 | The date spec validators accept any falsy value and otherwise exactly eight digits. |
| StkFactor.SpecPassConditions | src/api/stk_factor.ts:70-99 | Each spec passes iff its value is falsy or well formed. |
| StkFactor.ValidationPassIff | src/api/stk_factor.ts:70-99 | Validation passes iff every truthy parameter has its format. |
| StkFactor.EmptyOptionsValidate | src/api/stk_factor.ts:70-99 | Nothing is required, so empty options validate. |
| StkFactor.GetData | src/api/stk_factor.ts:119-144 | The method computes exactly StkFactorCall. |
| StkFactor.CallShape | src/api/stk_factor.ts:121-129 | A request is sent iff the client is set and validation passes. It carries the options unchanged and always the default fields joined by commas. |
| StkFactor.DecodedCells | src/api/stk_factor.ts:132-143 | Every column but ts_code and trade_date is coerced, unknown columns included. |
| StkFactor.TsCodeExamples | src/api/stk_factor.ts:59-62 | `830799.BJ` matches; `600519.SH.junk` does not. `""` passes the spec validator. |
| StkFactorPro.ValidationNeverFails | src/api/stk_factor_pro.ts:290-321 | No spec is required or has a validator, so validation never fails. |
| StkFactorPro.GetData | src/api/stk_factor_pro.ts:342-366 | The method computes exactly StkFactorProCall. |
| StkFactorPro.CallShape | src/api/stk_factor_pro.ts:344-356 | A request is sent iff the client is set. It carries every option but `fields`, unchanged, and the fields argument above. |
| StkFactorPro.EmptyFieldsFallBack | src/api/stk_factor_pro.ts:350 | An empty fields string falls back to the default list. |
| StockBasic.ValidationPassIff | src/api/stock_basic.ts:44-90 | Validation passes iff a given list_status is L/D/P and a given is_hs is N/H/S. Every other parameter accepts anything. |
| StockBasic.GetData | src/api/stock_basic.ts:106-127 | The method computes exactly StockBasicCall. |
| StockBasic.CallShape | src/api/stock_basic.ts:108-117 | A request is sent iff the client is set and validation passes. It carries every option but `fields`, unchanged, and the fields argument above. |
| StockBasic.DefaultNotInserted | src/api/stock_basic.ts:73-117 | The declared default L is not inserted: an omitted list_status is not sent. |
| StockBasic.BadListStatusRejected | src/api/stock_basic.ts:69-76 | A defined list_status other than L/D/P fails with `参数 list_status 验证失败` before any request. |
| StockBasic.BadListStatusFails | src/api/stock_basic.ts:44-76 | The four specs before list_status pass whatever the options, so a bad list_status is the first failure. |
| Config.MinuteTableKeys | src/config.ts:12-40 | The minute table's keys are exactly the keys of frequencies 1, 5, 15, 30 and 60. |
| Config.MinuteKeysExactly | src/config.ts:10-41 | `min${freq}` has an entry iff freq is 1, 5, 15, 30 or 60. |
| Config.MinuteEntries | src/config.ts:12-40 | Every minute entry goes to pro_bar, with the frequency its key names followed by `min`, and the trade_time field string. |
| Config.PeriodEntries | src/config.ts:43-61 | Each period's endpoint is the period's own name, and all four share the trade_date field string. |
| Config.FieldStrings | src/config.ts:15-60 | Minute field strings start `ts_code,trade_time`; period field strings start `ts_code,trade_date`. |
| Config.MinuteKeyValues | src/config.ts:12-36 | The keys of frequencies 1, 5, 15, 30 and 60 are min1, min5, min15, min30 and min60. |
| Config.FrequencyDigits | src/api/kline.ts:88 | The template `${freq}` prints 1, 5, 15, 30 and 60 as those digits. |
| Kline.KlineApi.constructor | src/api/kline.ts:18-21 | Stores the configuration, and the base class's format checks. |
| Kline.KlineApi.Validate | src/api/kline.ts:27-45 | Passes iff each truthy one of ts_code, start_date, end_date, trade_date passes its format check. A bad ts_code wins over the others, and a bad start date over the later ones. Every failure is a ValidationError with one of the four messages. |
| Kline.ValidationOrder | src/api/kline.ts:30-44 | The checks run in the order ts_code, start_date, end_date, trade_date; the first failure's message is thrown. |
| Kline.FalsyNeverChecked | src/api/kline.ts:30-44 | Falsy values are never checked. |
| Kline.QueryKeys | src/api/kline.ts:62-67 | The destructured query keys are exactly ts_code, start_date, end_date and trade_date, each with the option's value (`undefined` when absent). |
| Kline.PeriodParams | src/api/kline.ts:62-69 | The parameters hold every option but `fields`, plus the four query keys even when absent, each with the option's value. |
| Kline.MinuteParams | src/api/kline.ts:93-101 | Like PeriodParams, plus `freq`. The caller's own freq wins over the entry's because `...rest` is spread last. |
| Kline.KlineApi.GetKlineData | src/api/kline.ts:51-76 | Validation runs first. A missing period entry throws `不支持的周期类型: <period>`. It succeeds iff both pass, with the entry's endpoint, the parameters above, and the supplied fields if truthy, else the entry's defaults. |
| Kline.KlineApi.GetMinuteData | src/api/kline.ts:82-108 | Validation runs first. A missing `min${freq}` entry throws `不支持的分钟频率: <freq>`. It succeeds iff both pass, with the entry's endpoint, the entry's provider frequency, and the fields fallback. |
| Kline.ValidationBeforeLookup | src/api/kline.ts:86-91 | Failing options report the validation error even for an unsupported frequency. |
| Kline.CallerFreqOverrides | src/api/kline.ts:93-101 | A caller's `freq` key overrides the entry's frequency. |
| Kline.ShippedMinuteEntry | src/api/kline.ts:82-108 | With the shipped table, a supported frequency goes to pro_bar with freq `<n>min`. |
| Kline.ShippedMinuteWrappers | src/api/kline.ts:113-143 | getMin1 … getMin60 send freq 1min, 5min, 15min, 30min and 60min. |
| Kline.ShippedPeriodWrappers | src/api/kline.ts:148-171 | getDaily … getYearly send to daily, weekly, monthly and yearly. |
| Kline.ShippedFrequencies | src/api/kline.ts:88-91 | With the shipped table exactly the five frequencies are served; any other throws the unsupported-frequency error. |
| Stock.GetStockBasic | src/api/stock.ts:12-46 | A truthy ts_code failing the format check throws `无效的股票代码格式`. Otherwise, a truthy exchange outside SSE/SZSE/BSE throws `无效的交易所代码`. It succeeds iff neither happens. The request then goes to stock_basic with no fields argument, carrying every option and the eight named keys, each with the option's value. |
| Stock.DefaultOptionsPass | src/api/stock.ts:12-44 | Omitted options pass whatever the format check says; the eight named keys are sent as `undefined`. |
| Stock.TsCodeCheckedFirst | src/api/stock.ts:26-32 | With both bad, the ts_code error wins. |
| Stock.OptionsForwarded | src/api/stock.ts:34-46 | Every option, limit, offset and unknown keys included, is forwarded unchanged. |
| Stock.ExchangeIsCaseSensitive | src/api/stock.ts:30 | `sse` is not an exchange. |

## Left out

- The `type` and `description` fields of a parameter spec: nothing reads them.
- `fetch`, headers, `JSON.stringify` and `response.json()`. These are network I/O: the response is a parameter of each call, already parsed into `ok`, `status`, `code`, `msg` and `data`.
- JSON serialisation dropping `undefined`-valued parameters. Parameters are modelled as the object literal before serialisation.
- `async`/`Promise` plumbing: every call is sequential.
- `parseFloat`: it is the tag `ToNum`, not a number. Floating-point values are not modelled.
- Non-integral numbers are an opaque `NonInteger` carrying their printed text. Integers from 10^21 up print in exponent form in JavaScript; the model prints them in full decimal.
- The key order of row objects and parameter objects: maps are unordered.
- A `null` base URL given to `HttpClient` is not modelled; only an omitted (`undefined`) one takes the default.
- A successful provider answer whose `data` is not a `{fields, items}` table is not modelled.
- Sparse arrays and holes: arrays are plain sequences.
- Plain objects and functions as option values: `Value` has no case for them, so a caller passing one (say as `ts_code`) to a validator is not modelled. The TypeScript parameter types do not allow it.
- The constructor, `request`, `validateTsCode` and `validateDate` of the base class that kline.ts and stock.ts extend are not in src/api/base.ts.
  - The format checks are parameters (`Value -> bool`).
  - The prepared request is returned as a `Request` value rather than sent.
  - The token and base URL handed to that constructor are not stored.
- Kline.KlineApi.GetMin1 through GetYearly carry no contract of their own. Their behaviour is stated by Kline.ShippedMinuteWrappers and Kline.ShippedPeriodWrappers.
- StockAPI's `getCompanyInfo` and `getManagers` have empty bodies and are not modelled.
- The example scripts under examples/, the type declarations under src/types/, and the re-export modules src/index.ts and src/api/config/index.ts.
- The static `DEFAULT_FIELDS` list of src/api/config/stock.config.ts: it is data with no behaviour.
- "A passing validation leaves `options` unchanged": options are values in the model, so no check can change them.
- Config.FieldStrings: states each field string's first two columns through its prefix, not the full split of the string into columns.
- Regular expressions in general: each validator is written as a character-level predicate. `\s` is JavaScript's white-space class and `\d` is ASCII digits.
