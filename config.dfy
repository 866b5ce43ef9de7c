/** The API configuration table: which provider endpoint, frequency and
    default field list each kline period and minute frequency uses. */
module Config {
  import opened Formats

  /** A minute-bar entry: endpoint, provider frequency and default fields. */
  datatype MinuteConfig = MinuteConfig(apiName: string, freq: string, defaultFields: string)

  /** A daily-or-longer entry: endpoint and default fields. */
  datatype KlineConfig = KlineConfig(apiName: string, defaultFields: string)

  /** The four periods getKlineData accepts. */
  datatype Period = Daily | Weekly | Monthly | Yearly

  function PeriodName(p: Period): string {
    match p
    case Daily => "daily"
    case Weekly => "weekly"
    case Monthly => "monthly"
    case Yearly => "yearly"
  }

  /** `config.kline`: minute entries under string keys, and one entry per
      period. A configuration handed to the kline adapter may lack entries,
      which the adapter checks for. */
  datatype ApiConfig = ApiConfig(minutes: map<string, MinuteConfig>, periods: map<Period, KlineConfig>)

  /** The key of the minute entry for a frequency: `min${freq}`. */
  function MinuteKey(freq: int): string {
    "min" + DecimalString(freq)
  }

  /** The default field strings, written as their key columns and the rest. */
  const MinuteFields: string := "ts_code,trade_time" + ",open,high,low,close,vol,amount"
  const PeriodFields: string := "ts_code,trade_date" + ",open,high,low,close,pre_close,change,pct_chg,vol,amount"

  /** API_CONFIG. */
  const Table: ApiConfig := ApiConfig(
    map[
      "min1" := MinuteConfig("pro_bar", "1min", MinuteFields),
      "min5" := MinuteConfig("pro_bar", "5min", MinuteFields),
      "min15" := MinuteConfig("pro_bar", "15min", MinuteFields),
      "min30" := MinuteConfig("pro_bar", "30min", MinuteFields),
      "min60" := MinuteConfig("pro_bar", "60min", MinuteFields)],
    map[
      Daily := KlineConfig("daily", PeriodFields),
      Weekly := KlineConfig("weekly", PeriodFields),
      Monthly := KlineConfig("monthly", PeriodFields),
      Yearly := KlineConfig("yearly", PeriodFields)])

  /** The supported minute frequencies. */
  const MinuteFrequencies: set<int> := {1, 5, 15, 30, 60}

  lemma FrequencyDigits()
    ensures DecimalString(1) == "1" && DecimalString(5) == "5" && DecimalString(15) == "15"
    ensures DecimalString(30) == "30" && DecimalString(60) == "60"
  {
    assert NatString(1) == "1" && NatString(5) == "5";
    assert NatString(15) == "15" && NatString(30) == "30" && NatString(60) == "60";
  }

  lemma MinuteKeyValues()
    ensures MinuteKey(1) == "min1" && MinuteKey(5) == "min5" && MinuteKey(15) == "min15"
    ensures MinuteKey(30) == "min30" && MinuteKey(60) == "min60"
  {
    FrequencyDigits();
  }

  /** The minute table is keyed by the five frequencies' keys. */
  lemma MinuteTableKeys()
    ensures Table.minutes.Keys == {MinuteKey(1), MinuteKey(5), MinuteKey(15), MinuteKey(30), MinuteKey(60)}
  {
    MinuteKeyValues();
  }

  /** Two frequencies with the same key are the same frequency. */
  lemma MinuteKeyInjective(freq: int, n: int)
    requires MinuteKey(freq) == MinuteKey(n)
    ensures freq == n
  {
    assert MinuteKey(freq)[3..] == DecimalString(freq);
    assert MinuteKey(n)[3..] == DecimalString(n);
    DecimalStringInjective(freq, n);
  }

  /** A key among the five frequencies' keys names one of them. */
  lemma KeyAmongFrequencies(freq: int)
    requires MinuteKey(freq) in {MinuteKey(1), MinuteKey(5), MinuteKey(15), MinuteKey(30), MinuteKey(60)}
    ensures freq in MinuteFrequencies
  {
    var key := MinuteKey(freq);
    if key == MinuteKey(1) {
      MinuteKeyInjective(freq, 1);
    } else if key == MinuteKey(5) {
      MinuteKeyInjective(freq, 5);
    } else if key == MinuteKey(15) {
      MinuteKeyInjective(freq, 15);
    } else if key == MinuteKey(30) {
      MinuteKeyInjective(freq, 30);
    } else {
      MinuteKeyInjective(freq, 60);
    }
  }

  /** Exactly five minute frequencies have an entry: 1, 5, 15, 30 and 60. */
  lemma MinuteKeysExactly(freq: int)
    ensures MinuteKey(freq) in Table.minutes <==> freq in MinuteFrequencies
  {
    MinuteTableKeys();
    if MinuteKey(freq) in Table.minutes.Keys {
      KeyAmongFrequencies(freq);
    }
  }

  /** Every minute entry goes to pro_bar with the frequency its key names. */
  lemma MinuteEntries(freq: int)
    requires freq in MinuteFrequencies
    ensures MinuteKey(freq) in Table.minutes
    ensures Table.minutes[MinuteKey(freq)].apiName == "pro_bar"
    ensures Table.minutes[MinuteKey(freq)].freq == DecimalString(freq) + "min"
    ensures Table.minutes[MinuteKey(freq)].defaultFields == MinuteFields
  {
    MinuteKeyValues();
    if freq == 1 {
      assert Table.minutes["min1"] == MinuteConfig("pro_bar", "1min", MinuteFields);
      assert DecimalString(1) + "min" == "1min";
    } else if freq == 5 {
      assert Table.minutes["min5"] == MinuteConfig("pro_bar", "5min", MinuteFields);
      assert DecimalString(5) + "min" == "5min";
    } else if freq == 15 {
      assert Table.minutes["min15"] == MinuteConfig("pro_bar", "15min", MinuteFields);
      assert DecimalString(15) + "min" == "15min";
    } else if freq == 30 {
      assert Table.minutes["min30"] == MinuteConfig("pro_bar", "30min", MinuteFields);
      assert DecimalString(30) + "min" == "30min";
    } else {
      assert Table.minutes["min60"] == MinuteConfig("pro_bar", "60min", MinuteFields);
      assert DecimalString(60) + "min" == "60min";
    }
  }

  /** Every period has an entry whose endpoint is the period's own name. */
  lemma PeriodEntries(p: Period)
    ensures p in Table.periods
    ensures Table.periods[p].apiName == PeriodName(p)
    ensures Table.periods[p].defaultFields == PeriodFields
  {
  }

  /** Minute bars are keyed by `trade_time` and period bars by
      `trade_date`: the column after `ts_code` in each field string. */
  lemma FieldStrings()
    ensures MinuteFields[..8] == "ts_code," && MinuteFields[8..18] == "trade_time"
    ensures PeriodFields[..8] == "ts_code," && PeriodFields[8..18] == "trade_date"
  {
    assert MinuteFields[..18] == "ts_code,trade_time";
    assert PeriodFields[..18] == "ts_code,trade_date";
  }
}
