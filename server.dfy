/** The data route of the Flask application: trend classification, fuzzy-score
    bucketing, date formatting and the positional rows sent to the page. */
module Server {
  import opened Json
  import Decimal

  /** Candle shape of one trading day. */
  datatype Trend = Bullish | Bearish | Neutral

  /** A long upper wick on a rising day is bullish, a long lower wick on a falling day bearish;
      "long" means more than 2% of the opening price. */
  function AnalyzeMarketTrend(openPrice: real, closePrice: real, highPrice: real, lowPrice: real): (trend: Trend)
    ensures trend == Bullish <==> closePrice > openPrice && highPrice - closePrice > 0.02 * openPrice
    ensures trend == Bearish <==> closePrice < openPrice && closePrice - lowPrice > 0.02 * openPrice
    ensures closePrice == openPrice ==> trend == Neutral
  {
    var threshold := 0.02 * openPrice;
    if closePrice > openPrice && highPrice - closePrice > threshold then Bullish
    else if closePrice < openPrice && closePrice - lowPrice > threshold then Bearish
    else Neutral
  }

  /** The crisp input fed to the fuzzy variable `market_trend`. */
  function TrendValue(trend: Trend): int {
    match trend
    case Bullish => 1
    case Bearish => -1
    case Neutral => 0
  }

  /** One trading day of the downloaded history, with its date index and the indicator columns. */
  datatype HistRow = HistRow(
    date: Date,
    open: real, high: real, low: real, close: real,
    volume: real, dividends: real, splits: real,
    rsi: real, mvm5: real, mvm50: real)

  datatype Date = Date(year: nat, month: nat, day: nat)

  /** The fuzzy controller: the `trading_decision` output for given `market_trend` and
      `rsi_value` inputs. Its rules and defuzzification are not part of this model. */
  type Compute = (int, real) -> real

  /** The score the controller gives one row. */
  function Score(row: HistRow, compute: Compute): real {
    compute(TrendValue(AnalyzeMarketTrend(row.open, row.close, row.high, row.low)), row.rsi)
  }

  lemma TrendValueMeaning(row: HistRow)
    ensures var v := TrendValue(AnalyzeMarketTrend(row.open, row.close, row.high, row.low));
      -1 <= v <= 1 &&
      (v == 1 <==> row.close > row.open && row.high - row.close > 0.02 * row.open) &&
      (v == -1 <==> row.close < row.open && row.close - row.low > 0.02 * row.open)
  {
  }

  /** `add_decision`: one controller score per row, in row order. */
  method AddDecision(hist: seq<HistRow>, compute: Compute) returns (s: seq<real>)
    ensures |s| == |hist|
    ensures forall i :: 0 <= i < |hist| ==>
      s[i] == compute(TrendValue(AnalyzeMarketTrend(hist[i].open, hist[i].close, hist[i].high, hist[i].low)), hist[i].rsi)
  {
    s := [];
    var i := 0;
    while i < |hist|
      invariant 0 <= i <= |hist| && |s| == i
      invariant forall j :: 0 <= j < i ==> s[j] == Score(hist[j], compute)
    {
      var latest := hist[i];
      var trend := AnalyzeMarketTrend(latest.open, latest.close, latest.high, latest.low);
      var marketTrendValue;
      if trend == Bullish {
        marketTrendValue := 1;
      } else if trend == Bearish {
        marketTrendValue := -1;
      } else {
        marketTrendValue := 0;
      }
      s := s + [compute(marketTrendValue, latest.rsi)];
      i := i + 1;
    }
  }

  datatype Decision = Sell | Hold | Buy

  /** The string `final_decision` appends. */
  function Name(d: Decision): string {
    match d
    case Sell => "Sell"
    case Hold => "Hold"
    case Buy => "Buy"
  }

  /** Sell < Hold < Buy. */
  function Rank(d: Decision): nat {
    match d
    case Sell => 0
    case Hold => 1
    case Buy => 2
  }

  /** The bucket `final_decision` puts one score in. */
  function Classify(a: real): Decision {
    if a < 45.0 then Sell
    else if a >= 45.0 && a < 65.0 then Hold
    else Buy
  }

  /** A higher score never gives a more bearish decision. */
  lemma ClassifyMonotone(a: real, b: real)
    requires a <= b
    ensures Rank(Classify(a)) <= Rank(Classify(b))
  {
  }

  lemma NamesDistinct(d: Decision, e: Decision)
    ensures Name(d) == Name(e) <==> d == e
  {
  }

  /** `final_decision`: one label per score, in order, by the thresholds 45 and 65. */
  method FinalDecision(arr: seq<real>) returns (answer: seq<Decision>)
    ensures |answer| == |arr|
    ensures forall i :: 0 <= i < |arr| ==>
      (answer[i] == Sell <==> arr[i] < 45.0) &&
      (answer[i] == Hold <==> 45.0 <= arr[i] < 65.0) &&
      (answer[i] == Buy <==> arr[i] >= 65.0)
  {
    answer := [];
    for i := 0 to |arr|
      invariant |answer| == i
      invariant forall j :: 0 <= j < i ==> answer[j] == Classify(arr[j])
    {
      var a := arr[i];
      if a < 45.0 {
        answer := answer + [Sell];
      } else if a >= 45.0 && a < 65.0 {
        answer := answer + [Hold];
      } else {
        answer := answer + [Buy];
      }
    }
  }

  /** `formatTimeStamps`: year, month and day in decimal, joined by '-', no zero padding. */
  function FormatTimeStamps(timestamp: Date): string {
    Decimal.Show(timestamp.year) + "-" + Decimal.Show(timestamp.month) + "-" + Decimal.Show(timestamp.day)
  }

  /** Splitting a formatted date on '-' gives back its three numbers. */
  lemma FormatTimeStampsSplits(timestamp: Date)
    ensures var parts := Decimal.Split(FormatTimeStamps(timestamp), '-');
      |parts| == 3 &&
      parts == [Decimal.Show(timestamp.year), Decimal.Show(timestamp.month), Decimal.Show(timestamp.day)] &&
      Decimal.AllDigits(parts[0]) && Decimal.AllDigits(parts[1]) && Decimal.AllDigits(parts[2]) &&
      Decimal.Parse(parts[0]) == timestamp.year &&
      Decimal.Parse(parts[1]) == timestamp.month &&
      Decimal.Parse(parts[2]) == timestamp.day
  {
    var y, m, d := Decimal.Show(timestamp.year), Decimal.Show(timestamp.month), Decimal.Show(timestamp.day);
    Decimal.ShowAvoids(timestamp.year, '-');
    Decimal.ShowAvoids(timestamp.month, '-');
    Decimal.ShowAvoids(timestamp.day, '-');
    assert FormatTimeStamps(timestamp) == y + ['-'] + (m + ['-'] + d);
    Decimal.SplitAtFirst(y, '-', m + ['-'] + d);
    Decimal.SplitAtFirst(m, '-', d);
    Decimal.SplitNoSeparator(d, '-');
    Decimal.ParseShow(timestamp.year);
    Decimal.ParseShow(timestamp.month);
    Decimal.ParseShow(timestamp.day);
  }

  /** Formatting is one-to-one: two dates with the same string are the same date. */
  lemma FormatTimeStampsInjective(a: Date, b: Date)
    requires FormatTimeStamps(a) == FormatTimeStamps(b)
    ensures a == b
  {
    FormatTimeStampsSplits(a);
    FormatTimeStampsSplits(b);
  }

  /** The columns left after dropping 'MVM50', 'RSI' and 'MVM5', in frame order:
      Open, High, Low, Close, Volume, Dividends, Stock Splits. */
  function Columns(row: HistRow): seq<real> {
    [row.open, row.high, row.low, row.close, row.volume, row.dividends, row.splits]
  }

  function Numbers(xs: seq<real>): (vs: seq<Value>)
    ensures |vs| == |xs|
    ensures forall k :: 0 <= k < |xs| ==> vs[k] == Number(xs[k])
  {
    if xs == [] then [] else [Number(xs[0])] + Numbers(xs[1..])
  }

  /** One value of `hist_dict`: the seven columns, then the date string, then the decision. */
  function EncodeRow(row: HistRow, stamp: string, decision: Decision): seq<Value> {
    Numbers(Columns(row)) + [Text(stamp), Text(Name(decision))]
  }

  lemma EncodeRowLayout(row: HistRow, stamp: string, decision: Decision)
    ensures var r := EncodeRow(row, stamp, decision);
      |r| == 9 &&
      r[0] == Number(row.open) && r[1] == Number(row.high) && r[2] == Number(row.low) &&
      r[3] == Number(row.close) && r[4] == Number(row.volume) && r[5] == Number(row.dividends) &&
      r[6] == Number(row.splits) && r[7] == Text(stamp) && r[8] == Text(Name(decision))
  {
  }

  /** The `hist_dict` loop: key i holds row i with its date string and decision appended.
      The source indexes `s` and `decision` up to `len(hist)`, so they must be at least that long. */
  method BuildHistDict(hist: seq<HistRow>, s: seq<string>, decision: seq<Decision>)
    returns (histDict: map<int, seq<Value>>)
    requires |s| >= |hist| && |decision| >= |hist|
    ensures forall i :: i in histDict <==> 0 <= i < |hist|
    ensures forall i :: 0 <= i < |hist| ==> histDict[i] == EncodeRow(hist[i], s[i], decision[i])
  {
    histDict := map[];
    var i := 0;
    while i < |hist|
      invariant 0 <= i <= |hist|
      invariant forall j :: j in histDict <==> 0 <= j < i
      invariant forall j :: 0 <= j < i ==> histDict[j] == EncodeRow(hist[j], s[j], decision[j])
    {
      histDict := histDict[i := Numbers(Columns(hist[i])) + [Text(s[i])] + [Text(Name(decision[i]))]];
      i := i + 1;
    }
  }

  /** `send_data_tojs` after the download and the indicators: scores, decisions, date
      strings and the dictionary handed to `jsonify`. */
  method SendData(hist: seq<HistRow>, compute: Compute) returns (histDict: map<int, seq<Value>>)
    ensures forall i :: i in histDict <==> 0 <= i < |hist|
    ensures forall i :: 0 <= i < |hist| ==>
      histDict[i] == EncodeRow(hist[i], FormatTimeStamps(hist[i].date), Classify(Score(hist[i], compute)))
  {
    var scores := AddDecision(hist, compute);
    var decision := FinalDecision(scores);
    var s := seq(|hist|, i requires 0 <= i < |hist| => FormatTimeStamps(hist[i].date));
    histDict := BuildHistDict(hist, s, decision);
    forall i | 0 <= i < |hist|
      ensures decision[i] == Classify(Score(hist[i], compute))
    {
      var d := decision[i];
      assert d == Classify(scores[i]) by {
        if d == Sell {} else if d == Hold {} else {}
      }
    }
  }
}
