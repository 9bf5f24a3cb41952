/** The page script: decoding the fetched batch into data points and replaying them
    into a chart through a sliding window of at most WINDOW_SIZE points. */
module Client {
  import opened Json

  /** Number of points shown at once. */
  const WINDOW_SIZE: nat := 50
  /** Delay, in milliseconds, of every timer the engine schedules. */
  const UPDATE_INTERVAL: nat := 2000

  /** One decoded record. The fields hold whatever the record held at that position. */
  datatype DataPoint = DataPoint(
    timestamp: Value, open: Value, high: Value, low: Value, close: Value,
    volume: Value, dividends: Value, splits: Value, decision: Value)

  /** JavaScript's `record[k]`: the element, or `undefined` past the end. */
  function At(record: seq<Value>, k: nat): Value {
    if k < |record| then record[k] else Undefined
  }

  /** The arrow function inside `transformData`. */
  function ToPoint(record: seq<Value>): DataPoint {
    DataPoint(
      timestamp := At(record, 7),
      open := At(record, 0), high := At(record, 1), low := At(record, 2), close := At(record, 3),
      volume := At(record, 4), dividends := At(record, 5), splits := At(record, 6),
      decision := At(record, 8))
  }

  /** The positional layout a data point is read from:
      open, high, low, close, volume, dividends, splits, timestamp, decision. */
  function Record(p: DataPoint): seq<Value> {
    [p.open, p.high, p.low, p.close, p.volume, p.dividends, p.splits, p.timestamp, p.decision]
  }

  /** `transformData`: the records, taken in key order 0..n-1, each decoded positionally. */
  function TransformData(rawData: seq<seq<Value>>): (points: seq<DataPoint>)
    ensures |points| == |rawData|
    ensures forall i :: 0 <= i < |rawData| ==> points[i] == ToPoint(rawData[i])
  {
    if rawData == [] then [] else [ToPoint(rawData[0])] + TransformData(rawData[1..])
  }

  /** Decoding reads back every field of the layout. */
  lemma ToPointRecord(p: DataPoint)
    ensures ToPoint(Record(p)) == p
  {
  }

  /** A nine-field record is exactly the layout of the point it decodes to. */
  lemma RecordToPoint(record: seq<Value>)
    requires |record| == 9
    ensures Record(ToPoint(record)) == record
  {
  }

  /** Short records are not rejected: each missing position decodes to `undefined`,
      and positions past the ninth are ignored. */
  lemma ToPointPadsAndTruncates(record: seq<Value>)
    ensures |record| <= 9 ==> Record(ToPoint(record)) == record + seq(9 - |record|, _ => Undefined)
    ensures |record| >= 9 ==> Record(ToPoint(record)) == record[..9]
  {
  }

  lemma TransformDataAppend(a: seq<seq<Value>>, b: seq<seq<Value>>)
    ensures TransformData(a + b) == TransformData(a) + TransformData(b)
  {
  }

  /** The five series of the chart, in dataset order: Close, Open, High, Low, Decision. */
  function SeriesValue(k: nat, p: DataPoint): Value
    requires k < 5
  {
    if k == 0 then p.close
    else if k == 1 then p.open
    else if k == 2 then p.high
    else if k == 3 then p.low
    else p.decision
  }

  function Series(w: seq<DataPoint>, k: nat): (s: seq<Value>)
    requires k < 5
  {
    seq(|w|, j requires 0 <= j < |w| => SeriesValue(k, w[j]))
  }

  /** `Array.prototype.shift` as an update: drop the first element, if any. */
  function Shift<T>(s: seq<T>): seq<T> {
    if s == [] then [] else s[1..]
  }

  /** One reveal applied to a buffer: append, then drop the oldest if over the bound. */
  function Slide<T>(w: seq<T>, x: T): seq<T> {
    var pushed := w + [x];
    if |pushed| > WINDOW_SIZE then Shift(pushed) else pushed
  }

  /** The bound is kept and eviction removes exactly the oldest element. */
  lemma SlideFifo<T>(w: seq<T>, x: T)
    requires |w| <= WINDOW_SIZE
    ensures |Slide(w, x)| <= WINDOW_SIZE
    ensures |w| < WINDOW_SIZE ==> Slide(w, x) == w + [x]
    ensures |w| == WINDOW_SIZE ==> Slide(w, x) == w[1..] + [x]
  {
  }

  /** The source's order of operations: shift when the data window (of length n before the
      push) overflows, then push. On an array as long as the data window this is `Slide`. */
  lemma SlideSteps<T>(s: seq<T>, x: T, n: nat)
    requires |s| == n
    ensures Slide(s, x) == (if n + 1 > WINDOW_SIZE then Shift(s) else s) + [x]
  {
  }

  function WindowStart(k: nat): nat {
    if k <= WINDOW_SIZE then 0 else k - WINDOW_SIZE
  }

  /** The points on screen after the first k reveals: the last WINDOW_SIZE of them. */
  function Window(full: seq<DataPoint>, k: nat): seq<DataPoint>
    requires k <= |full|
  {
    full[WindowStart(k)..k]
  }

  /** Revealing point k slides the window one step along the sequence. */
  lemma WindowAdvance(full: seq<DataPoint>, k: nat)
    requires k < |full|
    ensures Slide(Window(full, k), full[k]) == Window(full, k + 1)
  {
  }

  /** The window holds min(k, WINDOW_SIZE) points, the most recent last. */
  lemma WindowShape(full: seq<DataPoint>, k: nat)
    requires k <= |full|
    ensures |Window(full, k)| == if k < WINDOW_SIZE then k else WINDOW_SIZE
    ensures k > 0 ==> Window(full, k)[|Window(full, k)| - 1] == full[k - 1]
    ensures k == |full| && |full| >= WINDOW_SIZE ==> Window(full, k) == full[|full| - WINDOW_SIZE..]
  {
  }

  lemma SeriesSlide(w: seq<DataPoint>, x: DataPoint, k: nat)
    requires k < 5
    ensures Series(Slide(w, x), k) == Slide(Series(w, k), SeriesValue(k, x))
  {
  }

  /** What `setTimeout` is asked to call next. */
  datatype Callback = AddDataPointCallback | FetchDataCallback
  datatype Timer = Timer(callback: Callback, delay: nat)

  /** What `fetch('/data')` followed by `response.json()` produced. */
  datatype FetchResult = Fetched(data: seq<seq<Value>>) | FetchFailed

  /** The chart widget's data: the label axis and the data arrays of its five datasets. */
  class Chart {
    var labels: seq<string>
    const datasets: array<seq<Value>>

    /** `new Chart(...)` as `initializeChart` configures it: no labels, five empty datasets. */
    constructor ()
      ensures labels == [] && fresh(datasets) && datasets.Length == 5
      ensures forall k :: 0 <= k < 5 ==> datasets[k] == []
    {
      labels := [];
      datasets := new seq<Value>[5](_ => []);
    }

    /** Eviction on the chart side: shift the labels, then every dataset in turn. */
    method ShiftAll()
      modifies this, datasets
      ensures labels == Shift(old(labels))
      ensures forall k :: 0 <= k < datasets.Length ==> datasets[k] == Shift(old(datasets[k]))
    {
      labels := Shift(labels);
      for d := 0 to datasets.Length
        invariant forall j :: 0 <= j < d ==> datasets[j] == Shift(old(datasets[j]))
        invariant forall j :: d <= j < datasets.Length ==> datasets[j] == old(datasets[j])
        invariant labels == Shift(old(labels))
      {
        datasets[d] := Shift(datasets[d]);
      }
    }

    /** Append one point: its caption on the label axis, then close, open, high, low and decision to datasets 0 to 4. */
    method Append(caption: string, point: DataPoint)
      requires datasets.Length == 5
      modifies this, datasets
      ensures labels == old(labels) + [caption]
      ensures forall k :: 0 <= k < 5 ==> datasets[k] == old(datasets[k]) + [SeriesValue(k, point)]
    {
      labels := labels + [caption];
      datasets[0] := datasets[0] + [point.close];
      datasets[1] := datasets[1] + [point.open];
      datasets[2] := datasets[2] + [point.high];
      datasets[3] := datasets[3] + [point.low];
      datasets[4] := datasets[4] + [point.decision];
    }
  }

  /** The module-level state of the page script. */
  class Engine {
    var stockChart: Chart?
    var currentData: seq<DataPoint>
    var fullData: seq<DataPoint>
    var currentIndex: nat
    /** The locale date formatter, taken as given. */
    const formatDate: Value -> string

    function Labels(w: seq<DataPoint>): seq<string> {
      seq(|w|, j requires 0 <= j < |w| => formatDate(w[j].timestamp))
    }

    ghost function Repr(): set<object>
      reads this
    {
      if stockChart == null then {this} else {this, stockChart, stockChart.datasets}
    }

    /** The chart shows exactly the points of `w`, label and series aligned. */
    ghost predicate Shows(chart: Chart, w: seq<DataPoint>)
      reads chart, chart.datasets
    {
      Aligned(chart.labels, chart.datasets[..], w)
    }

    /** Label axis and the five series, as values, are those of the points `w`. */
    ghost predicate Aligned(labels: seq<string>, datasets: seq<seq<Value>>, w: seq<DataPoint>) {
      |datasets| == 5 &&
      labels == Labels(w) &&
      forall k :: 0 <= k < 5 ==> datasets[k] == Series(w, k)
    }

    /** The window is the latest WINDOW_SIZE revealed points of `fullData`, and the chart's
        label and dataset arrays run parallel to it. Before the first load there is no chart
        and nothing to reveal. */
    ghost predicate Valid()
      reads this, Repr()
    {
      currentIndex <= |fullData| &&
      currentData == Window(fullData, currentIndex) &&
      (stockChart == null ==> fullData == []) &&
      (stockChart != null ==> Shows(stockChart, currentData))
    }

    /** The variable declarations of the page-load handler. */
    constructor (formatDate: Value -> string)
      ensures Valid() && stockChart == null
      ensures fullData == [] && currentData == [] && currentIndex == 0
      ensures this.formatDate == formatDate
    {
      stockChart := null;
      currentData := [];
      fullData := [];
      currentIndex := 0;
      this.formatDate := formatDate;
    }

    /** `initializeChart`: a new chart with empty arrays replaces the old one. */
    method InitializeChart()
      modifies this`stockChart
      ensures stockChart != null && fresh(stockChart) && fresh(stockChart.datasets)
      ensures stockChart.labels == [] && stockChart.datasets.Length == 5
      ensures forall k :: 0 <= k < 5 ==> stockChart.datasets[k] == []
    {
      stockChart := new Chart();
    }

    /** `addDataPoint`: reveal the next point and reschedule itself, or, once every point is
        shown, change nothing and schedule a fetch. */
    method AddDataPoint() returns (next: Timer)
      requires Valid()
      modifies Repr()
      ensures Valid()
      ensures fullData == old(fullData) && stockChart == old(stockChart)
      ensures old(currentIndex) < |fullData| ==>
        next == Timer(AddDataPointCallback, UPDATE_INTERVAL) &&
        currentIndex == old(currentIndex) + 1 &&
        stockChart != null &&
        currentData == Slide(old(currentData), fullData[old(currentIndex)]) &&
        stockChart.labels == Slide(old(stockChart.labels), formatDate(fullData[old(currentIndex)].timestamp)) &&
        forall k :: 0 <= k < 5 ==>
          stockChart.datasets[k] == Slide(old(stockChart.datasets[k]), SeriesValue(k, fullData[old(currentIndex)]))
      ensures old(currentIndex) == |fullData| ==>
        next == Timer(FetchDataCallback, UPDATE_INTERVAL) &&
        currentIndex == old(currentIndex) && currentData == old(currentData) &&
        (stockChart != null ==> unchanged(stockChart, stockChart.datasets))
    {
      if currentIndex < |fullData| {
        ghost var k, w0, l0, d0 := currentIndex, currentData, stockChart.labels, stockChart.datasets[..];
        var chart := stockChart;
        var point := fullData[currentIndex];
        currentData := currentData + [point];

        if |currentData| > WINDOW_SIZE {
          currentData := Shift(currentData);
          chart.ShiftAll();
        }

        chart.Append(formatDate(point.timestamp), point);

        currentIndex := currentIndex + 1;
        next := Timer(AddDataPointCallback, UPDATE_INTERVAL);

        RevealStep(fullData, k, w0, l0, d0, currentData, chart.labels, chart.datasets[..]);
      } else {
        next := Timer(FetchDataCallback, UPDATE_INTERVAL);
      }
    }

    /** What one reveal does to the buffers, in the source's order of operations, keeps them
        the window of the next cursor position and parallel to it. */
    lemma RevealStep(full: seq<DataPoint>, k: nat, w0: seq<DataPoint>, l0: seq<string>, d0: seq<seq<Value>>,
                     w1: seq<DataPoint>, l1: seq<string>, d1: seq<seq<Value>>)
      requires k < |full| && w0 == Window(full, k)
      requires Aligned(l0, d0, w0)
      requires var pushed := w0 + [full[k]]; w1 == if |pushed| > WINDOW_SIZE then Shift(pushed) else pushed
      requires var evict := |w0| + 1 > WINDOW_SIZE;
        l1 == (if evict then Shift(l0) else l0) + [formatDate(full[k].timestamp)] &&
        |d1| == 5 &&
        forall j :: 0 <= j < 5 ==> d1[j] == (if evict then Shift(d0[j]) else d0[j]) + [SeriesValue(j, full[k])]
      ensures w1 == Slide(w0, full[k]) == Window(full, k + 1)
      ensures l1 == Slide(l0, formatDate(full[k].timestamp))
      ensures forall j :: 0 <= j < 5 ==> d1[j] == Slide(d0[j], SeriesValue(j, full[k]))
      ensures Aligned(l1, d1, w1)
    {
      WindowAdvance(full, k);
      SlideSteps(l0, formatDate(full[k].timestamp), |w0|);
      forall j | 0 <= j < 5
        ensures d1[j] == Slide(d0[j], SeriesValue(j, full[k]))
      {
        SlideSteps(d0[j], SeriesValue(j, full[k]), |w0|);
      }
      RevealKeepsShows(w0, full[k], l1, d1, l0, d0);
    }

    lemma LabelsSlide(w: seq<DataPoint>, x: DataPoint)
      ensures Labels(Slide(w, x)) == Slide(Labels(w), formatDate(x.timestamp))
    {
    }

    /** If the chart showed `w` before, after sliding each array it shows `Slide(w, x)`. */
    lemma RevealKeepsShows(w: seq<DataPoint>, x: DataPoint, labels: seq<string>, datasets: seq<seq<Value>>,
                           labels0: seq<string>, datasets0: seq<seq<Value>>)
      requires labels0 == Labels(w) && |datasets0| == 5 && forall k :: 0 <= k < 5 ==> datasets0[k] == Series(w, k)
      requires labels == Slide(labels0, formatDate(x.timestamp))
      requires |datasets| == 5 && forall k :: 0 <= k < 5 ==> datasets[k] == Slide(datasets0[k], SeriesValue(k, x))
      ensures labels == Labels(Slide(w, x))
      ensures forall k :: 0 <= k < 5 ==> datasets[k] == Series(Slide(w, x), k)
    {
      LabelsSlide(w, x);
      forall k | 0 <= k < 5 ensures datasets[k] == Series(Slide(w, x), k) {
        SeriesSlide(w, x, k);
      }
    }

    /** `updateChart`: load the batch, clear the window and the cursor, recreate the chart,
        and reveal the first point straight away. */
    method UpdateChart(data: seq<seq<Value>>) returns (next: Timer)
      requires Valid()
      modifies this
      ensures Valid()
      ensures fullData == TransformData(data)
      ensures stockChart != null && fresh(stockChart) && fresh(stockChart.datasets)
      ensures data == [] ==>
        next == Timer(FetchDataCallback, UPDATE_INTERVAL) &&
        currentIndex == 0 && currentData == [] &&
        stockChart.labels == [] && forall k :: 0 <= k < 5 ==> stockChart.datasets[k] == []
      ensures data != [] ==>
        next == Timer(AddDataPointCallback, UPDATE_INTERVAL) &&
        currentIndex == 1 && currentData == [fullData[0]] &&
        stockChart.labels == [formatDate(fullData[0].timestamp)] &&
        forall k :: 0 <= k < 5 ==> stockChart.datasets[k] == [SeriesValue(k, fullData[0])]
    {
      fullData := TransformData(data);
      currentData := [];
      currentIndex := 0;

      InitializeChart();
      next := AddDataPoint();
    }

    /** The continuation of `fetchData`: a successful fetch loads the batch; a failed one is
        only logged, so nothing changes and no timer is scheduled. */
    method OnFetchResult(result: FetchResult) returns (next: Option<Timer>)
      requires Valid()
      modifies this
      ensures Valid()
      ensures result.FetchFailed? ==>
        next == None && unchanged(this) &&
        (stockChart != null ==> unchanged(stockChart, stockChart.datasets))
      ensures result.Fetched? ==>
        fullData == TransformData(result.data) &&
        stockChart != null && fresh(stockChart) && fresh(stockChart.datasets) &&
        next == Some(Timer(if result.data == [] then FetchDataCallback else AddDataPointCallback, UPDATE_INTERVAL)) &&
        currentIndex == (if result.data == [] then 0 else 1)
    {
      match result {
        case Fetched(data) =>
          var timer := UpdateChart(data);
          next := Some(timer);
        case FetchFailed =>
          next := None;
      }
    }
  }

  lemma PrefixStep<T>(s: seq<T>, i: nat)
    requires i < |s|
    ensures s[..i] + [s[i]] == s[..i + 1]
  {
  }

  /** The page lifecycle for one batch: load it from a successful fetch, then let the reveal
      timer fire until k points are shown. `shown` collects the point each reveal appends. */
  method Replay(formatDate: Value -> string, data: seq<seq<Value>>, k: nat)
    returns (engine: Engine, next: Timer, shown: seq<DataPoint>)
    requires 1 <= k <= |data|
    ensures engine.Valid() && engine.fullData == TransformData(data)
    ensures engine.currentIndex == k
    ensures engine.currentData == TransformData(data)[WindowStart(k)..k]
    ensures engine.stockChart != null && engine.stockChart.labels == engine.Labels(engine.currentData)
    ensures forall j :: 0 <= j < 5 ==> engine.stockChart.datasets[j] == Series(engine.currentData, j)
    ensures shown == TransformData(data)[..k]
    ensures next == Timer(AddDataPointCallback, UPDATE_INTERVAL)
  {
    engine := new Engine(formatDate);
    var loaded := engine.OnFetchResult(Fetched(data));
    next := loaded.value;
    ghost var full := engine.fullData;
    shown := [engine.currentData[0]];
    var i := 1;
    while i < k
      invariant 1 <= i <= k
      invariant engine.Valid() && engine.fullData == full && engine.currentIndex == i
      invariant engine.stockChart != null && fresh(engine.stockChart) && fresh(engine.stockChart.datasets)
      invariant shown == full[..i]
      invariant next == Timer(AddDataPointCallback, UPDATE_INTERVAL)
    {
      next := engine.AddDataPoint();
      WindowShape(full, i + 1);
      assert engine.currentData == Window(full, i + 1);
      var point := engine.currentData[|engine.currentData| - 1];
      assert point == full[i];
      PrefixStep(full, i);
      shown := shown + [point];
      i := i + 1;
    }
  }
}
