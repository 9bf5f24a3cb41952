# TradingAlgo playback engine in Dafny

A model of the S&P 500 replay chart of TradingAlgo. The project proves properties of the model.

The Flask route `/data` downloads five years of daily bars. For each day it classifies the candle as Bullish, Bearish or Neutral. A fuzzy controller scores that trend together with the RSI, and the score is bucketed into Sell, Hold or Buy. The route then sends a JSON object whose key `i` holds day `i` as a positional row: seven price columns, the date string, the decision.

The page script decodes the batch into data points (`transformData`). It replays them into a line chart one point every 2000 ms, through a window of at most 50 points (`addDataPoint`). Once every point is shown it schedules the next fetch. `updateChart` loads a new batch, resets the cursor and the window, recreates the chart and reveals the first point straight away.

Files and modules:

- `json.dfy` (`Json`): the values that cross the wire (`Number`, `Text`, and JavaScript's `Undefined`), and `Option`.
- `decimal.dfy` (`Decimal`): Python's `str` on non-negative integers and `str.split` on one character. These are used to state what `formatTimeStamps` produces.
- `server.dfy` (`Server`): `analyze_market_trend`, `add_decision`, `final_decision`, `formatTimeStamps`, the `hist_dict` loop and the route body after the download. Loops in the source are methods with loops; the branches are functions.
- `client.dfy` (`Client`): `transformData` as a recursive function. `Chart` is a class holding the chart's `labels` and the data arrays of its five datasets. `Engine` is a class holding the script's module-level `let` variables (`stockChart`, `currentData`, `fullData`, `currentIndex`). `Engine.Valid()` is the invariant every operation keeps: the cursor is within `fullData`; `currentData` is the last `WINDOW_SIZE` points before the cursor (`Window`); the label axis and each series hold exactly the values of `currentData`, in order. `setTimeout` becomes the returned `Timer` (`AddDataPointCallback` or `FetchDataCallback`, with delay `UPDATE_INTERVAL`). `formatDate` is a function fixed when the engine is created and otherwise unknown.
- `wire.dfy` (`Wire`): `jsonify` followed by `Object.entries`, and the lemma that the page decodes exactly what the server encoded.

## Model

| member | source | states |
|---|---|---|
| `Server.AnalyzeMarketTrend` | src/app.py:62-70 | Bullish exactly when close > open and high − close > 2% of open. Bearish exactly when close < open and close − low > 2% of open. Neutral whenever close equals open. |
| `Server.TrendValueMeaning` | src/app.py:77-83 | The controller input is −1, 0 or 1. It is 1 exactly on the Bullish condition and −1 exactly on the Bearish condition. |
| `Server.AddDecision` | src/app.py:72-91 | One score per row, in row order. Score i is the controller applied to row i's trend value and RSI. |
| `Server.FinalDecision` | src/app.py:92-102 | One label per score, in order: Sell iff score < 45, Hold iff 45 ≤ score < 65, Buy iff score ≥ 65. |
| `Server.ClassifyMonotone` | src/app.py:96-101 | A higher score never gives a lower rank in the order Sell < Hold < Buy. |
| `Server.NamesDistinct` | src/app.py:97-101 | The three label strings are pairwise different, so the page can tell the decisions apart. |
| `Server.FormatTimeStampsSplits` | src/app.py:107-108 | The date string split on '-' gives exactly three pieces: the unpadded decimal year, month and day. Each piece parses back to its number. |
| `Server.FormatTimeStampsInjective` | src/app.py:107-108 | Different dates give different strings. |
| `Decimal.ShowIsUnpadded` | src/app.py:108 | The decimal spelling is non-empty and all digits. It starts with '0' only for 0, and it is one digit exactly for numbers below 10, so there is no padding. |
| `Decimal.ParseShow` | src/app.py:108 | Parsing the decimal spelling of n gives back n. |
| `Server.EncodeRowLayout` | src/app.py:115-120 | A row has 9 cells: Open, High, Low, Close, Volume, Dividends, Stock Splits as numbers, the date string at index 7 and the decision name at index 8. |
| `Server.BuildHistDict` | src/app.py:110-121 | The keys are exactly 0..len(hist)−1. Key i holds row i's seven columns, then `s[i]`, then `decision[i]`. |
| `Server.SendData` | src/app.py:105-121 | The dictionary sent has keys 0..n−1. Entry i is row i with its formatted date and the bucket of its controller score. |
| `Wire.Entries` | src/static/testscript.js:38 | An object keyed 0..n−1 gives n records, in ascending key order. |
| `Wire.DecodeEncodedRow` | src/static/testscript.js:40-48 | Decoding a server row gives the point with timestamp = date string, open/high/low/close/volume/dividends/splits = the row's columns, and decision = the label. |
| `Wire.ServerToPage` | src/app.py:119-121 | The page's `fullData` has one point per server row, in row order, each field taken from the position the server wrote it to. |
| `Client.TransformData` | src/static/testscript.js:37-50 | One point per record, same length, and point i is decoded from record i. |
| `Client.ToPointRecord` | src/static/testscript.js:40-48 | Decoding the positional layout [open, high, low, close, volume, dividends, splits, timestamp, decision] gives back every field. |
| `Client.RecordToPoint` | src/static/testscript.js:40-48 | A nine-cell record is exactly the layout of the point it decodes to. |
| `Client.ToPointPadsAndTruncates` | src/static/testscript.js:40-48 | A short record is not rejected: each missing position decodes to `undefined`. Cells after the ninth are ignored. |
| `Client.TransformDataAppend` | src/static/testscript.js:37-38 | Decoding works record by record: the decoding of a concatenation is the concatenation of the decodings. |
| `Client.SlideFifo` | src/static/testscript.js:158-167 | With at most 50 points before a reveal, there are at most 50 after. Below 50, the point is appended. At 50, exactly the oldest point is dropped, then the new one is appended. |
| `Client.SlideSteps` | src/static/testscript.js:161-169 | On an array as long as the window, "shift if the window overflowed, then push" is the same as "push, then shift on overflow". |
| `Client.WindowAdvance` | src/static/testscript.js:156-162 | Revealing point k of the window of the first k points gives the window of the first k+1 points. |
| `Client.WindowShape` | src/static/testscript.js:156-178 | After k reveals the window holds min(k, 50) points with point k−1 last. After a full replay of at least 50 points it is the last 50. |
| `Client.SeriesSlide` | src/static/testscript.js:164-175 | Sliding the window and then taking a series gives the same as taking the series and sliding it with the new point's value. |
| `Client.Chart.constructor` | src/static/testscript.js:65-111 | A new chart has no labels and five empty datasets. |
| `Client.Chart.ShiftAll` | src/static/testscript.js:163-166 | The labels and every dataset lose their first element. |
| `Client.Chart.Append` | src/static/testscript.js:169-175 | The label is appended, and close, open, high, low and decision are appended to datasets 0 to 4. |
| `Client.Engine.constructor` | src/static/testscript.js:27-30 | No chart, empty `fullData` and `currentData`, cursor 0. The invariant holds. |
| `Client.Engine.InitializeChart` | src/static/testscript.js:60-68 | The chart is replaced by a fresh one with empty labels and datasets. |
| `Client.Engine.AddDataPoint` | src/static/testscript.js:155-185 | Keeps the invariant and never changes `fullData`. With points left, it advances the cursor by exactly one, slides `fullData[cursor]` into the window and slides its label and series values into the chart arrays, and schedules itself. With none left, it changes nothing and schedules a fetch. |
| `Client.Engine.RevealStep` | src/static/testscript.js:156-178 | One reveal, in the source's order of operations, turns the window at cursor k into the window at k+1. It keeps the label and dataset arrays parallel to the window. |
| `Client.Engine.LabelsSlide` | src/static/testscript.js:163-169 | The labels of a slid window are the old labels slid with the new point's formatted date. |
| `Client.Engine.RevealKeepsShows` | src/static/testscript.js:161-175 | When the chart showed window w, after sliding every array with point x it shows the slid window. |
| `Client.Engine.UpdateChart` | src/static/testscript.js:187-194 | `fullData` becomes the decoded batch and the chart is new. An empty batch leaves the cursor at 0 with empty buffers and schedules a fetch. Otherwise exactly the first point is shown, the cursor is 1, and the next reveal is scheduled. |
| `Client.Engine.OnFetchResult` | src/static/testscript.js:196-207 | A successful fetch loads the batch as `UpdateChart` does. A failed one changes nothing and schedules nothing. |
| `Client.Replay` | src/static/testscript.js:155-194 | After loading a batch and k−1 further reveals (1 ≤ k ≤ n): the cursor is k, the window is `fullData[max(0,k−50)..k]`, and labels and series 0..4 are the window's dates, close, open, high, low and decision. The points revealed, in order, are exactly `fullData[..k]`, with no gap and no repeat. |

## Left out

- Page construction, styling and the "Last updated" text (src/static/testscript.js:1-23, 202-203) are display only.
- Chart.js: the options, the tick and tooltip formatting with `toFixed`, `update('none')` and `destroy`. Only the label and data arrays are modelled; creating a chart is `Chart`'s constructor.
- `formatDate` depends on the locale and on `Date`. It is an arbitrary function fixed when the engine is created.
- `fetch`, `await`, `response.json()`, and the timing of `setTimeout`. A callback's scheduling is the `Timer` it returns, and the result of a fetch is the argument of `OnFetchResult`. The call `fetchData()` made at page load (line 209) is that first fetch.
- The code has no retry after a failed fetch, no cancellation of a pending timer, and no check for malformed records. The model has none of them either. A failed fetch is only logged, so `OnFetchResult` returns no timer and the feed stops. A record that is too short decodes to `undefined` fields.
- An exception thrown inside `updateChart` (for example `Object.entries` of a non-object body) is caught by the same `catch` in `fetchData`. It is not modelled; the fetched body is always a list of records here.
- The yfinance download, the RSI and moving-average indicators, and the fuzzy membership functions, rules and defuzzification (src/app.py:17-61) are numeric libraries. `trading_sim.compute` is the function parameter `Compute` from (trend value, RSI) to score. The simulator is a stateful object, but its inputs are set afresh on every row, so a function is taken to stand for it.
- Floating point: prices and scores are exact reals and 0.02 is exact. NaN is not modelled, for example the RSI of the first days, or a NaN score, which Python's comparisons would put in "Buy".
- `jsonify` turns the integer keys into strings; `Wire.Entries` stands for that together with `Object.entries`. JSON number formatting is not modelled.
- Flask routing and `render_template` (src/app.py:11-14, 126-129).
- src/test.py is not part of this model. It repeats `formatTimeStamps` and the row loop without the decision column. Such 8-cell rows decode with `decision` undefined (`Client.ToPointPadsAndTruncates`).
