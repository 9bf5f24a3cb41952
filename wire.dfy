/** The hand-over between the two sides: `jsonify(hist_dict)` on the server and
    `Object.entries` inside `transformData` on the page. */
module Wire {
  import opened Json
  import Server
  import Client

  /** The records of a JSON object whose keys are the integers 0..n-1, in the order
      `Object.entries` visits integer-like keys: ascending. */
  function Entries(obj: map<int, seq<Value>>, n: nat): (records: seq<seq<Value>>)
    requires forall i :: 0 <= i < n ==> i in obj
    ensures |records| == n
  {
    seq(n, i requires 0 <= i < n => obj[i])
  }

  /** The data point a server row should become on the page: the date string as its
      timestamp, the seven columns as numbers and the decision's name. */
  function PagePoint(row: Server.HistRow, stamp: string, decision: Server.Decision): Client.DataPoint {
    Client.DataPoint(
      timestamp := Text(stamp),
      open := Number(row.open), high := Number(row.high), low := Number(row.low),
      close := Number(row.close), volume := Number(row.volume),
      dividends := Number(row.dividends), splits := Number(row.splits),
      decision := Text(Server.Name(decision)))
  }

  /** Decoding a row the server encodes gives that point. */
  lemma DecodeEncodedRow(row: Server.HistRow, stamp: string, decision: Server.Decision)
    ensures Client.ToPoint(Server.EncodeRow(row, stamp, decision)) == PagePoint(row, stamp, decision)
  {
    Server.EncodeRowLayout(row, stamp, decision);
  }

  /** Given what `SendData` promises about its dictionary, the page's data points are the
      server's rows in order, each field read from the position the server wrote it to. */
  lemma ServerToPage(hist: seq<Server.HistRow>, compute: Server.Compute, histDict: map<int, seq<Value>>)
    requires forall i :: i in histDict <==> 0 <= i < |hist|
    requires forall i :: 0 <= i < |hist| ==>
      histDict[i] == Server.EncodeRow(hist[i], Server.FormatTimeStamps(hist[i].date),
                                      Server.Classify(Server.Score(hist[i], compute)))
    ensures var points := Client.TransformData(Entries(histDict, |hist|));
      |points| == |hist| &&
      forall i :: 0 <= i < |hist| ==>
        points[i] == PagePoint(hist[i], Server.FormatTimeStamps(hist[i].date), Server.Classify(Server.Score(hist[i], compute)))
  {
    var records := Entries(histDict, |hist|);
    var points := Client.TransformData(records);
    forall i | 0 <= i < |hist|
      ensures points[i] == PagePoint(hist[i], Server.FormatTimeStamps(hist[i].date), Server.Classify(Server.Score(hist[i], compute)))
    {
      var stamp, decision := Server.FormatTimeStamps(hist[i].date), Server.Classify(Server.Score(hist[i], compute));
      assert records[i] == Server.EncodeRow(hist[i], stamp, decision);
      DecodeEncodedRow(hist[i], stamp, decision);
    }
  }
}
