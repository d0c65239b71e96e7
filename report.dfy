/** Report shaping at the end of `main`: the text report, the CSV rows and the JSON
    records handed to the encoders, and the choice of format and destination. */
module Report {
  import opened Types
  import opened Strings

  /** One line of the text report; every result gets one, unknown and error ones included. */
  function ReportLine(r: DetectionResult): string
  {
    r.url + " [" + r.kind + ":" + r.web + "]\n"
  }

  /** The `textResults += ...` loop of the text format. */
  method BuildTextReport(results: seq<DetectionResult>) returns (text: string)
    ensures text == ConcatMap(ReportLine, results)
  {
    text := "";
    for i := 0 to |results|
      invariant text == ConcatMap(ReportLine, results[..i])
    {
      text := text + ReportLine(results[i]);
      assert results[..i + 1][..i] == results[..i];
    }
    assert results[..|results|] == results;
  }

  /** When no field holds a line feed, the text report has exactly one line per result. */
  lemma {:induction false} TextReportLineCount(results: seq<DetectionResult>)
    requires forall r :: r in results ==> '\n' !in r.url && '\n' !in r.kind && '\n' !in r.web
    ensures CountNewlines(ConcatMap(ReportLine, results)) == |results|
  {
    if results != [] {
      var n := |results| - 1;
      var r := results[n];
      assert r in results;
      assert forall x :: x in results[..n] ==> x in results;
      TextReportLineCount(results[..n]);
      NoNewlines(r.url);
      NoNewlines(r.kind);
      NoNewlines(r.web);
      NoNewlines(" [");
      NoNewlines(":");
      CountNewlinesAppend(ConcatMap(ReportLine, results[..n]), ReportLine(r));
      CountNewlinesAppend(r.url + " [" + r.kind + ":" + r.web, "]\n");
      CountNewlinesAppend(r.url + " [" + r.kind + ":", r.web);
      CountNewlinesAppend(r.url + " [" + r.kind, ":");
      CountNewlinesAppend(r.url + " [", r.kind);
      CountNewlinesAppend(r.url, " [");
      assert CountNewlines("]\n") == 1;
    }
  }

  /** The record `writer.Write` receives for one result: URL, name, type. */
  function CsvRow(r: DetectionResult): seq<string>
  {
    [r.url, r.web, r.kind]
  }

  /** Reading a CSV record back as a result. */
  function RowToResult(row: seq<string>): Option<DetectionResult>
  {
    if |row| == 3 then Some(DetectionResult(row[0], row[1], row[2])) else None
  }

  /** Every row has three fields and reads back as the result it came from, and the
      only rows that read back are such rows. */
  lemma CsvRowRoundTrip(r: DetectionResult, row: seq<string>)
    ensures |CsvRow(r)| == 3 && RowToResult(CsvRow(r)) == Some(r)
    ensures RowToResult(row) == Some(r) ==> row == CsvRow(r)
  {
  }

  /** The CSV loop: one `writer.Write` per result, in order, with no header row. */
  method CsvRecords(results: seq<DetectionResult>) returns (rows: seq<seq<string>>)
    ensures |rows| == |results|
    ensures forall i :: 0 <= i < |results| ==> rows[i] == CsvRow(results[i])
    ensures forall i :: 0 <= i < |results| ==> |rows[i]| == 3 && RowToResult(rows[i]) == Some(results[i])
  {
    rows := [];
    for i := 0 to |results|
      invariant |rows| == i
      invariant forall j :: 0 <= j < i ==> rows[j] == CsvRow(results[j])
    {
      rows := rows + [CsvRow(results[i])];
    }
  }

  /** The object `json.Marshal` produces for one result, as its key/value pairs in
      field order (struct tags url, web, type). */
  function JsonObject(r: DetectionResult): seq<(string, string)>
  {
    [("url", r.url), ("web", r.web), ("type", r.kind)]
  }

  /** The value of the first pair with `key`. */
  function Lookup(obj: seq<(string, string)>, key: string): (v: Option<string>)
    ensures v.Some? <==> exists i :: 0 <= i < |obj| && obj[i].0 == key
  {
    if obj == [] then None
    else if obj[0].0 == key then Some(obj[0].1)
    else Lookup(obj[1..], key)
  }

  /** Reading the url/web/type object back into a result. */
  function FromJsonObject(obj: seq<(string, string)>): Option<DetectionResult>
  {
    match (Lookup(obj, "url"), Lookup(obj, "web"), Lookup(obj, "type"))
    case (Some(u), Some(w), Some(t)) => Some(DetectionResult(u, w, t))
    case _ => None
  }

  /** Round trip: a result's JSON object reads back field for field. */
  lemma JsonRoundTrip(r: DetectionResult)
    ensures FromJsonObject(JsonObject(r)) == Some(r)
  {
    var obj := JsonObject(r);
    assert "url" != "web" && "url" != "type" && "web" != "type" by {
      assert "url"[0] != "web"[0] && "url"[0] != "type"[0] && "web"[0] != "type"[0];
    }
    assert Lookup(obj, "url") == Some(r.url);
    assert Lookup(obj, "web") == Lookup(obj[1..], "web") == Some(r.web);
    assert Lookup(obj, "type") == Lookup(obj[1..][1..], "type") == Some(r.kind);
  }

  /** Where a report goes: standard output or the file named by `-o`. */
  datatype Sink = Stdout | File(path: string)

  /** What the reporting step writes. */
  datatype Output =
    | JsonOutput(objects: seq<seq<(string, string)>>, sink: Sink)
    | CsvOutput(rows: seq<seq<string>>, sink: Sink)
    | TextFile(path: string, text: string)
    | NoOutput

  function SinkFor(outputFile: string): (s: Sink)
    ensures s == Stdout <==> outputFile == ""
    ensures outputFile != "" ==> s == File(outputFile)
  {
    if outputFile != "" then File(outputFile) else Stdout
  }

  /** What the `switch` on `-of` writes: `json` and `csv` go to the file named by `-o`
      or to standard output, one record per result in order, with no header; any
      other format is text, written only when `-o` names a file. */
  predicate ReportFits(outputFormat: string, outputFile: string, results: seq<DetectionResult>, out: Output)
  {
    if outputFormat == "json" then
      out.JsonOutput? && out.sink == SinkFor(outputFile) && |out.objects| == |results| &&
      (forall i :: 0 <= i < |results| ==> out.objects[i] == JsonObject(results[i])) &&
      forall i :: 0 <= i < |results| ==> FromJsonObject(out.objects[i]) == Some(results[i])
    else if outputFormat == "csv" then
      out.CsvOutput? && out.sink == SinkFor(outputFile) && |out.rows| == |results| &&
      (forall i :: 0 <= i < |results| ==> out.rows[i] == CsvRow(results[i])) &&
      forall i :: 0 <= i < |results| ==> RowToResult(out.rows[i]) == Some(results[i])
    else if outputFile == "" then out == NoOutput
    else out == TextFile(outputFile, ConcatMap(ReportLine, results))
  }

  /** The reporting step of `main`. */
  method WriteReport(outputFormat: string, outputFile: string, results: seq<DetectionResult>) returns (out: Output)
    ensures ReportFits(outputFormat, outputFile, results, out)
  {
    if outputFormat == "json" {
      var objects := seq(|results|, i requires 0 <= i < |results| => JsonObject(results[i]));
      forall i | 0 <= i < |results|
        ensures FromJsonObject(objects[i]) == Some(results[i])
      {
        JsonRoundTrip(results[i]);
      }
      out := JsonOutput(objects, SinkFor(outputFile));
    } else if outputFormat == "csv" {
      var rows := CsvRecords(results);
      out := CsvOutput(rows, SinkFor(outputFile));
    } else if outputFile != "" {
      var text := BuildTextReport(results);
      out := TextFile(outputFile, text);
    } else {
      out := NoOutput;
    }
  }
}
