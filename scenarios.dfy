/** Concrete runs of the detector on a one-signature store for WordPress. */
module Scenarios {
  import opened Types
  import opened Strings
  import opened Matcher
  import opened Pipeline
  import opened Report

  const WordPress: Web := Web("wordpress", ["wp-content"], [], "WordPress", "cms")

  /** Any page that contains `/wp-content/themes/x.css` is WordPress, a CMS. */
  lemma WordPressDetected(regex: RegexEngine, url: string, text: string)
    requires Contains(text, "/wp-content/themes/x.css")
    ensures ProcessURL(regex, url, [WordPress], Ok(text)) == DetectionResult(url, "WordPress", "cms")
  {
    assert HasPrefix("/wp-content/themes/x.css"[1..], "wp-content");
    ContainsTransitive(text, "/wp-content/themes/x.css", "wp-content");
    assert Contains(text, WordPress.patterns[0]);
    DetectIsFirstMatch(regex, [WordPress], text, 0);
  }

  /** Any page without `wp-content`, against a store without regexes, is `unknown` of type `web`. */
  lemma PlainPageUnknown(regex: RegexEngine, url: string, text: string)
    requires !Contains(text, "wp-content")
    ensures ProcessURL(regex, url, [WordPress], Ok(text)) == DetectionResult(url, "unknown", "web")
  {
    assert !LiteralHit(WordPress, text);
    ProcessUnmatched(regex, url, [WordPress], text);
  }

  /** A timed-out fetch becomes an error record with an empty type, and without `-log`
      nothing is written to standard error. */
  lemma TimeoutReported(regex: RegexEngine, url: string, msg: string)
    ensures ProcessURL(regex, url, [WordPress], Err(msg)) == DetectionResult(url, "error: " + msg, "")
    ensures ErrorLogLine(url, Err(msg), false) == ""
  {
  }

  /** `-of csv -o out.csv` for a matched and an unknown URL: exactly two rows, no header,
      in input order, written to the file out.csv. */
  method TwoRowCsv(regex: RegexEngine) returns (out: Output)
    ensures out == CsvOutput([["a.example", "WordPress", "cms"], ["b.example", "unknown", "web"]], File("out.csv"))
  {
    var themed, plain := "<link href=\"/wp-content/themes/x.css\">", "<html></html>";
    assert HasPrefix(themed[12..], "/wp-content/themes/x.css");
    WordPressDetected(regex, "a.example", themed);
    assert 'w' !in plain;
    forall i | 0 <= i <= |plain|
      ensures !HasPrefix(plain[i..], "wp-content")
    {
      if i < |plain| {
        assert plain[i..][0] == plain[i] != 'w';
      }
    }
    PlainPageUnknown(regex, "b.example", plain);
    var results := [
      ProcessURL(regex, "a.example", [WordPress], Ok(themed)),
      ProcessURL(regex, "b.example", [WordPress], Ok(plain))];
    out := WriteReport("csv", "out.csv", results);
  }
}
