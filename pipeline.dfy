/** The per-URL pipeline (Go `processURL` and the result loop of `main`):
    fetch, classify, record the result and echo a progress line. */
module Pipeline {
  import opened Types
  import opened Strings
  import opened Matcher

  /** One call of `fetchPageSource`: the position of the call in the run, the URL,
      and the client settings taken from the command line. */
  datatype FetchRequest = FetchRequest(
    seqNo: nat,
    url: string,
    timeoutSec: int,
    strict: bool,
    followRedirect: bool)

  /** The network as the model sees it: the page body, or the client's error message. */
  type Fetcher = FetchRequest -> Result<string>

  /** Go `processURL` with the fetch done by the caller: `page` is its outcome. */
  function ProcessURL(regex: RegexEngine, url: string, webList: seq<Web>, page: Result<string>): (r: DetectionResult)
    ensures r.url == url
    ensures page.Err? ==> r == DetectionResult(url, "error: " + page.msg, "")
    ensures page.Ok? ==>
      r == DetectionResult(url, "unknown", "web") ||
      exists w :: w in webList && w.name != "" && Matches(regex, w, page.value) && r == DetectionResult(url, w.name, w.kind)
  {
    match page
    case Err(msg) => DetectionResult(url, "error: " + msg, "")
    case Ok(pageSource) =>
      var web := Detect(regex, webList, pageSource);
      if web.name != "" then DetectionResult(url, web.name, web.kind)
      else DetectionResult(url, "unknown", "web")
  }

  /** On a fetch error the matcher is not consulted: the result is the same for any
      signature list and any regex engine. */
  lemma FetchErrorIgnoresMatcher(regex1: RegexEngine, regex2: RegexEngine, url: string, list1: seq<Web>, list2: seq<Web>, msg: string)
    ensures ProcessURL(regex1, url, list1, Err(msg)) == ProcessURL(regex2, url, list2, Err(msg))
    ensures HasPrefix(ProcessURL(regex1, url, list1, Err(msg)).web, "error: ")
  {
    assert ("error: " + msg)[..7] == "error: ";
  }

  /** A fetched page whose first firing signature is named reports that name and type. */
  lemma ProcessReportsFirstMatch(regex: RegexEngine, url: string, webList: seq<Web>, text: string, i: nat)
    requires i < |webList| && Matches(regex, webList[i], text) && webList[i].name != ""
    requires forall j :: 0 <= j < i ==> !Matches(regex, webList[j], text)
    ensures ProcessURL(regex, url, webList, Ok(text)) == DetectionResult(url, webList[i].name, webList[i].kind)
  {
    DetectIsFirstMatch(regex, webList, text, i);
  }

  /** A fetched page on which no signature fires is `unknown` of type `web`. */
  lemma ProcessUnmatched(regex: RegexEngine, url: string, webList: seq<Web>, text: string)
    requires forall j :: 0 <= j < |webList| ==> !Matches(regex, webList[j], text)
    ensures ProcessURL(regex, url, webList, Ok(text)) == DetectionResult(url, "unknown", "web")
  {
    DetectNoMatch(regex, webList, text);
  }

  /** A first firing signature with an empty name also reads as `unknown`/`web`. */
  lemma ProcessNamelessMatch(regex: RegexEngine, url: string, webList: seq<Web>, text: string, i: nat)
    requires i < |webList| && Matches(regex, webList[i], text) && webList[i].name == ""
    requires forall j :: 0 <= j < i ==> !Matches(regex, webList[j], text)
    ensures ProcessURL(regex, url, webList, Ok(text)) == DetectionResult(url, "unknown", "web")
  {
    DetectIsFirstMatch(regex, webList, text, i);
  }

  /** The line written to standard error for one URL (empty when nothing is written). */
  function ErrorLogLine(url: string, page: Result<string>, logEnabled: bool): (line: string)
    ensures line != "" <==> logEnabled && page.Err?
    ensures line != "" ==> HasPrefix(line, "Error fetching page source for " + url)
  {
    if page.Err? && logEnabled then
      var line := "Error fetching page source for " + url + ": " + page.msg + "\n";
      assert line[..|"Error fetching page source for " + url|] == "Error fetching page source for " + url;
      line
    else ""
  }

  /** The progress line echoed for one result as it is produced. */
  function ProgressLine(r: DetectionResult): string
  {
    if r.web == "unknown" || HasPrefix(r.web, "error") then r.url + " \n"
    else r.url + " [" + r.kind + ":" + r.web + "]\n"
  }

  /** A URL whose fetch failed is echoed bare. */
  lemma ProgressLineOnFetchError(regex: RegexEngine, url: string, webList: seq<Web>, msg: string)
    ensures ProgressLine(ProcessURL(regex, url, webList, Err(msg))) == url + " \n"
  {
    assert ("error: " + msg)[..5] == "error";
  }

  /** For a fetched page the progress line is the bare URL exactly when no named
      signature fired or the name of the one that did is `unknown` or begins with
      `error`; otherwise it is `url [type:name]`. */
  lemma ProgressLineOnFetched(regex: RegexEngine, url: string, webList: seq<Web>, text: string)
    ensures var line := ProgressLine(ProcessURL(regex, url, webList, Ok(text)));
      var w := Detect(regex, webList, text);
      (line == url + " \n" <==> w.name == "" || w.name == "unknown" || HasPrefix(w.name, "error")) &&
      (line != url + " \n" ==> line == url + " [" + w.kind + ":" + w.name + "]\n")
  {
    var w := Detect(regex, webList, text);
    if !(w.name == "" || w.name == "unknown" || HasPrefix(w.name, "error")) {
      var long := url + " [" + w.kind + ":" + w.name + "]\n";
      assert long[|url| + 1] == '[';
      assert (url + " \n")[|url| + 1] == '\n';
    }
  }

  /** A page matched by a signature whose name begins with `error` is echoed as a bare
      URL although it was recognised: the progress filter tests the prefix `error`, not
      the marker `error: ` that a fetch failure produces. */
  lemma ErrorNamedSignatureEchoedBare(regex: RegexEngine, url: string, text: string)
    ensures var sig := Web("x", [""], [], "errorpages", "cms");
      ProcessURL(regex, url, [sig], Ok(text)) == DetectionResult(url, "errorpages", "cms") &&
      ProgressLine(ProcessURL(regex, url, [sig], Ok(text))) == url + " \n"
  {
    var sig := Web("x", [""], [], "errorpages", "cms");
    EmptyLiteralMatchesEverything(regex, sig, text);
    DetectIsFirstMatch(regex, [sig], text, 0);
    assert HasPrefix("errorpages", "error");
  }

  /** Everything written to standard error while processing `urls`. */
  function ErrorLog(fetch: Fetcher, urls: seq<string>, timeoutSec: int, strict: bool, followRedirect: bool, logEnabled: bool): string
  {
    if urls == [] then ""
    else
      var n := |urls| - 1;
      ErrorLog(fetch, urls[..n], timeoutSec, strict, followRedirect, logEnabled) +
      ErrorLogLine(urls[n], fetch(FetchRequest(n, urls[n], timeoutSec, strict, followRedirect)), logEnabled)
  }

  /** Without `-log` nothing reaches standard error, whatever the fetches do. */
  lemma {:induction false} SilentWithoutLog(fetch: Fetcher, urls: seq<string>, timeoutSec: int, strict: bool, followRedirect: bool)
    ensures ErrorLog(fetch, urls, timeoutSec, strict, followRedirect, false) == ""
  {
    if urls != [] {
      SilentWithoutLog(fetch, urls[..|urls| - 1], timeoutSec, strict, followRedirect);
    }
  }

  /** One iteration of the result loop keeps every invariant of `ProcessAll`. */
  lemma ProcessStep(regex: RegexEngine, fetch: Fetcher, webList: seq<Web>, urls: seq<string>,
                    timeoutSec: int, strict: bool, followRedirect: bool, logEnabled: bool,
                    i: nat, results: seq<DetectionResult>, progress: string, errLog: string)
    requires i < |urls| && |results| == i
    requires forall j :: 0 <= j < i ==>
      results[j] == ProcessURL(regex, urls[j], webList, fetch(FetchRequest(j, urls[j], timeoutSec, strict, followRedirect)))
    requires progress == ConcatMap(ProgressLine, results)
    requires errLog == ErrorLog(fetch, urls[..i], timeoutSec, strict, followRedirect, logEnabled)
    ensures var page := fetch(FetchRequest(i, urls[i], timeoutSec, strict, followRedirect));
      var results' := results + [ProcessURL(regex, urls[i], webList, page)];
      (forall j :: 0 <= j < i + 1 ==>
        results'[j] == ProcessURL(regex, urls[j], webList, fetch(FetchRequest(j, urls[j], timeoutSec, strict, followRedirect)))) &&
      progress + ProgressLine(results'[i]) == ConcatMap(ProgressLine, results') &&
      errLog + ErrorLogLine(urls[i], page, logEnabled) == ErrorLog(fetch, urls[..i + 1], timeoutSec, strict, followRedirect, logEnabled)
  {
    var page := fetch(FetchRequest(i, urls[i], timeoutSec, strict, followRedirect));
    var result := ProcessURL(regex, urls[i], webList, page);
    assert urls[..i + 1][..i] == urls[..i];
    assert (results + [result])[..i] == results;
  }

  /** The result loop of `main`: one `processURL` per URL in input order, each result
      appended to `results` and echoed on the progress stream. */
  method ProcessAll(regex: RegexEngine, fetch: Fetcher, webList: seq<Web>, urls: seq<string>,
                    timeoutSec: int, strict: bool, followRedirect: bool, logEnabled: bool)
    returns (results: seq<DetectionResult>, progress: string, errLog: string)
    ensures |results| == |urls|
    ensures forall i :: 0 <= i < |urls| ==>
      results[i] == ProcessURL(regex, urls[i], webList, fetch(FetchRequest(i, urls[i], timeoutSec, strict, followRedirect)))
    ensures progress == ConcatMap(ProgressLine, results)
    ensures errLog == ErrorLog(fetch, urls, timeoutSec, strict, followRedirect, logEnabled)
  {
    results, progress, errLog := [], "", "";
    for i := 0 to |urls|
      invariant |results| == i
      invariant forall j :: 0 <= j < i ==>
        results[j] == ProcessURL(regex, urls[j], webList, fetch(FetchRequest(j, urls[j], timeoutSec, strict, followRedirect)))
      invariant progress == ConcatMap(ProgressLine, results)
      invariant errLog == ErrorLog(fetch, urls[..i], timeoutSec, strict, followRedirect, logEnabled)
    {
      var page := fetch(FetchRequest(i, urls[i], timeoutSec, strict, followRedirect));
      var result := ProcessURL(regex, urls[i], webList, page);
      ProcessStep(regex, fetch, webList, urls, timeoutSec, strict, followRedirect, logEnabled, i, results, progress, errLog);
      errLog := errLog + ErrorLogLine(urls[i], page, logEnabled);
      results := results + [result];
      progress := progress + ProgressLine(result);
    }
    assert urls[..|urls|] == urls;
  }
}
