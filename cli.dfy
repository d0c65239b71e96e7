/** The command line (Go `main`): which URLs to scan, the fatal start-up errors,
    and the run from URLs to report. */
module Cli {
  import opened Types
  import opened Matcher
  import opened Pipeline
  import opened Report

  /** The parsed flags; `nflag` is the number of flags given on the command line. */
  datatype Flags = Flags(
    nflag: nat,
    list: string,
    url: string,
    outputFormat: string,
    outputFile: string,
    timeoutSec: int,
    strict: bool,
    followRedirect: bool,
    logEnabled: bool)

  /** Where the URLs come from. */
  datatype InputSource = ShowUsage | ListFile(path: string) | SingleUrl(url: string)

  /** Usage when no flag is given or both `-l` and `-u` are empty; otherwise `-l`
      alone supplies the URLs when set, and `-u` only when `-l` is empty. */
  function SelectInput(f: Flags): (s: InputSource)
    ensures s.ShowUsage? <==> f.nflag == 0 || (f.list == "" && f.url == "")
    ensures s.ListFile? <==> f.nflag > 0 && f.list != ""
    ensures s.ListFile? ==> s.path == f.list
    ensures s.SingleUrl? <==> f.nflag > 0 && f.list == "" && f.url != ""
    ensures s.SingleUrl? ==> s.url == f.url
  {
    if f.nflag == 0 || (f.list == "" && f.url == "") then ShowUsage
    else if f.list != "" then ListFile(f.list)
    else if f.url != "" then SingleUrl(f.url)
    else ShowUsage
  }

  /** `-l` takes precedence: with both flags set, `-u` is ignored. */
  lemma ListOverridesUrl(f: Flags, g: Flags)
    requires f.nflag > 0 && g.nflag > 0 && f.list != "" && f.list == g.list
    ensures SelectInput(f) == SelectInput(g) == ListFile(f.list)
  {
  }

  /** How a run ends. */
  datatype RunOutcome =
    | Usage
    | Aborted(stderr: string)
    | Completed(results: seq<DetectionResult>, progress: string, errLog: string, output: Output)

  /** The URLs the run scans once the input is chosen and readable. */
  function Urls(source: InputSource, listFile: Result<seq<string>>): seq<string>
  {
    match source
    case ListFile(_) => if listFile.Ok? then listFile.value else []
    case SingleUrl(u) => [u]
    case ShowUsage => []
  }

  /** Go `main` after flag parsing. `listFile` is the lines of the file named by `-l`
      or the error opening it, `patterns` the loaded signature list or the load error;
      the banner is not modelled. */
  method Run(flags: Flags, listFile: Result<seq<string>>, patterns: Result<seq<Web>>,
             regex: RegexEngine, fetch: Fetcher) returns (outcome: RunOutcome)
    ensures SelectInput(flags) == ShowUsage <==> outcome == Usage
    ensures SelectInput(flags).ListFile? && listFile.Err? ==>
      outcome == Aborted("Failed to open file: " + listFile.msg + "\n")
    ensures !SelectInput(flags).ShowUsage? && !(SelectInput(flags).ListFile? && listFile.Err?) && patterns.Err? ==>
      outcome == Aborted("Error loading patterns: " + patterns.msg + "\n")
    ensures outcome.Completed? <==>
      !SelectInput(flags).ShowUsage? && !(SelectInput(flags).ListFile? && listFile.Err?) && patterns.Ok?
    ensures outcome.Completed? ==>
      var urls := Urls(SelectInput(flags), listFile);
      |outcome.results| == |urls| &&
      (forall i :: 0 <= i < |urls| ==>
        outcome.results[i] == ProcessURL(regex, urls[i], patterns.value,
          fetch(FetchRequest(i, urls[i], flags.timeoutSec, flags.strict, flags.followRedirect)))) &&
      outcome.progress == Strings.ConcatMap(ProgressLine, outcome.results) &&
      outcome.errLog == ErrorLog(fetch, urls, flags.timeoutSec, flags.strict, flags.followRedirect, flags.logEnabled)
    ensures outcome.Completed? ==> ReportFits(flags.outputFormat, flags.outputFile, outcome.results, outcome.output)
  {
    var source := SelectInput(flags);
    var urls: seq<string>;
    match source {
      case ShowUsage =>
        return Usage;
      case ListFile(_) =>
        if listFile.Err? {
          return Aborted("Failed to open file: " + listFile.msg + "\n");
        }
        urls := listFile.value;
      case SingleUrl(u) =>
        urls := [u];
    }
    if patterns.Err? {
      return Aborted("Error loading patterns: " + patterns.msg + "\n");
    }
    var results, progress, errLog := ProcessAll(regex, fetch, patterns.value, urls,
      flags.timeoutSec, flags.strict, flags.followRedirect, flags.logEnabled);
    var output := WriteReport(flags.outputFormat, flags.outputFile, results);
    outcome := Completed(results, progress, errLog, output);
  }
}
