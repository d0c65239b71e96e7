# webdetector in Dafny

webdetector is a small Go command-line tool that guesses the web technology
behind a site (a CMS, a framework, server software). It fetches each page and
runs through an ordered list of signatures. A signature fires when one of its
literal patterns occurs in the page, or when one of its regular expressions
matches. The first signature that fires names the technology. Each URL yields
one record `{url, web, type}`. Results are echoed as progress lines while the
run goes on, and at the end are written as text, JSON or CSV.

The repository holds two near-identical copies of the program, `webdetector.go`
and `main.go`. This model covers both. Each row of the table below cites whichever copy it names.
The two copies line up as follows:

| webdetector.go | main.go | what |
|---|---|---|
| 25-38 | 21-33 | `Web`, `DetectionResult` |
| 107-123 | 98-114 | `detectWeb` |
| 126-140 | 116-131 | `processURL` |
| 158-187 | 151-181 | usage check, input selection, pattern loading |
| 189-198 | 183-193 | per-URL loop and progress lines |
| 200-238 | 195-234 | report formats |

The copies differ only in what is left out: the banner's terminal check, the
wording of the pattern-loading errors, and the `//go:embed` directive, which
`main.go` lacks.

Modules, leaves first:

- `Types` (types.dfy): `Web` (the Go field `Type` is called `kind`),
  `DetectionResult`, the zero signature `EmptyWeb`, and `Result<T>`. `Result<T>`
  stands for Go's `(value, error)` returns.
- `Strings` (strings.dfy): `strings.HasPrefix` and `strings.Contains`. Also
  `ConcatMap`, the string that a loop of `s += f(x)` builds.
- `Matcher` (matcher.dfy): `detectWeb`. `DetectWeb` is the imperative scan with
  nested loops and early returns. It is proved equal to `Detect`, the
  first-match specification built on `FirstMatchIndex`.
- `Pipeline` (pipeline.dfy): `processURL` as a pure function of the fetch
  outcome. Also the stderr log line, the progress line, and `ProcessAll`, the
  loop that appends the results.
- `Report` (report.dfy): the text report loop, the CSV records, the JSON
  objects, and the `-of` / `-o` dispatch.
- `Cli` (cli.dfy): the input-selection rule and `Run`, which is `main` after
  flag parsing.
- `Scenarios` (scenarios.dfy): end-to-end runs on a one-signature WordPress
  store.

The regex engine, the network and the two files that are read are parameters
of the model:

- `regex: (pattern, text) -> Result<bool>` stands for `regexp.MatchString`.
- `fetch: FetchRequest -> Result<string>` stands for `fetchPageSource`. The
  request carries the call's position, the URL, the timeout, the TLS
  strictness and the redirect policy.
- `listFile` holds the lines of the `-l` file, or the error from opening it.
- `patterns` holds the loaded signature list, or the load error.

## Model

| member | source | states |
|---|---|---|
| Strings.EmptyIsContained | webdetector.go:110 | `strings.Contains` with an empty pattern holds for every text, so an empty literal hits every page |
| Matcher.RegexVerdict | webdetector.go:116 | a regex call counts as a match only when it answers `true` without error; an error discarded by `matched, _ :=` reads as no match |
| Matcher.FirstMatchIndex | webdetector.go:108-121 | the position returned is the first signature that fires: all earlier ones do not fire, and it fires unless it is past the end of the list |
| Matcher.Detect | webdetector.go:107-123 | the matcher returns either `Web{}` or a member of the signature list that fires on the page; it never builds a signature |
| Matcher.DetectIsFirstMatch | webdetector.go:108-120 | first match wins: if signature i fires and none before it does, the answer is signature i |
| Matcher.NoLaterMatchReturned | main.go:98-114 | a firing signature bounds the answer's position from above, so a later firing signature is never preferred |
| Matcher.DetectNoMatch | webdetector.go:122 | with no signature firing, including an empty list, the answer is `Web{}`, whose name is empty |
| Matcher.DetectEmptyIffNoMatch | main.go:113 | the answer is `Web{}` exactly when no signature fires |
| Matcher.LiteralHitWins | webdetector.go:109-113 | a literal hit in signature i, with nothing firing before it, returns signature i; signatures after i do not affect the answer |
| Matcher.LiteralHitIgnoresRegexes | main.go:100-104 | when a literal decides the answer, any two regex engines give the same answer |
| Matcher.EmptyLiteralMatchesEverything | main.go:101 | a signature holding an empty literal fires on every page |
| Matcher.ErroringRegexesAreSkipped | main.go:106-111 | a signature whose literals miss and whose regexes all error does not fire, and the scan goes on with the signatures after it |
| Matcher.DetectWeb | webdetector.go:107-123 | the nested loops with early return compute exactly the first-match answer `Detect` |
| Pipeline.ProcessURL | webdetector.go:126-140 | the URL is kept. A fetch error gives web `error: <msg>` and an empty type. A fetched page gives `unknown`/`web`, or the name and type of a named signature in the list that fires |
| Pipeline.FetchErrorIgnoresMatcher | webdetector.go:127-133 | on a fetch error the result is the same for every signature list and regex engine (the matcher is not consulted), and it starts with `error: ` |
| Pipeline.ProcessReportsFirstMatch | webdetector.go:135-137 | a fetched page whose first firing signature has a non-empty name reports that name and type |
| Pipeline.ProcessUnmatched | main.go:126-130 | a fetched page on which no signature fires reports `unknown`/`web` |
| Pipeline.ProcessNamelessMatch | webdetector.go:136-139 | a first firing signature with an empty name also reports `unknown`/`web` |
| Pipeline.ErrorLogLine | webdetector.go:129-131 | a line reaches stderr exactly when logging is on and the fetch failed, and it names the URL |
| Pipeline.ProgressLineOnFetchError | webdetector.go:193-195 | a URL whose fetch failed is echoed as the bare URL plus a space |
| Pipeline.ProgressLineOnFetched | main.go:188-192 | for a fetched page the echo is bare exactly when no named signature fired or its name is `unknown` or starts with `error`; otherwise it is `url [type:name]` |
| Pipeline.ErrorNamedSignatureEchoedBare | webdetector.go:193 | a recognised page whose signature is named `errorpages` is still echoed bare, because the filter tests the prefix `error` |
| Pipeline.SilentWithoutLog | main.go:119-122 | without `-log`, nothing is written to stderr for any list of URLs and any fetch outcomes |
| Pipeline.ProcessAll | webdetector.go:189-198 | one result per URL, in input order: result i is `processURL` of URL i and the i-th fetch. The progress stream is the progress lines of the results in order, and stderr is the log lines in order |
| Report.BuildTextReport | webdetector.go:232-235 | the text report is the concatenation of `url [type:web]\n` over all results, unknown and error ones included |
| Strings.ConcatMapAppend | webdetector.go:233-235 | the text built for a list of results is the text for a prefix followed by the text for the rest |
| Report.TextReportLineCount | main.go:228-231 | when no field holds a line feed, the text report has exactly one line per result |
| Strings.ConcatMapAt | webdetector.go:233-235 | result i's line comes after the lines of results 0..i-1 and before those of the later results |
| Report.CsvRowRoundTrip | webdetector.go:219 | every CSV record has three fields, `[URL, Web, Type]`, and reads back as the result it came from; nothing else reads back as that result |
| Report.CsvRecords | main.go:212-222 | one record `[URL, Web, Type]` per result, in order, with no header row; record i reads back as result i |
| Report.JsonRoundTrip | webdetector.go:34-38 | the JSON object of a result, with keys `url`, `web` and `type`, reads back field for field |
| Report.SinkFor | webdetector.go:203-207 | JSON and CSV go to standard output exactly when `-o` is empty, and otherwise to the file `-o` names |
| Report.WriteReport | webdetector.go:200-238 | `json` writes the object with keys url, web, type (in that order) and `csv` the record `[URL, Web, Type]` for each result, in order, to the `-o` file or to stdout. Any other format is text, written only to a file named by `-o` |
| Cli.SelectInput | webdetector.go:158-181 | usage exactly when no flag is given or both `-l` and `-u` are empty; otherwise `-l` alone supplies the URLs when set, and `-u` gives the single URL only when `-l` is empty |
| Cli.ListOverridesUrl | main.go:157-171 | with `-l` set, the value of `-u` does not matter |
| Cli.Run | webdetector.go:143-238 | usage or the two fatal start-up errors stop the run before any fetch. Otherwise the results, progress, stderr and report are those of the loop and the report step over the chosen URLs |
| Scenarios.WordPressDetected | webdetector.go:135-137 | every page containing `/wp-content/themes/x.css` is reported as `WordPress`/`cms`, for any regex engine |
| Scenarios.PlainPageUnknown | webdetector.go:139 | every page without `wp-content`, with a store that has no regexes, is reported as `unknown`/`web`, for any regex engine |
| Scenarios.TimeoutReported | webdetector.go:128-133 | a failed fetch gives `error: <msg>` with an empty type, and without `-log` nothing goes to stderr |
| Scenarios.TwoRowCsv | webdetector.go:208-221 | `-of csv -o out.csv` for one matched URL and one unknown URL writes exactly two rows to out.csv, in input order, with no header |

Two behaviours of the code worth noting:

- The progress filter tests the prefix `error`, not the marker `error: `. So a
  matched signature whose name starts with `error` is echoed bare
  (`ErrorNamedSignatureEchoedBare`).
- Blank lines of the `-l` file are kept as URLs.

## Left out

- `fetchPageSource` (HTTP client, timeout, TLS `InsecureSkipVerify`, redirect policy) is network I/O. Its outcome is the `fetch` parameter.
- The Go `regexp` engine is a foreign library. It is the `regex` parameter; an error reads as no match, as `regexp.MatchString` returns `false` with its error.
- `loadPatterns` (`embed.FS` reading, `json.Unmarshal`) is library I/O. Its outcome is the `patterns` parameter. In `main.go` the embed directive is missing, so loading fails there at run time; the model covers that through `patterns = Err(..)`.
- Reading the `-l` file with `bufio.Scanner` is file I/O. Its lines, or the open error, are the `listFile` parameter, and scanner errors on over-long lines are not modelled.
- `flag` parsing and the conversion of `-to` into a `time.Duration` are not modelled. The parsed values are the `Flags` record.
- `printBanner` and its terminal check are output only and are not modelled.
- The byte encodings of `json.Marshal` and `encoding/csv` are library internals, including CSV quoting. The model stops at the objects and records handed to them.
- Creating and writing the output file, and the "Failed to create output file" abort of the CSV branch, are file I/O and are not modelled.
- Strings are sequences of characters, while Go strings are bytes. Substring containment is the same for valid UTF-8 text.
- `Pipeline.ProcessAll` keeps stdout and stderr as two separate streams. How the two streams interleave is not modelled.
