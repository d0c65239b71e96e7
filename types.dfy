/** The records the detector works on: signatures, detection results, and the
    error-or-value outcome of every fallible call (fetch, regex, file reads). */
module Types {

  /** Go's `(value, error)` pair: either a value or the error's message. */
  datatype Result<T> = Ok(value: T) | Err(msg: string)

  datatype Option<T> = None | Some(value: T)

  /** One technology signature (Go `Web`, JSON keys id, patterns, regexPatterns,
      name, type). The Go field `Type` is called `kind` here. */
  datatype Web = Web(
    id: string,
    patterns: seq<string>,
    regexPatterns: seq<string>,
    name: string,
    kind: string)

  /** Go's zero value `Web{}`: what the matcher answers when nothing matches. */
  const EmptyWeb: Web := Web("", [], [], "", "")

  /** One output record (Go `DetectionResult`, JSON keys url, web, type). */
  datatype DetectionResult = DetectionResult(url: string, web: string, kind: string)
}
