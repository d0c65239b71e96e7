/** The signature matcher (Go `detectWeb`): a first-match linear scan over an
    ordered signature list, literal patterns first, then regular expressions. */
module Matcher {
  import opened Types
  import opened Strings

  /** Go's regexp.MatchString(pattern, text): whether the pattern is found in the
      text, or an error for a pattern that does not compile. The engine is a
      parameter of the model. */
  type RegexEngine = (string, string) -> Result<bool>

  /** `matched, _ := regexp.MatchString(...)`: the error is discarded and reads as no match. */
  function RegexVerdict(answer: Result<bool>): (matched: bool)
    ensures matched <==> answer == Ok(true)
  {
    match answer
    case Ok(b) => b
    case Err(_) => false
  }

  /** Some literal pattern of `w` occurs in the page. */
  predicate LiteralHit(w: Web, text: string)
  {
    exists p :: p in w.patterns && Contains(text, p)
  }

  /** Some regex pattern of `w` reports a match (an erroring pattern never does). */
  predicate RegexHit(regex: RegexEngine, w: Web, text: string)
  {
    exists p :: p in w.regexPatterns && RegexVerdict(regex(p, text))
  }

  /** The signature `w` fires on the page. */
  predicate Matches(regex: RegexEngine, w: Web, text: string)
  {
    LiteralHit(w, text) || RegexHit(regex, w, text)
  }

  /** The position of the first signature that fires, or |webList| when none does. */
  function FirstMatchIndex(regex: RegexEngine, webList: seq<Web>, text: string): (k: nat)
    ensures k <= |webList|
    ensures forall j :: 0 <= j < k ==> !Matches(regex, webList[j], text)
    ensures k < |webList| ==> Matches(regex, webList[k], text)
    decreases |webList|
  {
    if webList == [] then 0
    else if Matches(regex, webList[0], text) then 0
    else 1 + FirstMatchIndex(regex, webList[1..], text)
  }

  /** What `detectWeb` returns: the first signature that fires, else `Web{}`.
      It never builds a signature of its own. */
  function Detect(regex: RegexEngine, webList: seq<Web>, text: string): (w: Web)
    ensures w == EmptyWeb || (w in webList && Matches(regex, w, text))
  {
    var k := FirstMatchIndex(regex, webList, text);
    if k < |webList| then webList[k] else EmptyWeb
  }

  /** First match wins: the earliest signature that fires is the answer. */
  lemma DetectIsFirstMatch(regex: RegexEngine, webList: seq<Web>, text: string, i: nat)
    requires i < |webList| && Matches(regex, webList[i], text)
    requires forall j :: 0 <= j < i ==> !Matches(regex, webList[j], text)
    ensures FirstMatchIndex(regex, webList, text) == i
    ensures Detect(regex, webList, text) == webList[i]
  {
  }

  /** A later signature that also fires is never preferred to an earlier one. */
  lemma NoLaterMatchReturned(regex: RegexEngine, webList: seq<Web>, text: string, i: nat)
    requires i < |webList| && Matches(regex, webList[i], text)
    ensures FirstMatchIndex(regex, webList, text) <= i
    ensures Detect(regex, webList, text) == webList[FirstMatchIndex(regex, webList, text)]
  {
  }

  /** With no signature firing, and in particular with an empty list, the answer is `Web{}`. */
  lemma DetectNoMatch(regex: RegexEngine, webList: seq<Web>, text: string)
    requires forall j :: 0 <= j < |webList| ==> !Matches(regex, webList[j], text)
    ensures Detect(regex, webList, text) == EmptyWeb
    ensures Detect(regex, webList, text).name == ""
  {
  }

  /** The answer is `Web{}` exactly when no signature fires. */
  lemma DetectEmptyIffNoMatch(regex: RegexEngine, webList: seq<Web>, text: string)
    ensures Detect(regex, webList, text) == EmptyWeb
        <==> forall j :: 0 <= j < |webList| ==> !Matches(regex, webList[j], text)
  {
  }

  /** A literal hit in signature i, with nothing firing before it, decides the answer;
      the signatures after i are never looked at. */
  lemma LiteralHitWins(regex: RegexEngine, webList: seq<Web>, text: string, i: nat, p: string)
    requires i < |webList| && p in webList[i].patterns && Contains(text, p)
    requires forall j :: 0 <= j < i ==> !Matches(regex, webList[j], text)
    ensures Detect(regex, webList, text) == webList[i]
    ensures Detect(regex, webList, text) == Detect(regex, webList[..i + 1], text)
  {
    DetectIsFirstMatch(regex, webList, text, i);
    DetectIsFirstMatch(regex, webList[..i + 1], text, i);
  }

  /** The answer does not depend on the regex engine when a literal decides it first. */
  lemma LiteralHitIgnoresRegexes(regex1: RegexEngine, regex2: RegexEngine, webList: seq<Web>, text: string, i: nat, p: string)
    requires i < |webList| && p in webList[i].patterns && Contains(text, p)
    requires forall j :: 0 <= j < i ==> !Matches(regex1, webList[j], text) && !Matches(regex2, webList[j], text)
    ensures Detect(regex1, webList, text) == Detect(regex2, webList, text) == webList[i]
  {
    LiteralHitWins(regex1, webList, text, i, p);
    LiteralHitWins(regex2, webList, text, i, p);
  }

  /** An empty literal pattern fires on every page. */
  lemma EmptyLiteralMatchesEverything(regex: RegexEngine, w: Web, text: string)
    requires "" in w.patterns
    ensures Matches(regex, w, text)
  {
    EmptyIsContained(text);
  }

  /** A regex that errors never fires and never stops the scan: a signature whose
      literals miss and whose regexes all error is passed over. */
  lemma ErroringRegexesAreSkipped(regex: RegexEngine, webList: seq<Web>, text: string, i: nat)
    requires i < |webList| && !LiteralHit(webList[i], text)
    requires forall p :: p in webList[i].regexPatterns ==> regex(p, text).Err?
    requires forall j :: 0 <= j < i ==> !Matches(regex, webList[j], text)
    ensures !Matches(regex, webList[i], text)
    ensures Detect(regex, webList, text) == Detect(regex, webList[i + 1..], text)
  {
    assert !Matches(regex, webList[i], text);
    var k := FirstMatchIndex(regex, webList, text);
    var rest := webList[i + 1..];
    var m := FirstMatchIndex(regex, rest, text);
    if m < |rest| {
      assert rest[m] == webList[i + 1 + m];
      forall j | 0 <= j < i + 1 + m
        ensures !Matches(regex, webList[j], text)
      {
        if j > i { assert webList[j] == rest[j - i - 1]; }
      }
      DetectIsFirstMatch(regex, webList, text, i + 1 + m);
    } else {
      forall j | 0 <= j < |webList|
        ensures !Matches(regex, webList[j], text)
      {
        if j > i { assert webList[j] == rest[j - i - 1]; }
      }
      DetectNoMatch(regex, webList, text);
      DetectNoMatch(regex, rest, text);
    }
  }

  /** Go `detectWeb`: nested loops with an early return on the first hit. */
  method DetectWeb(regex: RegexEngine, webList: seq<Web>, pageSource: string) returns (web: Web)
    ensures web == Detect(regex, webList, pageSource)
  {
    for i := 0 to |webList|
      invariant forall j :: 0 <= j < i ==> !Matches(regex, webList[j], pageSource)
    {
      var w := webList[i];
      for k := 0 to |w.patterns|
        invariant forall q :: 0 <= q < k ==> !Contains(pageSource, w.patterns[q])
      {
        if Contains(pageSource, w.patterns[k]) {
          assert LiteralHit(w, pageSource);
          DetectIsFirstMatch(regex, webList, pageSource, i);
          return w;
        }
      }
      for k := 0 to |w.regexPatterns|
        invariant forall q :: 0 <= q < k ==> !RegexVerdict(regex(w.regexPatterns[q], pageSource))
      {
        var matched := RegexVerdict(regex(w.regexPatterns[k], pageSource));
        if matched {
          assert RegexHit(regex, w, pageSource);
          DetectIsFirstMatch(regex, webList, pageSource, i);
          return w;
        }
      }
    }
    DetectNoMatch(regex, webList, pageSource);
    return EmptyWeb;
  }
}
