/** The deterministic plumbing of the sentiment example: the re-keying
    helpers between prompt steps, the routing record, and the rule that picks
    one of three response chains from a classified sentiment label. The
    language-model calls themselves are not modelled: a chain is only named. */
module SentimentRouting {
  import opened Wrappers
  import opened Strings

  /** The three response chains: thank-you (positive), apology and
      escalation (negative), request for details (everything else). */
  datatype Chain = Thankyou | Apology | Details

  /** A Python dict with string keys, as passed between chain steps. */
  type Record = map<string, string>

  /** Indexing a dict with a key it lacks raises `KeyError(key)`. */
  datatype KeyError = KeyError(key: string)

  const FeedbackKey := "feedback"
  const SentimentKey := "sentiment"
  const ParsedFeedbackKey := "parsed_feedback"

  /** Input variables of the summary prompt, of the sentiment prompt, and of
      the thank-you, details and apology prompts. */
  const SummaryInputs: set<string> := {ParsedFeedbackKey}
  const SentimentInputs: set<string> := {FeedbackKey}
  const ResponseInputs: set<string> := {FeedbackKey}

  /** Wraps a step's output as the summary prompt's input. */
  function FormatParsedOutput<T>(output: T): (r: map<string, T>)
    ensures r.Keys == SummaryInputs
    ensures r[ParsedFeedbackKey] == output
  {
    map[ParsedFeedbackKey := output]
  }

  /** Wraps a step's output as the sentiment prompt's input. */
  function FormatSummaryOutput<T>(output: T): (r: map<string, T>)
    ensures r.Keys == SentimentInputs
    ensures r[FeedbackKey] == output
  {
    map[FeedbackKey := output]
  }

  /** The routing rule applied to a sentiment label, in terms of where the
      words occur in the lower-cased label: "positive" wins, then
      "negative", and everything else gets Details. */
  function RouteLabel(sentiment: string): (c: Chain)
    ensures c == Thankyou <==> Occurs("positive", Lower(sentiment))
    ensures c == Apology
      <==> !Occurs("positive", Lower(sentiment)) && Occurs("negative", Lower(sentiment))
    ensures c == Details
      <==> !Occurs("positive", Lower(sentiment)) && !Occurs("negative", Lower(sentiment))
  {
    var lowered := Lower(sentiment);
    if Contains(lowered, "positive") then Thankyou
    else if Contains(lowered, "negative") then Apology
    else Details
  }

  /** Matching ignores ASCII case: labels equal up to case route alike. */
  lemma RouteLabelIgnoresCase(s: string, t: string)
    requires Lower(s) == Lower(t)
    ensures RouteLabel(s) == RouteLabel(t)
    ensures RouteLabel(s) == RouteLabel(Lower(s))
  {
    LowerIdempotent(s);
  }

  /** The three labels the sentiment prompt asks for (line 17) reach the
      thank-you, apology and details chains. */
  lemma RequestedLabelsRoute()
    ensures RouteLabel("Positive") == Thankyou
    ensures RouteLabel("Negative") == Apology
    ensures RouteLabel("Neutral") == Details
  {
    PositiveLabelRoutes();
    NegativeLabelRoutes();
    NeutralLabelRoutes();
  }

  /** The routing decision read off a label's known lower-case form. */
  lemma RouteLabelFromLowered(s: string, lowered: string)
    requires Lower(s) == lowered
    ensures Contains(lowered, "positive") ==> RouteLabel(s) == Thankyou
    ensures !Contains(lowered, "positive") && Contains(lowered, "negative") ==> RouteLabel(s) == Apology
    ensures !Contains(lowered, "positive") && !Contains(lowered, "negative") ==> RouteLabel(s) == Details
  {
  }

  lemma PositiveLabelRoutes()
    ensures RouteLabel("Positive") == Thankyou
  {
    CapitalisedLower('P', "ositive", "positive");
    assert Contains("positive", "positive");
    RouteLabelFromLowered("Positive", "positive");
  }

  lemma NegativeLabelRoutes()
    ensures RouteLabel("Negative") == Apology
  {
    CapitalisedLower('N', "egative", "negative");
    NegativeLacksPositive();
    assert Contains("negative", "negative");
    RouteLabelFromLowered("Negative", "negative");
  }

  lemma NeutralLabelRoutes()
    ensures RouteLabel("Neutral") == Details
  {
    CapitalisedLower('N', "eutral", "neutral");
    assert !Contains("neutral", "positive") && !Contains("neutral", "negative");
    RouteLabelFromLowered("Neutral", "neutral");
  }

  /** A capital followed by lower-case letters lowers to the expected word. */
  lemma CapitalisedLower(c: char, rest: string, word: string)
    requires 'A' <= c <= 'Z' && NoUpper(rest)
    requires word == [LowerChar(c)] + rest
    ensures Lower([c] + rest) == word
  {
    LowerCons(c, rest);
    LowerUnchanged(rest);
  }

  lemma NegativeLacksPositive()
    ensures !Contains("negative", "positive")
  {
    var negative := "negative";
    assert negative[..8][0] != "positive"[0];
    assert |negative[1..]| < 8;
  }

  /** Upper case does not hide "positive". */
  lemma UpperCasePositiveRoutes()
    ensures RouteLabel("POSITIVE") == Thankyou
  {
    var s := "POSITIVE";
    assert forall i :: 0 <= i < |s| ==> LowerChar(s[i]) == "positive"[i];
    assert Lower(s) == "positive";
    RouteLabelFromLowered(s, "positive");
  }

  /** A label whose lower-cased form starts with "positive" is thanked. */
  lemma LoweredStartRoutes(s: string, rest: string)
    requires Lower(s) == "positive" + rest
    ensures RouteLabel(s) == Thankyou
  {
    var lowered := "positive" + rest;
    assert lowered[..8] == "positive";
    RouteLabelFromLowered(s, lowered);
  }

  /** Whatever follows a leading "positive" (punctuation, more words) does
      not change the route. */
  lemma PositiveFollowedByAnythingRoutes(rest: string)
    ensures RouteLabel("positive" + rest) == Thankyou
  {
    LowerUnchanged("positive");
    LowerAppend("positive", rest);
    LoweredStartRoutes("positive" + rest, Lower(rest));
  }

  /** The same holds with a capital: "Positive." and "Positive!" are thanked. */
  lemma CapitalisedPositiveFollowedByAnythingRoutes(rest: string)
    ensures RouteLabel("Positive" + rest) == Thankyou
  {
    CapitalisedLower('P', "ositive", "positive");
    assert "Positive" == ['P'] + "ositive";
    LowerAppend("Positive", rest);
    LoweredStartRoutes("Positive" + rest, Lower(rest));
  }

  /** An empty label reaches the details chain. */
  lemma EmptyLabelRoutes()
    ensures RouteLabel("") == Details
  {
  }

  /** "positive" takes precedence: a label holding both words is thanked. */
  lemma PositiveTakesPrecedence(sentiment: string)
    requires Occurs("positive", Lower(sentiment))
    requires Occurs("negative", Lower(sentiment))
    ensures RouteLabel(sentiment) == Thankyou
  {
  }

  /** `route(info)`: reads the sentiment field of the record. */
  function Route(info: Record): (r: Result<Chain, KeyError>)
    ensures r.Err? <==> SentimentKey !in info
    ensures r.Err? ==> r.error == KeyError(SentimentKey)
    ensures r.Ok? ==> r.value == RouteLabel(info[SentimentKey])
  {
    if SentimentKey in info then Ok(RouteLabel(info[SentimentKey]))
    else Err(KeyError(SentimentKey))
  }

  /** The dict of two lambdas in front of `route`: builds a fresh record
      holding only the feedback and the sentiment of its input. */
  function SelectRoutingFields(x: Record): (r: Result<Record, KeyError>)
    ensures r.Ok? <==> FeedbackKey in x && SentimentKey in x
    ensures r.Ok? ==> r.value.Keys == {FeedbackKey, SentimentKey}
    ensures r.Ok? ==> r.value[FeedbackKey] == x[FeedbackKey] && r.value[SentimentKey] == x[SentimentKey]
    ensures r.Err? ==> r.error.key !in x && r.error.key in {FeedbackKey, SentimentKey}
  {
    if FeedbackKey !in x then Err(KeyError(FeedbackKey))
    else if SentimentKey !in x then Err(KeyError(SentimentKey))
    else Ok(map[FeedbackKey := x[FeedbackKey], SentimentKey := x[SentimentKey]])
  }

  /** A chain returned by `route` is invoked with the same routing record. */
  datatype Dispatch = Dispatch(chain: Chain, input: Record)

  /** `full_chain.invoke(x)`: select the fields, route, and hand the routing
      record to the chosen response chain. It fails exactly when a field is
      missing; otherwise the chosen chain depends on the sentiment label
      alone and receives the feedback and the sentiment unchanged. */
  function FullChain(x: Record): (r: Result<Dispatch, KeyError>)
    ensures r.Ok? <==> FeedbackKey in x && SentimentKey in x
    ensures r.Err? ==> r.error.key !in x && r.error.key in {FeedbackKey, SentimentKey}
    ensures r.Ok? ==>
      && r.value.chain == RouteLabel(x[SentimentKey])
      && r.value.input.Keys == {FeedbackKey, SentimentKey}
      && r.value.input[FeedbackKey] == x[FeedbackKey]
      && r.value.input[SentimentKey] == x[SentimentKey]
      && ResponseInputs <= r.value.input.Keys
  {
    match SelectRoutingFields(x)
    case Err(e) => Err(e)
    case Ok(info) =>
      match Route(info)
      case Err(e) => Err(e)
      case Ok(c) => Ok(Dispatch(c, info))
  }

  /** Only the sentiment field affects the choice: two records that share a
      sentiment (and both carry a feedback) reach the same chain. */
  lemma OnlySentimentMatters(x: Record, y: Record)
    requires FeedbackKey in x && SentimentKey in x
    requires FeedbackKey in y && SentimentKey in y
    requires x[SentimentKey] == y[SentimentKey]
    ensures FullChain(x).Ok? && FullChain(y).Ok?
    ensures FullChain(x).value.chain == FullChain(y).value.chain
  {
  }
}
