# Deterministic core of the LangChain / LangGraph cookbook scripts

The scripts of this repository mostly call a hosted language model. Three pieces of
their own logic are deterministic, and this project models and proves them in Dafny:

- **Sentiment response routing** (`09-langchain-example-chain-to-classify-sentiments.py`).
  `route` lower-cases a classified sentiment label. It then picks the thank-you chain
  when the label contains "positive", the apology chain when it contains "negative",
  and the details chain otherwise. Two re-keying helpers wrap a step's output into a
  one-key record for the next prompt. A dict of two lambdas copies `feedback` and
  `sentiment` into the routing record. The chains are named only
  (`Chain = Thankyou | Apology | Details`); what they say is the language model's business.
- **Discount tool** (`10-langchain-toolscalls-example.py`). `calculate_discount`
  rejects a percentage outside [0, 100] with a `ValueError`. Otherwise it returns
  `price - price * (pct / 100)`.
- **Toy state graph** (`12-langgraph-simple-example.py`). `node_1` appends " AGI".
  `decide_mood` then sends the run to `node_2` (" Achieved!") or `node_3`
  (" Not Achieved :("), and the run ends.

Files:

- `wrappers.dfy`: `Result` for raised exceptions.
- `strings.dfy`: ASCII `str.lower()` and Python's `sub in s`. The scan is proved equal
  to a positional definition.
- `sentiment_routing.dfy`, `discount.dfy` and `state_graph.dfy`: one module per script.

Modelling choices:

- Python dicts are `map<string, string>`. Indexing a missing key is `Err(KeyError(key))`.
- `route` returns a runnable, and LangChain invokes it with the same routing record.
  `FullChain` returns that pair as a `Dispatch`.
- Money is `real`.
- The graph's one-field state `{"graph_state": s}` is the string `s`.
- The coin `random.random()` draws is a parameter `coin` in [0, 1). The model keeps
  the source's threshold of one half.

## Model

| member | source | states |
|---|---|---|
| Strings.LowerChar | 09-langchain-example-chain-to-classify-sentiments.py:120-122 | exactly the letters 'A' to 'Z' change, each to its lower-case letter; every other character is kept |
| Strings.Lower | 09-langchain-example-chain-to-classify-sentiments.py:120-122 | ASCII lower-casing keeps the length and lower-cases each character in place |
| Strings.LowerHasNoUpper | 09-langchain-example-chain-to-classify-sentiments.py:120-122 | no ASCII upper-case letter is left after lower-casing |
| Strings.LowerAppend | 09-langchain-example-chain-to-classify-sentiments.py:120-122 | lower-casing a concatenation lower-cases each part separately |
| Strings.LowerIdempotent | 09-langchain-example-chain-to-classify-sentiments.py:120-122 | lower-casing twice is lower-casing once |
| Strings.Contains | 09-langchain-example-chain-to-classify-sentiments.py:120-122 | Python's `sub in s` returns true exactly when some position of the label starts a copy of the word |
| SentimentRouting.FormatParsedOutput | 09-langchain-example-chain-to-classify-sentiments.py:58-60 | the record has the summary prompt's input variables as its only key, holding the output unchanged |
| SentimentRouting.FormatSummaryOutput | 09-langchain-example-chain-to-classify-sentiments.py:63-65 | the record has the sentiment prompt's input variables as its only key, holding the output unchanged |
| SentimentRouting.RouteLabel | 09-langchain-example-chain-to-classify-sentiments.py:119-125 | thank-you iff "positive" occurs in the lower-cased label; apology iff "negative" occurs and "positive" does not; details iff neither occurs, so every label reaches exactly one chain |
| SentimentRouting.PositiveTakesPrecedence | 09-langchain-example-chain-to-classify-sentiments.py:120-123 | a label holding both words routes to thank-you |
| SentimentRouting.RouteLabelIgnoresCase | 09-langchain-example-chain-to-classify-sentiments.py:120-122 | labels that are equal up to ASCII case route alike, and a label routes like its lower-cased form |
| SentimentRouting.RequestedLabelsRoute | 09-langchain-example-chain-to-classify-sentiments.py:17 | 'Positive', 'Negative' and 'Neutral' reach thank-you, apology and details |
| SentimentRouting.UpperCasePositiveRoutes | 09-langchain-example-chain-to-classify-sentiments.py:120-121 | "POSITIVE" reaches thank-you |
| SentimentRouting.PositiveFollowedByAnythingRoutes | 09-langchain-example-chain-to-classify-sentiments.py:120-121 | "positive" followed by anything, such as "positive.", reaches thank-you, because the test is containment and not equality |
| SentimentRouting.CapitalisedPositiveFollowedByAnythingRoutes | 09-langchain-example-chain-to-classify-sentiments.py:120-121 | "Positive" followed by anything, such as "Positive.", reaches thank-you |
| SentimentRouting.EmptyLabelRoutes | 09-langchain-example-chain-to-classify-sentiments.py:124-125 | the empty label reaches the details chain |
| SentimentRouting.Route | 09-langchain-example-chain-to-classify-sentiments.py:119-125 | `route` fails with a KeyError exactly when the record lacks `sentiment`; otherwise it applies the label rule to that field |
| SentimentRouting.SelectRoutingFields | 09-langchain-example-chain-to-classify-sentiments.py:168-171 | succeeds iff both `feedback` and `sentiment` are present; the new record has exactly those two keys with the input's values; a failure names a key the input lacks |
| SentimentRouting.FullChain | 09-langchain-example-chain-to-classify-sentiments.py:167-173 | `full_chain.invoke` fails iff a field is missing, with a key the input lacks, and that key is `feedback` or `sentiment`; otherwise the chosen chain is the label rule on the sentiment, and the chain receives a record of exactly `feedback` and `sentiment` with their values unchanged, which holds the `feedback` the response prompts read |
| SentimentRouting.OnlySentimentMatters | 09-langchain-example-chain-to-classify-sentiments.py:167-173 | two complete records with the same sentiment reach the same chain, whatever their feedback |
| Discount.CalculateDiscount | 10-langchain-toolscalls-example.py:14-29 | fails with the range error iff pct < 0 or pct > 100; otherwise the buyer pays (100 - pct) percent of the price, which lies between 0 and the price (between the price and 0 for a negative price) |
| Discount.AcceptedIffValid | 10-langchain-toolscalls-example.py:25-26 | a percentage is accepted iff it lies in the closed range [0, 100] |
| Discount.DiscountBoundaries | 10-langchain-toolscalls-example.py:25-28 | 0 returns the price unchanged and 100 returns 0; both boundaries are accepted |
| Discount.TwentyPercentOffHundred | 10-langchain-toolscalls-example.py:19-28 | 20 means twenty percent: price 100 becomes 80 |
| Discount.DiscountAntitone | 10-langchain-toolscalls-example.py:27-28 | for a non-negative price a larger percentage never gives a larger final price |
| Discount.DiscountStrictlyAntitone | 10-langchain-toolscalls-example.py:27-28 | for a positive price a strictly larger percentage gives a strictly smaller final price |
| StateGraph.Apply | 12-langgraph-simple-example.py:15-27 | each node keeps the incoming state as a prefix and appends exactly its phrase |
| StateGraph.DecideMood | 12-langgraph-simple-example.py:31-35 | the decision never selects node_1 |
| StateGraph.DecisionReachesBoth | 12-langgraph-simple-example.py:31-35 | some coin selects node_2 and some coin selects node_3 |
| StateGraph.Next | 12-langgraph-simple-example.py:44-47 | every edge moves strictly closer to END, so every run terminates |
| StateGraph.Invoke | 12-langgraph-simple-example.py:44-47 | walking the edges visits node_1 and then the decided node, two steps in all, and ends in the closed-form final state |
| StateGraph.EmptyStartFinalStates | 12-langgraph-simple-example.py:57-58 | the run from an empty state ends in " AGI Achieved!" when the coin is below one half and in " AGI Not Achieved :(" otherwise |

## Left out

- Every language-model call (`llm.invoke`, streaming, tool binding) and what the three
  response chains generate. These are remote, non-deterministic services.
- Prompt-template rendering, output parsers, `StrOutputParser` and the `|` composition.
  These are library code. The model keeps only the templates' input-variable names.
- LangGraph's graph compilation and state merging. The model's `Invoke` walks the
  script's edge table directly.
- `random.random()` itself. Its value is the `coin` parameter.
- Printing and environment loading (`print`, `load_dotenv`).
- SentimentRouting.SelectRoutingFields: when both keys are missing the model reports `feedback`. LangChain runs the two lambdas in parallel, so the contract promises only that the reported key is missing.
- Strings.Lower: models ASCII lower-casing only, not Unicode lower-casing. For the two words the router looks for this changes no route: the only non-ASCII characters that lower to ASCII letters are U+0130 (to "i" and U+0307) and U+212A (to "k"), and neither can stand inside a match of "positive" or "negative".
- Discount.CalculateDiscount: works over exact reals. It does not model IEEE rounding
  or NaN. A NaN percentage fails the range test in Python and raises.
- Lines 137-138 of the sentiment script redefine `format_parsed_output` with the same
  body as lines 58-60. The model has the one definition.
- The other scripts (vector store, tool-calling graphs, parsers) hold no logic of their
  own beyond library calls. The one-line `multiply` tools are routed by the library.
