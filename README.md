# Social post generator — verified model of the client core and the Hugging Face relay

This project models, in Dafny, the decision logic of a browser application. The
application asks several LLM providers (OpenAI, Anthropic, Gemini, Hugging Face) for
social media posts on one topic, one post per platform (Twitter/X, Threads, Bluesky,
Instagram, Facebook, TikTok, a generic one). It also models the serverless relay that
forwards requests to the Hugging Face inference API. It covers:

- **Platforms** (`platforms.dfy`): the seven platforms and their limits, the label order,
  the providers and the five configured models.
- **PromptBuilder** (`prompt.dfy`): `buildMultiPlatformPrompt`. This is the intro with
  tone and topic, the four optional requirement lines and the format block. The format
  block parses back, with the client's own parser, into one placeholder post per
  platform in label order.
- **ResponseParser** (`parser.dfy`): `parseMultiPlatformResponse`. It is a scan over the
  lines of the reply, holding the open label and a buffer. It is proved equal to a
  section-based reference description, which in turn gives the shape of the result.
- **Formatting** (`formatting.dfy`): `formatForPlatform` (truncation with `...`), the
  character-count class of a card, and the idempotent hashtag append to the selected
  cards. The cards are objects updated in place.
- **Hashtags** (`hashtags.dfy`): `generateHashtagSuggestions`.
- **RunPlanning** (`planning.dfy`): the keyword parse, the `loadApiKeys` model filter, the
  grouping of active models by provider, one request per provider with its first model,
  and the 20-second stagger.
- **Orchestrator** (`orchestrator.dfy`): `generateMultiPlatformVariation` and its error
  records, the run's progress counters and displayed records, and `generateAllPlatforms`
  end to end with the relay as an input function.
- **RetryPolicy** (`retry.dfy`): the retry policy of `generateLLMVariation`. A 429 is
  retried up to three times after 15, 30 and 60 seconds. Any other error whose message
  does not say "API error" is retried once after 3 seconds.
- **HuggingFaceRelay** (`huggingface.dfy`): the relay handler. It covers the method
  guard, the field check, the chat template chosen by model name, the translation of
  upstream statuses, the extraction of the generated text, the special-token cleanup
  and the reply. A `ServerResponse` class stands in for the Node response object.
- **Text**, **Lists**, **Wrappers**: string and sequence helpers (trim, split/join,
  `includes`, subsequences, distinct), `Option` and `Result`.

Inputs the code reads from outside become parameters:

- `fetch` and the relays are functions from the request to its outcome;
- the key map replaces `localStorage`;
- the form fields are strings and booleans;
- delays are numbers of milliseconds.

## Model

| member | source | states |
|---|---|---|
| Platforms.PlatformByName | script.js:4-12 | a platform name maps to exactly that platform, and only platform names map to one |
| Platforms.OrdersAreComplete | script.js:14 | both the display order and the label order list all seven platforms |
| PromptBuilder.BuildMultiPlatformPrompt | script.js:523-572 | the prompt is the intro with tone and topic, then the optional requirement lines, then the fixed format block |
| PromptBuilder.AppendRequirements | script.js:542-556 | the four conditional appends add exactly the optional requirement lines to any prompt so far |
| PromptBuilder.RequirementsPresent | script.js:542-556 | each requirement line is present exactly when its option is on (keywords: when the list is non-empty) |
| PromptBuilder.RequirementsOrder | script.js:542-556 | the requirement lines appear in the fixed order keywords, emojis, call to action, hashtags |
| PromptBuilder.RequirementsText | script.js:542-556 | the appended text is the requirement lines joined, each after a line feed |
| PromptBuilder.ClassifyFormatLine | script.js:561-567 | each format line of the prompt is recognised by the parser as its platform's label with the placeholder as text |
| PromptBuilder.FormatLinesParse | script.js:558-569 | any non-empty list of format lines parses back into one placeholder post per platform, in that order |
| PromptBuilder.FormatBlockParses | script.js:558-569 | the prompt's format block parses back into the seven platforms in label order |
| ResponseParser.MatchLabel | script.js:595 | a trimmed line matches the label pattern exactly when it starts with some platform label and a colon; the remainder skips the whitespace after the colon |
| ResponseParser.LabelUnique | script.js:595 | no line starts with two different labels |
| ResponseParser.ClassifySpec | script.js:592-595 | a line is classified as a label line exactly when its trimmed form carries a label, otherwise as its trimmed text |
| ResponseParser.ScanLine | script.js:592-616 | one callback step sets the open label, buffer and emitted records as one step of the scan |
| ResponseParser.ParseLines | script.js:591-628 | the loop plus the final close yields the records of the scan over the classified lines |
| ResponseParser.ParseMultiPlatformResponse | script.js:574-631 | the records are exactly those of `ParsePosts(content)`, in order, tagged with model and provider |
| ResponseParser.ScanMatchesSections | script.js:591-628 | the line scan equals the reference definition that cuts the lines into labelled sections |
| ResponseParser.ParseSpec | script.js:574-631 | posts never outnumber label lines; each is non-empty and trimmed; their platforms follow the labels in order, and equal them when none is dropped |
| ResponseParser.PostsAreTrimmed | script.js:599-601 | every emitted post is non-empty and has no surrounding whitespace |
| ResponseParser.BlankLineIgnored | script.js:612 | a blank line changes nothing in the scan |
| ResponseParser.PreambleIgnored | script.js:612 | text before the first label contributes no post |
| Formatting.FormatSpec | script.js:739-748 | a post within the limit is unchanged; a longer one becomes exactly `limit` characters: its first `limit - 3` then `...` |
| Formatting.FormatUnknownPlatform | script.js:739-748 | a name that is no platform leaves the post unchanged (the comparison with `undefined` is false) |
| Formatting.FormatIdempotent | script.js:739-748 | formatting a formatted post changes nothing |
| Formatting.FormattedNeverOver | script.js:739-748 | a formatted post never gets the over-limit counter class |
| Formatting.ClassifyCountSpec | script.js:670-676 | over-limit exactly when above the limit; warning exactly when within it and above 80 %; normal otherwise |
| Formatting.AppendHashtagSpec | script.js:794-795 | the result contains the hashtag and starts with the content; it is the content when the hashtag was already in it, otherwise the content plus a space and the hashtag |
| Formatting.AppendHashtagIdempotent | script.js:794-795 | appending the same hashtag twice equals appending it once |
| Formatting.VariationCard.constructor | script.js:670-676 | a new card shows its content, its platform's limit and the count class of its length, unselected |
| Formatting.VariationCard.AddHashtag | script.js:790-807 | the card's content gets the hashtag appended when missing and its class is recomputed; otherwise nothing changes |
| Formatting.AddHashtagToCards | script.js:791-808 | every selected card is updated as above; unselected cards, selection and limits are untouched |
| Formatting.AddHashtagToSelectedVariations | script.js:784-809 | with no selected card the user is told to select one and no card changes; otherwise as above |
| Hashtags.GenerateHashtagSuggestions | script.js:751-771 | the loop computes the suggestion list of the specification function |
| Hashtags.SuggestionsSpec | script.js:751-770 | the suggestions are the first eight distinct candidates in first-occurrence order (all of them when there are at most eight): exactly min(8, distinct) tags, no duplicates, each a candidate starting with `#` |
| Hashtags.CandidatesAreTags | script.js:753-768 | every candidate starts with `#` |
| Hashtags.TopicTagShape | script.js:755-759 | a topic tag is `#`, the word's first letter in upper case, then the rest of the word |
| Hashtags.KeywordTagShape | script.js:761-765 | a keyword tag is `#` followed by the keyword without whitespace |
| Hashtags.TrendingShown | script.js:767-770 | when at most five distinct topic and keyword tags exist, the three trending tags are all shown |
| RunPlanning.KeywordsShape | script.js:286 | every parsed keyword is non-empty, trimmed and free of commas |
| RunPlanning.KeywordsKept | script.js:286 | the keywords are the trimmed pieces in order, and every non-blank piece is kept |
| RunPlanning.ActiveModelsSpec | script.js:186-188 | the active models are the configured ones, in order, whose provider has a non-empty key |
| RunPlanning.AllKeysAllActive | script.js:186-188 | with every key set, every configured model is active |
| RunPlanning.GroupByProvider | script.js:324-331 | the providers come in first-appearance order, and each maps to its active models in order |
| RunPlanning.GroupsOfKeys | script.js:324-331 | the grouping has a key exactly for each provider of an active model |
| RunPlanning.GroupsOfModels | script.js:324-331 | each group holds that provider's active models in their order |
| RunPlanning.BestModelIsFirst | script.js:335 | the model called for a provider is that provider's first active model |
| RunPlanning.PlanRun | script.js:333-338 | the loop produces the plan: one request per provider with its first model, the k-th delayed `k * 20000` ms |
| RunPlanning.PlanAt | script.js:333-338 | the k-th request uses the k-th provider's first model and waits `k * 20000` ms |
| RunPlanning.PlanProvidersDistinct | script.js:333-338 | no provider is called twice |
| RunPlanning.PlanCoversProviders | script.js:333-338 | every provider with an active model is called |
| RunPlanning.PlanUsesFirstModel | script.js:335 | every request's model is active and precedes every other active model of its provider |
| RunPlanning.PlanFollowsModelOrder | script.js:333-338 | requests are ordered as their models are in the active list |
| RunPlanning.AvailableProviderOrder | script.js:16-23 | the configured models group into OpenAI, Anthropic, Gemini, Hugging Face |
| RunPlanning.TotalsAgree | script.js:314 | the written total never falls short of seven per call, and equals it exactly when no provider has two active models |
| RunPlanning.AllKeysTotals | script.js:314 | with every key set, the written total is 35 while seven per call gives 28 |
| Orchestrator.ConvertOutcome | script.js:436-457 | a reply becomes the parsed records; a refusal or network failure becomes seven error records |
| Orchestrator.RequestVariations | script.js:407-457 | the relay is called once, for the model's endpoint, key, model name and prompt, and its outcome becomes the records |
| Orchestrator.GenerateMultiPlatformVariation | script.js:407-458 | the prompt is built, the relay called with it and the outcome converted; no outcome makes the call fail |
| Orchestrator.RefusalHasMessage | script.js:436-438 | a refusal always carries a message: the relay's error, or `<Provider> API error: <status>` when it is empty |
| Orchestrator.FailureSpec | script.js:446-457 | a failure yields one error record per platform, in platform order, marked as errors, with `(Error)` after the model name and the message in the content |
| Orchestrator.ReplySpec | script.js:441-444 | a reply yields one AI-generated record per parsed post, carrying its platform and text |
| Orchestrator.RunProgress.constructor | script.js:314-315 | the counter starts at zero; the total is the corrected one, seven records per call made, not the source's seven per active model (see Findings) |
| Orchestrator.RunProgress.Deliver | script.js:342-350 | each delivered record is displayed and counts once |
| Orchestrator.RunProgress.DeliverFailure | script.js:354-381 | the run's catch displays and counts seven error records, with rate-limit or model-not-found hints |
| Orchestrator.CaughtDetailsSpec | script.js:356-379 | one error record per platform in platform order, of the best model and its provider; each content starts with the failure line for its platform, contains the message (or `Unknown error`), and ends with the rate-limit hint when the message mentions 429, with the missing-model hint when it mentions 404 and not 429, and with the message otherwise |
| Orchestrator.MakeRequests | script.js:333-383 | the planned requests are made in order, their records appended to the display and counted |
| Orchestrator.RunRequests | script.js:313-392 | the displayed records are those of the plan's requests in order, the counter equals their number, and the total is the corrected one, seven per call made, not the source's seven per active model (see Findings) |
| Orchestrator.GenerateAllPlatforms | script.js:269-400 | with the active models derived from the key map as `loadApiKeys` does, a blank topic or no active model alerts; otherwise all planned records, the counters against the corrected total and the hashtag suggestions |
| Orchestrator.FailedRunCount | script.js:342-350 | when no call gets a reply, each request yields exactly seven records |
| Orchestrator.FailedRunMatchesCorrectedTotal | script.js:314 | when no call gets a reply, the records reach the corrected total, and reach the written one only when no provider has two active models |
| Orchestrator.AllKeysMismatch | script.js:314 | with every key set and every call failing, the written total is 35 but only 28 records ever arrive |
| RetryPolicy.SettlesAtLastFetch | script.js:479-519 | the call resolves exactly when its last fetch got a reply, with that reply formatted for the platform; otherwise it rejects with that fetch's message |
| RetryPolicy.WaitSchedule | script.js:496-517 | at most three retries in all; every wait after the first is the rate-limit backoff for its retry count; the first is 15 s or 3 s |
| RetryPolicy.RateLimitWaits | script.js:497 | the rate-limit waits are 15, 30 and 60 seconds |
| RetryPolicy.TotalWait | script.js:496-517 | one call waits at most three times and at most 105 seconds in all |
| RetryPolicy.AllRateLimited | script.js:496-503 | a provider that always answers 429 is tried four times, after 15, 30 and 60 s, then the call rejects |
| RetryPolicy.StatusMessageMentionsApiError | script.js:503 | a status message built by the client always says "API error" |
| RetryPolicy.StatusRefusalNotRetried | script.js:503-518 | a non-429 refusal without relay message rejects at once, with no wait |
| RetryPolicy.NetworkRetryOnce | script.js:512-518 | a first failure whose message lacks "API error" is retried once after 3 s, and a second such failure rejects |
| RetryPolicy.NestedFailureNotCaught | script.js:500 | after a 429 retry, a network failure of the retried call rejects the call without the 3-second retry |
| RetryPolicy.FirstReply | script.js:506-511 | a reply on the first fetch resolves at once with the formatted content |
| RetryPolicy.MissingBuilderRejects | script.js:463 | as written the call rejects before any fetch, even where the corrected call would resolve |
| HuggingFaceRelay.FamilyOf | api/huggingface.js:44-75 | the Llama template exactly when the name includes `llama` or `Llama`; else Mistral when it includes `Mixtral` or `mistral`; else Zephyr when it includes `zephyr`; else the generic one |
| HuggingFaceRelay.TemplateWrapsPrompt | api/huggingface.js:44-75 | every template contains the user prompt verbatim after its family's head |
| HuggingFaceRelay.ConfiguredModelsUseGenericTemplate | api/huggingface.js:44-75 | the client's Hugging Face models (`gpt2`, `distilgpt2`) get the generic template |
| HuggingFaceRelay.Extract | api/huggingface.js:132-147 | a non-empty array gives its first element's text, or empty; an object with non-empty text gives it; any other non-null value, an empty array included, gives nothing |
| HuggingFaceRelay.CleanupOnlyDeletes | api/huggingface.js:150-154 | the cleanup only deletes characters (the result is a subsequence of its input), never lengthens, and leaves no whitespace at either end |
| HuggingFaceRelay.TokenDropped | api/huggingface.js:151 | a special token at the front (`<` and a bar, one or more characters other than a bar, then a bar and `>`) is removed whole |
| HuggingFaceRelay.CleanupKeepsPlainText | api/huggingface.js:150-154 | text with no `<` and no `[` is only trimmed |
| HuggingFaceRelay.TranslateFailure | api/huggingface.js:96-130 | the upstream status is always mirrored; 503, 404 and 403 get fixed messages; any other gets `Hugging Face API error: <status>` with the body text as details |
| HuggingFaceRelay.Respond | api/huggingface.js:96-167 | a reply with text gives 200, source `AI Generated` and trimmed content taken from the text; an unknown shape gives 500; a failed status is mirrored; an exception gives 500 `Internal server error` with its message |
| HuggingFaceRelay.Decide | api/huggingface.js:14-39 | no body exactly for OPTIONS (status 200); 405 exactly for other non-POST methods; 400 exactly for a POST missing a field |
| HuggingFaceRelay.RefusalIgnoresUpstream | api/huggingface.js:14-39 | a refused method or a missing field gets the same reply whatever the upstream would do |
| HuggingFaceRelay.AcceptedRequestCallsUpstream | api/huggingface.js:77-94 | a complete POST sends the model's URL, `Bearer <key>` and the templated prompt, and replies with what that call settles to |
| HuggingFaceRelay.Handler | api/huggingface.js:1-168 | the handler sets the three CORS headers, answers exactly once, and its status and body are those `Decide` gives |

## Left out

- DOM and UI: card HTML, tabs, modals, messages, the copy button and the model status
  list. Only the data a card shows is modelled: its content, limit, counter class and
  selection. A card's content is inserted as HTML and the hashtag append reads and writes
  its `textContent`; the model treats the content as plain text already, so entity
  decoding and tag stripping by the browser are not modelled.
- Browser storage: `localStorage` reads and writes are not modelled. The key map is a
  parameter.
- Network and time: `fetch`, `setTimeout` and `Promise.all` are not modelled.
  - Relay outcomes are input functions and delays are numbers.
  - The staggered calls are treated as made one after another in plan order.
  - So records from different providers are displayed in plan order, while the browser
    may display them in completion order.
- The progress bar percentage and the status texts are floating-point or display
  output; only the counters behind them are modelled.
- The `.catch` of script.js:354-381 is reached only when displaying a record throws,
  because `generateMultiPlatformVariation` never rejects. It is modelled as its own
  operation (`Orchestrator.RunProgress.DeliverFailure`) and is not reachable from the
  modelled run.
- `generateSingleVariation` (script.js:403-405) is never called, so the retry policy is
  modelled as a function of the fetch outcomes and is not reached by a run.
- The single-platform prompt builder that `generateLLMVariation` calls does not exist in
  the source (see Findings). The corrected policy takes the prompt as an input.
- The prompt is built once per run, not once per provider. The source builds the same
  text each time from the same options.
- The relays for OpenAI, Anthropic and Gemini and the test and debug endpoints are thin
  pass-throughs to external APIs. They are not part of this model.
- `console.log` output and the request timestamps of the relays are not modelled.
- Strings are sequences of characters.
  - Lengths are not UTF-16 code units.
  - `toLowerCase`/`toUpperCase` are modelled on ASCII letters only.
  - Whitespace for `trim` and `\s` is a fixed set of space characters.
- HuggingFaceRelay.Decide: a request with no body at all, a top-level `null` reply from
  the upstream, `null` array elements, and fields that are not strings throw engine
  `TypeError`s inside the `try` (a 500 `Internal server error` with the engine's message). These are not
  modelled; the body's fields are optional strings.
- The fixed sampling parameters of the upstream
  request are not modelled. These are `max_new_tokens`, `temperature`, `do_sample`,
  `top_p`, `repetition_penalty` and `return_full_text`. Neither is the `Content-Type`
  header.
- Retries without `await`: the nested call of a retry is returned without `await`
  inside the `try`. A rejection of the nested call therefore reaches the caller without
  passing through this frame's `catch`. This is JavaScript's semantics for an `async`
  function returning a promise, and the model follows it: a failed retry after a 429 is
  not retried again after 3 seconds (`RetryPolicy.NestedFailureNotCaught`). A reading
  in which the outer `catch` sees it would differ.

## Findings

| source | as written | input that shows it | evidently intended | confidence | as-written member | corrected member |
|---|---|---|---|---|---|---|
| script.js:463 | `generateLLMVariation` calls `this.buildPrompt(options)`, which the class does not define, so every call rejects with a `TypeError` before any fetch | any call, for instance one whose first fetch would get a reply | build the prompt from the options and go on to the fetch and retry policy | not executed | RetryPolicy.MissingBuilderRejects | RetryPolicy.SettlesAtLastFetch |
| script.js:314 | the run's total is seven per active model, but one request is sent per provider | all four keys set: five active models over four providers give a total of 35, yet at most 28 error records arrive when every call fails, so the counter never reaches the total | seven per provider called | not executed | Orchestrator.AllKeysMismatch | Orchestrator.FailedRunMatchesCorrectedTotal |

The corrected total is the one `Orchestrator.RunRequests` and
`Orchestrator.GenerateAllPlatforms` count against. `RunPlanning.WrittenTotal` keeps the
total as written.
