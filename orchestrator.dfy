/** A generation run, `generateAllPlatforms` (script.js:268-400) and
    `generateMultiPlatformVariation` (script.js:407-458): the planned requests are made,
    every reply or failure is turned into variations, and each variation handed to the
    display is counted. */
module Orchestrator {
  import opened Wrappers
  import opened Text
  import opened Lists
  import opened Platforms
  import opened ResponseParser
  import opened PromptBuilder
  import opened Hashtags
  import opened RunPlanning

  // ---------------------------------------------------------------------------
  // One provider call.

  /** The body posted to the relay. */
  datatype RelayRequest = RelayRequest(endpoint: string, apiKey: string, model: string, prompt: string)

  /** What the relay call comes to: a reply with text, a non-OK status with the relay's
      `error` field (empty when absent), or an exception with its message. */
  datatype RelayOutcome = Replied(content: string) | Refused(status: nat, error: string) | Unreachable(message: string)

  /** `proxyEndpoints[provider]` (script.js:412-417). */
  function Endpoint(p: Provider): string {
    "/api/" + ProviderName(p)
  }

  /** The text `buildMultiPlatformPrompt` returns for `options`. */
  function PromptText(options: PromptOptions): string {
    Intro(options.tone, options.topic) + OptionalLines(options) + FormatBlock()
  }

  function RequestFor(model: ModelConfig, keys: ApiKeys, prompt: string): RelayRequest {
    RelayRequest(Endpoint(model.provider), KeyOf(keys, model.provider), model.model, prompt)
  }

  /** The message of the error thrown or caught (script.js:436-438): the relay's `error`
      field, or `<provider> API error: <status>` when that is empty. */
  function ErrorMessage(p: Provider, outcome: RelayOutcome): string
    requires !outcome.Replied?
  {
    match outcome
    case Refused(status, error) =>
      if error != "" then error else ProviderName(p) + " API error: " + NatToString(status)
    case Unreachable(message) => message
  }

  /** `error.message || 'Unknown error'`. */
  function OrUnknown(message: string): string {
    if message != "" then message else "Unknown error"
  }

  const FailureMarker: string := "\U{201A}\U{F9}\U{E5} Failed to generate "

  function FailureContent(p: Platform, modelName: string, message: string): string {
    FailureMarker + Name(p) + " content using " + modelName + "\n\nError: " + OrUnknown(message)
  }

  /** A record made of a head, three more pieces, the message shown and a hint starts with
      the head, contains the message and ends with the hint, or with the message when there
      is none. */
  lemma RecordShape(head: string, a: string, b: string, c: string, shown: string, details: string)
    ensures var content := head + a + b + c + shown + details;
      && StartsWith(content, head) && Contains(content, shown) && EndsWith(content, details)
      && (details == "" ==> EndsWith(content, shown))
  {
    var content := head + a + b + c + shown + details;
    assert content == head + (a + b + c + shown + details);
    AppendEnds(head, a + b + c + shown + details);
    ContainsAfter(head + a + b + c, shown, details);
    AppendEnds(head + a + b + c + shown, details);
    if details == "" {
      assert content == head + a + b + c + shown;
      AppendEnds(head + a + b + c, shown);
    }
  }

  function FailureVariation(p: Platform, model: ModelConfig, message: string): Variation {
    Variation(FailureContent(p, model.name, message), ErrorSource, p, model.name + " (Error)", model.provider, true)
  }

  /** The `catch` of `generateMultiPlatformVariation` (script.js:446-457): one error record
      per platform, in platform order. */
  function FailureVariations(model: ModelConfig, message: string): seq<Variation> {
    seq(|AllPlatforms|, i requires 0 <= i < |AllPlatforms| => FailureVariation(AllPlatforms[i], model, message))
  }

  /** The records a call yields for an outcome: the parsed posts of a reply, the error
      records otherwise. */
  function OutcomeVariations(model: ModelConfig, outcome: RelayOutcome): seq<Variation> {
    if outcome.Replied? then ToVariations(ParsePosts(outcome.content), model.name, model.provider)
    else FailureVariations(model, ErrorMessage(model.provider, outcome))
  }

  /** The `try`/`catch` of script.js:426-457 once the relay has answered: a reply is parsed,
      a refusal or an exception becomes one error record per platform. */
  method ConvertOutcome(model: ModelConfig, outcome: RelayOutcome) returns (variations: seq<Variation>)
    ensures variations == OutcomeVariations(model, outcome)
  {
    if outcome.Replied? {
      variations := ParseMultiPlatformResponse(outcome.content, model.name, model.provider);
    } else {
      var message := ErrorMessage(model.provider, outcome);
      variations := FailureVariations(model, message);
    }
  }

  /** `generateMultiPlatformVariation` once its prompt is built (script.js:407-457): the
      relay is called with the prompt and the outcome becomes records. */
  method RequestVariations(model: ModelConfig, keys: ApiKeys, prompt: string, relay: RelayRequest -> RelayOutcome)
    returns (variations: seq<Variation>)
    ensures variations == OutcomeVariations(model, relay(RequestFor(model, keys, prompt)))
  {
    var request := RelayRequest(Endpoint(model.provider), KeyOf(keys, model.provider), model.model, prompt);
    var outcome := relay(request);
    variations := ConvertOutcome(model, outcome);
  }

  /** `generateMultiPlatformVariation`: the prompt is built, the relay is called with it and
      the outcome becomes records; no outcome makes the call fail. */
  method GenerateMultiPlatformVariation(model: ModelConfig, keys: ApiKeys, options: PromptOptions,
                                        relay: RelayRequest -> RelayOutcome)
    returns (variations: seq<Variation>)
    ensures variations == OutcomeVariations(model, relay(RequestFor(model, keys, PromptText(options))))
  {
    var prompt := BuildMultiPlatformPrompt(options);
    variations := RequestVariations(model, keys, prompt, relay);
  }

  /** A refusal always has a message: the relay's own or the provider's status line. */
  lemma RefusalHasMessage(p: Provider, status: nat, error: string)
    ensures ErrorMessage(p, Refused(status, error)) != ""
    ensures error == "" ==> StartsWith(ErrorMessage(p, Refused(status, error)), ProviderName(p) + " API error: ")
  {
    var m := ErrorMessage(p, Refused(status, error));
    if error == "" {
      assert m == (ProviderName(p) + " API error: ") + NatToString(status);
    }
  }

  /** A failed call yields exactly one error record per platform, in platform order, each
      marked as an error of the calling model, whose text names the platform, the model
      and the message (or `Unknown error`). */
  lemma FailureSpec(model: ModelConfig, outcome: RelayOutcome)
    requires !outcome.Replied?
    ensures var vs := OutcomeVariations(model, outcome);
      && |vs| == |AllPlatforms|
      && forall i :: 0 <= i < |vs| ==>
        && vs[i].platform == AllPlatforms[i]
        && vs[i].error && vs[i].source == ErrorSource
        && vs[i].modelName == model.name + " (Error)" && vs[i].provider == model.provider
        && StartsWith(vs[i].content, FailureMarker + Name(AllPlatforms[i]))
        && Contains(vs[i].content, OrUnknown(ErrorMessage(model.provider, outcome)))
  {
    var message := ErrorMessage(model.provider, outcome);
    var vs := OutcomeVariations(model, outcome);
    forall i | 0 <= i < |vs|
      ensures StartsWith(vs[i].content, FailureMarker + Name(AllPlatforms[i]))
      ensures Contains(vs[i].content, OrUnknown(message))
    {
      var p := AllPlatforms[i];
      RecordShape(FailureMarker + Name(p), " content using ", model.name, "\n\nError: ", OrUnknown(message), "");
      assert vs[i].content + "" == vs[i].content;
    }
  }

  /** A reply yields only generated records of the calling model, one per post the parser
      cuts out. */
  lemma ReplySpec(model: ModelConfig, content: string)
    ensures var vs := OutcomeVariations(model, Replied(content));
      && |vs| == |ParsePosts(content)|
      && forall i :: 0 <= i < |vs| ==>
        && !vs[i].error && vs[i].source == AIGenerated
        && vs[i].modelName == model.name && vs[i].provider == model.provider
        && vs[i].platform == ParsePosts(content)[i].platform
        && vs[i].content == ParsePosts(content)[i].content
  {
    ToVariationsSpec(ParsePosts(content), model.name, model.provider);
  }

  // ---------------------------------------------------------------------------
  // Progress bookkeeping.

  /** `\n\n<icon> RATE LIMITING (<PROVIDER>):` and its hints (script.js:364). */
  function RateLimitDetails(provider: Provider): string {
    "\n\n\U{F8FF}\U{FC}\U{A7}\U{EE} RATE LIMITING (" + ToUpper(ProviderName(provider))
    + "):\n\U{201A}\U{C4}\U{A2} Only 1 call per provider now\n\U{201A}\U{C4}\U{A2} Try waiting 3-5 minutes\n\U{201A}\U{C4}\U{A2} Check API quotas"
  }

  /** `\n\n<icon> MODEL NOT FOUND (<model>):` and its hints (script.js:366). */
  function ModelNotFoundDetails(model: string): string {
    "\n\n\U{F8FF}\U{FC}\U{EC}\U{E3} MODEL NOT FOUND (" + model
    + "):\n\U{201A}\U{C4}\U{A2} Model name incorrect\n\U{201A}\U{C4}\U{A2} Provider API issue"
  }

  /** The hint appended by the run's `.catch`: rate limiting when the message mentions
      429, otherwise a missing model when it mentions 404, otherwise nothing. */
  function ErrorDetails(provider: Provider, bestModel: ModelConfig, message: string): string {
    if Contains(message, "429") then RateLimitDetails(provider)
    else if Contains(message, "404") then ModelNotFoundDetails(bestModel.model)
    else ""
  }

  /** The record the run's `.catch` displays for one platform (script.js:361-375). */
  function CaughtVariation(provider: Provider, bestModel: ModelConfig, message: string, p: Platform): Variation {
    Variation(FailureContent(p, bestModel.name, message) + ErrorDetails(provider, bestModel, message),
              ErrorSource, p, bestModel.name + " (Error)", provider, true)
  }

  /** The records the run's `.catch` displays (script.js:357-379). */
  function CaughtVariations(provider: Provider, bestModel: ModelConfig, message: string): seq<Variation> {
    seq(|AllPlatforms|, i requires 0 <= i < |AllPlatforms| => CaughtVariation(provider, bestModel, message, AllPlatforms[i]))
  }

  /** The counters of a run and the records handed to the display, in hand-over order. */
  class RunProgress {
    var total: nat
    var completed: nat
    var displayed: seq<Variation>

    /** Every record handed over was counted once. */
    predicate Valid()
      reads this
    {
      completed == |displayed|
    }

    /** `totalCombinations` and `completedCombinations = 0` (script.js:314-315), with the
        total counted as seven records per call made (see `RunPlanning.CorrectedTotal`). */
    constructor (callCount: nat)
      ensures Valid()
      ensures total == |AllPlatforms| * callCount && completed == 0 && displayed == []
    {
      total := |AllPlatforms| * callCount;
      completed := 0;
      displayed := [];
    }

    /** The `.then` body (script.js:342-350): each record raises the counter by one and is
        displayed. */
    method Deliver(variations: seq<Variation>)
      requires Valid()
      modifies this
      ensures Valid()
      ensures total == old(total)
      ensures completed == old(completed) + |variations|
      ensures displayed == old(displayed) + variations
    {
      var i := 0;
      while i < |variations|
        invariant 0 <= i <= |variations|
        invariant total == old(total)
        invariant completed == old(completed) + i
        invariant displayed == old(displayed) + variations[..i]
      {
        completed := completed + 1;
        displayed := displayed + [variations[i]];
        assert variations[..i + 1] == variations[..i] + [variations[i]];
        i := i + 1;
      }
      assert variations[..i] == variations;
    }

    /** The `.catch` (script.js:354-381), reached only when handing over throws: seven more
        counted records, one per platform, with the hint the message calls for, each counted
        and displayed in turn exactly as `Deliver` does. */
    method DeliverFailure(provider: Provider, bestModel: ModelConfig, message: string)
      requires Valid()
      modifies this
      ensures Valid()
      ensures total == old(total)
      ensures completed == old(completed) + |AllPlatforms|
      ensures displayed == old(displayed) + CaughtVariations(provider, bestModel, message)
    {
      var caught := CaughtVariations(provider, bestModel, message);
      Deliver(caught);
    }
  }

  /** The caught records: one per platform, in platform order, each an error record of the
      best model that names its platform, carries the message (or `Unknown error`), and ends
      with the rate-limit hint when the message mentions 429, with the missing-model hint
      when it mentions 404 and not 429, and with the message itself otherwise. */
  lemma CaughtDetailsSpec(provider: Provider, bestModel: ModelConfig, message: string)
    ensures var caught := CaughtVariations(provider, bestModel, message);
      && |caught| == |AllPlatforms|
      && forall i :: 0 <= i < |caught| ==>
        && caught[i].platform == AllPlatforms[i]
        && caught[i].error && caught[i].source == ErrorSource
        && caught[i].modelName == bestModel.name + " (Error)" && caught[i].provider == provider
        && CaughtShape(provider, bestModel, message, AllPlatforms[i], caught[i].content)
  {
    var caught := CaughtVariations(provider, bestModel, message);
    forall i | 0 <= i < |caught|
      ensures CaughtShape(provider, bestModel, message, AllPlatforms[i], caught[i].content)
    {
      CaughtContentShape(provider, bestModel, message, AllPlatforms[i]);
    }
  }

  /** What the `.catch` promises of one record's content. */
  predicate CaughtShape(provider: Provider, bestModel: ModelConfig, message: string, p: Platform, content: string) {
    && StartsWith(content, FailureMarker + Name(p))
    && Contains(content, OrUnknown(message))
    && (Contains(message, "429") ==> EndsWith(content, RateLimitDetails(provider)))
    && (!Contains(message, "429") && Contains(message, "404") ==>
          EndsWith(content, ModelNotFoundDetails(bestModel.model)))
    && (!Contains(message, "429") && !Contains(message, "404") ==> EndsWith(content, OrUnknown(message)))
  }

  lemma CaughtContentShape(provider: Provider, bestModel: ModelConfig, message: string, p: Platform)
    ensures CaughtShape(provider, bestModel, message, p, CaughtVariation(provider, bestModel, message, p).content)
  {
    RecordShape(FailureMarker + Name(p), " content using ", bestModel.name, "\n\nError: ",
                OrUnknown(message), ErrorDetails(provider, bestModel, message));
  }

  // ---------------------------------------------------------------------------
  // The run.

  /** The records of the requests in order: each call's records, one call after the other. */
  function RunVariations(plan: seq<Request>, keys: ApiKeys, prompt: string,
                         relay: RelayRequest -> RelayOutcome): seq<Variation>
  {
    if plan == [] then []
    else
      var last := plan[|plan| - 1].model;
      RunVariations(plan[..|plan| - 1], keys, prompt, relay)
        + OutcomeVariations(last, relay(RequestFor(last, keys, prompt)))
  }

  /** The `forEach` over the providers (script.js:334-383) with every call awaited in turn:
      each call's records are handed to the display and counted. */
  method MakeRequests(requests: seq<Request>, keys: ApiKeys, prompt: string,
                      relay: RelayRequest -> RelayOutcome, progress: RunProgress)
    requires progress.Valid()
    modifies progress
    ensures progress.Valid()
    ensures progress.total == old(progress.total)
    ensures progress.displayed == old(progress.displayed) + RunVariations(requests, keys, prompt, relay)
  {
    var k := 0;
    while k < |requests|
      invariant 0 <= k <= |requests|
      invariant progress.Valid()
      invariant progress.total == old(progress.total)
      invariant progress.displayed == old(progress.displayed) + RunVariations(requests[..k], keys, prompt, relay)
    {
      var variations := RequestVariations(requests[k].model, keys, prompt, relay);
      progress.Deliver(variations);
      RunVariationsStep(requests, k, keys, prompt, relay);
      AppendAssoc(old(progress.displayed), RunVariations(requests[..k], keys, prompt, relay), variations);
      k := k + 1;
    }
    assert requests[..k] == requests;
  }

  /** One more request adds its own call's records after those of the earlier ones. */
  lemma RunVariationsStep(requests: seq<Request>, k: nat, keys: ApiKeys, prompt: string,
                          relay: RelayRequest -> RelayOutcome)
    requires k < |requests|
    ensures RunVariations(requests[..k + 1], keys, prompt, relay)
      == RunVariations(requests[..k], keys, prompt, relay)
         + OutcomeVariations(requests[k].model, relay(RequestFor(requests[k].model, keys, prompt)))
  {
    assert requests[..k + 1][..k] == requests[..k];
  }

  /** The counted part of a run (script.js:313-392): the requests are planned, the
      counters start at zero of seven per planned call, and the requests are made in
      order, each call's records displayed and counted. */
  method RunRequests(activeModels: seq<ModelConfig>, keys: ApiKeys, prompt: string, relay: RelayRequest -> RelayOutcome)
    returns (displayed: seq<Variation>, completed: nat, total: nat)
    ensures displayed == RunVariations(Plan(activeModels), keys, prompt, relay)
    ensures completed == |displayed|
    ensures total == CorrectedTotal(activeModels)
  {
    var requests := PlanRun(activeModels);
    var progress := new RunProgress(|requests|);
    MakeRequests(requests, keys, prompt, relay, progress);
    displayed, completed, total := progress.displayed, progress.completed, progress.total;
  }

  const NoTopicMessage: string := "Please enter a topic or main message."
  const NoKeysMessage: string := "Please configure at least one AI API key to generate posts."

  /** How a run ends: an alert before any request, or the records displayed, the two
      counters and the hashtag suggestions. */
  datatype RunOutcome =
    | Alerted(message: string)
    | Finished(displayed: seq<Variation>, completed: nat, total: nat, hashtags: seq<string>)

  /** The options a run reads from the form (script.js:283-290). */
  function RunOptions(topic: string, tone: string, keywordsInput: string,
                      includeHashtags: bool, includeEmojis: bool, includeCallToAction: bool): PromptOptions
  {
    PromptOptions(topic, tone, ParseKeywords(keywordsInput), includeHashtags, includeEmojis, includeCallToAction)
  }

  /** `generateAllPlatforms`, with `this.activeModels` as `loadApiKeys` leaves it for the
      stored keys: a blank topic or no active model stops the run with an alert; otherwise
      every planned request is made and its records displayed and counted against seven
      records per call made, and the hashtag suggestions follow. */
  method GenerateAllPlatforms(keys: ApiKeys, topicInput: string, tone: string,
                              keywordsInput: string, includeHashtags: bool, includeEmojis: bool,
                              includeCallToAction: bool, relay: RelayRequest -> RelayOutcome)
    returns (outcome: RunOutcome)
    ensures Trim(topicInput) == "" ==> outcome == Alerted(NoTopicMessage)
    ensures Trim(topicInput) != "" && ActiveModels(AvailableModels, keys) == [] ==> outcome == Alerted(NoKeysMessage)
    ensures Trim(topicInput) != "" && ActiveModels(AvailableModels, keys) != [] ==>
      var active := ActiveModels(AvailableModels, keys);
      var options := RunOptions(Trim(topicInput), tone, keywordsInput, includeHashtags, includeEmojis, includeCallToAction);
      var displayed := RunVariations(Plan(active), keys, PromptText(options), relay);
      outcome == Finished(displayed, |displayed|, CorrectedTotal(active),
                          Suggestions(options.topic, options.keywords))
  {
    var activeModels := ActiveModels(AvailableModels, keys);
    var topic := Trim(topicInput);
    if topic == "" {
      return Alerted(NoTopicMessage);
    }
    if |activeModels| == 0 {
      return Alerted(NoKeysMessage);
    }
    var options := RunOptions(topic, tone, keywordsInput, includeHashtags, includeEmojis, includeCallToAction);
    var prompt := BuildMultiPlatformPrompt(options);
    var displayed, completed, total := RunRequests(activeModels, keys, prompt, relay);
    var hashtags := GenerateHashtagSuggestions(options.topic, options.keywords);
    outcome := Finished(displayed, completed, total, hashtags);
  }

  // ---------------------------------------------------------------------------
  // The total against the requests made.

  /** When no relay call replies, every request yields seven records. */
  lemma {:induction false} FailedRunCount(plan: seq<Request>, keys: ApiKeys, prompt: string,
                                          relay: RelayRequest -> RelayOutcome)
    requires forall r :: !relay(r).Replied?
    ensures |RunVariations(plan, keys, prompt, relay)| == |AllPlatforms| * |plan|
  {
    if plan != [] {
      FailedRunCount(plan[..|plan| - 1], keys, prompt, relay);
    }
  }

  /** When every call fails the counter ends at the corrected total, not at the written
      one unless no provider has two active models. */
  lemma FailedRunMatchesCorrectedTotal(active: seq<ModelConfig>, keys: ApiKeys, prompt: string,
                                        relay: RelayRequest -> RelayOutcome)
    requires forall r :: !relay(r).Replied?
    ensures |RunVariations(Plan(active), keys, prompt, relay)| == CorrectedTotal(active)
    ensures |RunVariations(Plan(active), keys, prompt, relay)| == WrittenTotal(active)
      <==> NoDuplicates(ProvidersOf(active))
  {
    FailedRunCount(Plan(active), keys, prompt, relay);
    TotalsAgree(active);
  }

  /** With every key set and every call failing, the page ends at 28 of 35. */
  lemma AllKeysMismatch(keys: ApiKeys, prompt: string, relay: RelayRequest -> RelayOutcome)
    requires forall p :: KeyOf(keys, p) != ""
    requires forall r :: !relay(r).Replied?
    ensures var active := ActiveModels(AvailableModels, keys);
      && WrittenTotal(active) == 35
      && |RunVariations(Plan(active), keys, prompt, relay)| == 28
  {
    var active := ActiveModels(AvailableModels, keys);
    AllKeysTotals(keys);
    FailedRunCount(Plan(active), keys, prompt, relay);
  }
}
