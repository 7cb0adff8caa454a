/** The retry policy of `generateLLMVariation` (script.js:460-520): one fetch per call, a
    rate-limited reply retried after an exponential wait, and one more try after a failure
    of the first call whose message does not mention `API error`. The outcome of each fetch
    is an input; the waits are values, not time. */
module RetryPolicy {
  import opened Text
  import opened Platforms
  import opened Formatting
  import opened RunPlanning
  import opened Orchestrator

  /** How a call settles: resolved with the formatted post, or rejected with a message. */
  datatype Settled = Resolved(content: string) | Rejected(message: string)

  /** The waits slept through before the successive fetches, and how the first call
      settles. */
  datatype Trace = Trace(waits: seq<nat>, settled: Settled)

  /** The outcome of the `k`-th fetch of a request: the first call makes fetch 0, and each
      retry makes the next one. */
  type Fetch = (nat, RelayRequest) -> RelayOutcome

  const RateLimitStatus: nat := 429
  const MaxRateLimitRetries: nat := 3
  const RateLimitBase: nat := 15000
  const NetworkRetryWait: nat := 3000

  function Pow2(n: nat): (r: nat)
    ensures r >= 1
  {
    if n == 0 then 1 else 2 * Pow2(n - 1)
  }

  /** `Math.pow(2, retryCount) * 15000`. */
  function RateLimitWait(retryCount: nat): nat {
    Pow2(retryCount) * RateLimitBase
  }

  /** A wait followed by the trace of the call made after it. */
  function After(wait: nat, t: Trace): Trace {
    Trace([wait] + t.waits, t.settled)
  }

  /** `generateLLMVariation(modelConfig, options, retryCount)` with its prompt built: the
      fetch's outcome decides between the formatted reply, a rate-limit retry made inside the
      `try` and returned without `await` (so its failure is not caught here), a thrown
      error that the `catch` retries once when `retryCount` is 0 and the message lacks
      `API error`, and a rejection. */
  function LLMVariation(model: ModelConfig, keys: ApiKeys, prompt: string, platform: string,
                        fetch: Fetch, retryCount: nat): Trace
    decreases MaxRateLimitRetries - retryCount
  {
    var outcome := fetch(retryCount, RequestFor(model, keys, prompt));
    if outcome.Replied? then
      Trace([], Resolved(FormatForPlatform(outcome.content, platform)))
    else if outcome.Refused? && outcome.status == RateLimitStatus && retryCount < MaxRateLimitRetries then
      After(RateLimitWait(retryCount), LLMVariation(model, keys, prompt, platform, fetch, retryCount + 1))
    else
      var message := ErrorMessage(model.provider, outcome);
      if retryCount == 0 && !Contains(message, "API error") then
        After(NetworkRetryWait, LLMVariation(model, keys, prompt, platform, fetch, retryCount + 1))
      else
        Trace([], Rejected(message))
  }

  /** The call the source makes, with `retryCount` at its default 0. */
  function GenerateLLMVariation(model: ModelConfig, keys: ApiKeys, prompt: string, platform: string,
                                fetch: Fetch): Trace
  {
    LLMVariation(model, keys, prompt, platform, fetch, 0)
  }

  // ---------------------------------------------------------------------------
  // Properties.

  /** Every call makes one fetch and each wait precedes one more call, so the call that
      settles is the one after the last wait: the result is its formatted reply, or the
      message of its failure. */
  lemma {:induction false} SettlesAtLastFetch(model: ModelConfig, keys: ApiKeys, prompt: string,
                                              platform: string, fetch: Fetch, retryCount: nat)
    ensures var t := LLMVariation(model, keys, prompt, platform, fetch, retryCount);
      var last := fetch(retryCount + |t.waits|, RequestFor(model, keys, prompt));
      && (t.settled.Resolved? <==> last.Replied?)
      && (last.Replied? ==> t.settled.content == FormatForPlatform(last.content, platform))
      && (!last.Replied? ==> t.settled.message == ErrorMessage(model.provider, last))
    decreases MaxRateLimitRetries - retryCount
  {
    var outcome := fetch(retryCount, RequestFor(model, keys, prompt));
    if outcome.Replied? {
    } else if outcome.Refused? && outcome.status == RateLimitStatus && retryCount < MaxRateLimitRetries {
      SettlesAtLastFetch(model, keys, prompt, platform, fetch, retryCount + 1);
    } else if retryCount == 0 && !Contains(ErrorMessage(model.provider, outcome), "API error") {
      SettlesAtLastFetch(model, keys, prompt, platform, fetch, retryCount + 1);
    }
  }

  /** From call `retryCount` on, the `i`-th wait is the rate-limit wait of call
      `retryCount + i`, except that the first call may instead wait 3000 ms after a
      failure; there is never more than one such wait. */
  lemma {:induction false} WaitSchedule(model: ModelConfig, keys: ApiKeys, prompt: string,
                                        platform: string, fetch: Fetch, retryCount: nat)
    ensures var t := LLMVariation(model, keys, prompt, platform, fetch, retryCount);
      && (retryCount <= MaxRateLimitRetries ==> |t.waits| + retryCount <= MaxRateLimitRetries)
      && (retryCount > MaxRateLimitRetries ==> t.waits == [])
      && (forall i :: 0 <= i < |t.waits| && (retryCount > 0 || i > 0) ==>
            t.waits[i] == RateLimitWait(retryCount + i))
      && (retryCount == 0 && |t.waits| > 0 ==>
            t.waits[0] == RateLimitWait(0) || t.waits[0] == NetworkRetryWait)
    decreases MaxRateLimitRetries - retryCount, 1
  {
    var outcome := fetch(retryCount, RequestFor(model, keys, prompt));
    if outcome.Replied? {
    } else if outcome.Refused? && outcome.status == RateLimitStatus && retryCount < MaxRateLimitRetries {
      WaitShifted(model, keys, prompt, platform, fetch, retryCount, RateLimitWait(retryCount));
    } else if retryCount == 0 && !Contains(ErrorMessage(model.provider, outcome), "API error") {
      WaitShifted(model, keys, prompt, platform, fetch, retryCount, NetworkRetryWait);
    }
  }

  /** The waits after a first wait are those of the next call, one position later. */
  lemma {:induction false} WaitShifted(model: ModelConfig, keys: ApiKeys, prompt: string,
                                       platform: string, fetch: Fetch, retryCount: nat, wait: nat)
    requires retryCount < MaxRateLimitRetries
    ensures var t := After(wait, LLMVariation(model, keys, prompt, platform, fetch, retryCount + 1));
      && |t.waits| + retryCount <= MaxRateLimitRetries
      && t.waits[0] == wait
      && forall i :: 0 < i < |t.waits| ==> t.waits[i] == RateLimitWait(retryCount + i)
    decreases MaxRateLimitRetries - retryCount, 0
  {
    var next := LLMVariation(model, keys, prompt, platform, fetch, retryCount + 1);
    WaitSchedule(model, keys, prompt, platform, fetch, retryCount + 1);
    var t := After(wait, next);
    forall i | 0 < i < |t.waits| ensures t.waits[i] == RateLimitWait(retryCount + i) {
      assert t.waits[i] == next.waits[i - 1];
    }
  }

  /** The rate-limit waits are 15 s, 30 s and 60 s. */
  lemma RateLimitWaits()
    ensures RateLimitWait(0) == 15000 && RateLimitWait(1) == 30000 && RateLimitWait(2) == 60000
  {
  }

  function Sum(xs: seq<nat>): nat {
    if xs == [] then 0 else xs[0] + Sum(xs[1..])
  }

  /** A request never waits more than 105 s in all, and makes at most four fetches. */
  lemma TotalWait(model: ModelConfig, keys: ApiKeys, prompt: string, platform: string, fetch: Fetch)
    ensures var t := GenerateLLMVariation(model, keys, prompt, platform, fetch);
      |t.waits| <= 3 && Sum(t.waits) <= 105000
  {
    var t := GenerateLLMVariation(model, keys, prompt, platform, fetch);
    WaitSchedule(model, keys, prompt, platform, fetch, 0);
    RateLimitWaits();
    var w := t.waits;
    if |w| == 1 {
      assert Sum(w) == w[0];
    } else if |w| == 2 {
      assert Sum(w) == w[0] + Sum(w[1..]) == w[0] + w[1];
    } else if |w| == 3 {
      assert Sum(w[2..]) == w[2];
      assert Sum(w) == w[0] + Sum(w[1..]) == w[0] + w[1] + w[2];
    }
  }

  /** Rate-limited on every fetch: waits of 15 s, 30 s and 60 s, then the fourth refusal is
      thrown and, not being the first call's, is not retried. */
  lemma AllRateLimited(model: ModelConfig, keys: ApiKeys, prompt: string, platform: string,
                       fetch: Fetch, error: string)
    requires forall k :: fetch(k, RequestFor(model, keys, prompt)) == Refused(RateLimitStatus, error)
    ensures GenerateLLMVariation(model, keys, prompt, platform, fetch)
      == Trace([15000, 30000, 60000], Rejected(ErrorMessage(model.provider, Refused(RateLimitStatus, error))))
  {
    RateLimitWaits();
    var request := RequestFor(model, keys, prompt);
    assert fetch(3, request) == Refused(RateLimitStatus, error);
    var t3 := LLMVariation(model, keys, prompt, platform, fetch, 3);
    assert t3 == Trace([], Rejected(ErrorMessage(model.provider, Refused(RateLimitStatus, error))));
    var t2 := LLMVariation(model, keys, prompt, platform, fetch, 2);
    assert fetch(2, request) == Refused(RateLimitStatus, error);
    assert t2 == After(60000, t3);
    var t1 := LLMVariation(model, keys, prompt, platform, fetch, 1);
    assert fetch(1, request) == Refused(RateLimitStatus, error);
    assert t1 == After(30000, t2);
    assert fetch(0, request) == Refused(RateLimitStatus, error);
  }

  /** The message the source builds for a refusal without an `error` field mentions
      `API error`. */
  lemma StatusMessageMentionsApiError(p: Provider, status: nat)
    ensures Contains(ErrorMessage(p, Refused(status, "")), "API error")
  {
    StatusMessageParts(p, status);
    ContainsAfter(ProviderName(p) + " ", "API error", ": " + NatToString(status));
  }

  /** The status line, cut around the words `API error`. */
  lemma StatusMessageParts(p: Provider, status: nat)
    ensures ErrorMessage(p, Refused(status, ""))
      == ProviderName(p) + " " + "API error" + (": " + NatToString(status))
  {
    assert " API error: " == " " + "API error" + ": ";
  }

  /** A refusal other than 429 without an `error` field is thrown with the provider's status
      line, which the `catch` does not retry. */
  lemma StatusRefusalNotRetried(model: ModelConfig, keys: ApiKeys, prompt: string, platform: string,
                                fetch: Fetch, status: nat)
    requires status != RateLimitStatus
    requires fetch(0, RequestFor(model, keys, prompt)) == Refused(status, "")
    ensures GenerateLLMVariation(model, keys, prompt, platform, fetch)
      == Trace([], Rejected(ProviderName(model.provider) + " API error: " + NatToString(status)))
  {
    StatusMessageMentionsApiError(model.provider, status);
  }

  /** A first failure whose message lacks `API error` (a network error, or a refusal with
      its own `error` text) is retried once after 3000 ms; the retry's own failure is
      thrown out of the `catch` unchanged. */
  lemma NetworkRetryOnce(model: ModelConfig, keys: ApiKeys, prompt: string, platform: string,
                         fetch: Fetch, first: RelayOutcome, second: RelayOutcome)
    requires fetch(0, RequestFor(model, keys, prompt)) == first
    requires fetch(1, RequestFor(model, keys, prompt)) == second
    requires !first.Replied? && !(first.Refused? && first.status == RateLimitStatus)
    requires !Contains(ErrorMessage(model.provider, first), "API error")
    requires !second.Replied? && !(second.Refused? && second.status == RateLimitStatus)
    ensures GenerateLLMVariation(model, keys, prompt, platform, fetch)
      == Trace([NetworkRetryWait], Rejected(ErrorMessage(model.provider, second)))
  {
    assert LLMVariation(model, keys, prompt, platform, fetch, 1)
      == Trace([], Rejected(ErrorMessage(model.provider, second)));
  }

  /** A failure of the call made after a 429 settles the first call as it is: the first
      call's `catch` would have retried a message without `API error`, but a promise
      returned from a `try` without `await` is not caught there. */
  lemma NestedFailureNotCaught(model: ModelConfig, keys: ApiKeys, prompt: string, platform: string,
                               fetch: Fetch, error: string, message: string)
    requires fetch(0, RequestFor(model, keys, prompt)) == Refused(RateLimitStatus, error)
    requires fetch(1, RequestFor(model, keys, prompt)) == Unreachable(message)
    requires !Contains(message, "API error")
    ensures GenerateLLMVariation(model, keys, prompt, platform, fetch)
      == Trace([RateLimitWait(0)], Rejected(message))
  {
    assert LLMVariation(model, keys, prompt, platform, fetch, 1) == Trace([], Rejected(message));
  }

  /** A reply to the first fetch is formatted for the platform at once. */
  lemma FirstReply(model: ModelConfig, keys: ApiKeys, prompt: string, platform: string,
                   fetch: Fetch, content: string)
    requires fetch(0, RequestFor(model, keys, prompt)) == Replied(content)
    ensures GenerateLLMVariation(model, keys, prompt, platform, fetch)
      == Trace([], Resolved(FormatForPlatform(content, platform)))
  {
  }

  // ---------------------------------------------------------------------------
  // The call as written.

  /** The error `this.buildPrompt(options)` raises: the class defines no `buildPrompt`. */
  const MissingBuilder: string := "this.buildPrompt is not a function"

  /** `generateLLMVariation` as written: the undefined `this.buildPrompt` is called before
      the `try`, so the call rejects at once, with no fetch and no wait. */
  function GenerateLLMVariationAsWritten(model: ModelConfig, keys: ApiKeys, platform: string,
                                         fetch: Fetch): Trace
  {
    Trace([], Rejected(MissingBuilder))
  }

  /** Even when the relay would reply at once, the call as written rejects, while the call
      with a built prompt returns the formatted reply. */
  lemma MissingBuilderRejects(model: ModelConfig, keys: ApiKeys, prompt: string, platform: string,
                              fetch: Fetch, content: string)
    requires fetch(0, RequestFor(model, keys, prompt)) == Replied(content)
    ensures GenerateLLMVariationAsWritten(model, keys, platform, fetch).settled.Rejected?
    ensures GenerateLLMVariation(model, keys, prompt, platform, fetch).settled
      == Resolved(FormatForPlatform(content, platform))
  {
  }
}
