/** The planning half of `generateAllPlatforms` (script.js:268-340) and the model filter of
    `loadApiKeys` (script.js:186-188): the keywords read from the form, the models whose
    provider has a key, the grouping of those models by provider and the schedule of one
    request per provider, twenty seconds apart. */
module RunPlanning {
  import opened Text
  import opened Lists
  import opened Platforms

  // ---------------------------------------------------------------------------
  // Keywords.

  function TrimAll(pieces: seq<string>): (r: seq<string>)
    ensures |r| == |pieces|
    ensures forall i :: 0 <= i < |r| ==> r[i] == Trim(pieces[i])
  {
    if pieces == [] then [] else [Trim(pieces[0])] + TrimAll(pieces[1..])
  }

  /** The `filter(k => k)` test: a string is truthy when it is not empty. */
  function IsKeyword(): string -> bool {
    (k: string) => k != ""
  }

  /** `value.split(',').map(k => k.trim()).filter(k => k)` (script.js:286). */
  function ParseKeywords(input: string): seq<string> {
    Filter(TrimAll(Split(input, ',')), IsKeyword())
  }

  lemma {:induction false} TrimStartSubstring(s: string)
    ensures forall c :: c in TrimStart(s) ==> c in s
    decreases |s|
  {
    if s != [] && IsSpace(s[0]) {
      TrimStartSubstring(s[1..]);
    }
  }

  lemma {:induction false} TrimEndSubstring(s: string)
    ensures forall c :: c in TrimEnd(s) ==> c in s
    decreases |s|
  {
    if s != [] && IsSpace(s[|s| - 1]) {
      TrimEndSubstring(s[..|s| - 1]);
    }
  }

  /** Trimming keeps only characters of its input. */
  lemma TrimSubstring(s: string)
    ensures forall c :: c in Trim(s) ==> c in s
  {
    TrimStartSubstring(s);
    TrimEndSubstring(TrimStart(s));
  }

  /** A keyword is not empty, has no surrounding whitespace and holds no comma. */
  lemma KeywordShape(input: string, k: string)
    requires k in ParseKeywords(input)
    ensures k != "" && IsTrimmed(k) && ',' !in k
  {
    var pieces := Split(input, ',');
    var trimmed := TrimAll(pieces);
    FilterSpec(trimmed, IsKeyword());
    var i :| 0 <= i < |trimmed| && trimmed[i] == k;
    SplitPiecesFree(input, ',');
    assert ',' !in pieces[i];
    TrimSubstring(pieces[i]);
  }

  /** No keyword is empty, none has surrounding whitespace and none holds a comma. */
  lemma KeywordsShape(input: string)
    ensures forall k :: k in ParseKeywords(input) ==> k != "" && IsTrimmed(k) && ',' !in k
  {
    forall k | k in ParseKeywords(input)
      ensures k != "" && IsTrimmed(k) && ',' !in k
    {
      KeywordShape(input, k);
    }
  }

  /** The keywords are, in order, the trimmed comma-separated pieces that are not blank:
      every such piece is kept. */
  lemma KeywordsKept(input: string)
    ensures IsSubsequence(ParseKeywords(input), TrimAll(Split(input, ',')))
    ensures forall i :: 0 <= i < |Split(input, ',')| && Trim(Split(input, ',')[i]) != "" ==>
      Trim(Split(input, ',')[i]) in ParseKeywords(input)
  {
    var pieces := Split(input, ',');
    var trimmed := TrimAll(pieces);
    FilterSpec(trimmed, IsKeyword());
    forall i | 0 <= i < |pieces| && Trim(pieces[i]) != ""
      ensures Trim(pieces[i]) in ParseKeywords(input)
    {
      assert trimmed[i] in trimmed;
    }
  }

  // ---------------------------------------------------------------------------
  // Keys and active models.

  /** `this.apiKeys`: one key per provider, the empty string when none is stored. */
  datatype ApiKeys = ApiKeys(openai: string, anthropic: string, gemini: string, huggingface: string)

  function KeyOf(keys: ApiKeys, p: Provider): string {
    match p
    case OpenAI => keys.openai
    case Anthropic => keys.anthropic
    case Gemini => keys.gemini
    case HuggingFace => keys.huggingface
  }

  /** The `filter` test of `loadApiKeys`: the model's provider has a non-empty key. */
  function HasKey(keys: ApiKeys): ModelConfig -> bool {
    (m: ModelConfig) => KeyOf(keys, m.provider) != ""
  }

  /** `availableModels.filter(...)` (script.js:186-188). */
  function ActiveModels(models: seq<ModelConfig>, keys: ApiKeys): seq<ModelConfig> {
    Filter(models, HasKey(keys))
  }

  /** The active models are exactly the models whose provider has a key, in their order. */
  lemma ActiveModelsSpec(models: seq<ModelConfig>, keys: ApiKeys)
    ensures IsSubsequence(ActiveModels(models, keys), models)
    ensures forall m :: m in ActiveModels(models, keys) <==> m in models && KeyOf(keys, m.provider) != ""
  {
    FilterSpec(models, HasKey(keys));
  }

  /** With a key for every provider, every model is active. */
  lemma {:induction false} AllKeysAllActive(models: seq<ModelConfig>, keys: ApiKeys)
    requires forall p :: KeyOf(keys, p) != ""
    ensures ActiveModels(models, keys) == models
  {
    if models != [] {
      AllKeysAllActive(models[..|models| - 1], keys);
      assert models[..|models| - 1] + [models[|models| - 1]] == models;
    }
  }

  // ---------------------------------------------------------------------------
  // Grouping by provider.

  /** The provider of each model, in order. */
  function ProvidersOf(models: seq<ModelConfig>): (r: seq<Provider>)
    ensures |r| == |models|
    ensures forall i :: 0 <= i < |models| ==> r[i] == models[i].provider
  {
    if models == [] then [] else ProvidersOf(models[..|models| - 1]) + [models[|models| - 1].provider]
  }

  /** `Object.keys(modelsByProvider)`: the providers in order of first appearance. */
  function ProviderOrder(models: seq<ModelConfig>): seq<Provider> {
    Distinct(ProvidersOf(models))
  }

  /** `modelsByProvider[p]`: the models of provider `p`, in order. */
  function ModelsOf(models: seq<ModelConfig>, p: Provider): seq<ModelConfig> {
    if models == [] then []
    else
      var m := models[|models| - 1];
      ModelsOf(models[..|models| - 1], p) + (if m.provider == p then [m] else [])
  }

  lemma SnocPrefix(models: seq<ModelConfig>, m: ModelConfig)
    ensures (models + [m])[..|models|] == models
    ensures ProvidersOf(models + [m]) == ProvidersOf(models) + [m.provider]
    ensures forall q :: ModelsOf(models + [m], q) == ModelsOf(models, q) + (if m.provider == q then [m] else [])
  {
    assert (models + [m])[..|models|] == models;
  }

  /** A provider without a model has no group. */
  lemma {:induction false} ModelsOfAbsent(models: seq<ModelConfig>, p: Provider)
    requires p !in ProvidersOf(models)
    ensures ModelsOf(models, p) == []
  {
    if models != [] {
      var init := models[..|models| - 1];
      assert ProvidersOf(models) == ProvidersOf(init) + [models[|models| - 1].provider];
      ModelsOfAbsent(init, p);
    }
  }

  /** The first model of provider `p`. */
  function BestModel(models: seq<ModelConfig>, p: Provider): ModelConfig
    requires p in ProvidersOf(models)
  {
    models[IndexOf(ProvidersOf(models), p)]
  }

  /** The best model of `p` is a model of `p` and no model of `p` comes before it. */
  lemma BestModelIsFirst(models: seq<ModelConfig>, p: Provider)
    requires p in ProvidersOf(models)
    ensures BestModel(models, p) in models && BestModel(models, p).provider == p
    ensures forall j :: 0 <= j < IndexOf(ProvidersOf(models), p) ==> models[j].provider != p
  {
    var ps := ProvidersOf(models);
    var k := IndexOf(ps, p);
    forall j | 0 <= j < k ensures models[j].provider != p {
      assert ps[..k][j] == models[j].provider;
    }
  }

  /** The models of `p` start with the best model of `p`. */
  lemma {:induction false} ModelsOfHead(models: seq<ModelConfig>, p: Provider)
    requires p in ProvidersOf(models)
    ensures ModelsOf(models, p) != [] && ModelsOf(models, p)[0] == BestModel(models, p)
    decreases |models|
  {
    var init := models[..|models| - 1];
    var ps := ProvidersOf(models);
    assert ProvidersOf(init) == ps[..|models| - 1];
    if p in ProvidersOf(init) {
      ModelsOfHead(init, p);
      IndexOfPrefix(ps, |models| - 1, p);
    } else {
      ModelsOfAbsent(init, p);
      assert ps[|models| - 1] == p;
    }
  }

  /** The providers and the models of a prefix grown by one model. */
  lemma GroupedModels(seen: seq<ModelConfig>, model: ModelConfig)
    ensures ProvidersOf(seen + [model]) == ProvidersOf(seen) + [model.provider]
    ensures ModelsOf(seen + [model], model.provider) == ModelsOf(seen, model.provider) + [model]
    ensures forall q :: q != model.provider ==> ModelsOf(seen + [model], q) == ModelsOf(seen, q)
  {
    SnocPrefix(seen, model);
  }

  /** `modelsByProvider` after the models of `seen`: a round creates an empty group for a
      provider met for the first time, then appends the model to its provider's group. */
  function GroupsOf(seen: seq<ModelConfig>): map<Provider, seq<ModelConfig>> {
    if seen == [] then map[]
    else
      var model := seen[|seen| - 1];
      var prior := GroupsOf(seen[..|seen| - 1]);
      var created := if model.provider in prior then prior else prior[model.provider := []];
      created[model.provider := created[model.provider] + [model]]
  }

  /** The groups are keyed by exactly the providers met. */
  lemma {:induction false} GroupsOfKeys(seen: seq<ModelConfig>)
    ensures forall p :: p in GroupsOf(seen) <==> p in ProvidersOf(seen)
  {
    if seen != [] {
      var init := seen[..|seen| - 1];
      GroupsOfKeys(init);
      GroupedModels(init, seen[|seen| - 1]);
      assert seen == init + [seen[|seen| - 1]];
    }
  }

  /** Each group holds its provider's models in order. */
  lemma {:induction false} GroupsOfModels(seen: seq<ModelConfig>)
    ensures forall p :: p in GroupsOf(seen) ==> GroupsOf(seen)[p] == ModelsOf(seen, p)
  {
    if seen != [] {
      var init := seen[..|seen| - 1];
      var model := seen[|seen| - 1];
      GroupsOfModels(init);
      GroupsOfKeys(init);
      GroupedModels(init, model);
      assert seen == init + [model];
      if model.provider !in ProvidersOf(init) {
        ModelsOfAbsent(init, model.provider);
      }
    }
  }

  /** The provider order grows by the new model's provider exactly when it is new. */
  lemma ProviderOrderSnoc(seen: seq<ModelConfig>, model: ModelConfig)
    ensures ProviderOrder(seen + [model])
      == if model.provider in ProvidersOf(seen) then ProviderOrder(seen) else ProviderOrder(seen) + [model.provider]
  {
    var ps := ProvidersOf(seen);
    var p := model.provider;
    GroupedModels(seen, model);
    assert (ps + [p])[..|ps|] == ps;
    DistinctSnoc(ps + [p]);
    DistinctMembers(ps);
  }

  /** The `forEach` that fills `modelsByProvider` (script.js:324-331): the keys in order
      of first appearance, each holding its provider's models in order. */
  method GroupByProvider(active: seq<ModelConfig>) returns (providers: seq<Provider>, groups: map<Provider, seq<ModelConfig>>)
    ensures providers == ProviderOrder(active)
    ensures forall p :: p in groups <==> p in providers
    ensures forall p :: p in groups ==> groups[p] == ModelsOf(active, p)
  {
    providers := [];
    groups := map[];
    var i := 0;
    while i < |active|
      invariant 0 <= i <= |active|
      invariant providers == ProviderOrder(active[..i])
      invariant groups == GroupsOf(active[..i])
    {
      var model := active[i];
      ghost var seen := active[..i];
      assert active[..i + 1] == seen + [model];
      assert GroupsOf(seen + [model]) == GroupsOf(active[..i + 1]);
      assert model.provider in groups <==> model.provider in ProvidersOf(seen) by {
        GroupsOfKeys(seen);
      }
      assert ProviderOrder(seen + [model])
        == if model.provider in ProvidersOf(seen) then providers else providers + [model.provider] by {
        ProviderOrderSnoc(seen, model);
      }
      assert (seen + [model])[..|seen|] == seen;
      if model.provider !in groups {
        providers := providers + [model.provider];
        groups := groups[model.provider := []];
      }
      groups := groups[model.provider := groups[model.provider] + [model]];
      i := i + 1;
    }
    assert active[..i] == active;
    assert forall p :: p in groups <==> p in providers by {
      GroupsOfKeys(active);
      DistinctMembers(ProvidersOf(active));
    }
    GroupsOfModels(active);
  }

  // ---------------------------------------------------------------------------
  // The schedule.

  /** One scheduled relay call: the model used and the delay before it, in milliseconds. */
  datatype Request = Request(model: ModelConfig, delay: nat)

  /** The gap between two providers' calls, in milliseconds (script.js:337). */
  const Stagger: nat := 20000

  /** The `k`-th provider of `ps` is called with its best model after `k * 20000` ms. */
  function Schedule(models: seq<ModelConfig>, ps: seq<Provider>): (r: seq<Request>)
    requires forall p :: p in ps ==> p in ProvidersOf(models)
    ensures |r| == |ps|
  {
    if ps == [] then []
    else
      var last := ps[|ps| - 1];
      Schedule(models, ps[..|ps| - 1]) + [Request(BestModel(models, last), (|ps| - 1) * Stagger)]
  }

  /** The requests of a run over the active models. */
  function Plan(active: seq<ModelConfig>): (r: seq<Request>)
    ensures |r| == |ProviderOrder(active)|
  {
    DistinctMembers(ProvidersOf(active));
    Schedule(active, ProviderOrder(active))
  }

  lemma {:induction false} ScheduleAt(models: seq<ModelConfig>, ps: seq<Provider>)
    requires forall p :: p in ps ==> p in ProvidersOf(models)
    ensures forall k :: 0 <= k < |ps| ==>
      Schedule(models, ps)[k] == Request(BestModel(models, ps[k]), k * Stagger)
  {
    if ps != [] {
      var init := ps[..|ps| - 1];
      ScheduleAt(models, init);
      assert forall k :: 0 <= k < |init| ==> ps[k] == init[k];
    }
  }

  /** The `Object.keys(...).forEach` of script.js:334-338: one request per provider with
      its first model, the `k`-th delayed by `k * 20000` ms. */
  method PlanRun(active: seq<ModelConfig>) returns (requests: seq<Request>)
    ensures requests == Plan(active)
  {
    var providers, groups := GroupByProvider(active);
    requests := [];
    var delayCounter := 0;
    while delayCounter < |providers|
      invariant 0 <= delayCounter <= |providers|
      invariant requests == PlanPrefix(active, delayCounter)
    {
      var provider := providers[delayCounter];
      assert groups[provider] != [] && groups[provider][0] == BestModel(active, provider) by {
        PlanPrefixStep(active, delayCounter);
        ModelsOfHead(active, provider);
      }
      var bestModel := groups[provider][0];
      var delay := delayCounter * Stagger;
      assert PlanPrefix(active, delayCounter + 1) == requests + [Request(bestModel, delay)] by {
        PlanPrefixStep(active, delayCounter);
      }
      requests := requests + [Request(bestModel, delay)];
      delayCounter := delayCounter + 1;
    }
    assert requests == Plan(active) by {
      PlanPrefixStep(active, delayCounter);
    }
  }

  /** The requests for the first `k` providers in order. */
  function PlanPrefix(active: seq<ModelConfig>, k: nat): seq<Request>
    requires k <= |ProviderOrder(active)|
  {
    DistinctMembers(ProvidersOf(active));
    Schedule(active, ProviderOrder(active)[..k])
  }

  /** One more provider adds its request; all of them make the plan. */
  lemma PlanPrefixStep(active: seq<ModelConfig>, k: nat)
    requires k <= |ProviderOrder(active)|
    ensures k == |ProviderOrder(active)| ==> PlanPrefix(active, k) == Plan(active)
    ensures k < |ProviderOrder(active)| ==>
      && ProviderOrder(active)[k] in ProvidersOf(active)
      && PlanPrefix(active, k + 1)
        == PlanPrefix(active, k) + [Request(BestModel(active, ProviderOrder(active)[k]), k * Stagger)]
  {
    var order := ProviderOrder(active);
    DistinctMembers(ProvidersOf(active));
    assert order[..|order|] == order;
    if k < |order| {
      assert order[..k + 1][..k] == order[..k];
      assert order[k] in order;
    }
  }

  /** The `k`-th request goes to the `k`-th provider in order of first appearance, with
      that provider's first active model, after `k * 20000` ms. */
  lemma PlanAt(active: seq<ModelConfig>)
    ensures forall k :: 0 <= k < |Plan(active)| ==>
      && ProviderOrder(active)[k] in ProvidersOf(active)
      && Plan(active)[k].model == BestModel(active, ProviderOrder(active)[k])
      && Plan(active)[k].model.provider == ProviderOrder(active)[k]
      && Plan(active)[k].delay == k * Stagger
  {
    var order := ProviderOrder(active);
    DistinctMembers(ProvidersOf(active));
    ScheduleAt(active, order);
    forall k | 0 <= k < |order|
      ensures BestModel(active, order[k]).provider == order[k]
    {
      BestModelIsFirst(active, order[k]);
    }
  }

  /** No provider is called twice. */
  lemma PlanProvidersDistinct(active: seq<ModelConfig>)
    ensures forall k, l :: 0 <= k < l < |Plan(active)| ==>
      Plan(active)[k].model.provider != Plan(active)[l].model.provider
  {
    PlanAt(active);
    DistinctNoDuplicates(ProvidersOf(active));
  }

  /** Every provider that has an active model is called. */
  lemma PlanCoversProviders(active: seq<ModelConfig>)
    ensures forall m :: m in active ==>
      exists k :: 0 <= k < |Plan(active)| && Plan(active)[k].model.provider == m.provider
  {
    var ps := ProvidersOf(active);
    var order := ProviderOrder(active);
    PlanAt(active);
    DistinctMembers(ps);
    forall m | m in active
      ensures exists k :: 0 <= k < |Plan(active)| && Plan(active)[k].model.provider == m.provider
    {
      var i :| 0 <= i < |active| && active[i] == m;
      assert ps[i] == m.provider;
      var k := IndexOf(order, m.provider);
      assert Plan(active)[k].model.provider == m.provider;
    }
  }

  /** Each request uses an active model of its provider, and no active model of that
      provider comes before it. */
  lemma PlanUsesFirstModel(active: seq<ModelConfig>)
    ensures forall k :: 0 <= k < |Plan(active)| ==> Plan(active)[k].model in active
    ensures forall k, j ::
      (0 <= k < |Plan(active)| && 0 <= j < |active| && active[j].provider == Plan(active)[k].model.provider)
      ==> IndexOf(active, Plan(active)[k].model) <= j
  {
    var ps := ProvidersOf(active);
    var order := ProviderOrder(active);
    PlanAt(active);
    forall k | 0 <= k < |Plan(active)|
      ensures Plan(active)[k].model in active
      ensures forall j :: 0 <= j < |active| && active[j].provider == Plan(active)[k].model.provider ==>
        IndexOf(active, Plan(active)[k].model) <= j
    {
      BestModelIsFirst(active, order[k]);
      FirstIndex(active, IndexOf(ps, order[k]));
    }
  }

  /** Providers are called in the order in which their first models appear. */
  lemma PlanFollowsModelOrder(active: seq<ModelConfig>)
    ensures forall k, l :: 0 <= k < l < |Plan(active)| ==>
      IndexOf(active, Plan(active)[k].model) < IndexOf(active, Plan(active)[l].model)
  {
    var ps := ProvidersOf(active);
    var order := ProviderOrder(active);
    PlanAt(active);
    DistinctOrder(ps);
    forall k | 0 <= k < |Plan(active)|
      ensures IndexOf(active, Plan(active)[k].model) == IndexOf(ps, order[k])
    {
      BestModelIsFirst(active, order[k]);
      FirstIndex(active, IndexOf(ps, order[k]));
    }
  }

  /** A model that is the first of its provider is at its first occurrence. */
  lemma FirstIndex(models: seq<ModelConfig>, i: nat)
    requires i < |models|
    requires forall j :: 0 <= j < i ==> models[j].provider != models[i].provider
    ensures IndexOf(models, models[i]) == i
  {
  }

  // ---------------------------------------------------------------------------
  // The total counted against.

  /** `platforms.length * activeModels.length` (script.js:314): seven per active model. */
  function WrittenTotal(active: seq<ModelConfig>): nat {
    |AllPlatforms| * |active|
  }

  /** The total that matches the requests made: seven per provider called. */
  function CorrectedTotal(active: seq<ModelConfig>): nat {
    |AllPlatforms| * |Plan(active)|
  }

  /** The written total never falls short of the corrected one, and the two agree exactly
      when no provider has two active models. */
  lemma TotalsAgree(active: seq<ModelConfig>)
    ensures CorrectedTotal(active) <= WrittenTotal(active)
    ensures CorrectedTotal(active) == WrittenTotal(active) <==> NoDuplicates(ProvidersOf(active))
  {
    DistinctLength(ProvidersOf(active));
  }

  /** The providers of the five available models. */
  lemma AvailableProviders()
    ensures ProvidersOf(AvailableModels) == [OpenAI, Anthropic, Gemini, HuggingFace, HuggingFace]
  {
    var ps := ProvidersOf(AvailableModels);
    assert |ps| == 5;
    assert ps[0] == AvailableModels[0].provider == OpenAI;
    assert ps[1] == AvailableModels[1].provider == Anthropic;
    assert ps[2] == AvailableModels[2].provider == Gemini;
    assert ps[3] == AvailableModels[3].provider == HuggingFace;
    assert ps[4] == AvailableModels[4].provider == HuggingFace;
  }

  /** Four distinct providers among the five available models. */
  lemma AvailableProviderOrder()
    ensures ProviderOrder(AvailableModels) == [OpenAI, Anthropic, Gemini, HuggingFace]
  {
    AvailableProviders();
    DistinctAvailableProviders();
  }

  /** The repeated Hugging Face entry is dropped, the first four kept in order. */
  lemma DistinctAvailableProviders()
    ensures Distinct([OpenAI, Anthropic, Gemini, HuggingFace, HuggingFace])
      == [OpenAI, Anthropic, Gemini, HuggingFace]
  {
    var none: seq<Provider> := [];
    var p1 := none + [OpenAI];
    var p2 := p1 + [Anthropic];
    var p3 := p2 + [Gemini];
    var p4 := p3 + [HuggingFace];
    var p5 := p4 + [HuggingFace];
    assert Distinct(p1) == [OpenAI] by { DistinctAppendOne(none, OpenAI); }
    assert Distinct(p2) == [OpenAI, Anthropic] by { DistinctAppendOne(p1, Anthropic); }
    assert Distinct(p3) == [OpenAI, Anthropic, Gemini] by { DistinctAppendOne(p2, Gemini); }
    assert Distinct(p4) == [OpenAI, Anthropic, Gemini, HuggingFace] by { DistinctAppendOne(p3, HuggingFace); }
    assert Distinct(p5) == Distinct(p4) by { DistinctAppendOne(p4, HuggingFace); }
    assert p5 == [OpenAI, Anthropic, Gemini, HuggingFace, HuggingFace];
  }

  /** With every key set, all five models are active but only four providers are called. */
  lemma AllKeysTotals(keys: ApiKeys)
    requires forall p :: KeyOf(keys, p) != ""
    ensures WrittenTotal(ActiveModels(AvailableModels, keys)) == 35
    ensures CorrectedTotal(ActiveModels(AvailableModels, keys)) == 28
  {
    var active := ActiveModels(AvailableModels, keys);
    assert active == AvailableModels by { AllKeysAllActive(AvailableModels, keys); }
    assert |Plan(active)| == 4 by { AvailableProviderOrder(); }
  }
}
