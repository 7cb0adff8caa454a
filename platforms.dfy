/** The entities shared by the client: target platforms with their character limits,
    LLM providers, the configured models and the generated variations (script.js:4-23). */
module Platforms {
  import opened Wrappers

  /** A target social-media destination. */
  datatype Platform = Twitter | Threads | Bluesky | Instagram | Facebook | TikTok | Generic

  /** `this.platforms`, in the order the client iterates over them (script.js:14). */
  const AllPlatforms: seq<Platform> := [Twitter, Threads, Bluesky, Instagram, Facebook, TikTok, Generic]

  /** The order of the labels in the parser's pattern and in the prompt's format block
      (script.js:561-567 and 595). */
  const LabelOrder: seq<Platform> := [Twitter, Instagram, Facebook, Threads, Bluesky, TikTok, Generic]

  /** `this.platformLimits` (script.js:4-12). */
  function Limit(p: Platform): nat {
    match p
    case Twitter => 280
    case Threads => 500
    case Bluesky => 300
    case Instagram => 2200
    case Facebook => 63206
    case TikTok => 150
    case Generic => 500
  }

  /** The lower-case identifier used as key and as `variation.platform`. */
  function Name(p: Platform): string {
    match p
    case Twitter => "twitter"
    case Threads => "threads"
    case Bluesky => "bluesky"
    case Instagram => "instagram"
    case Facebook => "facebook"
    case TikTok => "tiktok"
    case Generic => "generic"
  }

  /** The upper-case label of the text protocol (script.js:576-584). */
  function Label(p: Platform): string {
    match p
    case Twitter => "TWITTER"
    case Threads => "THREADS"
    case Bluesky => "BLUESKY"
    case Instagram => "INSTAGRAM"
    case Facebook => "FACEBOOK"
    case TikTok => "TIKTOK"
    case Generic => "GENERIC"
  }

  /** The name the prompt's format block uses for the platform (script.js:561-567). */
  function DisplayName(p: Platform): string {
    match p
    case Twitter => "Twitter"
    case Threads => "Threads"
    case Bluesky => "Bluesky"
    case Instagram => "Instagram"
    case Facebook => "Facebook"
    case TikTok => "TikTok"
    case Generic => "Generic"
  }

  /** The platform whose identifier is `name`, if any. */
  function PlatformByName(name: string): (r: Option<Platform>)
    ensures forall p :: name == Name(p) ==> r == Some(p)
    ensures r.Some? ==> Name(r.value) == name
  {
    if name == "twitter" then Some(Twitter)
    else if name == "threads" then Some(Threads)
    else if name == "bluesky" then Some(Bluesky)
    else if name == "instagram" then Some(Instagram)
    else if name == "facebook" then Some(Facebook)
    else if name == "tiktok" then Some(TikTok)
    else if name == "generic" then Some(Generic)
    else None
  }

  /** `this.platformLimits[name]`: a key outside the table gives `undefined`. */
  function LimitByName(name: string): Option<nat> {
    match PlatformByName(name)
    case Some(p) => Some(Limit(p))
    case None => None
  }

  /** Both orders hold every platform exactly once. */
  lemma OrdersAreComplete(p: Platform)
    ensures p in AllPlatforms && p in LabelOrder
    ensures |AllPlatforms| == |LabelOrder| == 7
  {
  }

  /** An LLM vendor reached through its relay. */
  datatype Provider = OpenAI | Anthropic | Gemini | HuggingFace

  /** The provider's key in `apiKeys` and in the relay path. */
  function ProviderName(p: Provider): string {
    match p
    case OpenAI => "openai"
    case Anthropic => "anthropic"
    case Gemini => "gemini"
    case HuggingFace => "huggingface"
  }

  /** One entry of `availableModels`: provider, model id and display name. */
  datatype ModelConfig = ModelConfig(provider: Provider, model: string, name: string)

  /** `this.availableModels` (script.js:16-23). */
  const AvailableModels: seq<ModelConfig> := [
    ModelConfig(OpenAI, "gpt-4o", "GPT-4o Standard"),
    ModelConfig(Anthropic, "claude-sonnet-4-20250514", "Claude Sonnet 4"),
    ModelConfig(Gemini, "gemini-1.5-flash-latest", "Gemini 1.5 Flash"),
    ModelConfig(HuggingFace, "gpt2", "GPT-2"),
    ModelConfig(HuggingFace, "distilgpt2", "DistilGPT-2")
  ]

  datatype Source = AIGenerated | ErrorSource

  /** One generated post candidate, or the record standing in for a failed request.
      `error` is false where the source leaves the field undefined. */
  datatype Variation = Variation(
    content: string,
    source: Source,
    platform: Platform,
    modelName: string,
    provider: Provider,
    error: bool)
}
