/** The serverless relay in front of the Hugging Face inference API (api/huggingface.js):
    the method guard, the required-field check, the chat template chosen by model name,
    the translation of upstream failures, the extraction of the generated text, the
    cleanup of special tokens and the reply. The upstream call is an input function from
    the request the relay would send to what came back. */
module HuggingFaceRelay {
  import opened Wrappers
  import opened Text
  import opened Lists
  import opened Platforms

  // ---------------------------------------------------------------- request and reply

  /** The fields read from `req.body`; `None` is a field the body does not have. */
  datatype RequestBody = RequestBody(apiKey: Option<string>, model: Option<string>, prompt: Option<string>)

  /** A field that passes `!field` as false: present and not the empty string. */
  predicate Present(field: Option<string>) {
    field.Some? && field.value != ""
  }

  predicate HasRequiredFields(body: RequestBody) {
    Present(body.apiKey) && Present(body.model) && Present(body.prompt)
  }

  /** The JSON body of a reply, or none for `res.end()`. */
  datatype Payload =
    | NoBody
    | ErrorOnly(error: string)
    | ErrorDetails(error: string, details: string)
    | Generated(content: string, source: string)

  datatype Reply = Reply(status: nat, payload: Payload)

  datatype Header = Header(name: string, value: string)

  /** The three CORS headers every reply carries (api/huggingface.js:3-5). */
  const CorsHeaders: seq<Header> := [
    Header("Access-Control-Allow-Origin", "*"),
    Header("Access-Control-Allow-Methods", "POST, OPTIONS"),
    Header("Access-Control-Allow-Headers", "Content-Type, Authorization")
  ]

  const MethodNotAllowed: string := "Method not allowed"
  const MissingFields: string := "Missing required fields: apiKey, model, prompt"
  const ModelLoading: string := "Model is currently loading. Please try again in a few minutes."
  const ModelLoadingDetails: string := "Hugging Face models need time to load when not recently used"
  const ModelNotFound: string := "Model not found or requires special access."
  const ModelNotFoundDetails: string :=
    "Some models like Llama require accepting a license agreement on Hugging Face first. "
    + "Try using a different model or check the model page on huggingface.co"
  const AccessDenied: string := "Access denied to this model."
  const AccessDeniedDetails: string :=
    "This model may require accepting a license agreement or have access restrictions. "
    + "Check the model page on huggingface.co"
  const UpstreamErrorPrefix: string := "Hugging Face API error: "
  const UnexpectedFormat: string := "Unexpected response format from Hugging Face API"
  const UnexpectedFormatDetails: string := "Could not parse generated content"
  const InternalError: string := "Internal server error"
  const GeneratedSource: string := "AI Generated"

  // ---------------------------------------------------------------- upstream

  /** The POST the relay sends: its URL, its `Authorization` header and the `inputs`
      field of its JSON body (the sampling parameters are fixed and not modelled). */
  datatype UpstreamRequest = UpstreamRequest(url: string, authorization: string, inputs: string)

  /** One element of an array reply; `generatedText` is `None` when missing. */
  datatype Entry = Entry(generatedText: Option<string>)

  /** The parsed JSON of a successful upstream reply. `OtherData` is any other non-null
      value (a number, a string, `true`); a `null` reply is not modelled. */
  datatype Data =
    | ArrayData(items: seq<Entry>)
    | ObjectData(generatedText: Option<string>)
    | OtherData

  /** What the upstream call settles to: a parsed reply with a 2xx status, a status
      outside 2xx with its body text, or an exception (network failure, body that is
      not JSON) with its message. */
  datatype Upstream =
    | Delivered(data: Data)
    | Failed(status: nat, text: string)
    | Threw(message: string)

  const InferenceBase: string := "https://api-inference.huggingface.co/models/"

  function Endpoint(model: string): string {
    InferenceBase + model
  }

  function Bearer(apiKey: string): string {
    "Bearer " + apiKey
  }

  // ---------------------------------------------------------------- chat templates

  /** The prompt format chosen from the model name. */
  datatype ChatFamily = Llama | Mistral | Zephyr | GenericChat

  /** Case-sensitive substring tests, in the order the relay applies them
      (api/huggingface.js:45-75). */
  function FamilyOf(model: string): (f: ChatFamily)
    ensures f == Llama <==> Contains(model, "llama") || Contains(model, "Llama")
    ensures f == Mistral <==>
      !(Contains(model, "llama") || Contains(model, "Llama"))
      && (Contains(model, "Mixtral") || Contains(model, "mistral"))
    ensures f == Zephyr <==>
      !(Contains(model, "llama") || Contains(model, "Llama"))
      && !(Contains(model, "Mixtral") || Contains(model, "mistral"))
      && Contains(model, "zephyr")
  {
    if Contains(model, "llama") || Contains(model, "Llama") then Llama
    else if Contains(model, "Mixtral") || Contains(model, "mistral") then Mistral
    else if Contains(model, "zephyr") then Zephyr
    else GenericChat
  }

  const Persona: string :=
    "You are a social media expert who creates engaging posts. "
    + "Create unique, high-quality content optimized for the specified platform. "
    + "Be creative, engaging, and authentic."

  const LlamaHead: string :=
    "<|begin_of_text|><|start_header_id|>system<|end_header_id|>\n\n" + Persona
    + "<|eot_id|><|start_header_id|>user<|end_header_id|>\n\n"
  const LlamaTail: string := "<|eot_id|><|start_header_id|>assistant<|end_header_id|>\n\n"
  const MistralHead: string := "<s>[INST] " + Persona + "\n\n"
  const MistralTail: string := " [/INST]"
  const ZephyrHead: string := "<|system|>\n" + Persona + "</s>\n<|user|>\n"
  const ZephyrTail: string := "</s>\n<|assistant|>\n"
  const GenericHead: string := "<|system|>\n" + Persona + "<|end|>\n<|user|>\n"
  const GenericTail: string := "<|end|>\n<|assistant|>\n"

  function Head(f: ChatFamily): string {
    match f
    case Llama => LlamaHead
    case Mistral => MistralHead
    case Zephyr => ZephyrHead
    case GenericChat => GenericHead
  }

  function Tail(f: ChatFamily): string {
    match f
    case Llama => LlamaTail
    case Mistral => MistralTail
    case Zephyr => ZephyrTail
    case GenericChat => GenericTail
  }

  /** `formattedPrompt`: the user prompt between the family's fixed head and tail. */
  function Template(model: string, prompt: string): string {
    Head(FamilyOf(model)) + prompt + Tail(FamilyOf(model))
  }

  /** Every template carries the user prompt verbatim, opened by its family's head. */
  lemma TemplateWrapsPrompt(model: string, prompt: string)
    ensures Contains(Template(model, prompt), prompt)
    ensures StartsWith(Template(model, prompt), Head(FamilyOf(model)))
    ensures |Template(model, prompt)| == |Head(FamilyOf(model))| + |prompt| + |Tail(FamilyOf(model))|
  {
    var f := FamilyOf(model);
    ContainsAfter(Head(f), prompt, Tail(f));
    assert Template(model, prompt)[..|Head(f)|] == Head(f);
  }

  /** The two Hugging Face models the client offers (`gpt2`, `distilgpt2`) match none of
      the names, so they are sent the generic template. */
  lemma ConfiguredModelsUseGenericTemplate()
    ensures forall m :: m in AvailableModels && m.provider == HuggingFace ==> FamilyOf(m.model) == GenericChat
  {
    forall m | m in AvailableModels && m.provider == HuggingFace
      ensures FamilyOf(m.model) == GenericChat
    {
      if m.model == "gpt2" {
        NoFamilyWord(m.model);
      } else {
        assert m.model == "distilgpt2";
        NoFamilyWord(m.model);
      }
    }
  }

  /** A name without `m`, `L`, `M` and `z` includes none of the family words. */
  lemma NoFamilyWord(model: string)
    requires 'm' !in model && 'L' !in model && 'M' !in model && 'z' !in model
    ensures FamilyOf(model) == GenericChat
  {
    LacksChar(model, "llama", 3, 'm');
    LacksChar(model, "Llama", 0, 'L');
    LacksChar(model, "Mixtral", 0, 'M');
    LacksChar(model, "mistral", 0, 'm');
    LacksChar(model, "zephyr", 0, 'z');
  }

  /** A name lacking one of a word's characters does not include the word. */
  lemma LacksChar(model: string, word: string, i: nat, c: char)
    requires i < |word| && word[i] == c && c !in model
    ensures !Contains(model, word)
  {
    if Contains(model, word) {
      ContainsChars(model, word, i);
    }
  }

  // ---------------------------------------------------------------- extraction

  /** `value || ''` for a text field. */
  function OrEmpty(field: Option<string>): string {
    if field.Some? then field.value else ""
  }

  /** The generated text of a successful reply (api/huggingface.js:135-147): the first
      element's field (or empty) of a non-empty array, else a present field of an
      object; `None` is the 500 "unexpected format" case. */
  function Extract(data: Data): (r: Option<string>)
    ensures r.Some? <==> (data.ArrayData? && |data.items| > 0) || (data.ObjectData? && Present(data.generatedText))
    ensures data.ArrayData? && |data.items| > 0 && data.items[0].generatedText.Some? ==> r == data.items[0].generatedText
    ensures data.ArrayData? && |data.items| > 0 && data.items[0].generatedText.None? ==> r == Some("")
    ensures data.ObjectData? && Present(data.generatedText) ==> r == data.generatedText
  {
    match data
    case ArrayData(items) => if |items| > 0 then Some(OrEmpty(items[0].generatedText)) else None
    case ObjectData(text) => if Present(text) then text else None
    case OtherData => None
  }

  // ---------------------------------------------------------------- cleanup

  /** Length of the longest prefix of `t` without a `|`. */
  function BarFreeRun(t: string): (n: nat)
    ensures n <= |t|
    ensures forall k :: 0 <= k < n ==> t[k] != '|'
    ensures n < |t| ==> t[n] == '|'
  {
    if t == [] || t[0] == '|' then 0 else 1 + BarFreeRun(t[1..])
  }

  /** Length of the `<|…|>` token (one or more characters other than `|` between the
      marks) that starts `s`, or 0 when none does. */
  function TokenAt(s: string): (n: nat)
    ensures n == 0 || (5 <= n <= |s| && s[..2] == "<|" && s[n - 2..n] == "|>")
  {
    if |s| >= 2 && s[0] == '<' && s[1] == '|' then
      var run := BarFreeRun(s[2..]);
      if run >= 1 && run + 4 <= |s| && s[run + 2] == '|' && s[run + 3] == '>' then run + 4 else 0
    else 0
  }

  /** `replace(/<\|[^|]+\|>/g, '')`, scanning left to right: a token is dropped and the
      scan resumes after it, any other character is kept. */
  function StripSpecialTokens(s: string): (r: string)
    decreases |s|
  {
    if s == [] then []
    else
      var n := TokenAt(s);
      if n > 0 then StripSpecialTokens(s[n..]) else [s[0]] + StripSpecialTokens(s[1..])
  }

  /** `replace(/a|b/g, '')` for two literal words, `a` tried first at each position. */
  function RemoveEither(s: string, a: string, b: string): (r: string)
    requires a != [] && b != []
    decreases |s|
  {
    if s == [] then []
    else if StartsWith(s, a) then RemoveEither(s[|a|..], a, b)
    else if StartsWith(s, b) then RemoveEither(s[|b|..], a, b)
    else [s[0]] + RemoveEither(s[1..], a, b)
  }

  /** The content cleanup of api/huggingface.js:150-154. */
  function Cleanup(s: string): string {
    Trim(RemoveEither(RemoveEither(StripSpecialTokens(s), "<s>", "</s>"), "[INST]", "[/INST]"))
  }

  lemma {:induction false} StripOnlyDeletes(s: string)
    ensures IsSubsequence(StripSpecialTokens(s), s)
    decreases |s|
  {
    if s != [] {
      var n := TokenAt(s);
      if n > 0 {
        StripOnlyDeletes(s[n..]);
        SubsequenceSlice(s, n, |s|);
        assert s[n..|s|] == s[n..];
        SubsequenceTrans(StripSpecialTokens(s[n..]), s[n..], s);
      } else {
        StripOnlyDeletes(s[1..]);
        SubsequenceCons(s[0], StripSpecialTokens(s[1..]), s[1..]);
        assert [s[0]] + s[1..] == s;
      }
    }
  }

  lemma {:induction false} RemoveOnlyDeletes(s: string, a: string, b: string)
    requires a != [] && b != []
    ensures IsSubsequence(RemoveEither(s, a, b), s)
    decreases |s|
  {
    if s != [] {
      if StartsWith(s, a) || StartsWith(s, b) {
        var n := if StartsWith(s, a) then |a| else |b|;
        RemoveOnlyDeletes(s[n..], a, b);
        SubsequenceSlice(s, n, |s|);
        assert s[n..|s|] == s[n..];
        SubsequenceTrans(RemoveEither(s[n..], a, b), s[n..], s);
      } else {
        RemoveOnlyDeletes(s[1..], a, b);
        SubsequenceCons(s[0], RemoveEither(s[1..], a, b), s[1..]);
        assert [s[0]] + s[1..] == s;
      }
    }
  }

  lemma TrimOnlyDeletes(s: string)
    ensures IsSubsequence(Trim(s), s)
  {
    var t := TrimStart(s);
    SubsequenceSlice(s, |s| - |t|, |s|);
    assert s[|s| - |t|..|s|] == t;
    SubsequenceSlice(t, 0, |TrimEnd(t)|);
    assert t[0..|TrimEnd(t)|] == TrimEnd(t) == Trim(s);
    SubsequenceTrans(Trim(s), t, s);
  }

  /** The cleanup only deletes characters, keeping the order of the rest, and leaves no
      whitespace at either end. */
  lemma CleanupOnlyDeletes(s: string)
    ensures IsSubsequence(Cleanup(s), s)
    ensures |Cleanup(s)| <= |s|
    ensures IsTrimmed(Cleanup(s))
  {
    var one := StripSpecialTokens(s);
    var two := RemoveEither(one, "<s>", "</s>");
    var three := RemoveEither(two, "[INST]", "[/INST]");
    StripOnlyDeletes(s);
    RemoveOnlyDeletes(one, "<s>", "</s>");
    RemoveOnlyDeletes(two, "[INST]", "[/INST]");
    TrimOnlyDeletes(three);
    SubsequenceTrans(two, one, s);
    SubsequenceTrans(three, two, s);
    SubsequenceTrans(Cleanup(s), three, s);
    SubsequenceLength(Cleanup(s), s);
  }

  /** A `<|…|>` token at the front is dropped whole. */
  lemma TokenDropped(t: string, rest: string)
    requires t != [] && '|' !in t
    ensures StripSpecialTokens(['<', '|'] + t + ['|', '>'] + rest) == StripSpecialTokens(rest)
  {
    var s := ['<', '|'] + t + ['|', '>'] + rest;
    assert s[2..] == t + (['|', '>'] + rest);
    BarFreeRunOf(t, ['|', '>'] + rest);
    assert s[|t| + 2] == '|' && s[|t| + 3] == '>';
    assert TokenAt(s) == |t| + 4;
    assert s[|t| + 4..] == rest;
  }

  lemma {:induction false} BarFreeRunOf(t: string, rest: string)
    requires '|' !in t && rest != [] && rest[0] == '|'
    ensures BarFreeRun(t + rest) == |t|
    decreases |t|
  {
    if t == [] {
      assert t + rest == rest;
    } else {
      assert (t + rest)[1..] == t[1..] + rest;
      BarFreeRunOf(t[1..], rest);
    }
  }

  lemma {:induction false} StripKeepsPlain(s: string)
    requires '<' !in s
    ensures StripSpecialTokens(s) == s
    decreases |s|
  {
    if s != [] {
      assert s[0] != '<';
      StripKeepsPlain(s[1..]);
      assert [s[0]] + s[1..] == s;
    }
  }

  lemma {:induction false} RemoveKeepsPlain(s: string, a: string, b: string)
    requires a != [] && b != [] && a[0] !in s && b[0] !in s
    ensures RemoveEither(s, a, b) == s
    decreases |s|
  {
    if s != [] {
      assert s[0] != a[0] && s[0] != b[0];
      RemoveKeepsPlain(s[1..], a, b);
      assert [s[0]] + s[1..] == s;
    }
  }

  /** Text with no `<` and no `[` only loses its surrounding whitespace. */
  lemma CleanupKeepsPlainText(s: string)
    requires '<' !in s && '[' !in s
    ensures Cleanup(s) == Trim(s)
  {
    StripKeepsPlain(s);
    RemoveKeepsPlain(s, "<s>", "</s>");
    RemoveKeepsPlain(s, "[INST]", "[/INST]");
  }

  // ---------------------------------------------------------------- decisions

  /** The reply to a failed upstream status (api/huggingface.js:101-129): three statuses
      get fixed messages, any other is passed on with the body text as details; in every
      case the status is mirrored. */
  function TranslateFailure(status: nat, text: string): (r: Reply)
    ensures r.status == status && r.payload.ErrorDetails?
    ensures status == 503 ==> r.payload == ErrorDetails(ModelLoading, ModelLoadingDetails)
    ensures status == 404 ==> r.payload == ErrorDetails(ModelNotFound, ModelNotFoundDetails)
    ensures status == 403 ==> r.payload == ErrorDetails(AccessDenied, AccessDeniedDetails)
    ensures status !in {503, 404, 403} ==>
      r.payload == ErrorDetails(UpstreamErrorPrefix + NatToString(status), text)
  {
    if status == 503 then Reply(503, ErrorDetails(ModelLoading, ModelLoadingDetails))
    else if status == 404 then Reply(404, ErrorDetails(ModelNotFound, ModelNotFoundDetails))
    else if status == 403 then Reply(403, ErrorDetails(AccessDenied, AccessDeniedDetails))
    else
      Reply(status, ErrorDetails(UpstreamErrorPrefix + NatToString(status), text))
  }

  /** The reply once the upstream has settled. */
  function Respond(outcome: Upstream): (r: Reply)
    ensures r.payload.Generated? <==> outcome.Delivered? && Extract(outcome.data).Some?
    ensures r.payload.Generated? ==>
      r.status == 200 && r.payload.source == GeneratedSource && IsTrimmed(r.payload.content)
      && IsSubsequence(r.payload.content, Extract(outcome.data).value)
    ensures outcome.Delivered? && Extract(outcome.data).None? ==>
      r == Reply(500, ErrorDetails(UnexpectedFormat, UnexpectedFormatDetails))
    ensures outcome.Failed? ==> r.status == outcome.status && r.payload.ErrorDetails?
    ensures outcome.Threw? ==> r == Reply(500, ErrorDetails(InternalError, outcome.message))
    ensures !r.payload.NoBody? && !r.payload.ErrorOnly?
  {
    match outcome
    case Threw(message) => Reply(500, ErrorDetails(InternalError, message))
    case Failed(status, text) => TranslateFailure(status, text)
    case Delivered(data) =>
      match Extract(data)
      case None => Reply(500, ErrorDetails(UnexpectedFormat, UnexpectedFormatDetails))
      case Some(content) =>
        CleanupOnlyDeletes(content);
        Reply(200, Generated(Cleanup(content), GeneratedSource))
  }

  /** The request sent for a body that passed the field check. */
  function RequestOf(apiKey: string, model: string, prompt: string): UpstreamRequest {
    UpstreamRequest(Endpoint(model), Bearer(apiKey), Template(model, prompt))
  }

  /** The whole handler as a function of the method, the body and the upstream. */
  function Decide(verb: string, body: RequestBody, upstream: UpstreamRequest -> Upstream): (r: Reply)
    ensures r.payload == NoBody <==> verb == "OPTIONS"
    ensures verb == "OPTIONS" ==> r.status == 200
    ensures r == Reply(405, ErrorOnly(MethodNotAllowed)) <==> verb != "OPTIONS" && verb != "POST"
    ensures r == Reply(400, ErrorOnly(MissingFields)) <==> verb == "POST" && !HasRequiredFields(body)
  {
    if verb == "OPTIONS" then Reply(200, NoBody)
    else if verb != "POST" then Reply(405, ErrorOnly(MethodNotAllowed))
    else if !HasRequiredFields(body) then Reply(400, ErrorOnly(MissingFields))
    else Respond(upstream(RequestOf(body.apiKey.value, body.model.value, body.prompt.value)))
  }

  /** A refused method or a missing field is answered without calling the upstream:
      the reply is the same whatever the upstream would have done. */
  lemma RefusalIgnoresUpstream(verb: string, body: RequestBody, one: UpstreamRequest -> Upstream,
                               other: UpstreamRequest -> Upstream)
    requires verb != "POST" || !HasRequiredFields(body)
    ensures Decide(verb, body, one) == Decide(verb, body, other)
  {
  }

  /** A POST with all three fields calls the upstream once, at the model's URL, with the
      key as bearer token and the prompt wrapped in the model's template, and answers
      with what that call settles to. */
  lemma AcceptedRequestCallsUpstream(body: RequestBody, upstream: UpstreamRequest -> Upstream)
    requires HasRequiredFields(body)
    ensures var sent := RequestOf(body.apiKey.value, body.model.value, body.prompt.value);
      && sent.url == InferenceBase + body.model.value
      && sent.authorization == "Bearer " + body.apiKey.value
      && Contains(sent.inputs, body.prompt.value)
      && StartsWith(sent.inputs, Head(FamilyOf(body.model.value)))
      && Decide("POST", body, upstream) == Respond(upstream(sent))
  {
    TemplateWrapsPrompt(body.model.value, body.prompt.value);
  }

  // ---------------------------------------------------------------- the handler

  /** The Node response object: the headers set, the status, the JSON sent, and whether
      the reply has been finished by `json` or `end`. */
  class ServerResponse {
    var headers: seq<Header>
    var statusCode: nat
    var payload: Payload
    var finished: bool

    constructor()
      ensures headers == [] && statusCode == 200 && payload == NoBody && !finished
    {
      headers := [];
      statusCode := 200;
      payload := NoBody;
      finished := false;
    }

    method SetHeader(name: string, value: string)
      modifies this
      ensures headers == old(headers) + [Header(name, value)]
      ensures statusCode == old(statusCode) && payload == old(payload) && finished == old(finished)
    {
      headers := headers + [Header(name, value)];
    }

    method Status(code: nat)
      modifies this
      ensures statusCode == code
      ensures headers == old(headers) && payload == old(payload) && finished == old(finished)
    {
      statusCode := code;
    }

    method Json(body: Payload)
      requires !finished
      modifies this
      ensures payload == body && finished
      ensures headers == old(headers) && statusCode == old(statusCode)
    {
      payload := body;
      finished := true;
    }

    method End()
      requires !finished
      modifies this
      ensures payload == NoBody && finished
      ensures headers == old(headers) && statusCode == old(statusCode)
    {
      payload := NoBody;
      finished := true;
    }
  }

  /** `handler(req, res)`: sets the CORS headers, then answers exactly once, with the
      reply `Decide` describes. */
  method Handler(verb: string, body: RequestBody, upstream: UpstreamRequest -> Upstream, res: ServerResponse)
    requires !res.finished
    modifies res
    ensures res.headers == old(res.headers) + CorsHeaders
    ensures res.finished && Reply(res.statusCode, res.payload) == Decide(verb, body, upstream)
  {
    res.SetHeader(CorsHeaders[0].name, CorsHeaders[0].value);
    res.SetHeader(CorsHeaders[1].name, CorsHeaders[1].value);
    res.SetHeader(CorsHeaders[2].name, CorsHeaders[2].value);
    assert res.headers == old(res.headers) + CorsHeaders;

    if verb == "OPTIONS" {
      res.Status(200);
      res.End();
      return;
    }
    if verb != "POST" {
      res.Status(405);
      res.Json(ErrorOnly(MethodNotAllowed));
      return;
    }
    if !Present(body.apiKey) || !Present(body.model) || !Present(body.prompt) {
      res.Status(400);
      res.Json(ErrorOnly(MissingFields));
      return;
    }
    var apiKey, model, prompt := body.apiKey.value, body.model.value, body.prompt.value;
    var formattedPrompt := Template(model, prompt);
    var response := upstream(UpstreamRequest(Endpoint(model), Bearer(apiKey), formattedPrompt));

    if response.Threw? {
      res.Status(500);
      res.Json(ErrorDetails(InternalError, response.message));
      return;
    }
    if response.Failed? {
      var status := response.status;
      if status == 503 {
        res.Status(503);
        res.Json(ErrorDetails(ModelLoading, ModelLoadingDetails));
        return;
      }
      if status == 404 {
        res.Status(404);
        res.Json(ErrorDetails(ModelNotFound, ModelNotFoundDetails));
        return;
      }
      if status == 403 {
        res.Status(403);
        res.Json(ErrorDetails(AccessDenied, AccessDeniedDetails));
        return;
      }
      res.Status(status);
      res.Json(ErrorDetails(UpstreamErrorPrefix + NatToString(status), response.text));
      return;
    }

    var data := response.data;
    var content := "";
    if data.ArrayData? && |data.items| > 0 {
      content := OrEmpty(data.items[0].generatedText);
    } else if data.ObjectData? && Present(data.generatedText) {
      content := data.generatedText.value;
    } else {
      res.Status(500);
      res.Json(ErrorDetails(UnexpectedFormat, UnexpectedFormatDetails));
      return;
    }
    content := Cleanup(content);
    res.Status(200);
    res.Json(Generated(content, GeneratedSource));
  }
}
