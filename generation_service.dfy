/** The image generation service: request validation against the current settings, the prompt
    parts sent to Google AI, the reading of its reply, and the classification of failures into
    user-facing messages. The Google AI call and the download of the returned data URL are
    parameters. */
module GenerationService {
  import opened Wrappers
  import opened Text
  import opened CanvasTypes
  import opened SettingsStore

  /** An inline image sent along with the prompt. */
  datatype ReferenceImage = ReferenceImage(data: string, mimeType: string)

  /** `ImageGenerationRequest`. */
  datatype Request = Request(prompt: string, referenceImages: Option<seq<ReferenceImage>>)

  /** `ImageGenerationResponse`: every key optional. */
  datatype Response = Response(generatedImageUrl: Option<string>, generatedImageBlob: Option<Blob>,
                               error: Option<string>, model: Option<string>, usage: Option<Usage>)

  /** A response carrying only an error, optionally naming the model. */
  /** A response the workflow can act on: it carries exactly one of a non-empty error and a
      non-empty image URL. */
  predicate Decisive(r: Response) {
    Truthy(r.error) != Truthy(r.generatedImageUrl)
  }

  function Failure(message: string, model: Option<string>): Response {
    Response(None, None, Some(message), model, None)
  }

  /** `ModelConfig`. */
  datatype ModelConfig = ModelConfig(provider: string, modelId: string, baseUrl: string,
                                     apiKey: string, maxTokens: int)

  /** A part of the content sent to Google AI. */
  datatype PromptPart = TextPart(text: string) | InlinePart(mimeType: string, data: string)

  /** A part of the content Google AI returns; `inlineData` keys may be absent. */
  datatype ReplyPart = ReplyText(text: string) | ReplyInline(data: Option<string>, mimeType: Option<string>)

  /** What the `generateContent` call does: reply with the parts of its first candidate (none if
      there is no candidate), or throw (`Some(message)` for an `Error`, `None` for anything else). */
  datatype GoogleReply = Replied(parts: seq<ReplyPart>) | Threw(thrown: Option<string>)

  /** What fetching a data URL does: yields a blob, answers with a non-ok status, or throws. */
  datatype FetchOutcome = Fetched(blob: Blob) | NotOk | FetchThrew(thrown: Option<string>)

  const PROMPT_MISSING := "Please describe the image you want to create before generating."
  const MODEL_MISSING := "Select a model in settings before generating an image."
  const KEY_MISSING := "API key required. Add your Google AI API key in the settings panel."
  const BASE_URL_MISSING := "Base URL missing. Please confirm your Google AI endpoint in settings."
  const UNSUPPORTED_PROVIDER := "Only Google AI models are supported right now. Select Nano Banana in settings."
  const NO_IMAGE := "No image returned from the model."
  const DOWNLOAD_FAILED := "Unable to download generated image data."
  const UNKNOWN_ERROR := "Unknown error occurred."
  const QUOTA_EXCEEDED := "API quota exceeded. Review your Google AI Studio usage and billing."
  const INVALID_KEY := "Invalid API key. Update your Google AI API key in settings and try again."
  const NETWORK_ERROR := "We could not reach Google AI. Check your network connection and try again."
  const FAILED_PREFIX := "Image generation failed: "

  /** `isNonEmptyString(value)`: a string whose trimmed form is not empty, which by the contract
      of `Trim` is a string with a non-whitespace character; `None` stands for a value that is not
      a string. */
  predicate IsNonEmptyString(value: Option<string>) {
    value.Some? && HasContent(value.value)
  }

  /** `approxPromptTokens`: a quarter of the trimmed length, rounded up; zero for blank text. */
  function ApproxPromptTokens(prompt: string): (r: nat)
    ensures r == 0 <==> !HasContent(prompt)
    ensures r > 0 ==> (r - 1) * 4 < |Trim(prompt)| <= r * 4
  {
    var cleaned := Trim(prompt);
    if cleaned == "" then 0 else Max(1, (|cleaned| + 3) / 4)
  }

  /** The catalogue entry with the model id, if any. */
  function FindModelRecord(models: seq<ModelRecord>, id: string): (r: Option<ModelRecord>)
    ensures r.Some? ==> r.value in models && r.value.id == id
    ensures r.None? ==> forall m :: m in models ==> m.id != id
  {
    if models == [] then None
    else if models[0].id == id then Some(models[0])
    else FindModelRecord(models[1..], id)
  }

  /** `getModelConfig` over the settings values: no configuration without a model; otherwise the
      catalogue supplies provider, base URL and token limit where the settings do not. */
  function GetModelConfig(apiKey: string, baseUrl: string, model: string): (r: Option<ModelConfig>)
    ensures r.None? <==> !HasContent(model)
    ensures r.Some? ==> r.value.modelId == model && r.value.apiKey == apiKey
    ensures r.Some? && baseUrl != "" ==> r.value.baseUrl == baseUrl
    ensures r.Some? && FindModelRecord(AVAILABLE_MODELS, model).None? ==>
      r.value.provider == "google" && r.value.maxTokens == 4096 && (baseUrl == "" ==> r.value.baseUrl == "")
    ensures r.Some? && FindModelRecord(AVAILABLE_MODELS, model).Some? ==>
      var m := FindModelRecord(AVAILABLE_MODELS, model).value;
      r.value.provider == m.provider && r.value.maxTokens == m.maxTokens &&
      (baseUrl == "" ==> r.value.baseUrl == m.baseUrl)
  {
    if !IsNonEmptyString(Some(model)) then None
    else
      var record := FindModelRecord(AVAILABLE_MODELS, model);
      var recordUrl := if record.Some? && record.value.baseUrl != "" then record.value.baseUrl else "";
      Some(ModelConfig(
        if record.Some? then record.value.provider else "google",
        model,
        if baseUrl != "" then baseUrl else recordUrl,
        apiKey,
        if record.Some? then record.value.maxTokens else 4096))
  }

  /** The default settings select Nano Banana on Google AI's endpoint, but without a key. */
  lemma DefaultSettingsConfig()
    ensures GetModelConfig("", DEFAULT_BASE_URL, DEFAULT_MODEL) ==
      Some(ModelConfig("google", DEFAULT_MODEL, DEFAULT_BASE_URL, "", 4096))
    ensures EnsureCredentials(GetModelConfig("", DEFAULT_BASE_URL, DEFAULT_MODEL)) ==
      Some(Failure(KEY_MISSING, Some(DEFAULT_MODEL)))
  {
    assert HasContent(DEFAULT_MODEL) by { assert !IsWhitespace(DEFAULT_MODEL[0]); }
  }

  /** `ensurePromptProvided`. */
  function EnsurePromptProvided(request: Request): (r: Option<Response>)
    ensures r.Some? <==> !HasContent(request.prompt)
    ensures r.Some? ==> r.value == Failure(PROMPT_MISSING, None)
  {
    if !IsNonEmptyString(Some(request.prompt)) then Some(Failure(PROMPT_MISSING, None)) else None
  }

  /** `ensureCredentials`: a missing configuration first, then a blank key, then a blank base URL;
      the last two name the model. */
  function EnsureCredentials(config: Option<ModelConfig>): (r: Option<Response>)
    ensures config.None? ==> r == Some(Failure(MODEL_MISSING, None))
    ensures config.Some? && !HasContent(config.value.apiKey) ==>
      r == Some(Failure(KEY_MISSING, Some(config.value.modelId)))
    ensures config.Some? && HasContent(config.value.apiKey) && !HasContent(config.value.baseUrl) ==>
      r == Some(Failure(BASE_URL_MISSING, Some(config.value.modelId)))
    ensures r.None? <==> config.Some? && HasContent(config.value.apiKey) && HasContent(config.value.baseUrl)
  {
    if config.None? then Some(Failure(MODEL_MISSING, None))
    else
      if !IsNonEmptyString(Some(config.value.apiKey)) then Some(Failure(KEY_MISSING, Some(config.value.modelId)))
      else if !IsNonEmptyString(Some(config.value.baseUrl)) then Some(Failure(BASE_URL_MISSING, Some(config.value.modelId)))
      else None
  }

  function Max(a: int, b: int): int {
    if a < b then b else a
  }

  /** A reference image is sent only when both its data and its type have content. */
  predicate Usable(image: ReferenceImage) {
    IsNonEmptyString(Some(image.data)) && IsNonEmptyString(Some(image.mimeType))
  }

  /** The inline parts for the usable images among `images`, in order. */
  function InlineParts(images: seq<ReferenceImage>): (r: seq<PromptPart>)
    ensures |r| <= |images|
    ensures forall k :: 0 <= k < |r| ==> r[k].InlinePart?
  {
    if images == [] then []
    else
      var last := images[|images| - 1];
      InlineParts(images[..|images| - 1]) + (if Usable(last) then [InlinePart(last.mimeType, last.data)] else [])
  }

  /** A single image becomes one inline part when it is usable, and nothing otherwise. */
  lemma InlinePartsOne(image: ReferenceImage)
    ensures InlineParts([image]) == if Usable(image) then [InlinePart(image.mimeType, image.data)] else []
  {
    assert [image][..0] == [];
  }

  /** Converting images distributes over concatenation, so the parts keep the images' order. */
  lemma {:induction false} InlinePartsConcat(a: seq<ReferenceImage>, b: seq<ReferenceImage>)
    ensures InlineParts(a + b) == InlineParts(a) + InlineParts(b)
    decreases |b|
  {
    if b == [] {
      assert a + b == a;
    } else {
      var init := b[..|b| - 1];
      assert (a + b)[..|a + b| - 1] == a + init;
      InlinePartsConcat(a, init);
    }
  }

  /** Every inline part comes from a usable image of the list. */
  lemma {:induction false} InlinePartsFromUsable(images: seq<ReferenceImage>)
    ensures forall k :: 0 <= k < |InlineParts(images)| ==>
      var p := InlineParts(images)[k];
      ReferenceImage(p.data, p.mimeType) in images && Usable(ReferenceImage(p.data, p.mimeType))
  {
    if images != [] {
      var init := images[..|images| - 1];
      InlinePartsFromUsable(init);
      assert forall x :: x in init ==> x in images;
    }
  }

  /** When every image is usable, each becomes one part, in order. */
  lemma {:induction false} AllUsableAllSent(images: seq<ReferenceImage>)
    requires forall k :: 0 <= k < |images| ==> Usable(images[k])
    ensures |InlineParts(images)| == |images|
    ensures forall k :: 0 <= k < |images| ==>
      InlineParts(images)[k] == InlinePart(images[k].mimeType, images[k].data)
  {
    if images != [] {
      var init := images[..|images| - 1];
      AllUsableAllSent(init);
      assert Usable(images[|images| - 1]);
      assert InlineParts(images) == InlineParts(init) + [InlinePart(images[|images| - 1].mimeType, images[|images| - 1].data)];
    }
  }

  /** The parts `buildGooglePromptParts` produces: the prompt text, then the usable images. */
  function GooglePromptParts(request: Request): (r: seq<PromptPart>)
    ensures |r| >= 1 && r[0] == TextPart(request.prompt)
    ensures forall k :: 1 <= k < |r| ==> r[k].InlinePart?
  {
    [TextPart(request.prompt)] + InlineParts(request.referenceImages.GetOr([]))
  }

  /** Without images the parts are the prompt text alone; appending images appends their parts. */
  lemma GooglePromptPartsAppend(prompt: string, a: seq<ReferenceImage>, b: seq<ReferenceImage>)
    ensures GooglePromptParts(Request(prompt, None)) == [TextPart(prompt)]
    ensures GooglePromptParts(Request(prompt, Some(a + b))) == GooglePromptParts(Request(prompt, Some(a))) + InlineParts(b)
  {
    InlinePartsConcat(a, b);
  }

  /** `buildGooglePromptParts`: pushes one inline part per usable image after the prompt text. */
  method BuildGooglePromptParts(request: Request) returns (parts: seq<PromptPart>)
    ensures parts == GooglePromptParts(request)
  {
    parts := [TextPart(request.prompt)];
    if request.referenceImages.Some? && |request.referenceImages.value| > 0 {
      var images := request.referenceImages.value;
      var i := 0;
      while i < |images|
        invariant 0 <= i <= |images|
        invariant parts == [TextPart(request.prompt)] + InlineParts(images[..i])
      {
        var image := images[i];
        assert images[..i + 1][..i] == images[..i];
        if IsNonEmptyString(Some(image.data)) && IsNonEmptyString(Some(image.mimeType)) {
          parts := parts + [InlinePart(image.mimeType, image.data)];
        }
        i := i + 1;
      }
      assert images[..i] == images;
    }
  }

  /** The message of a thrown value: an `Error`'s message, or a fixed text for anything else. */
  function ThrownMessage(thrown: Option<string>): string {
    thrown.GetOr(UNKNOWN_ERROR)
  }

  /** The failure classification of `generateWithGoogleAI`, tested in order: quota, invalid key
      (case-insensitive), network (case-insensitive), and otherwise the message itself, prefixed. */
  function ClassifyError(message: string, modelId: string): (r: Response)
    ensures r.generatedImageUrl.None? && r.usage.None? && r.error.Some? && r.model == Some(modelId)
    ensures Truthy(r.error) && Decisive(r)
    ensures Contains(message, "quota") || Contains(message, "429") ==> r.error == Some(QUOTA_EXCEEDED)
    ensures !(Contains(message, "quota") || Contains(message, "429")) && Contains(ToLower(message), "api key")
      ==> r.error == Some(INVALID_KEY)
    ensures (!(Contains(message, "quota") || Contains(message, "429")) && !Contains(ToLower(message), "api key") &&
             Contains(ToLower(message), "fetch")) ==> r.error == Some(NETWORK_ERROR)
    ensures (!(Contains(message, "quota") || Contains(message, "429")) && !Contains(ToLower(message), "api key") &&
             !Contains(ToLower(message), "fetch")) ==> r.error == Some(FAILED_PREFIX + message)
    ensures r.error.value !in {QUOTA_EXCEEDED, INVALID_KEY, NETWORK_ERROR} ==>
      StartsWith(r.error.value, FAILED_PREFIX) && r.error.value[|FAILED_PREFIX|..] == message
  {
    if Contains(message, "quota") || Contains(message, "429") then Failure(QUOTA_EXCEEDED, Some(modelId))
    else if Contains(ToLower(message), "api key") then Failure(INVALID_KEY, Some(modelId))
    else if Contains(ToLower(message), "fetch") then Failure(NETWORK_ERROR, Some(modelId))
    else Failure(FAILED_PREFIX + message, Some(modelId))
  }

  /** `s` occurs in `t` at position `k`. */
  lemma ContainsAt(t: string, s: string, k: nat)
    requires k + |s| <= |t| && t[k..k + |s|] == s
    ensures Contains(t, s)
    decreases k
  {
    if k > 0 {
      assert t[1..][k - 1..k - 1 + |s|] == s;
      ContainsAt(t[1..], s, k - 1);
    }
  }

  /** A message without the letters 'q' and '9' and without any case of 'k' and 'f' carries none
      of the four keywords, so it is reported after the generic prefix. */
  lemma LetterFreeIsPrefixed(m: string, modelId: string)
    requires forall i :: 0 <= i < |m| ==>
      m[i] != 'q' && m[i] != '9' && LowerChar(m[i]) != 'k' && LowerChar(m[i]) != 'f'
    ensures ClassifyError(m, modelId).error == Some(FAILED_PREFIX + m)
  {
    NoKeywords(m);
  }

  /** A failed download of the returned image is reported after the generic prefix. */
  lemma DownloadFailureIsPrefixed(modelId: string)
    ensures ClassifyError(DOWNLOAD_FAILED, modelId).error == Some(FAILED_PREFIX + DOWNLOAD_FAILED)
  {
    LetterFreeIsPrefixed(DOWNLOAD_FAILED, modelId);
  }

  /** None of `quota`, `429`, `api key`, `fetch` occurs in a string without 'q', '9', and any case
      of 'k' and 'f'. */
  lemma NoKeywords(m: string)
    requires forall i :: 0 <= i < |m| ==>
      m[i] != 'q' && m[i] != '9' && LowerChar(m[i]) != 'k' && LowerChar(m[i]) != 'f'
    ensures !Contains(m, "quota") && !Contains(m, "429")
    ensures !Contains(ToLower(m), "api key") && !Contains(ToLower(m), "fetch")
  {
    var lower := ToLower(m);
    assert 'q' !in m && '9' !in m && 'k' !in lower && 'f' !in lower;
    NotContainsChar(m, "quota", 0);
    NotContainsChar(m, "429", 2);
    NotContainsChar(lower, "api key", 4);
    NotContainsChar(lower, "fetch", 0);
  }

  /** A string lacking one character of `sub` does not contain `sub`. */
  lemma NotContainsChar(t: string, sub: string, j: nat)
    requires j < |sub| && sub[j] !in t
    ensures !Contains(t, sub)
    decreases |t|
  {
    if |sub| <= |t| {
      assert t[j] == t[..|sub|][j];
      if t != [] {
        NotContainsChar(t[1..], sub, j);
      }
    }
  }

  /** The quota test wins over the key test. */
  lemma QuotaTakesPrecedence(modelId: string)
    ensures ClassifyError("429 invalid API key", modelId).error == Some(QUOTA_EXCEEDED)
  {
    ContainsAt("429 invalid API key", "429", 0);
  }

  /** The first part of the reply that carries an `inlineData` object. */
  function FirstInline(parts: seq<ReplyPart>): (r: Option<ReplyPart>)
    ensures r.Some? ==> r.value in parts && r.value.ReplyInline?
    ensures r.Some? ==>
      exists k :: 0 <= k < |parts| && parts[k] == r.value && forall j :: 0 <= j < k ==> !parts[j].ReplyInline?
    ensures r.None? <==> forall p :: p in parts ==> !p.ReplyInline?
  {
    if parts == [] then None
    else if parts[0].ReplyInline? then Some(parts[0])
    else FirstInline(parts[1..])
  }

  /** The data URL of a returned image. */
  function DataUrl(mimeType: string, data: string): string {
    "data:" + mimeType + ";base64," + data
  }

  /** The MIME type of a returned image part: its own when set, else `image/png`. */
  function ImageMime(part: ReplyPart): (r: string)
    requires part.ReplyInline?
    ensures Truthy(part.mimeType) ==> r == part.mimeType.value
    ensures !Truthy(part.mimeType) ==> r == "image/png"
  {
    if Truthy(part.mimeType) then part.mimeType.value else "image/png"
  }

  /** A successful response to the inline image `part`: its data URL, the blob downloaded from
      that URL, and the approximate usage of the prompt and the returned data. */
  predicate ImageResponse(r: Response, request: Request, part: ReplyPart, download: string -> FetchOutcome) {
    && part.ReplyInline? && Truthy(part.data)
    && var url := DataUrl(ImageMime(part), part.data.value);
    && r.generatedImageUrl == Some(url)
    && download(url).Fetched?
    && r.generatedImageBlob == Some(download(url).blob)
    && r.usage == Some(UsageOf(request.prompt, part.data.value))
  }

  /** The approximate usage reported with an image: the prompt's tokens, the returned data's
      tokens, and their sum. */
  function UsageOf(prompt: string, data: string): (u: Usage)
    ensures u.promptTokens >= 0 && u.completionTokens >= 0
    ensures u.totalTokens == u.promptTokens + u.completionTokens
  {
    var promptTokens := ApproxPromptTokens(prompt);
    var completionTokens := ApproxPromptTokens(data);
    Usage(promptTokens, completionTokens, promptTokens + completionTokens)
  }

  /** The success half of `generateWithGoogleAI`: the inline image becomes a data URL, which is
      downloaded into a blob; a failed download goes through the classification. */
  method RespondWithImage(request: Request, modelId: string, part: ReplyPart,
                          download: string -> FetchOutcome)
    returns (r: Response)
    requires part.ReplyInline? && Truthy(part.data)
    ensures r.model == Some(modelId)
    ensures r.error.Some? <==> r.generatedImageUrl.None?
    ensures Decisive(r)
    ensures download(DataUrl(ImageMime(part), part.data.value)).NotOk? ==> r == ClassifyError(DOWNLOAD_FAILED, modelId)
    ensures download(DataUrl(ImageMime(part), part.data.value)).FetchThrew? ==>
      r == ClassifyError(ThrownMessage(download(DataUrl(ImageMime(part), part.data.value)).thrown), modelId)
    ensures download(DataUrl(ImageMime(part), part.data.value)).Fetched? ==> ImageResponse(r, request, part, download)
    ensures r.generatedImageUrl.Some? ==> ImageResponse(r, request, part, download)
  {
    var imageData := part.data.value;
    var imageUrl := DataUrl(ImageMime(part), imageData);
    var fetched := download(imageUrl);
    if fetched.NotOk? {
      return ClassifyError(DOWNLOAD_FAILED, modelId);
    }
    if fetched.FetchThrew? {
      return ClassifyError(ThrownMessage(fetched.thrown), modelId);
    }
    r := Response(Some(imageUrl), Some(fetched.blob), None, Some(modelId), Some(UsageOf(request.prompt, imageData)));
  }

  /** `generateWithGoogleAI`: sends the prompt parts, turns the first inline image of the reply into
      a data URL, downloads it, and reports the URL, blob, model and an approximate usage; any
      failure on the way goes through the classification. */
  method GenerateWithGoogle(request: Request, config: ModelConfig,
                            generate: (ModelConfig, seq<PromptPart>) -> GoogleReply,
                            download: string -> FetchOutcome)
    returns (r: Response)
    ensures r.model == Some(config.modelId)
    ensures r.error.Some? <==> r.generatedImageUrl.None?
    ensures Decisive(r)
    ensures generate(config, GooglePromptParts(request)).Threw? ==>
      r == ClassifyError(ThrownMessage(generate(config, GooglePromptParts(request)).thrown), config.modelId)
    ensures var reply := generate(config, GooglePromptParts(request));
      reply.Replied? && (FirstInline(reply.parts).None? || !Truthy(FirstInline(reply.parts).value.data)) ==>
        r == ClassifyError(NO_IMAGE, config.modelId)
    ensures var reply := generate(config, GooglePromptParts(request));
      r.generatedImageUrl.Some? ==>
        reply.Replied? && FirstInline(reply.parts).Some? &&
        ImageResponse(r, request, FirstInline(reply.parts).value, download)
    ensures var reply := generate(config, GooglePromptParts(request));
      reply.Replied? && FirstInline(reply.parts).Some? && Truthy(FirstInline(reply.parts).value.data) ==>
        var part := FirstInline(reply.parts).value;
        var url := DataUrl(ImageMime(part), part.data.value);
        && (download(url).Fetched? ==> ImageResponse(r, request, part, download))
        && (download(url).NotOk? ==> r == ClassifyError(DOWNLOAD_FAILED, config.modelId))
        && (download(url).FetchThrew? ==> r == ClassifyError(ThrownMessage(download(url).thrown), config.modelId))
  {
    var contents := BuildGooglePromptParts(request);
    var reply := generate(config, contents);
    if reply.Threw? {
      return ClassifyError(ThrownMessage(reply.thrown), config.modelId);
    }
    var imagePart := FirstInline(reply.parts);
    if imagePart.None? || !Truthy(imagePart.value.data) {
      return ClassifyError(NO_IMAGE, config.modelId);
    }
    r := RespondWithImage(request, config.modelId, imagePart.value, download);
  }

  /** What `new GoogleGenAI({...})` does when `generateWithGoogleAI` builds its client: succeed, or
      throw before the guarded call (`Some(message)` for an `Error`, `None` for anything else). */
  datatype ClientOutcome = Constructed | ConstructorThrew(thrown: Option<string>)

  /** The request passes the prompt, credential and provider checks, so Google AI is called. */
  predicate ReachesGoogle(request: Request, apiKey: string, baseUrl: string, model: string) {
    HasContent(request.prompt) && EnsureCredentials(GetModelConfig(apiKey, baseUrl, model)).None? &&
    GetModelConfig(apiKey, baseUrl, model).value.provider == "google"
  }

  /** `processRequest` against the settings values: the prompt check comes first, then the
      credential checks, then the provider check; only then is Google AI called. A client that
      fails to construct escapes `generateWithGoogleAI`'s own classification and is reported by the
      outer catch, after the generic prefix. */
  method ProcessRequest(request: Request, apiKey: string, baseUrl: string, model: string,
                        client: ClientOutcome,
                        generate: (ModelConfig, seq<PromptPart>) -> GoogleReply,
                        download: string -> FetchOutcome)
    returns (r: Response)
    ensures Decisive(r)
    ensures !HasContent(request.prompt) ==> r == Failure(PROMPT_MISSING, None)
    ensures HasContent(request.prompt) && EnsureCredentials(GetModelConfig(apiKey, baseUrl, model)).Some? ==>
      r == EnsureCredentials(GetModelConfig(apiKey, baseUrl, model)).value
    ensures HasContent(request.prompt) && EnsureCredentials(GetModelConfig(apiKey, baseUrl, model)).None? ==>
      r.model == Some(model) &&
      (GetModelConfig(apiKey, baseUrl, model).value.provider != "google" ==> r == Failure(UNSUPPORTED_PROVIDER, Some(model)))
    ensures ReachesGoogle(request, apiKey, baseUrl, model) && client.ConstructorThrew? ==>
      r == Failure(FAILED_PREFIX + ThrownMessage(client.thrown), Some(model))
    ensures ReachesGoogle(request, apiKey, baseUrl, model) && client.Constructed? ==>
      var reply := generate(GetModelConfig(apiKey, baseUrl, model).value, GooglePromptParts(request));
      && (reply.Threw? ==> r == ClassifyError(ThrownMessage(reply.thrown), model))
      && (reply.Replied? && (FirstInline(reply.parts).None? || !Truthy(FirstInline(reply.parts).value.data)) ==>
            r == ClassifyError(NO_IMAGE, model))
      && (reply.Replied? && FirstInline(reply.parts).Some? && Truthy(FirstInline(reply.parts).value.data) ==>
            var part := FirstInline(reply.parts).value;
            var url := DataUrl(ImageMime(part), part.data.value);
            && (download(url).Fetched? ==> ImageResponse(r, request, part, download))
            && (download(url).NotOk? ==> r == ClassifyError(DOWNLOAD_FAILED, model))
            && (download(url).FetchThrew? ==> r == ClassifyError(ThrownMessage(download(url).thrown), model)))
    ensures r.generatedImageUrl.Some? ==>
      ReachesGoogle(request, apiKey, baseUrl, model) && client.Constructed? && r.error.None? &&
      var reply := generate(GetModelConfig(apiKey, baseUrl, model).value, GooglePromptParts(request));
      reply.Replied? && FirstInline(reply.parts).Some? && ImageResponse(r, request, FirstInline(reply.parts).value, download)
  {
    var promptValidation := EnsurePromptProvided(request);
    if promptValidation.Some? {
      return promptValidation.value;
    }
    var config := GetModelConfig(apiKey, baseUrl, model);
    var credentialValidation := EnsureCredentials(config);
    if credentialValidation.Some? {
      return credentialValidation.value;
    }
    if config.value.provider != "google" {
      return Failure(UNSUPPORTED_PROVIDER, Some(config.value.modelId));
    }
    if client.ConstructorThrew? {
      return Failure(FAILED_PREFIX + ThrownMessage(client.thrown), Some(config.value.modelId));
    }
    r := GenerateWithGoogle(request, config.value, generate, download);
  }

  /** With the stored model and a key, a blank base URL falls back to the catalogue endpoint, so
      the request reaches Google AI. */
  lemma BlankBaseUrlFallsBack(apiKey: string)
    requires HasContent(apiKey)
    ensures EnsureCredentials(GetModelConfig(apiKey, "", DEFAULT_MODEL)).None?
    ensures GetModelConfig(apiKey, "", DEFAULT_MODEL).value.baseUrl == DEFAULT_BASE_URL
  {
    assert HasContent(DEFAULT_MODEL) by { assert !IsWhitespace(DEFAULT_MODEL[0]); }
    assert HasContent(DEFAULT_BASE_URL) by { assert !IsWhitespace(DEFAULT_BASE_URL[0]); }
  }
}
