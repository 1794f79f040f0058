/** The Gemini service: how each analysis method builds its generation request
    and maps the generator's outcome to the text it returns. The generator and
    the base64 decoder are oracle parameters. */
module Gemini {
  import opened Wrappers
  import opened Preferences
  import Prompts

  /** Why the model stopped producing a candidate. */
  datatype FinishReason =
    | FinishReasonUnspecified | Stop | MaxTokens | Safety | Recitation | Other
    | Blocklist | ProhibitedContent | Spii | MalformedFunctionCall

  datatype Candidate = Candidate(finishReason: FinishReason)

  /** A generation response. `text` is the SDK accessor, which may itself raise. */
  datatype GenerationResponse = GenerationResponse(candidates: seq<Candidate>, text: Result<string, string>)

  /** The generation call returns a response or raises. */
  datatype GenerateOutcome = Responded(response: GenerationResponse) | GenerateRaised(message: string)

  type Byte = bv8

  datatype Part = ImagePart(mimeType: string, data: seq<Byte>) | TextPart(text: string)

  datatype HarmCategory = HateSpeech | DangerousContent | SexuallyExplicit | Harassment
  datatype HarmBlockThreshold = BlockMediumAndAbove

  datatype GenerationConfig = GenerationConfig(maxOutputTokens: nat, temperature: real, topP: real)

  /** Everything the service hands to the model in one call. */
  datatype GenerateRequest = GenerateRequest(
    contents: seq<Part>,
    config: GenerationConfig,
    safety: map<HarmCategory, HarmBlockThreshold>)

  type Generator = GenerateRequest -> GenerateOutcome
  type Base64Decoder = string -> Result<seq<Byte>, string>

  const ServiceGenerationConfig: GenerationConfig := GenerationConfig(2048, 0.7, 0.8)

  const SafetySettings: map<HarmCategory, HarmBlockThreshold> := map[
    HateSpeech := BlockMediumAndAbove,
    DangerousContent := BlockMediumAndAbove,
    SexuallyExplicit := BlockMediumAndAbove,
    Harassment := BlockMediumAndAbove]

  /** The service is usable only when the platform reported it available and
      the model object was created. */
  datatype ServiceConfig = ServiceConfig(vertexAiAvailable: bool, modelLoaded: bool)

  predicate ModelReady(cfg: ServiceConfig) {
    cfg.vertexAiAvailable && cfg.modelLoaded
  }

  /** The fixed strings of one analysis method. */
  datatype Messages = Messages(unavailable: string, apology: string, errorPrefix: string)

  const ImageMessages: Messages := Messages(
    "現在、AI分析サービスは利用できません。システム管理者にお問い合わせください。",
    "申し訳ございませんが、この画像の分析を完了できませんでした。別の画像でお試しください。",
    "画像分析中にエラーが発生しました: ")

  const AreaBasicMessages: Messages := Messages(
    "現在、エリア分析サービスは利用できません。",
    "申し訳ございませんが、このエリアの分析を完了できませんでした。",
    "エリア分析中にエラーが発生しました: ")

  const AreaPersonalizedMessages: Messages := Messages(
    "現在、個人化エリア分析サービスは利用できません。",
    "申し訳ございませんが、このエリアの個人化分析を完了できませんでした。",
    "個人化エリア分析中にエラーが発生しました: ")

  /** The first candidate exists and finished normally. */
  predicate StoppedNormally(r: GenerationResponse) {
    |r.candidates| > 0 && r.candidates[0].finishReason == Stop
  }

  /** How a generation call ended, as the analysis methods tell the cases apart. */
  datatype Generation = Completed(text: string) | Incomplete | Failed(message: string)

  function Classify(o: GenerateOutcome): (g: Generation)
    ensures g.Completed? <==> o.Responded? && StoppedNormally(o.response) && o.response.text.Ok?
    ensures g.Completed? ==> g.text == o.response.text.value
    ensures g.Incomplete? <==> o.Responded? && !StoppedNormally(o.response)
    ensures o.GenerateRaised? ==> g == Failed(o.message)
    ensures o.Responded? && StoppedNormally(o.response) && o.response.text.Err? ==> g == Failed(o.response.text.error)
  {
    match o
    case GenerateRaised(msg) => Failed(msg)
    case Responded(resp) =>
      if StoppedNormally(resp) then
        match resp.text
        case Ok(t) => Completed(t)
        case Err(msg) => Failed(msg)
      else Incomplete
  }

  /** What a method must return for a generation outcome, case by case: the
      model's text after a normal stop, the method's apology after any other
      stop or with no candidate, and the error prefix followed by the exception
      text when the call or the text accessor raises. */
  predicate Reports(r: string, o: GenerateOutcome, m: Messages) {
    && (o.Responded? && StoppedNormally(o.response) && o.response.text.Ok? ==> r == o.response.text.value)
    && (o.Responded? && StoppedNormally(o.response) && o.response.text.Err? ==> r == m.errorPrefix + o.response.text.error)
    && (o.Responded? && !StoppedNormally(o.response) ==> r == m.apology)
    && (o.GenerateRaised? ==> r == m.errorPrefix + o.message)
  }

  /** The text a method returns for a classified outcome. */
  function Render(g: Generation, m: Messages): string {
    match g
    case Completed(t) => t
    case Incomplete => m.apology
    case Failed(msg) => m.errorPrefix + msg
  }

  /** Classifying and rendering meets the case-by-case specification. */
  lemma RenderReports(o: GenerateOutcome, m: Messages)
    ensures Reports(Render(Classify(o), m), o, m)
  {
  }

  function ImageRequest(data: seq<Byte>, prompt: string): GenerateRequest {
    GenerateRequest([ImagePart("image/jpeg", data), TextPart(prompt)], ServiceGenerationConfig, SafetySettings)
  }

  function TextRequest(prompt: string): GenerateRequest {
    GenerateRequest([TextPart(prompt)], ServiceGenerationConfig, SafetySettings)
  }

  /** Camera analysis of a base64 image. It never raises: every failure becomes text. */
  function AnalyzeImage(cfg: ServiceConfig, base64Image: string, preferences: Option<UserPreferences>,
                        decode: Base64Decoder, generate: Generator): (r: string)
    ensures !ModelReady(cfg) ==> r == ImageMessages.unavailable
    ensures ModelReady(cfg) && decode(base64Image).Err? ==> r == ImageMessages.errorPrefix + decode(base64Image).error
    ensures ModelReady(cfg) && decode(base64Image).Ok? ==>
              Reports(r, generate(ImageRequest(decode(base64Image).value, Prompts.CameraPrompt(preferences))), ImageMessages)
  {
    if !ModelReady(cfg) then ImageMessages.unavailable
    else
      match decode(base64Image)
      case Err(msg) => ImageMessages.errorPrefix + msg
      case Ok(data) =>
        var prompt := Prompts.CameraPrompt(preferences);
        RenderReports(generate(ImageRequest(data, prompt)), ImageMessages);
        Render(Classify(generate(ImageRequest(data, prompt))), ImageMessages)
  }

  /** Basic area analysis of an address. */
  function AnalyzeAreaBasic(cfg: ServiceConfig, address: string, generate: Generator): (r: string)
    ensures !ModelReady(cfg) ==> r == AreaBasicMessages.unavailable
    ensures ModelReady(cfg) ==> Reports(r, generate(TextRequest(Prompts.AreaBasicPrompt(address))), AreaBasicMessages)
  {
    if !ModelReady(cfg) then AreaBasicMessages.unavailable
    else
      var outcome := generate(TextRequest(Prompts.AreaBasicPrompt(address)));
      RenderReports(outcome, AreaBasicMessages);
      Render(Classify(outcome), AreaBasicMessages)
  }

  /** Personalized area analysis of an address under the user's preferences. */
  function AnalyzeAreaPersonalized(cfg: ServiceConfig, address: string, preferences: UserPreferences,
                                   generate: Generator): (r: string)
    ensures !ModelReady(cfg) ==> r == AreaPersonalizedMessages.unavailable
    ensures ModelReady(cfg) ==>
              Reports(r, generate(TextRequest(Prompts.AreaPersonalizedPrompt(address, preferences))), AreaPersonalizedMessages)
  {
    if !ModelReady(cfg) then AreaPersonalizedMessages.unavailable
    else
      var outcome := generate(TextRequest(Prompts.AreaPersonalizedPrompt(address, preferences)));
      RenderReports(outcome, AreaPersonalizedMessages);
      Render(Classify(outcome), AreaPersonalizedMessages)
  }
}
