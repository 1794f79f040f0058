/** The decision and envelope logic of the two analysis endpoints: which
    authentication tier applies, whether the analysis is personalized, what the
    response carries, and that saving history is best-effort. */
module Endpoints {
  import opened Wrappers
  import opened Preferences
  import opened Auth
  import opened Gemini
  import Prompts
  import Text

  /** Availability flags, fixed at start-up. The database handle exists
      exactly when Firebase initialised, so one flag stands for both. */
  datatype Config = Config(firebaseAvailable: bool, service: ServiceConfig)

  datatype Metadata =
    | AreaMetadata(address: string, userId: Option<string>)
    | CameraMetadata(uid: string, firebaseAvailable: bool)

  /** The response envelope (processing time and timestamp are not modelled). */
  datatype AnalysisResponse = AnalysisResponse(analysis: string, isPersonalized: bool, metadata: Metadata)

  /** The request bodies; the client-supplied `user_id` is carried but never read. */
  datatype AreaAnalysisRequest = AreaAnalysisRequest(address: string, preferences: Option<UserPreferences>, userId: Option<string>)
  datatype CameraAnalysisRequest = CameraAnalysisRequest(image: string, preferences: Option<UserPreferences>, userId: Option<string>)

  /** Python truthiness of the optional claims dictionary (`if user`). */
  predicate Truthy(user: Option<Claims>) {
    user.Some? && |user.value| > 0
  }

  /** Area analysis under optional authentication. It never fails: every
      failure below it has already become text. */
  function AreaAnalysis(cfg: Config, request: AreaAnalysisRequest, authorization: Option<string>,
                        verify: Verifier, generate: Generator): (r: AnalysisResponse)
    // personalized exactly when a user was resolved and preferences were sent
    ensures r.isPersonalized <==>
              GetOptionalAuth(cfg.firebaseAvailable, authorization, verify).Some? && request.preferences.Some?
    // the personalized analysis runs exactly when the flag says so
    ensures r.isPersonalized ==>
              r.analysis == AnalyzeAreaPersonalized(cfg.service, request.address, request.preferences.value, generate)
    ensures !r.isPersonalized ==> r.analysis == AnalyzeAreaBasic(cfg.service, request.address, generate)
    ensures r.metadata.AreaMetadata? && r.metadata.address == request.address
    // the user id is reported exactly when a user was resolved, and is that user's uid
    ensures r.metadata.userId.None? <==> GetOptionalAuth(cfg.firebaseAvailable, authorization, verify).None?
    ensures r.metadata.userId.Some? ==>
              var user := GetOptionalAuth(cfg.firebaseAvailable, authorization, verify).value;
              UidClaim in user && r.metadata.userId.value == user[UidClaim]
  {
    var user := GetOptionalAuth(cfg.firebaseAvailable, authorization, verify);
    OptionalAuthClaimsNonEmpty(cfg.firebaseAvailable, authorization, verify);
    var userId := if Truthy(user) then Some(user.value[UidClaim]) else None;
    if Truthy(user) && request.preferences.Some? then
      AnalysisResponse(
        AnalyzeAreaPersonalized(cfg.service, request.address, request.preferences.value, generate),
        true,
        AreaMetadata(request.address, userId))
    else
      AnalysisResponse(
        AnalyzeAreaBasic(cfg.service, request.address, generate),
        false,
        AreaMetadata(request.address, userId))
  }

  /** One history entry (timestamp and processing time are not modelled). */
  datatype HistoryRecord = HistoryRecord(
    userId: string,
    analysis: string,
    preferences: Option<UserPreferences>,
    analysisType: string,
    appVersion: string)

  /** Writing a history entry: a new document id, or an exception. */
  datatype SaveOutcome = Saved(documentId: string) | SaveRaised(message: string)

  type HistoryStore = HistoryRecord -> SaveOutcome

  /** What happened to the history write, as the log would tell it. */
  datatype HistoryLog = NotAttempted | HistorySaved(documentId: string) | HistoryFailed(message: string)

  datatype CameraResult = CameraResult(response: AnalysisResponse, history: HistoryLog)

  function CameraHistoryRecord(uid: string, analysis: string, preferences: Option<UserPreferences>): HistoryRecord {
    HistoryRecord(uid, analysis, preferences, "camera", "v1.0")
  }

  function LogOf(o: SaveOutcome): HistoryLog {
    match o
    case Saved(id) => HistorySaved(id)
    case SaveRaised(msg) => HistoryFailed(msg)
  }

  /** Camera analysis under mandatory authentication. Authentication errors
      are the only errors; a failing history write is logged and swallowed. */
  function CameraAnalysis(cfg: Config, credentials: string, request: CameraAnalysisRequest,
                          verify: Verifier, decode: Base64Decoder, generate: Generator,
                          store: HistoryStore): (r: Result<CameraResult, HttpError>)
    // fails exactly when mandatory authentication fails, with its status
    ensures r.Err? <==> VerifyFirebaseToken(cfg.firebaseAvailable, credentials, verify).Err?
    ensures r.Err? ==> r.error == VerifyFirebaseToken(cfg.firebaseAvailable, credentials, verify).error
    // personalized exactly when preferences were sent, whatever else holds
    ensures r.Ok? ==> r.value.response.isPersonalized == request.preferences.Some?
    ensures r.Ok? ==>
              r.value.response.analysis == AnalyzeImage(cfg.service, request.image, request.preferences, decode, generate)
    ensures r.Ok? ==>
              var claims := VerifyFirebaseToken(cfg.firebaseAvailable, credentials, verify).value;
              UidClaim in claims && r.value.response.metadata == CameraMetadata(claims[UidClaim], true)
    // a successful request always attempts the write, with the analysis just returned
    ensures r.Ok? ==>
              var claims := VerifyFirebaseToken(cfg.firebaseAvailable, credentials, verify).value;
              UidClaim in claims &&
              r.value.history == LogOf(store(CameraHistoryRecord(claims[UidClaim], r.value.response.analysis, request.preferences)))
  {
    match VerifyFirebaseToken(cfg.firebaseAvailable, credentials, verify)
    case Err(e) => Err(e)
    case Ok(user) =>
      var uid := user[UidClaim];
      var analysis := AnalyzeImage(cfg.service, request.image, request.preferences, decode, generate);
      var history :=
        if cfg.firebaseAvailable then LogOf(store(CameraHistoryRecord(uid, analysis, request.preferences)))
        else NotAttempted;
      Ok(CameraResult(
        AnalysisResponse(analysis, request.preferences.Some?, CameraMetadata(uid, cfg.firebaseAvailable)),
        history))
  }

  /** Saving history is best-effort: whatever the store does, the request
      succeeds or fails alike and the response is the same. */
  lemma HistoryIsBestEffort(cfg: Config, credentials: string, request: CameraAnalysisRequest,
                            verify: Verifier, decode: Base64Decoder, generate: Generator,
                            store1: HistoryStore, store2: HistoryStore)
    ensures CameraAnalysis(cfg, credentials, request, verify, decode, generate, store1).Ok?
            == CameraAnalysis(cfg, credentials, request, verify, decode, generate, store2).Ok?
    ensures CameraAnalysis(cfg, credentials, request, verify, decode, generate, store1).Ok? ==>
              CameraAnalysis(cfg, credentials, request, verify, decode, generate, store1).value.response
              == CameraAnalysis(cfg, credentials, request, verify, decode, generate, store2).value.response
  {
  }

  // ---- Scenarios ----

  const TokyoPreferences: UserPreferences := UserPreferences(5, 2, 4, 1, [], [])

  /** A signed-in user with weights {5, 2, 4, 1} asking about "Tokyo Station"
      gets the personalized analysis, whose prompt flags transportation and
      lifestyle and leaves facilities and budget unflagged. */
  lemma TokyoStationScenario(cfg: Config, generate: Generator)
    requires cfg.firebaseAvailable
    ensures var r := AreaAnalysis(cfg, AreaAnalysisRequest("Tokyo Station", Some(TokyoPreferences), None),
                                  Some("Bearer token-1"), AcceptOnly("token-1", map[UidClaim := "user-1"]), generate);
            && r.isPersonalized
            && r.metadata.userId == Some("user-1")
            && r.analysis == AnalyzeAreaPersonalized(cfg.service, "Tokyo Station", TokyoPreferences, generate)
    ensures var prompt := Prompts.AreaPersonalizedPrompt("Tokyo Station", TokyoPreferences);
            forall c :: Text.Contains(prompt, Prompts.CategoryLine(c, Weight(TokyoPreferences, c)))
    ensures Text.EndsWith(Prompts.CategoryLine(Transportation, 5), Prompts.MostImportant + "\n")
    ensures Text.EndsWith(Prompts.CategoryLine(Lifestyle, 4), Prompts.MostImportant + "\n")
    ensures !Text.Contains(Prompts.CategoryLine(Facilities, 2), Prompts.MostImportant)
    ensures !Text.Contains(Prompts.CategoryLine(Budget, 1), Prompts.MostImportant)
  {
    var claims := map[UidClaim := "user-1"];
    OptionalAuthAcceptsExactlyBearerToken("token-1", claims, "Bearer token-1");
    forall c: Category
      ensures Text.Contains(Prompts.AreaPersonalizedPrompt("Tokyo Station", TokyoPreferences),
                            Prompts.CategoryLine(c, Weight(TokyoPreferences, c)))
    {
      Prompts.PromptHoldsCategoryLine("Tokyo Station", TokyoPreferences, c);
    }
    Prompts.CategoryLineFlag(Transportation, 5);
    Prompts.CategoryLineFlag(Lifestyle, 4);
    Prompts.CategoryLineFlag(Facilities, 2);
    Prompts.CategoryLineFlag(Budget, 1);
  }

  /** An anonymous caller asking about "Osaka" without preferences, while the
      model stops abnormally, gets the basic analysis's apology, unpersonalized. */
  lemma OsakaScenario(cfg: Config, verify: Verifier, reason: FinishReason, text: Result<string, string>)
    requires ModelReady(cfg.service) && reason != Stop
    ensures var r := AreaAnalysis(cfg, AreaAnalysisRequest("Osaka", None, None), None, verify,
                                  _ => Responded(GenerationResponse([Candidate(reason)], text)));
            && !r.isPersonalized
            && r.metadata == AreaMetadata("Osaka", None)
            && r.analysis == AreaBasicMessages.apology
  {
  }

  /** A camera request whose history write raises still returns the analysis,
      the personalization flag and the metadata. */
  lemma CameraHistoryFailureScenario(cfg: Config, credentials: string, request: CameraAnalysisRequest,
                                     verify: Verifier, decode: Base64Decoder, generate: Generator)
    requires VerifyFirebaseToken(cfg.firebaseAvailable, credentials, verify).Ok?
    ensures var r := CameraAnalysis(cfg, credentials, request, verify, decode, generate, _ => SaveRaised("write failed"));
            && r.Ok?
            && r.value.history == HistoryFailed("write failed")
            && r.value.response.analysis == AnalyzeImage(cfg.service, request.image, request.preferences, decode, generate)
            && r.value.response.isPersonalized == request.preferences.Some?
  {
  }
}
