# Maisoku backend: request decisions, modelled in Dafny

Maisoku is a property-research app. Its backend (`backend/main.py`) serves
two analysis endpoints:

- a **camera analysis** of a photographed property flyer, which requires a
  signed-in user;
- an **area analysis** of an address, open to anonymous callers and
  personalized for signed-in callers who send preference weights.

Both endpoints hand a prompt to a Gemini model and return its text. This
project models the decisions the backend takes around that call:

- **Tiered authentication.** The mandatory check answers 503 when Firebase
  is down and 401 on any verification failure. The optional check turns
  every failure into "anonymous".
- **Personalization.** The area endpoint personalizes only when a user was
  resolved and preferences were sent. The camera endpoint personalizes
  whenever preferences were sent.
- **Prompt builders.** The model covers the three prompt templates,
  including the `(最重要)` flag for weights of 4 or more and the
  comma-joined free-text lists.
- **Outcome mapping.** Each Gemini call ends in one of four ways:
  - the model's text, after a `STOP` finish reason on the first candidate;
  - the method's apology, after any other finish or with no candidate;
  - the method's error prefix followed by the exception message;
  - the "service unavailable" text, when Vertex AI or the model is missing.
- **Preference bounds.** `UserPreferences` accepts only weights in 1..5.
- **History writes.** Writing camera history is best-effort: a failing write
  never changes the response.

The identity provider's token verification, the base64 decoder, the Gemini
call and the Firestore write are never executed. Each is a total function
passed in as a parameter (`Verifier`, `Base64Decoder`, `Generator`,
`HistoryStore`). A raised exception is a value of the outcome type. A call
the code does not make never appears in the result.

Modules:

| file | module | contents |
|---|---|---|
| `wrappers.dfy` | `Wrappers` | `Option`, `Result` |
| `text.dfy` | `Text` | prefix, suffix and substring predicates; Python's `str.join` |
| `preferences.dfy` | `Preferences` | the preference record, its categories and its validation |
| `auth.dfy` | `Auth` | `verify_firebase_token`, `get_optional_auth`, the `Bearer ` parsing |
| `prompts.dfy` | `Prompts` | the three prompt builders and what their texts contain |
| `gemini.dfy` | `Gemini` | request construction and outcome mapping of the three analysis methods |
| `endpoints.dfy` | `Endpoints` | the two endpoints' decisions, response envelopes and history write |

## Model

| member | source | states |
|---|---|---|
| Preferences.Validate | backend/main.py:110-117 | The record is accepted exactly when all four weights lie in 1..5. Accepted weights are kept unchanged, and a missing list becomes the empty list. A rejection names exactly the out-of-range fields, and always at least one. |
| Auth.VerifyFirebaseToken | backend/main.py:164-177 | Firebase unavailable gives 503, whatever the token. Otherwise it succeeds exactly when verification returns claims that carry a `uid`, and returns those claims unchanged. Every other outcome is 401 "Invalid authentication token". |
| Auth.BearerToken | backend/main.py:185-186 | A token is found exactly when the header starts with `Bearer `. The header is then that prefix followed by the token. |
| Auth.BearerTokenRoundTrip | backend/main.py:185-186 | Parsing `Bearer ` + t gives back t, for every t. |
| Auth.GetOptionalAuth | backend/main.py:179-194 | None for a missing or empty header, for Firebase unavailable, and for a non-`Bearer ` header. Otherwise it returns claims exactly when the token after the prefix verifies with a `uid`, and those claims are the verifier's. |
| Auth.OptionalAuthAcceptsExactlyBearerToken | backend/main.py:179-194 | With a verifier that knows one token, optional authentication resolves the user on exactly one header: `Bearer ` followed by that token. |
| Auth.OptionalAuthClaimsNonEmpty | backend/main.py:528-530 | Resolved claims are never empty. So the endpoint's truthiness test `if user` agrees with "a user was resolved". |
| Prompts.PriorityText | backend/main.py:349-352 | A weight prints as one digit, '1' to '5', whose value is the weight. |
| Prompts.CameraPrompt | backend/main.py:331-358 | The prompt always starts with the flyer checklist. Without preferences it is that checklist plus the generic sentence. With preferences it ends with the closing instruction of the personalized block. |
| Prompts.CameraBlockEnds | backend/main.py:346-355 | The personalized camera block ends with its closing instruction. |
| Prompts.CameraPromptHoldsWeightLine | backend/main.py:346-356 | For each category, the line "- <label>重要度: n/5" with that category's weight is part of the personalized camera prompt. |
| Prompts.CameraPromptsDiffer | backend/main.py:355-358 | Sending preferences always changes the camera prompt. |
| Prompts.CameraLineShape | backend/main.py:349-352 | A camera weight line has the same length for every weight, and its digit sits at a fixed position. |
| Prompts.CameraLineDeterminesWeight | backend/main.py:349-352 | Two equal weight lines of one category carry equal weights. |
| Prompts.CameraPromptDeterminedByWeights | backend/main.py:345-356 | Two preference payloads give the same camera prompt exactly when their four weights agree. The free-text lists never reach the camera prompt. |
| Prompts.AreaBasicPrompt | backend/main.py:360-374 | The prompt is the fixed opening, then the address verbatim at a fixed position, then the fixed request for an objective analysis. Its length is the sum of the three. |
| Prompts.AreaBasicPromptRoundTrip | backend/main.py:360-374 | The address can be read back out of the basic prompt, for every address. |
| Prompts.PreferenceText | backend/main.py:378-391 | The preference section starts with the header and the four category lines. It holds the facilities line when that list is non-empty, and ends with the transport line when that list is non-empty. Its length is exactly the header and category lines plus the lines that are present. |
| Prompts.PreferenceTextWithoutLists | backend/main.py:387-391 | When both lists are empty, the preference section is only the header and the four category lines. |
| Prompts.CategoryLineFlag | backend/main.py:381-384 | A category line ends with `(最重要)` exactly when its weight is 4 or more. A weight of 3 or less puts no marker anywhere on the line. |
| Prompts.BlockHoldsCategoryLine | backend/main.py:378-385 | Every category's line, with that category's weight, is in the category block. |
| Prompts.AreaPersonalizedPrompt | backend/main.py:393-408 | The prompt starts with the opening, the address and "をあなたの好みに合わせて詳細分析します。". It ends with the preference section followed by the fixed personalized checklist. Nothing lies between the two parts. |
| Prompts.PromptHoldsPreferenceText | backend/main.py:393-396 | The personalized prompt contains the whole preference section. |
| Prompts.PromptHoldsCategoryLine | backend/main.py:378-396 | Every category's weight line is in the personalized area prompt. |
| Prompts.PromptListsEveryItem | backend/main.py:387-391 | Every requested facility and every transport type appears verbatim in the personalized area prompt. |
| Prompts.AreaPromptsDiffer | backend/main.py:360-396 | For every address and every preference payload, the basic and personalized prompts differ. |
| Text.Join | backend/main.py:388 | Joining no elements gives the empty string; joining one element gives that element. |
| Text.JoinAppend | backend/main.py:388 | Joining a concatenation is joining the parts with one separator between them. |
| Text.JoinContainsEach | backend/main.py:388 | Every element appears verbatim in the joined string. |
| Text.JoinLength | backend/main.py:391 | The joined string's length is the elements' lengths plus one separator per gap. |
| Gemini.Classify | backend/main.py:275-283 | A generation counts as completed exactly when the first candidate's finish reason is `STOP` and the text accessor succeeds. It is incomplete exactly when there is no candidate or another finish reason. A raised call or text accessor fails with its message. |
| Gemini.RenderReports | backend/main.py:275-283 | Start from any generation outcome, classify it and render it. The result is the text after a normal stop, the apology after any other stop, or the error prefix followed by the exception message. |
| Gemini.AnalyzeImage | backend/main.py:255-283 | Without Vertex AI or the model, the result is the unavailable text. A failed base64 decode gives the error prefix and the message. Otherwise the method sends the decoded JPEG and the camera prompt, and reports the outcome with the camera method's texts. |
| Gemini.AnalyzeAreaBasic | backend/main.py:285-306 | Its unavailable text when the model is missing. Otherwise it sends the basic prompt for the address and reports the outcome with the basic method's texts. |
| Gemini.AnalyzeAreaPersonalized | backend/main.py:308-329 | Its unavailable text when the model is missing. Otherwise it sends the personalized prompt for the address and preferences, and reports the outcome with the personalized method's texts. |
| Endpoints.AreaAnalysis | backend/main.py:518-557 | Personalized exactly when optional authentication resolved a user and preferences were sent. The personalized analysis runs in that case, the basic one otherwise. The metadata carries the request's address. It reports a user id exactly when a user was resolved, and that id is the user's `uid`. |
| Endpoints.CameraAnalysis | backend/main.py:462-512 | Fails exactly when mandatory authentication fails, with the same status and detail. On success the flag is "preferences were sent" and the analysis is the camera analysis of the image. The metadata is the user's `uid` and `firebase_available` = true. One history write is attempted with that uid, that analysis, the preferences, type "camera" and version "v1.0". |
| Endpoints.HistoryIsBestEffort | backend/main.py:479-512 | Whatever the history store does, the request succeeds or fails alike and returns the same response. |
| Endpoints.TokyoStationScenario | backend/main.py:518-557 | A signed-in user with weights 5, 2, 4, 1 gets a personalized analysis of "Tokyo Station" under their uid. Every weight line is in the prompt. Transportation and lifestyle are flagged; facilities and budget are not. |
| Endpoints.OsakaScenario | backend/main.py:518-557 | An anonymous request about "Osaka" gets the basic apology, unpersonalized and with no user id, when the model stops abnormally. |
| Endpoints.CameraHistoryFailureScenario | backend/main.py:479-512 | A signed-in camera request whose history write raises still gets the analysis and the personalization flag, and the failure is logged. |

## Left out

- Extracting the `Authorization: Bearer` header for the camera endpoint, and the missing-header 403 it gives, are HTTP framework wiring. The model starts from the extracted credential.
- The area endpoint's `authorization` parameter is modelled as an optional string. The framework binding that supplies it (a query parameter, as declared) is not modelled.
- Application set-up is not modelled: CORS, logging configuration, and the module-level initialisation of Firebase, Vertex AI and Google Maps. The resulting availability flags are inputs (`Endpoints.Config`, `Gemini.ServiceConfig`).
- The address-suggestion, geocoding, root, health and debug endpoints are outside the analysis core.
- Reading and deleting analysis history, and the startup hook, are outside the analysis core. So is the Google Maps client.
- Processing time and timestamps are clock readings. They are not part of the response or history models.
- Log lines are left out, except where the history write's outcome is recorded as a value (`Endpoints.HistoryLog`).
- The endpoints' outer `except` clauses that answer 500 are not modelled. In this model nothing below them raises: the analysis methods turn every failure into text, and the history write's own handler catches its exceptions.
- The SDK's `response.text` accessor is an opaque `Result` on the response. Its own rules are inside the SDK.
- `UserPreferences`'s list fields are declared as untyped `list`. The model types them as lists of strings; a non-string element would make `', '.join` raise.
- The `user_id` field of both request bodies is never read by the endpoints. It is carried but plays no part in any decision.
- Where the documented behaviour and the code disagree, the model follows the code. An abnormal camera generation returns the apology text rather than an HTTP 422. No image-size limit is enforced. User-supplied text enters the prompts unescaped.
- Prompts.PreferenceText: its own contract says the facilities line is contained somewhere in the text, not its exact position. The exact layout follows from its definition and its length clause.
