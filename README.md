# Cherry AI navigation chatbot — verified model of its decision rules

The service is a thin HTTP front to a generative-language model. It helps
users with developmental disabilities who are lost or have missed their bus
or train. It asks the model for an answer, and before and after that call it
applies a small set of fixed rules. This project models those rules and
proves what they guarantee:

* **Request validation** (`Schemas`). A `NavigationChatRequest` and its
  `LocationInfo` are built from a parsed request body. Each field is checked
  as pydantic checks it. First come the declarative bounds: a required
  field, `ge`/`le`, `min_length`/`max_length`. Then the field's
  `@validator` runs. A blank message is rejected, and an accepted message is
  stored stripped. Every failing field is reported together, in field order.
  The response object's `confidence_score` bound is checked too.
* **Settings** (`Config`). The process-wide `Settings` are read from the
  environment. They have a model whitelist, a port range and bounds on the
  default temperature and max tokens. A missing or empty API key aborts
  startup.
* **Situation classifier** (`NavigationChatbot.Classify`, and the imperative
  `NavigationChatbotService.AnalyzeSituation` proved equal to it). It is a
  first-match-wins cascade over fixed Hangul keyword lists, using substring
  containment. The order is: home mode, route deviation, missed transport
  (which also reads the user context), emergency, unknown.
* **Context prompt composer** (`ContextLines`, and the imperative
  `CreateContextualPrompt` that appends line by line and joins with line
  breaks).
* **Response assembly** (`GenerateNavigationResponse`). The answer is the
  stripped model output. `action_type` is the first suggested action.
  `confidence_score` is 0.9 or 0.7. Any failure of the model call is
  re-signalled as one error with the prefix "내비게이션 챗봇 오류: ".

`Text` models the Python string operations these rules use: `strip()`,
`lower()`, `in`, `any(...)` and `"\n".join`. `split` is added as the
inverse of `join`.

The mode whitelist is "도보" and "대중교통". So the classifier's "홈" branch,
and the composer's home note, cannot be reached through a validated request
(`ValidatedRequestIsNeverHome`). The classifier is still modelled over any
mode string, so the branch keeps its meaning.

`min_length`/`max_length` apply to the message as sent, and
`validate_message` strips it afterwards (app/models/schemas.py:127-133,
153-158). So "   " (three spaces) passes the length bound and is then
rejected as blank. A stored message is still at most 1000 characters.

The code is read under pydantic v2 semantics: config.py imports
`pydantic_settings`. So field constraints run before a `@validator`. The
settings class validates its defaults as well as the values it reads from
the environment, and every default passes. The request schema is a plain
model, so its default mode is not validated. An explicit `null` mode
reaches the validator and is rejected.

## Model

| member | source | states |
|---|---|---|
| Text.IsSpace | app/models/schemas.py:156-158 | the characters `strip()` removes: every ASCII control from tab to carriage return and the space, no printable ASCII character, and otherwise only Python's other whitespace code points up to U+3000 |
| Text.TrimStart | app/models/schemas.py:156-158 | `lstrip()` returns a suffix of its input that does not start with whitespace |
| Text.TrimEnd | app/models/schemas.py:156-158 | `rstrip()` returns a prefix of its input that does not end with whitespace |
| Text.TrimStartDropsSpaces | app/models/schemas.py:156-158 | the part `lstrip()` removes is all whitespace, and it removes everything exactly when the input is all whitespace |
| Text.TrimEndDropsSpaces | app/models/schemas.py:156-158 | the part `rstrip()` removes is all whitespace, and it removes everything exactly when the input is all whitespace |
| Text.Strip | app/models/schemas.py:156-158 | `strip()` never lengthens its input, leaves no whitespace at either end, and gives "" exactly when the input is all whitespace |
| Text.StripPadded | app/models/schemas.py:158 | whitespace + trimmed core + whitespace strips to exactly that core, so `strip()` removes the padding and nothing else |
| Text.StripIdempotent | app/services/navigation_chatbot_service.py:266 | stripping an already stripped text changes nothing |
| Text.LowerChar | app/services/navigation_chatbot_service.py:121-122 | lowering maps ASCII upper case to lower case (code + 32) and leaves every other character alone, lower-case letters included |
| Text.Lower | app/services/navigation_chatbot_service.py:121-122 | `lower()` keeps the length and lowers character by character |
| Text.Contains | app/services/navigation_chatbot_service.py:144 | `sub in text`: the empty string is in every text, a longer one never is, and a text of the same length contains exactly itself |
| Text.ContainsAny | app/services/navigation_chatbot_service.py:144 | `any(k in text for k in keywords)` holds exactly when some keyword of the list occurs in the text |
| Text.LowerKeepsContainsAny | app/services/navigation_chatbot_service.py:121-122 | lowering never changes whether a list of keywords without ASCII letters matches the text |
| Text.Join | app/services/navigation_chatbot_service.py:220 | `sep.join(parts)`: "" for no parts; otherwise it starts with the first part and ends with the last |
| Text.SplitJoin | app/services/navigation_chatbot_service.py:220 | splitting a `join` of a non-empty list of separator-free lines gives back exactly those lines |
| Text.TrimStartPadded | app/models/schemas.py:158 | `lstrip()` of whitespace followed by text that starts with no whitespace is that text |
| Text.TrimEndPadded | app/models/schemas.py:158 | `rstrip()` of text that ends with no whitespace, followed by whitespace, is that text |
| Constraints.ErrorsOf | app/models/schemas.py:121-166 | a checked field adds its own errors to its model's list when it failed, and nothing when it passed |
| Constraints.Required | app/models/schemas.py:127-137 | a required field (`...`) is accepted exactly when supplied, and is otherwise reported `Missing` at its location |
| Constraints.InRange | app/models/schemas.py:92-105 | `ge`/`le` accept a number exactly when it lies in the closed range, and report one error at the field otherwise |
| Constraints.IntInRange | app/core/config.py:67-72 | the same for an integer field |
| Constraints.LengthInRange | app/models/schemas.py:127-133 | `min_length`/`max_length` accept a string exactly when its character count lies in the range |
| Constraints.ThenValidate | app/models/schemas.py:107-119 | a `@validator` runs only on a value that passed the field's bounds; its `ValueError` becomes the field's error, and its return value becomes the field's value |
| Config.ValidateGoogleAiModel | app/core/config.py:103-114 | a model name is accepted exactly when it is one of the four supported models, and the error carries the fixed message |
| Config.ValidatePort | app/core/config.py:116-121 | a port is accepted exactly when 1024 ≤ port ≤ 65535 |
| Config.PortField | app/core/config.py:67-72 | `port` (the value found, or the default 8000) is accepted exactly in [1024, 65535]; the one error it reports is at `port` and is always a bound error, never `validate_port`'s |
| Config.ModelField | app/core/config.py:83-86 | `google_ai_model` (the value found, or the default "gemini-1.5-flash") is accepted exactly when supported; otherwise the one error is the validator's message at `google_ai_model` |
| Config.TemperatureField | app/core/config.py:89-94 | `default_temperature` (the value found, or the default 0.7) is accepted exactly in [0.0, 1.0]; otherwise one error at that field |
| Config.MaxTokensField | app/core/config.py:95-100 | `default_max_tokens` (the value found, or the default 1000) is accepted exactly in [1, 8000]; otherwise one error at that field |
| Config.LoadSettings | app/core/config.py:142-147 | startup succeeds exactly when every field is acceptable and the key is non-empty, and the settings are then the values found, each missing one replaced by its default. The settings fail validation exactly when some field is unacceptable. The key error is raised exactly when the fields validate and the key is "", with the fixed message |
| Config.InvalidSettingsNameFailingFields | app/core/config.py:63-121 | when the settings fail validation, the error names `port`, `google_api_key`, `google_ai_model`, `default_temperature` or `default_max_tokens` exactly when that field is missing or out of bounds |
| Config.DefaultsAreValid | app/core/config.py:63-100 | with only an API key set, every other field takes its default, and the defaults satisfy all constraints |
| Config.MissingKeyReported | app/core/config.py:79-82 | a missing API key always aborts startup with a `Missing` error on `google_api_key` |
| Schemas.ValidateLatitude | app/models/schemas.py:107-112 | `validate_latitude` accepts exactly the values in [-90, 90], unchanged |
| Schemas.ValidateLongitude | app/models/schemas.py:114-119 | `validate_longitude` accepts exactly the values in [-180, 180], unchanged |
| Schemas.LatitudeField | app/models/schemas.py:92-98 | latitude is accepted exactly when supplied and in [-90, 90]; otherwise one error at the field's own location, `Missing` exactly when the latitude is absent and a bound error otherwise, never the validator's message |
| Schemas.LongitudeField | app/models/schemas.py:99-105 | longitude is accepted exactly when supplied and in [-180, 180]; otherwise one error at the field's own location, `Missing` exactly when the longitude is absent and a bound error otherwise, never the validator's message |
| Schemas.ValidateLocation | app/models/schemas.py:86-119 | a `LocationInfo` is built exactly when both coordinates are present and in range. Otherwise one or two errors are reported: one at `latitude` exactly when the latitude fails, one at `longitude` exactly when the longitude fails, latitude first |
| Schemas.ValidateMessage | app/models/schemas.py:153-158 | `validate_message` rejects exactly the all-whitespace messages and returns the stripped text |
| Schemas.ValidateMode | app/models/schemas.py:160-166 | `validate_mode` accepts exactly "도보" and "대중교통" (and not `null`) |
| Schemas.MessageField | app/models/schemas.py:127-133 | the message is accepted exactly when present, at most 1000 characters as sent, and not blank; the stored value is its stripped form; a rejection is one error at `message` |
| Schemas.LocationField | app/models/schemas.py:134-137 | `location` is required, and is accepted exactly when both coordinates are, with those coordinates; every error it reports lies under `location` |
| Schemas.ModeField | app/models/schemas.py:143-146 | a missing mode becomes "대중교통"; a given mode is accepted exactly when whitelisted; `null` is rejected; a rejection is the validator's message at `mode` |
| Schemas.FieldErrorsInOrder | app/models/schemas.py:121-166 | when errors are gathered field by field, message then location then mode, each field is reported exactly when it contributed errors, no error lies outside those fields, and the list keeps the field order |
| Schemas.ValidateRequest | app/models/schemas.py:121-166 | a request is accepted exactly when every field is. An accepted request has a non-empty stripped message of at most 1000 characters, valid coordinates and a whitelisted mode; the optional strings are passed through. A rejection reports an error under `message`, `location` or `mode` exactly when that field fails, no error elsewhere, and the errors in field order |
| Schemas.UnpaddedRequestAcceptedAsSent | app/models/schemas.py:153-158 | an acceptable body whose message has no padding is accepted with every field exactly as sent |
| Schemas.NewResponse | app/models/schemas.py:183-206 | a response object is built exactly when `confidence_score` is absent or in [0.0, 1.0]; `model` defaults to "gemini-1.5-flash" |
| NavigationChatbot.Outcome | app/services/navigation_chatbot_service.py:125-172 | each type's fixed record. needs_reassurance is false only for home_conversation. The action list is empty only for unknown. Urgency is high only for emergency, and medium exactly for route deviation and missed transport |
| NavigationChatbot.LoweredContext | app/services/navigation_chatbot_service.py:122 | the lowered user context when it is truthy, "" otherwise |
| NavigationChatbot.Classify | app/services/navigation_chatbot_service.py:111-174 | the result is always the fixed record of its own type, and it is home_conversation exactly when the mode is "홈", whatever the text says |
| NavigationChatbot.KeywordListsFreeOfAsciiLetters | app/services/navigation_chatbot_service.py:144-164 | none of the keywords contains an ASCII letter, so `lower()` cannot affect them |
| NavigationChatbot.ClassifyByKeywords | app/services/navigation_chatbot_service.py:143-172 | each type in terms of the text as sent. Route deviation wins whenever a route keyword is in the message. Missed transport needs no route keyword, and a missed keyword in the message or the context. Emergency needs neither of those, and an emergency keyword in the message (never the context). Unknown means no list matched |
| NavigationChatbot.ValidatedRequestIsNeverHome | app/services/navigation_chatbot_service.py:133-196 | no request that passed validation is classified as home_conversation, and its context block carries the mode line, never the home note |
| NavigationChatbot.RouteDeviationWinsOverEmergency | app/services/navigation_chatbot_service.py:143-172 | "길을 이탈했어요 무서워요" contains an emergency keyword but is classified route_deviation |
| NavigationChatbot.HomeModeOverridesEmergency | app/services/navigation_chatbot_service.py:133-141 | with mode "홈", "무서워요" is home_conversation with low urgency, no reassurance and [general_conversation, provide_guidance] |
| NavigationChatbot.MissedBusClassified | app/services/navigation_chatbot_service.py:153-161 | "버스를 놓쳤어요" in transit mode is missed_transport, with action find_next_transport and confidence 0.9 |
| NavigationChatbot.LocationLine | app/services/navigation_chatbot_service.py:188-190 | the location line starts with "위치: ", and is as long as that prefix, the two coordinate texts and the 2-character separator together |
| NavigationChatbot.ModeOrHomeLine | app/services/navigation_chatbot_service.py:192-196 | the second line is the home note exactly when the mode is "홈", and otherwise the mode line |
| NavigationChatbot.SituationLine | app/services/navigation_chatbot_service.py:208-216 | there is a situation instruction for each known type, and none for unknown |
| NavigationChatbot.DestinationLines | app/services/navigation_chatbot_service.py:198-203 | there are always exactly two destination lines |
| NavigationChatbot.UserContextLines | app/services/navigation_chatbot_service.py:205-206 | there is one user-context line when a context is given, none otherwise |
| NavigationChatbot.SituationLines | app/services/navigation_chatbot_service.py:208-216 | the situation instruction as a list: one line for a known type, none for unknown |
| NavigationChatbot.ContextLines | app/services/navigation_chatbot_service.py:188-218 | the block has 5 lines, plus one with a user context, plus one for a known type. The location line comes first, then the mode line or home note, then the two destination lines. The closing no-follow-up line is always last |
| NavigationChatbot.OptionalContextLines | app/services/navigation_chatbot_service.py:205-216 | the user-context line sits right after the destination lines, and the situation line sits right before the closing line; with no situation line, the line before the closing one is the user context, or else the last destination line |
| NavigationChatbot.RequestLinesAreSingleLines | app/services/navigation_chatbot_service.py:188-206 | when the request's fields hold no line break, neither do the lines built from them |
| NavigationChatbot.SituationLinesAreSingleLines | app/services/navigation_chatbot_service.py:208-216 | no situation instruction holds a line break |
| NavigationChatbot.ContextBlockSplitsIntoLines | app/services/navigation_chatbot_service.py:188-220 | when the request's fields are single-line, splitting the joined block at line breaks gives back exactly its lines |
| NavigationChatbot.FullPrompt | app/services/navigation_chatbot_service.py:242-251 | the prompt opens with a line break and the persona text, ends with the fixed final instruction and a line break, and is 20 characters longer than the persona text, the context block, the message and the final instruction together |
| NavigationChatbot.FullPromptCarriesContextAndMessage | app/services/navigation_chatbot_service.py:242-251 | the full prompt contains the context block and the user's message verbatim |
| NavigationChatbot.ActionType | app/services/navigation_chatbot_service.py:269 | action_type is present exactly when there are suggested actions, and is then the first of them |
| NavigationChatbot.ConfidenceScore | app/services/navigation_chatbot_service.py:272 | the score is 0.9 exactly when the type is known, and 0.7 exactly when it is unknown |
| NavigationChatbot.ResponseMetadata | app/services/navigation_chatbot_service.py:268-272 | for every request, the score lies in [0, 1]. action_type is absent exactly when the type is unknown, which is exactly when the score is 0.7. Each known type's action_type is the first action of its fixed list |
| NavigationChatbot.NavigationChatbotService.constructor | app/services/navigation_chatbot_service.py:25-103 | the service keeps the settings and the persona text it was built with |
| NavigationChatbot.NavigationChatbotService.AnalyzeSituation | app/services/navigation_chatbot_service.py:111-174 | filling in the record field by field, starting from unknown, yields exactly `Classify` |
| NavigationChatbot.NavigationChatbotService.CreateContextualPrompt | app/services/navigation_chatbot_service.py:176-220 | appending the lines one by one and joining with "\n" yields exactly the join of `ContextLines` |
| NavigationChatbot.NavigationChatbotService.GenerateNavigationResponse | app/services/navigation_chatbot_service.py:222-285 | the model receives the full prompt built from the classified situation. It fails exactly when the model call fails, and then the error is the fixed prefix plus the call's message. On success the response is the stripped text, the configured model name, `ActionType` and `ConfidenceScore`, and it satisfies the response schema |

## Left out

- Text.LowerChar: lowers only ASCII letters. Python's `str.lower()` also maps other scripts, and 'İ' even becomes two characters. `LowerKeepsContainsAny` shows that for ASCII lowering the lowering never matters to the Hangul keyword lists. The same is not proved for full Unicode lowering.
- Floats are modelled as mathematical reals, so NaN and infinities are not covered. pydantic's bounds reject them, while the `@validator` comparisons alone would let NaN through.
- The text form of a coordinate (Python `str(float)`) is a function parameter `formatFloat`.
- The persona text set in `__init__` is fixed prose. It is a constructor parameter, not a constant in the model.
- The model call (`generate_content` with its `GenerationConfig`) is a function parameter: the prompt maps to the generated text or to the message of the exception raised. `genai.configure` and `GenerativeModel` are foreign calls, and a failure of the constructor is not modelled.
- Logging, `async`, and loading the environment and `.env` file are left out. So are case-insensitive variable names and converting variable text to the field types. Settings come in already typed.
- The `api_description` setting is left out. It is unconstrained prose, used only for API documentation.
- JSON type errors are left out: a wrong type, or `null` for a required field. Dafny's types rule them out. Error kinds and locations are modelled, but pydantic's message texts are not.
- `mode` is held as a plain string, not an optional one. Validation rejects `null`, so a validated request always has a mode. The classifier and composer are modelled over any string.
- The `ServerStatus`, `HealthStatus` and `ErrorResponse` schemas are left out. They carry no constraints and are used only by HTTP endpoints.
- HTTP routing and status mapping, the health checks, the generic chat service (app/services/google_ai_service.py), main.py and the endpoint modules are left out. They are plumbing around the rules modelled here.
