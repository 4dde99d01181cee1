/** The navigation chatbot service (app/services/navigation_chatbot_service.py):
    it classifies the user's situation by keywords, composes the context
    block of the prompt, hands the full prompt to the generative model and
    wraps the answer with an action label and a confidence score. */
module NavigationChatbot {
  import opened Wrappers
  import opened Text
  import opened Schemas
  import Config

  datatype SituationType = HomeConversation | RouteDeviation | MissedTransport | Emergency | Unknown

  datatype Urgency = Low | Medium | High

  /** The result of situation analysis: a type, an urgency, whether the user
      needs reassurance, and the suggested follow-up actions in order. */
  datatype Situation = Situation(
    kind: SituationType,
    urgency: Urgency,
    needsReassurance: bool,
    suggestedActions: seq<string>)

  /** The mode value that marks general conversation on the home screen. */
  const HomeMode := "홈"

  const RouteDeviationKeywords: seq<string> := ["길을 이탈", "길을 잃었", "잘못된 길", "길을 못 찾"]
  const MissedTransportKeywords: seq<string> := ["버스를 놓쳤", "지하철을 놓쳤", "교통수단을 놓쳤"]
  const EmergencyKeywords: seq<string> := ["무서워", "도와주세요", "긴급", "위험"]

  const HomeActions: seq<string> := ["general_conversation", "provide_guidance"]
  const RouteDeviationActions: seq<string> := ["recalculate_route", "find_nearby_landmarks", "provide_step_by_step_guidance"]
  const MissedTransportActions: seq<string> := ["find_next_transport", "suggest_alternative_routes", "provide_wait_time_info"]
  const EmergencyActions: seq<string> := ["emergency_help", "find_safe_location", "contact_emergency_services"]

  /** The record analysis starts from, and returns when nothing matches. */
  const InitialSituation := Situation(Unknown, Low, true, [])

  /** Python truthiness of an optional string: present and non-empty. */
  predicate Present(v: Option<string>)
  {
    v.Some? && v.value != ""
  }

  /** The lowered user context, or "" when there is none. */
  function LoweredContext(request: NavigationChatRequest): (context: string)
    ensures !Present(request.userContext) ==> context == ""
    ensures Present(request.userContext) ==>
      |context| == |request.userContext.value|
      && forall k :: 0 <= k < |context| ==> context[k] == LowerChar(request.userContext.value[k])
  {
    if Present(request.userContext) then Lower(request.userContext.value) else ""
  }

  /** The fixed record that goes with each situation type. */
  function Outcome(kind: SituationType): (s: Situation)
    ensures s.kind == kind
    ensures !s.needsReassurance <==> kind == HomeConversation
    ensures s.suggestedActions == [] <==> kind == Unknown
    ensures s.urgency == High <==> kind == Emergency
    ensures s.urgency == Medium <==> kind == RouteDeviation || kind == MissedTransport
  {
    match kind
    case HomeConversation => Situation(HomeConversation, Low, false, HomeActions)
    case RouteDeviation => Situation(RouteDeviation, Medium, true, RouteDeviationActions)
    case MissedTransport => Situation(MissedTransport, Medium, true, MissedTransportActions)
    case Emergency => Situation(Emergency, High, true, EmergencyActions)
    case Unknown => InitialSituation
  }

  /** Situation analysis as a first-match-wins cascade: home mode, then route
      deviation, then missed transport (the only check that also reads the
      user context), then emergency, else unknown. */
  function Classify(request: NavigationChatRequest): (s: Situation)
    ensures s == Outcome(s.kind)
    ensures s.kind == HomeConversation <==> request.mode == HomeMode
  {
    var message := Lower(request.message);
    var context := LoweredContext(request);
    if request.mode == HomeMode then Outcome(HomeConversation)
    else if ContainsAny(message, RouteDeviationKeywords) then Outcome(RouteDeviation)
    else if ContainsAny(message, MissedTransportKeywords) || ContainsAny(context, MissedTransportKeywords) then Outcome(MissedTransport)
    else if ContainsAny(message, EmergencyKeywords) then Outcome(Emergency)
    else Outcome(Unknown)
  }

  predicate KeywordsFreeOfAsciiLetters(keywords: seq<string>)
  {
    forall j :: 0 <= j < |keywords| ==> NoAsciiLetters(keywords[j])
  }

  lemma KeywordListsFreeOfAsciiLetters()
    ensures KeywordsFreeOfAsciiLetters(RouteDeviationKeywords)
    ensures KeywordsFreeOfAsciiLetters(MissedTransportKeywords)
    ensures KeywordsFreeOfAsciiLetters(EmergencyKeywords)
  {
  }

  /** Whether the missed-transport keywords occur in the message or in the
      user context, read without lowering. */
  predicate MentionsMissedTransport(request: NavigationChatRequest)
  {
    || ContainsAny(request.message, MissedTransportKeywords)
    || (Present(request.userContext) && ContainsAny(request.userContext.value, MissedTransportKeywords))
  }

  /** Each situation type in terms of the text as the user sent it: lowering
      never changes whether the Hangul keywords match. Route deviation wins
      over everything after it, emergency reads only the message, and
      unknown means no list matched. */
  lemma ClassifyByKeywords(request: NavigationChatRequest)
    ensures var kind := Classify(request).kind;
      && (kind == RouteDeviation <==>
            request.mode != HomeMode && ContainsAny(request.message, RouteDeviationKeywords))
      && (kind == MissedTransport <==>
            request.mode != HomeMode && !ContainsAny(request.message, RouteDeviationKeywords)
            && MentionsMissedTransport(request))
      && (kind == Emergency <==>
            request.mode != HomeMode && !ContainsAny(request.message, RouteDeviationKeywords)
            && !MentionsMissedTransport(request) && ContainsAny(request.message, EmergencyKeywords))
      && (kind == Unknown <==>
            request.mode != HomeMode && !ContainsAny(request.message, RouteDeviationKeywords)
            && !MentionsMissedTransport(request) && !ContainsAny(request.message, EmergencyKeywords))
  {
    KeywordListsFreeOfAsciiLetters();
    LowerKeepsContainsAny(request.message, RouteDeviationKeywords);
    LowerKeepsContainsAny(request.message, MissedTransportKeywords);
    LowerKeepsContainsAny(request.message, EmergencyKeywords);
    if Present(request.userContext) {
      LowerKeepsContainsAny(request.userContext.value, MissedTransportKeywords);
    }
  }

  /** A validated request never takes the home branch, neither in the
      classifier nor in the composer's mode line: its mode is "도보" or
      "대중교통" (every request `ValidateRequest` accepts is `ValidRequest`). */
  lemma ValidatedRequestIsNeverHome(request: NavigationChatRequest)
    requires ValidRequest(request)
    ensures Classify(request).kind != HomeConversation
    ensures ModeOrHomeLine(request) == ModeLine(request.mode)
  {
    assert HomeMode[0] != Walking[0] && HomeMode[0] != PublicTransport[0];
  }

  /** "길을 이탈했어요 무서워요" holds a route-deviation and an emergency
      keyword; the earlier category in the cascade is the one reported. */
  lemma RouteDeviationWinsOverEmergency(location: LocationInfo)
    ensures var request := NavigationChatRequest("길을 이탈했어요 무서워요", location, None, PublicTransport, None);
      && ContainsAny(request.message, EmergencyKeywords)
      && Classify(request).kind == RouteDeviation
  {
    var request := NavigationChatRequest("길을 이탈했어요 무서워요", location, None, PublicTransport, None);
    assert OccursAt(request.message, RouteDeviationKeywords[0], 0);
    assert OccursAt(request.message, EmergencyKeywords[0], 9);
    ClassifyByKeywords(request);
  }

  /** In home mode even an emergency message is general conversation. */
  lemma HomeModeOverridesEmergency(location: LocationInfo)
    ensures var request := NavigationChatRequest("무서워요", location, None, HomeMode, None);
      && ContainsAny(request.message, EmergencyKeywords)
      && Classify(request) == Situation(HomeConversation, Low, false, ["general_conversation", "provide_guidance"])
  {
    var request := NavigationChatRequest("무서워요", location, None, HomeMode, None);
    assert OccursAt(request.message, EmergencyKeywords[0], 0);
  }

  /** The message "버스를 놓쳤어요" is classified as missed transport, with
      "find_next_transport" as its action and confidence 0.9. */
  lemma MissedBusClassified(location: LocationInfo)
    ensures var s := Classify(NavigationChatRequest("버스를 놓쳤어요", location, None, PublicTransport, None));
      && s.kind == MissedTransport
      && ActionType(s) == Some("find_next_transport")
      && ConfidenceScore(s) == 0.9
  {
    var message: string := "버스를 놓쳤어요";
    var request := NavigationChatRequest(message, location, None, PublicTransport, None);
    MissingCharRulesOut(message, RouteDeviationKeywords[0], 0);
    MissingCharRulesOut(message, RouteDeviationKeywords[1], 0);
    MissingCharRulesOut(message, RouteDeviationKeywords[2], 0);
    MissingCharRulesOut(message, RouteDeviationKeywords[3], 0);
    assert !ContainsAny(message, RouteDeviationKeywords);
    assert OccursAt(message, MissedTransportKeywords[0], 0);
    ClassifyByKeywords(request);
  }

  // ------------------------------------------------------ prompt composer

  const LocationPrefix := "위치: "
  const HomeNoteLine := "상황: 홈 화면에서의 일반 대화"
  const NoDestinationLine := "목적지: 정보 없음"
  const UseDestinationLine := "중요: 목적지 정보가 있으므로 구체적인 목적지명을 사용하여 답변하세요"
  const GenericHelpLine := "중요: 목적지 정보가 없으므로 일반적인 도움 요청 방법을 제시하세요"
  const ClosingLine := "중요: 추가 질문 없이 즉시 완결된 해결책만 제공"

  /** The first line; `formatFloat` renders a coordinate as Python's `str`
      of a float does. */
  function LocationLine(location: LocationInfo, formatFloat: real -> string): (line: string)
    ensures |line| == |LocationPrefix| + |formatFloat(location.latitude)| + 2 + |formatFloat(location.longitude)|
    ensures line[..|LocationPrefix|] == LocationPrefix
  {
    LocationPrefix + formatFloat(location.latitude) + ", " + formatFloat(location.longitude)
  }

  function ModeLine(mode: string): string
  {
    "이동수단: " + mode
  }

  function DestinationLine(address: string): string
  {
    "목적지: " + address
  }

  function UserContextLine(context: string): string
  {
    "상황: " + context
  }

  /** The instruction line for each situation type; none for unknown. */
  function SituationLine(kind: SituationType): (line: Option<string>)
    ensures line.None? <==> kind == Unknown
  {
    match kind
    case HomeConversation => Some("상황: 홈 화면 일반 대화. 친근하고 도움이 되는 답변 제공")
    case RouteDeviation => Some("상황: 길을 이탈함. 즉시 새로운 경로 안내")
    case MissedTransport => Some("상황: 교통수단 놓침. 즉시 다음 교통수단 정보 제공")
    case Emergency => Some("상황: 긴급상황. 즉시 안전 조치 안내")
    case Unknown => None
  }

  /** The second line: the travel mode, or the home-screen note. */
  function ModeOrHomeLine(request: NavigationChatRequest): (line: string)
    ensures line == HomeNoteLine <==> request.mode == HomeMode
    ensures request.mode != HomeMode ==> line == ModeLine(request.mode)
  {
    assert ModeLine(request.mode)[0] != HomeNoteLine[0];
    if request.mode != HomeMode then ModeLine(request.mode) else HomeNoteLine
  }

  /** The two destination lines: the address and the instruction to name it,
      or "no information" and the instruction to give generic help. */
  function DestinationLines(request: NavigationChatRequest): (lines: seq<string>)
    ensures |lines| == 2
  {
    if Present(request.destinationAddress)
    then [DestinationLine(request.destinationAddress.value), UseDestinationLine]
    else [NoDestinationLine, GenericHelpLine]
  }

  /** The user-context line, only when there is a context. */
  function UserContextLines(request: NavigationChatRequest): (lines: seq<string>)
    ensures |lines| == if Present(request.userContext) then 1 else 0
  {
    if Present(request.userContext) then [UserContextLine(request.userContext.value)] else []
  }

  /** The situation instruction, one line for each known type. */
  function SituationLines(kind: SituationType): (lines: seq<string>)
    ensures |lines| == if kind == Unknown then 0 else 1
  {
    if SituationLine(kind).Some? then [SituationLine(kind).value] else []
  }

  /** The lines of the context block, in order: location first, closing
      instruction last. */
  function ContextLines(request: NavigationChatRequest, situation: Situation, formatFloat: real -> string): (lines: seq<string>)
    ensures |lines| == 5 + (if Present(request.userContext) then 1 else 0)
                         + (if situation.kind != Unknown then 1 else 0)
    ensures lines[0] == LocationLine(request.location, formatFloat)
    ensures lines[1] == ModeOrHomeLine(request)
    ensures lines[2..4] == DestinationLines(request)
    ensures lines[|lines| - 1] == ClosingLine
  {
    [LocationLine(request.location, formatFloat), ModeOrHomeLine(request)]
      + DestinationLines(request) + UserContextLines(request) + SituationLines(situation.kind) + [ClosingLine]
  }

  /** Where the optional lines sit: the user context right after the
      destination lines, the situation instruction right before the closing
      line. With no instruction, the line before the closing one is the user
      context, or else the last destination line. */
  lemma OptionalContextLines(request: NavigationChatRequest, situation: Situation, formatFloat: real -> string)
    ensures var lines := ContextLines(request, situation, formatFloat);
      && (Present(request.userContext) ==> lines[4] == UserContextLine(request.userContext.value))
      && (situation.kind != Unknown ==> lines[|lines| - 2] == SituationLine(situation.kind).value)
      && (situation.kind == Unknown ==>
            lines[|lines| - 2] == if Present(request.userContext) then UserContextLine(request.userContext.value)
                                  else DestinationLines(request)[1])
  {
  }

  /** Whether none of the request's free-text parts, nor the coordinate
      texts, holds a line break. */
  predicate SingleLineFields(request: NavigationChatRequest, formatFloat: real -> string)
  {
    && '\n' !in formatFloat(request.location.latitude)
    && '\n' !in formatFloat(request.location.longitude)
    && '\n' !in request.mode
    && (request.destinationAddress.Some? ==> '\n' !in request.destinationAddress.value)
    && (request.userContext.Some? ==> '\n' !in request.userContext.value)
  }

  predicate SingleLines(lines: seq<string>)
  {
    forall j :: 0 <= j < |lines| ==> '\n' !in lines[j]
  }

  lemma {:induction false} SingleLinesConcat(a: seq<string>, b: seq<string>)
    requires SingleLines(a) && SingleLines(b)
    ensures SingleLines(a + b)
  {
    forall j | 0 <= j < |a + b| ensures '\n' !in (a + b)[j] {
      if j >= |a| { assert (a + b)[j] == b[j - |a|]; }
    }
  }

  lemma RequestLinesAreSingleLines(request: NavigationChatRequest, formatFloat: real -> string)
    requires SingleLineFields(request, formatFloat)
    ensures SingleLines([LocationLine(request.location, formatFloat), ModeOrHomeLine(request)])
    ensures SingleLines(DestinationLines(request))
    ensures SingleLines(UserContextLines(request))
    ensures SingleLines([ClosingLine])
  {
  }

  lemma SituationLinesAreSingleLines(kind: SituationType)
    ensures SingleLines(SituationLines(kind))
  {
    match kind
    case HomeConversation =>
    case RouteDeviation =>
    case MissedTransport =>
    case Emergency =>
    case Unknown =>
  }

  /** When the request's fields are single-line, splitting the context block
      at line breaks gives back exactly its lines. */
  lemma ContextBlockSplitsIntoLines(request: NavigationChatRequest, situation: Situation, formatFloat: real -> string)
    requires SingleLineFields(request, formatFloat)
    ensures Split(Join(ContextLines(request, situation, formatFloat), "\n"), '\n') == ContextLines(request, situation, formatFloat)
  {
    var head := [LocationLine(request.location, formatFloat), ModeOrHomeLine(request)];
    var destination := DestinationLines(request);
    var context := UserContextLines(request);
    var instruction := SituationLines(situation.kind);
    RequestLinesAreSingleLines(request, formatFloat);
    SituationLinesAreSingleLines(situation.kind);
    SingleLinesConcat(head, destination);
    SingleLinesConcat(head + destination, context);
    SingleLinesConcat(head + destination + context, instruction);
    SingleLinesConcat(head + destination + context + instruction, [ClosingLine]);
    SplitJoin(ContextLines(request, situation, formatFloat), '\n');
  }

  // ---------------------------------------------------- response assembly

  const FinalInstruction := "발달장애인과 경계선 지능인에게 적합한 매우 간단하고 명확한 답변을 제공하세요."
  const ErrorPrefix := "내비게이션 챗봇 오류: "
  const ClearConfidence := 0.9
  const UnclearConfidence := 0.7

  /** The prompt sent to the model: the persona text, the context block and
      the user's message, in a fixed frame. */
  function FullPrompt(systemPrompt: string, contextPrompt: string, message: string): (prompt: string)
    ensures |prompt| == |systemPrompt| + |contextPrompt| + |message| + |FinalInstruction| + 20
    ensures prompt[..1 + |systemPrompt|] == "\n" + systemPrompt
    ensures prompt[|prompt| - |FinalInstruction| - 1..] == FinalInstruction + "\n"
  {
    "\n" + systemPrompt + "\n\n현재 상황:\n" + contextPrompt + "\n\n사용자: " + message + "\n\n" + FinalInstruction + "\n"
  }

  /** The full prompt carries the context block and the message verbatim. */
  lemma FullPromptCarriesContextAndMessage(systemPrompt: string, contextPrompt: string, message: string)
    ensures Contains(FullPrompt(systemPrompt, contextPrompt, message), contextPrompt)
    ensures Contains(FullPrompt(systemPrompt, contextPrompt, message), message)
  {
    var head := "\n" + systemPrompt + "\n\n현재 상황:\n";
    var middle := "\n\n사용자: ";
    var tail := "\n\n" + FinalInstruction + "\n";
    var p := FullPrompt(systemPrompt, contextPrompt, message);
    assert p == head + contextPrompt + middle + message + tail;
    var i := |head|;
    assert p[i..i + |contextPrompt|] == contextPrompt;
    assert OccursAt(p, contextPrompt, i);
    var k := |head| + |contextPrompt| + |middle|;
    assert p[k..k + |message|] == message;
    assert OccursAt(p, message, k);
  }

  /** `action_type`: the first suggested action, if any. */
  function ActionType(situation: Situation): (a: Option<string>)
    ensures a.Some? <==> situation.suggestedActions != []
    ensures a.Some? ==> a.value == situation.suggestedActions[0]
  {
    if situation.suggestedActions != [] then Some(situation.suggestedActions[0]) else None
  }

  /** `confidence_score`: higher when the situation was recognised. */
  function ConfidenceScore(situation: Situation): (c: real)
    ensures c == ClearConfidence <==> situation.kind != Unknown
    ensures c == UnclearConfidence <==> situation.kind == Unknown
  {
    if situation.kind != Unknown then ClearConfidence else UnclearConfidence
  }

  /** For every request: the confidence lies in [0.0, 1.0]; there is no
      action label exactly when the situation is unknown, which is exactly
      when the confidence is the lower one; and a recognised situation's label
      is the first action of its fixed list. */
  lemma ResponseMetadata(request: NavigationChatRequest)
    ensures var s := Classify(request);
      && 0.0 <= ConfidenceScore(s) <= 1.0
      && (ActionType(s).None? <==> s.kind == Unknown)
      && (ActionType(s).None? <==> ConfidenceScore(s) == UnclearConfidence)
      && (s.kind == HomeConversation ==> ActionType(s) == Some("general_conversation"))
      && (s.kind == RouteDeviation ==> ActionType(s) == Some("recalculate_route"))
      && (s.kind == MissedTransport ==> ActionType(s) == Some("find_next_transport"))
      && (s.kind == Emergency ==> ActionType(s) == Some("emergency_help"))
  {
  }

  /** The service object: the settings and the persona text are fixed when
      it is built and only read afterwards. */
  class NavigationChatbotService {
    const settings: Config.Settings
    const systemPrompt: string

    constructor (settings: Config.Settings, systemPrompt: string)
      ensures this.settings == settings && this.systemPrompt == systemPrompt
    {
      this.settings := settings;
      this.systemPrompt := systemPrompt;
    }

    /** `_analyze_situation`: fills in a record that starts out as unknown. */
    method AnalyzeSituation(request: NavigationChatRequest) returns (situation: Situation)
      ensures situation == Classify(request)
    {
      var message := Lower(request.message);
      var context := if Present(request.userContext) then Lower(request.userContext.value) else "";
      situation := InitialSituation;
      if request.mode == HomeMode {
        situation := situation.(kind := HomeConversation);
        situation := situation.(urgency := Low);
        situation := situation.(needsReassurance := false);
        situation := situation.(suggestedActions := HomeActions);
        return;
      }
      if ContainsAny(message, RouteDeviationKeywords) {
        situation := situation.(kind := RouteDeviation);
        situation := situation.(urgency := Medium);
        situation := situation.(suggestedActions := RouteDeviationActions);
      } else if ContainsAny(message, MissedTransportKeywords) || ContainsAny(context, MissedTransportKeywords) {
        situation := situation.(kind := MissedTransport);
        situation := situation.(urgency := Medium);
        situation := situation.(suggestedActions := MissedTransportActions);
      } else if ContainsAny(message, EmergencyKeywords) {
        situation := situation.(kind := Emergency);
        situation := situation.(urgency := High);
        situation := situation.(needsReassurance := true);
        situation := situation.(suggestedActions := EmergencyActions);
      }
    }

    /** `_create_contextual_prompt`: appends the lines one by one, then joins
        them with line breaks. */
    method CreateContextualPrompt(request: NavigationChatRequest, situation: Situation, formatFloat: real -> string)
      returns (prompt: string)
      ensures prompt == Join(ContextLines(request, situation, formatFloat), "\n")
    {
      var contextParts := [LocationLine(request.location, formatFloat)];
      if request.mode != HomeMode {
        contextParts := contextParts + [ModeLine(request.mode)];
      } else {
        contextParts := contextParts + [HomeNoteLine];
      }
      assert contextParts == [LocationLine(request.location, formatFloat), ModeOrHomeLine(request)];
      if Present(request.destinationAddress) {
        contextParts := contextParts + [DestinationLine(request.destinationAddress.value)];
        contextParts := contextParts + [UseDestinationLine];
      } else {
        contextParts := contextParts + [NoDestinationLine];
        contextParts := contextParts + [GenericHelpLine];
      }
      assert contextParts == [LocationLine(request.location, formatFloat), ModeOrHomeLine(request)] + DestinationLines(request);
      ghost var upToDestination := contextParts;
      if Present(request.userContext) {
        contextParts := contextParts + [UserContextLine(request.userContext.value)];
      }
      assert contextParts == upToDestination + UserContextLines(request);
      ghost var upToContext := contextParts;
      var situationLine := SituationLine(situation.kind);
      if situationLine.Some? {
        contextParts := contextParts + [situationLine.value];
      }
      assert contextParts == upToContext + SituationLines(situation.kind);
      contextParts := contextParts + [ClosingLine];
      prompt := Join(contextParts, "\n");
    }

    /** `generate_navigation_response`. `generate` stands for the model call:
        the generated text, or the message of the exception it raised. On
        success the answer is the stripped text with the configured model
        name, the action label and the confidence score; any failure becomes
        one error with a fixed prefix. */
    method GenerateNavigationResponse(request: NavigationChatRequest, formatFloat: real -> string,
                                      generate: string -> Result<string, string>)
      returns (r: Result<NavigationChatResponse, string>)
      ensures var s := Classify(request);
        var out := generate(FullPrompt(systemPrompt, Join(ContextLines(request, s, formatFloat), "\n"), request.message));
        && (r.Ok? <==> out.Ok?)
        && (r.Err? ==> r.error == ErrorPrefix + out.error)
        && (r.Ok? ==> r.value == NavigationChatResponse(Strip(out.value), settings.googleAiModel,
                                                        ActionType(s), Some(ConfidenceScore(s))))
      ensures r.Ok? ==> ValidResponse(r.value)
    {
      var situation := AnalyzeSituation(request);
      var contextPrompt := CreateContextualPrompt(request, situation, formatFloat);
      var fullPrompt := FullPrompt(systemPrompt, contextPrompt, request.message);
      var response := generate(fullPrompt);
      if response.Err? {
        r := Err(ErrorPrefix + response.error);
        return;
      }
      var responseText := Strip(response.value);
      var actionType := ActionType(situation);
      var confidenceScore := ConfidenceScore(situation);
      // Building the response object cannot fail: both scores lie in [0.0, 1.0].
      var built := NewResponse(responseText, Some(settings.googleAiModel), actionType, Some(confidenceScore));
      r := Ok(built.value);
    }
  }
}
