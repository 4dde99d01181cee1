/** Request and response value objects of the navigation chatbot
    (app/models/schemas.py) and the validation that builds them from a
    parsed request body. */
module Schemas {
  import opened Wrappers
  import opened Text
  import opened Constraints

  datatype LocationInfo = LocationInfo(latitude: real, longitude: real)

  datatype NavigationChatRequest = NavigationChatRequest(
    message: string,
    location: LocationInfo,
    destinationAddress: Option<string>,
    mode: string,
    userContext: Option<string>)

  datatype NavigationChatResponse = NavigationChatResponse(
    response: string,
    model: string,
    actionType: Option<string>,
    confidenceScore: Option<real>)

  /** A JSON member that may be left out, be `null`, or carry a value. */
  datatype Supplied<T> = Absent | Null | Given(value: T)

  datatype LocationInput = LocationInput(latitude: Option<real>, longitude: Option<real>)

  /** A request body after JSON parsing. `None` marks a member left out; for
      the two optional strings a `null` is the same as leaving them out. */
  datatype NavigationChatInput = NavigationChatInput(
    message: Option<string>,
    location: Option<LocationInput>,
    destinationAddress: Option<string>,
    mode: Supplied<string>,
    userContext: Option<string>)

  const MinLatitude := -90.0
  const MaxLatitude := 90.0
  const MinLongitude := -180.0
  const MaxLongitude := 180.0
  const MaxMessageLength := 1000

  const Walking := "도보"
  const PublicTransport := "대중교통"
  const ValidModes: seq<string> := [Walking, PublicTransport]
  const DefaultMode := PublicTransport
  const DefaultResponseModel := "gemini-1.5-flash"

  const LatitudeRangeMessage := "위도는 -90에서 90 사이여야 합니다."
  const LongitudeRangeMessage := "경도는 -180에서 180 사이여야 합니다."
  const EmptyMessageMessage := "메시지는 비어있을 수 없습니다."
  const UnsupportedModeMessage := "지원하지 않는 이동 수단입니다. 지원: ['도보', '대중교통']"

  // ------------------------------------------------------------ LocationInfo

  predicate LatitudeAcceptable(v: Option<real>)
  {
    v.Some? && MinLatitude <= v.value <= MaxLatitude
  }

  predicate LongitudeAcceptable(v: Option<real>)
  {
    v.Some? && MinLongitude <= v.value <= MaxLongitude
  }

  /** `LocationInfo.validate_latitude`. */
  function ValidateLatitude(v: real): (r: Result<real, string>)
    ensures r.Ok? <==> MinLatitude <= v <= MaxLatitude
    ensures r.Ok? ==> r.value == v
  {
    if v < MinLatitude || v > MaxLatitude then Err(LatitudeRangeMessage) else Ok(v)
  }

  /** `LocationInfo.validate_longitude`. */
  function ValidateLongitude(v: real): (r: Result<real, string>)
    ensures r.Ok? <==> MinLongitude <= v <= MaxLongitude
    ensures r.Ok? ==> r.value == v
  {
    if v < MinLongitude || v > MaxLongitude then Err(LongitudeRangeMessage) else Ok(v)
  }

  /** The `latitude` field: required, `ge=-90.0, le=90.0`, then its validator.
      The bounds already reject what the validator would, so the validator's
      message is never the one reported. */
  function LatitudeField(loc: seq<string>, v: Option<real>): (c: Checked<real>)
    ensures c.Ok? <==> LatitudeAcceptable(v)
    ensures c.Ok? ==> c.value == v.value
    ensures c.Err? ==> |c.error| == 1 && c.error[0].loc == loc && !c.error[0].kind.ValueError?
    ensures c.Err? ==> (c.error[0].kind == Missing <==> v.None?)
    ensures c.Err? ==> c.error[0].kind.Missing? || c.error[0].kind.GreaterThanEqual? || c.error[0].kind.LessThanEqual?
  {
    if v.None? then Required(loc, v)
    else ThenValidate(loc, InRange(loc, v.value, MinLatitude, MaxLatitude), ValidateLatitude)
  }

  /** The `longitude` field: required, `ge=-180.0, le=180.0`, then its
      validator. */
  function LongitudeField(loc: seq<string>, v: Option<real>): (c: Checked<real>)
    ensures c.Ok? <==> LongitudeAcceptable(v)
    ensures c.Ok? ==> c.value == v.value
    ensures c.Err? ==> |c.error| == 1 && c.error[0].loc == loc && !c.error[0].kind.ValueError?
    ensures c.Err? ==> (c.error[0].kind == Missing <==> v.None?)
    ensures c.Err? ==> c.error[0].kind.Missing? || c.error[0].kind.GreaterThanEqual? || c.error[0].kind.LessThanEqual?
  {
    if v.None? then Required(loc, v)
    else ThenValidate(loc, InRange(loc, v.value, MinLongitude, MaxLongitude), ValidateLongitude)
  }

  predicate ValidLocation(l: LocationInfo)
  {
    MinLatitude <= l.latitude <= MaxLatitude && MinLongitude <= l.longitude <= MaxLongitude
  }

  /** Building a `LocationInfo` at `loc`: both coordinates are checked and
      both errors are reported, each under its own field. */
  function ValidateLocation(loc: seq<string>, input: LocationInput): (c: Checked<LocationInfo>)
    ensures c.Ok? <==> input.latitude.Some? && input.longitude.Some?
                       && ValidLocation(LocationInfo(input.latitude.value, input.longitude.value))
    ensures c.Ok? ==> c.value == LocationInfo(input.latitude.value, input.longitude.value)
    ensures c.Err? ==> 1 <= |c.error| <= 2
    ensures c.Err? ==> (ReportsUnder(c.error, loc + ["latitude"]) <==> !LatitudeAcceptable(input.latitude))
    ensures c.Err? ==> (ReportsUnder(c.error, loc + ["longitude"]) <==> !LongitudeAcceptable(input.longitude))
    ensures c.Err? ==> forall k | 0 <= k < |c.error| ::
                         c.error[k].loc == loc + ["latitude"] || c.error[k].loc == loc + ["longitude"]
    ensures c.Err? && |c.error| == 2 ==> c.error[0].loc == loc + ["latitude"] && c.error[1].loc == loc + ["longitude"]
  {
    var lat := LatitudeField(loc + ["latitude"], input.latitude);
    var lon := LongitudeField(loc + ["longitude"], input.longitude);
    if lat.Ok? && lon.Ok? then Ok(LocationInfo(lat.value, lon.value))
    else
      var errors := ErrorsOf(lat) + ErrorsOf(lon);
      assert (loc + ["longitude"])[|loc|] != (loc + ["latitude"])[|loc|];
      ReportsUnderConcat(ErrorsOf(lat), ErrorsOf(lon), loc + ["latitude"]);
      ReportsUnderConcat(ErrorsOf(lat), ErrorsOf(lon), loc + ["longitude"]);
      Err(errors)
  }

  // --------------------------------------------------- NavigationChatRequest

  /** `NavigationChatRequest.validate_message`: rejects a blank message and
      keeps the stripped text. */
  function ValidateMessage(v: string): (r: Result<string, string>)
    ensures r.Ok? <==> !AllSpace(v)
    ensures r.Ok? ==> r.value == Strip(v)
  {
    if Strip(v) == "" then Err(EmptyMessageMessage) else Ok(Strip(v))
  }

  /** `NavigationChatRequest.validate_mode`. A `null` mode reaches the
      validator too and is not in the list. */
  function ValidateMode(v: Option<string>): (r: Result<string, string>)
    ensures r.Ok? <==> v.Some? && v.value in ValidModes
    ensures r.Ok? ==> r.value == v.value
    ensures r.Err? ==> r.error == UnsupportedModeMessage
  {
    if v.None? || v.value !in ValidModes then Err(UnsupportedModeMessage) else Ok(v.value)
  }

  /** The `message` field: required, `min_length=1, max_length=1000` on the
      text as sent, then `validate_message`. */
  function MessageField(v: Option<string>): (c: Checked<string>)
    ensures c.Ok? <==> MessageAcceptable(v)
    ensures c.Ok? ==> c.value == Strip(v.value)
    ensures c.Err? ==> |c.error| == 1 && c.error[0].loc == ["message"]
  {
    if v.None? then Required(["message"], v)
    else ThenValidate(["message"], LengthInRange(["message"], v.value, 1, MaxMessageLength), ValidateMessage)
  }

  /** The `location` field: every error it reports lies under "location". */
  function LocationField(v: Option<LocationInput>): (c: Checked<LocationInfo>)
    ensures c.Ok? <==> LocationAcceptable(v)
    ensures c.Ok? ==> c.value == LocationInfo(v.value.latitude.value, v.value.longitude.value)
    ensures c.Err? ==> c.error != [] && AllUnder(c.error, ["location"])
  {
    if v.None? then Err([FieldError(["location"], Missing)])
    else
      var c := ValidateLocation(["location"], v.value);
      assert c.Err? ==> forall k | 0 <= k < |c.error| :: ["location"] <= c.error[k].loc by {
        if c.Err? {
          forall k | 0 <= k < |c.error| ensures ["location"] <= c.error[k].loc {
            assert c.error[k].loc[0] == "location";
          }
        }
      }
      c
  }

  /** The `mode` field: defaults to "대중교통" when left out (the default is
      not validated); otherwise `validate_mode`. */
  function ModeField(v: Supplied<string>): (c: Checked<string>)
    ensures c.Ok? <==> ModeAcceptable(v)
    ensures c.Ok? ==> c.value == if v.Given? then v.value else DefaultMode
    ensures c.Err? ==> c.error == [FieldError(["mode"], ValueError(UnsupportedModeMessage))]
  {
    if v.Absent? then Ok(DefaultMode)
    else
      match ValidateMode(if v.Given? then Some(v.value) else None)
      case Ok(m) => Ok(m)
      case Err(msg) => Err([FieldError(["mode"], ValueError(msg))])
  }

  predicate MessageAcceptable(v: Option<string>)
  {
    v.Some? && |v.value| <= MaxMessageLength && !AllSpace(v.value)
  }

  predicate LocationAcceptable(v: Option<LocationInput>)
  {
    v.Some? && LatitudeAcceptable(v.value.latitude) && LongitudeAcceptable(v.value.longitude)
  }

  predicate ModeAcceptable(v: Supplied<string>)
  {
    v.Absent? || (v.Given? && v.value in ValidModes)
  }

  /** What a request body must satisfy to be accepted. */
  predicate Acceptable(input: NavigationChatInput)
  {
    MessageAcceptable(input.message) && LocationAcceptable(input.location) && ModeAcceptable(input.mode)
  }

  /** What every accepted request satisfies. */
  predicate ValidRequest(r: NavigationChatRequest)
  {
    && r.message != []
    && |r.message| <= MaxMessageLength
    && Trimmed(r.message)
    && ValidLocation(r.location)
    && r.mode in ValidModes
  }

  /** The position of the request field an error location lies under. */
  function FieldOrder(loc: seq<string>): nat
  {
    if ["message"] <= loc then 0 else if ["location"] <= loc then 1 else 2
  }

  /** Parsing a `NavigationChatRequest`: every field is checked and all the
      errors are reported together, in field order. A rejection names each
      failing field, and only those. */
  function ValidateRequest(input: NavigationChatInput): (r: Checked<NavigationChatRequest>)
    ensures r.Ok? <==> Acceptable(input)
    ensures r.Ok? ==> ValidRequest(r.value)
    ensures r.Ok? ==> r.value.message == Strip(input.message.value)
    ensures r.Ok? ==> r.value.location == LocationInfo(input.location.value.latitude.value, input.location.value.longitude.value)
    ensures r.Ok? ==> r.value.mode == if input.mode.Given? then input.mode.value else DefaultMode
    ensures r.Ok? ==> r.value.destinationAddress == input.destinationAddress
                      && r.value.userContext == input.userContext
    ensures r.Err? ==> r.error != []
    ensures r.Err? ==> (ReportsUnder(r.error, ["message"]) <==> !MessageAcceptable(input.message))
    ensures r.Err? ==> (ReportsUnder(r.error, ["location"]) <==> !LocationAcceptable(input.location))
    ensures r.Err? ==> (ReportsUnder(r.error, ["mode"]) <==> !ModeAcceptable(input.mode))
    ensures r.Err? ==> forall k | 0 <= k < |r.error| ::
                         ["message"] <= r.error[k].loc || ["location"] <= r.error[k].loc || ["mode"] <= r.error[k].loc
    ensures r.Err? ==> forall i, j | 0 <= i < j < |r.error| :: FieldOrder(r.error[i].loc) <= FieldOrder(r.error[j].loc)
  {
    var message := MessageField(input.message);
    var location := LocationField(input.location);
    assert location.Ok? ==> location.value == LocationInfo(input.location.value.latitude.value, input.location.value.longitude.value);
    var mode := ModeField(input.mode);
    if message.Ok? && location.Ok? && mode.Ok? then
      Ok(NavigationChatRequest(message.value, location.value, input.destinationAddress, mode.value, input.userContext))
    else
      FieldErrorsInOrder(ErrorsOf(message), ErrorsOf(location), ErrorsOf(mode));
      Err(ErrorsOf(message) + ErrorsOf(location) + ErrorsOf(mode))
  }

  /** Errors gathered field by field, message first, then location, then
      mode: each field is reported exactly when it contributed errors, and
      the list keeps the field order. */
  lemma FieldErrorsInOrder(m: seq<FieldError>, l: seq<FieldError>, d: seq<FieldError>)
    requires AllUnder(m, ["message"]) && AllUnder(l, ["location"]) && AllUnder(d, ["mode"])
    ensures var e := m + l + d;
      && (ReportsUnder(e, ["message"]) <==> m != [])
      && (ReportsUnder(e, ["location"]) <==> l != [])
      && (ReportsUnder(e, ["mode"]) <==> d != [])
      && (forall k | 0 <= k < |e| :: ["message"] <= e[k].loc || ["location"] <= e[k].loc || ["mode"] <= e[k].loc)
      && (forall i, j | 0 <= i < j < |e| :: FieldOrder(e[i].loc) <= FieldOrder(e[j].loc))
  {
    var e := m + l + d;
    ReportsUnderConcat(m + l, d, ["message"]);
    ReportsUnderConcat(m, l, ["message"]);
    ReportsUnderConcat(m + l, d, ["location"]);
    ReportsUnderConcat(m, l, ["location"]);
    ReportsUnderConcat(m + l, d, ["mode"]);
    ReportsUnderConcat(m, l, ["mode"]);
    AllUnderExcludes(l, "location", "message");
    AllUnderExcludes(d, "mode", "message");
    AllUnderExcludes(m, "message", "location");
    AllUnderExcludes(d, "mode", "location");
    AllUnderExcludes(m, "message", "mode");
    AllUnderExcludes(l, "location", "mode");
    assert m != [] ==> ["message"] <= m[0].loc;
    assert l != [] ==> ["location"] <= l[0].loc;
    assert d != [] ==> ["mode"] <= d[0].loc;
    forall k | 0 <= k < |e|
      ensures FieldOrder(e[k].loc) == if k < |m| then 0 else if k < |m| + |l| then 1 else 2
      ensures ["message"] <= e[k].loc || ["location"] <= e[k].loc || ["mode"] <= e[k].loc
    {
      if k < |m| {
        assert e[k] == m[k];
      } else if k < |m| + |l| {
        assert e[k] == l[k - |m|];
        assert e[k].loc[0] == "location";
      } else {
        assert e[k] == d[k - |m| - |l|];
        assert e[k].loc[0] == "mode";
      }
    }
  }

  /** A body whose message has no padding is accepted with every field as
      sent, the mode defaulting to "대중교통". */
  lemma UnpaddedRequestAcceptedAsSent(input: NavigationChatInput)
    requires Acceptable(input) && Trimmed(input.message.value)
    ensures ValidateRequest(input) == Ok(NavigationChatRequest(
      input.message.value,
      LocationInfo(input.location.value.latitude.value, input.location.value.longitude.value),
      input.destinationAddress,
      if input.mode.Given? then input.mode.value else DefaultMode,
      input.userContext))
  {
    var m := input.message.value;
    assert [] + m + [] == m;
    StripPadded([], m, []);
  }

  // -------------------------------------------------- NavigationChatResponse

  predicate ValidResponse(r: NavigationChatResponse)
  {
    r.confidenceScore.None? || 0.0 <= r.confidenceScore.value <= 1.0
  }

  /** Building a `NavigationChatResponse`: `model` defaults to
      "gemini-1.5-flash", and a confidence score must lie in [0.0, 1.0]. */
  function NewResponse(response: string, model: Option<string>, actionType: Option<string>,
                       confidenceScore: Option<real>): (r: Checked<NavigationChatResponse>)
    ensures r.Ok? <==> confidenceScore.None? || 0.0 <= confidenceScore.value <= 1.0
    ensures r.Ok? ==> ValidResponse(r.value)
    ensures r.Ok? ==> r.value == NavigationChatResponse(response, model.GetOr(DefaultResponseModel), actionType, confidenceScore)
  {
    var score: Checked<Option<real>> :=
      if confidenceScore.None? then Ok(None)
      else match InRange(["confidence_score"], confidenceScore.value, 0.0, 1.0)
        case Ok(v) => Ok(Some(v))
        case Err(e) => Err(e);
    if score.Err? then Err(score.error)
    else Ok(NavigationChatResponse(response, model.GetOr(DefaultResponseModel), actionType, score.value))
  }
}
