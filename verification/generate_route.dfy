/**
 * The `POST /api/generate` handler: it reads a JSON payload, fills in
 * defaults, clamps the intensity, checks the style, crafts the story and
 * wraps it in a response. Parsing the body is modelled by its outcome
 * (`RequestBody`); the seed the generator would derive is a parameter.
 */
module GenerateRoute {

  import opened Wrappers
  import opened Text
  import opened JsMath
  import opened StoryTables
  import opened StoryGenerator

  /**
   * A value read from a field of the JSON payload. `Composite` is an array
   * or object, carried together with the text `String()` gives for it, or
   * `None` when `String()` throws (an object such as `{"toString": 0}`,
   * whose conversion to a primitive finds nothing callable, or an array
   * holding one).
   */
  datatype JsValue =
    | Undefined
    | Null
    | Bool(b: bool)
    | Num(x: real)
    | NaN
    | Infinity(negative: bool)
    | Str(s: string)
    | Composite(rendered: Option<string>)

  /** The four fields the handler destructures; absent fields are `Undefined`. */
  datatype Fields = Fields(theme: JsValue, intensity: JsValue, duration: JsValue, style: JsValue)

  /**
   * The outcome of `request.json()`. A payload that parses to `null` or to
   * something without these keys is `Json` with every field `Undefined`.
   */
  datatype RequestBody = Unparseable | Json(fields: Fields)

  datatype ResponseBody = Ok(story: HorrorStory) | Error(message: string)

  datatype Response = Response(status: nat, body: ResponseBody)

  const DefaultTheme := "forbidden signal"
  const DefaultIntensity := 3.0
  const DefaultDuration := 75.0
  const DefaultStyle := Supernatural
  const MaxThemeLength := 80
  const ErrorMessage := "Unable to craft horror story"
  const OkStatus := 200
  const ErrorStatus := 400

  /** `String(v)` for a value the payload can hold; `None` when it throws. */
  function JsString(v: JsValue): (s: Option<string>)
    ensures s.None? <==> v.Composite? && v.rendered.None?
    ensures v.Str? ==> s == Some(v.s)
    ensures v.Composite? ==> s == v.rendered
    ensures v.Num? ==> s == Some(NumberText(v.x))
  {
    match v
    case Undefined => Some("undefined")
    case Null => Some("null")
    case Bool(b) => Some(if b then "true" else "false")
    case Num(x) => Some(NumberText(x))
    case NaN => Some("NaN")
    case Infinity(negative) => Some(if negative then "-Infinity" else "Infinity")
    case Str(s) => Some(s)
    case Composite(rendered) => rendered
  }

  /** The theme field can be turned into text without throwing. */
  predicate ThemeConverts(f: Fields) {
    f.theme.Undefined? || JsString(f.theme).Some?
  }

  /** `Number.isFinite(v)`: true only for numbers, never for numeric strings. */
  predicate IsFiniteNumber(v: JsValue): (finite: bool)
    ensures finite <==> v.Num?
  {
    match v
    case Num(_) => true
    case NaN => false
    case Infinity(_) => false
    case _ => false
  }

  /**
   * The theme: a missing one defaults, anything else is converted to text
   * and cut to 80 characters, and an empty result falls back to the default.
   * `None` when the conversion throws.
   */
  function NormalizeTheme(v: JsValue): (theme: Option<string>)
    ensures theme.None? <==> !v.Undefined? && JsString(v).None?
    ensures theme.Some? ==> 1 <= |theme.value| <= MaxThemeLength
    ensures v.Undefined? ==> theme == Some(DefaultTheme)
    ensures !v.Undefined? && JsString(v).Some? && JsString(v).value != "" ==>
      var text := JsString(v).value;
      && theme.value <= text
      && |theme.value| == if |text| < MaxThemeLength then |text| else MaxThemeLength
    ensures !v.Undefined? && JsString(v) == Some("") ==> theme == Some(DefaultTheme)
  {
    var converted := if v.Undefined? then Some(DefaultTheme) else JsString(v);
    match converted
    case None => None
    case Some(text) =>
      var cut := if |text| < MaxThemeLength then text else text[..MaxThemeLength];
      Some(if cut == "" then DefaultTheme else cut)
  }

  /** The intensity: a finite number clamped to [1, 5], anything else 3. */
  function NormalizeIntensity(v: JsValue): (intensity: real)
    ensures 1.0 <= intensity <= 5.0
    ensures v.Num? && 1.0 <= v.x <= 5.0 ==> intensity == v.x
    ensures v.Num? && v.x < 1.0 ==> intensity == 1.0
    ensures v.Num? && 5.0 < v.x ==> intensity == 5.0
    ensures !v.Num? ==> intensity == DefaultIntensity
  {
    if IsFiniteNumber(v) then Clamp(v.x, 1.0, 5.0) else DefaultIntensity
  }

  /** The duration: a finite number passes through unclamped, anything else is 75. */
  function NormalizeDuration(v: JsValue): (duration: real)
    ensures v.Num? ==> duration == v.x
    ensures !v.Num? ==> duration == DefaultDuration
  {
    if IsFiniteNumber(v) then v.x else DefaultDuration
  }

  /** The style: kept when it is exactly one of the three style names, otherwise supernatural. */
  function NormalizeStyle(v: JsValue): (style: Style)
    ensures v.Str? && StyleNamed(v.s).Some? ==> style.Name() == v.s
    ensures !(v.Str? && StyleNamed(v.s).Some?) ==> style == DefaultStyle
  {
    if v.Str? then
      match StyleNamed(v.s)
      case Some(st) => st
      case None => DefaultStyle
    else DefaultStyle
  }

  /** What the generator may assume of a request the handler passes it. */
  predicate GeneratorReady(request: HorrorStoryRequest) {
    && 1 <= |request.theme| <= MaxThemeLength
    && 1.0 <= request.intensity <= 5.0
  }

  /**
   * The validate-and-default step: a parsed payload whose theme converts to
   * text becomes a request; an unparseable body, or a theme whose `String()`
   * throws, is the error the handler's `catch` reports.
   */
  function Normalize(body: RequestBody): (r: Result<HorrorStoryRequest, string>)
    ensures r.Success? <==> body.Json? && ThemeConverts(body.fields)
    ensures r.Failure? ==> r.error == ErrorMessage
    ensures r.Success? ==> GeneratorReady(r.value)
    ensures r.Success? ==> Some(r.value.theme) == NormalizeTheme(body.fields.theme)
    ensures r.Success? ==> r.value.intensity == NormalizeIntensity(body.fields.intensity)
    ensures r.Success? ==> r.value.duration == NormalizeDuration(body.fields.duration)
    ensures r.Success? ==> r.value.style == NormalizeStyle(body.fields.style)
  {
    match body
    case Unparseable => Failure(ErrorMessage)
    case Json(f) =>
      match NormalizeTheme(f.theme)
      case None => Failure(ErrorMessage)
      case Some(theme) =>
        Success(HorrorStoryRequest(
          theme,
          NormalizeIntensity(f.intensity),
          NormalizeDuration(f.duration),
          NormalizeStyle(f.style)))
  }

  /** The payload a client would send for a request. */
  function Encode(request: HorrorStoryRequest): (f: Fields)
    ensures f.theme == Str(request.theme) && f.style == Str(request.style.Name())
    ensures f.intensity == Num(request.intensity) && f.duration == Num(request.duration)
  {
    Fields(Str(request.theme), Num(request.intensity), Num(request.duration), Str(request.style.Name()))
  }

  /** A request the generator is ready for survives a trip through the payload unchanged. */
  lemma NormalizeEncode(request: HorrorStoryRequest)
    requires GeneratorReady(request)
    ensures Normalize(Json(Encode(request))) == Success(request)
  {
    StyleNameRoundTrip(request.style);
    assert request.theme[..|request.theme|] == request.theme;
  }

  /** Normalising is idempotent: re-sending a normalised request changes nothing. */
  lemma NormalizeIdempotent(body: RequestBody)
    ensures Normalize(body).Success? ==>
      Normalize(Json(Encode(Normalize(body).value))) == Normalize(body)
  {
    if Normalize(body).Success? {
      NormalizeEncode(Normalize(body).value);
    }
  }

  /**
   * The handler: 200 with the story for a parsed payload whose theme converts
   * to text, 400 with the fixed message otherwise.
   */
  function Post(body: RequestBody, seed: Seed): (response: Response)
    ensures response.status == OkStatus <==> body.Json? && ThemeConverts(body.fields)
    ensures response.status == ErrorStatus <==> !(body.Json? && ThemeConverts(body.fields))
    ensures response.body.Error? <==> response.status == ErrorStatus
    ensures response.body.Error? ==> response.body.message == ErrorMessage
    ensures response.body.Ok? ==>
      && MinDuration <= response.body.story.durationSeconds <= MaxDuration
      && MinScenes <= |response.body.story.scenes| <= MaxScenes
      && |response.body.story.fxNotes| == 4
  {
    match Normalize(body)
    case Success(request) => Response(OkStatus, Ok(CraftHorrorStory(request, seed)))
    case Failure(message) => Response(ErrorStatus, Error(message))
  }

  /**
   * The boundary payload {theme "", intensity 0, duration 500, style
   * "unknown"}: the theme and style fall back, the intensity clamps to 1,
   * the duration passes through as 500 and the story lasts 180 seconds.
   */
  lemma BoundaryPayload(seed: Seed)
    ensures
      var body := Json(Fields(Str(""), Num(0.0), Num(500.0), Str("unknown")));
      && Normalize(body) == Success(HorrorStoryRequest(DefaultTheme, 1.0, 500.0, Supernatural))
      && Post(body, seed).status == OkStatus
      && Post(body, seed).body.story.durationSeconds == MaxDuration
  {
    assert StyleNamed("unknown") == None;
  }

  /**
   * The payload {"theme": {"toString": 0}}: `String(theme)` throws, so the
   * handler answers 400 with the fixed message, whatever the other fields.
   */
  lemma ThrowingThemePayload(seed: Seed)
    ensures
      var body := Json(Fields(Composite(None), Undefined, Undefined, Undefined));
      && Normalize(body) == Failure(ErrorMessage)
      && Post(body, seed) == Response(ErrorStatus, Error(ErrorMessage))
  {
    var body := Json(Fields(Composite(None), Undefined, Undefined, Undefined));
    assert NormalizeTheme(body.fields.theme) == None;
  }
}
