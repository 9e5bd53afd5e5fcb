/**
 * The `GET /api/weather` proxy: it validates its query, calls
 * OpenWeatherMap and translates the answer into a status and a JSON body.
 * With the upstream call given as a function from URL to outcome, the
 * handler is a total function.
 */
module WeatherRoute {
  import opened Wrappers
  import opened OpenWeather

  /** The `lat`, `lon` and `apiKey` search parameters; a missing one is `None`. */
  datatype Query = Query(lat: Option<string>, lon: Option<string>, apiKey: Option<string>)

  /** The JSON body of a reply. */
  datatype ReplyBody =
    | ErrorBody(error: string, details: Option<string>)
    | Forwarded(payload: Payload)

  datatype Reply = Reply(status: int, body: ReplyBody)

  /** JavaScript truthiness of an optional text. */
  predicate Present(v: Option<string>) {
    v.Some? && v.value != ""
  }

  /** `searchParams.get("apiKey") || process.env.OPENWEATHER_API_KEY`. */
  function ChosenKey(query: Query, envKey: Option<string>): (k: Option<string>)
    ensures Present(query.apiKey) ==> k == query.apiKey
    ensures !Present(query.apiKey) ==> k == envKey
  {
    if Present(query.apiKey) then query.apiKey else envKey
  }

  /** `errorData.message || fallback`. */
  function MessageOr(message: Option<string>, fallback: string): string {
    if Present(message) then message.value else fallback
  }

  /** The reply for an upstream answer whose status is not OK. */
  function TranslateFailure(status: HttpStatus, statusText: string, body: Body): (r: Reply)
    requires !IsOk(status)
    ensures r.body.ErrorBody? && !(200 <= r.status <= 299)
    ensures body.JsonNull? ==> r.status == 500
    ensures !body.JsonNull? ==> r.status == status
  {
    match body
    case JsonNull =>
      Reply(500, ErrorBody("Failed to fetch weather data", Some(PropertyError("message", true))))
    case Object(p) => ErrorForStatus(status, statusText, p.message)
    case Unparsable(_) => ErrorForStatus(status, statusText, None)
  }

  /** The error reply for a non-OK status, given the upstream `message` if any. */
  function ErrorForStatus(status: HttpStatus, statusText: string, message: Option<string>): (r: Reply)
    requires !IsOk(status)
    ensures r.status == status && r.body.ErrorBody?
    ensures r.body.details == Some(
      if Present(message) then message.value
      else if status == 401 then "Check your OpenWeatherMap API key"
      else if status == 429 then "Too many requests"
      else statusText)
  {
    if status == 401 then
      Reply(401, ErrorBody("Invalid API key", Some(MessageOr(message, "Check your OpenWeatherMap API key"))))
    else if status == 429 then
      Reply(429, ErrorBody("Rate limit exceeded", Some(MessageOr(message, "Too many requests"))))
    else
      Reply(status, ErrorBody("OpenWeatherMap API error", Some(MessageOr(message, statusText))))
  }

  /** The reply for an OK answer: the body is forwarded only if it has `main` and `weather`. */
  function ValidateSuccess(body: Body): (r: Reply)
    ensures r.body.Forwarded? <==> body.Object? && body.payload.main.Some? && body.payload.weather.Some?
    ensures r.body.Forwarded? ==> r == Reply(200, Forwarded(body.payload))
    ensures body.Object? && r.body.ErrorBody? ==> r.status == 502
    ensures !body.Object? ==> r.status == 500
  {
    match body
    case Unparsable(e) => Reply(500, ErrorBody("Failed to fetch weather data", Some(e)))
    case JsonNull => Reply(500, ErrorBody("Failed to fetch weather data", Some(PropertyError("main", true))))
    case Object(p) =>
      if p.main.None? || p.weather.None? then
        Reply(502, ErrorBody("Invalid weather data received from API", None))
      else
        Reply(200, Forwarded(p))
  }

  /**
   * The handler. `fetch` gives the upstream outcome for a URL; it is
   * consulted only once the query has passed both guards.
   */
  function Get(query: Query, envKey: Option<string>, fetch: string -> Outcome): (r: Reply)
    ensures !Present(query.lat) || !Present(query.lon) ==>
      r == Reply(400, ErrorBody("Missing latitude or longitude parameters", None))
    ensures Present(query.lat) && Present(query.lon) && !Present(ChosenKey(query, envKey)) ==>
      r == Reply(401, ErrorBody("Missing OpenWeatherMap API key", None))
    ensures r.body.Forwarded? <==> r.status == 200
    ensures r.body.Forwarded? ==> r.body.payload.main.Some? && r.body.payload.weather.Some?
  {
    if !Present(query.lat) || !Present(query.lon) then
      Reply(400, ErrorBody("Missing latitude or longitude parameters", None))
    else
      var apiKey := ChosenKey(query, envKey);
      if !Present(apiKey) then
        Reply(401, ErrorBody("Missing OpenWeatherMap API key", None))
      else
        match fetch(WeatherUrl(query.lat.value, query.lon.value, apiKey.value))
        case Threw(e) =>
          Reply(500, ErrorBody("Failed to fetch weather data", Some(e.GetOr("Unknown error"))))
        case Response(status, statusText, body) =>
          if !IsOk(status) then TranslateFailure(status, statusText, body)
          else ValidateSuccess(body)
  }

  /** The outcome the handler sees once both guards pass. */
  function UpstreamFor(query: Query, envKey: Option<string>, fetch: string -> Outcome): Outcome
    requires Present(query.lat) && Present(query.lon) && Present(ChosenKey(query, envKey))
  {
    fetch(WeatherUrl(query.lat.value, query.lon.value, ChosenKey(query, envKey).value))
  }

  /**
   * Once both guards pass, the reply is decided by the upstream outcome alone:
   * a throw gives 500; 401 and 429 keep their status with fixed errors; any
   * other non-OK status is passed through; an OK answer is forwarded or
   * rejected with 502.
   */
  lemma UpstreamDecides(query: Query, envKey: Option<string>, fetch: string -> Outcome)
    requires Present(query.lat) && Present(query.lon) && Present(ChosenKey(query, envKey))
    ensures var up := UpstreamFor(query, envKey, fetch);
      var r := Get(query, envKey, fetch);
      && (up.Threw? ==> r.status == 500 && r.body.details == Some(up.error.GetOr("Unknown error")))
      && (up.Response? && up.status == 401 && up.body.Object? ==>
            r.status == 401 && r.body.error == "Invalid API key")
      && (up.Response? && up.status == 429 && up.body.Object? ==>
            r.status == 429 && r.body.error == "Rate limit exceeded")
      && (up.Response? && !IsOk(up.status) && !up.body.JsonNull? ==> r.status == up.status)
      && (up.Response? && IsOk(up.status) && up.body.Object? ==>
            (r.status == 502 <==> up.body.payload.main.None? || up.body.payload.weather.None?))
  {
  }

  /** The query key wins over the environment key; the environment key is used only without one. */
  lemma QueryKeyTakesPrecedence(query: Query, envKey: Option<string>, otherEnvKey: Option<string>, fetch: string -> Outcome)
    requires Present(query.apiKey)
    ensures Get(query, envKey, fetch) == Get(query, otherEnvKey, fetch)
  {
  }

  /** An error reply never carries a success status. */
  lemma ErrorRepliesAreNotSuccesses(query: Query, envKey: Option<string>, fetch: string -> Outcome)
    ensures Get(query, envKey, fetch).body.ErrorBody? ==> !(200 <= Get(query, envKey, fetch).status <= 299)
  {
  }
}
