/**
 * What the OpenWeatherMap "current weather" endpoint can answer, as the
 * dashboard sees it after `fetch` and `response.json()`. The network call is
 * not modelled: callers receive its outcome as a value.
 */
module OpenWeather {
  import opened Wrappers

  /** A status a `Response` can carry. */
  type HttpStatus = s: int | 200 <= s <= 599 witness 200

  /** `response.ok`. */
  predicate IsOk(status: HttpStatus) {
    200 <= status <= 299
  }

  /** The `main` object; either field may be absent. */
  datatype Main = Main(temp: Option<real>, humidity: Option<real>)
  /** An entry of `weather`; either field may be absent. */
  datatype Condition = Condition(description: Option<string>, icon: Option<string>)
  datatype Wind = Wind(speed: Option<real>)

  /**
   * The fields of the JSON object the dashboard reads; absent ones are
   * `None`, and so is an entry of `weather` that is JSON `null`.
   */
  datatype Payload = Payload(
    message: Option<string>,
    main: Option<Main>,
    weather: Option<seq<Option<Condition>>>,
    wind: Option<Wind>)

  /** The result of `response.json()`: an object, the literal `null`, or a parse error. */
  datatype Body = Object(payload: Payload) | JsonNull | Unparsable(parseError: string)

  /**
   * The outcome of `fetch(url)`: it threw (with the message of the `Error`, or
   * `None` when something other than an `Error` was thrown), or it answered.
   */
  datatype Outcome = Threw(error: Option<string>) | Response(status: HttpStatus, statusText: string, body: Body)

  /** The message of the `TypeError` raised when reading `property` of `null` or `undefined`. */
  function PropertyError(property: string, ofNull: bool): string {
    "Cannot read properties of " + (if ofNull then "null" else "undefined") + " (reading '" + property + "')"
  }

  /** The request URL both callers build for given coordinates and key. */
  function WeatherUrl(lat: string, lon: string, apiKey: string): string {
    "https://api.openweathermap.org/data/2.5/weather?lat=" + lat + "&lon=" + lon + "&appid=" + apiKey + "&units=metric"
  }
}
