/**
 * The dashboard's live-weather card: one fetch of the current weather at
 * the study area, the state it leaves (`weather`, `loading`, `error`, with
 * a fixed fallback on any failure), the icon chosen for a weather code and
 * the screen the card shows.
 */
module LiveWeather {
  import opened Wrappers
  import opened Text
  import opened OpenWeather

  /**
   * What the card displays. A temperature of `None` is the NaN that
   * `Math.round` gives for a missing `temp`; a `None` humidity, description
   * or icon is the `undefined` read from the missing field.
   */
  datatype WeatherData = WeatherData(temperature: Option<int>, humidity: Option<real>, windSpeed: int, description: Option<string>, icon: Option<string>)

  /** Shown whenever a fetch fails. */
  const Fallback: WeatherData := WeatherData(Some(18), Some(65.0), 12, Some("partly cloudy"), Some("02d"))

  const StudyAreaLat: string := "51.945"
  const StudyAreaLon: string := "7.573"

  /** `Math.round`: the nearest integer, halves rounded up. */
  function Round(x: real): (r: int)
    ensures r as real - 0.5 <= x < r as real + 0.5
  {
    (x + 0.5).Floor
  }

  /** Metres per second to whole kilometres per hour; a missing wind or speed gives 0. */
  function WindSpeed(wind: Option<Wind>): (kmh: int)
    ensures wind.None? || wind.value.speed.None? ==> kmh == 0
    ensures wind.Some? && wind.value.speed.Some? ==>
      kmh as real - 0.5 <= wind.value.speed.value * 3.6 < kmh as real + 0.5
  {
    if wind.Some? && wind.value.speed.Some? then Round(wind.value.speed.value * 3.6) else 0
  }

  /** Three decimal digits of a status code, as a template literal writes it. */
  function StatusDigits(status: HttpStatus): (r: string)
    ensures |r| == 3 && forall i :: 0 <= i < 3 ==> '0' <= r[i] <= '9'
    ensures ((r[0] as int - '0' as int) * 100 + (r[1] as int - '0' as int) * 10 + (r[2] as int - '0' as int)) == status
  {
    [('0' as int + status / 100) as char, ('0' as int + status / 10 % 10) as char, ('0' as int + status % 10) as char]
  }

  /**
   * Reading the parsed body: `main.temp` and `main.humidity`, the wind, and
   * `weather[0]`'s description and icon, failing with the `TypeError` a
   * missing object raises, in the order the fields are read. A missing
   * `temp` or `humidity` inside `main`, or a missing `description` or `icon`
   * inside `weather[0]`, raises nothing; a `null` `weather[0]` raises.
   */
  function Decode(body: Body): (r: Result<WeatherData>)
    ensures r.Ok? <==> (body.Object? && body.payload.main.Some? && body.payload.weather.Some? &&
                        |body.payload.weather.value| > 0 && body.payload.weather.value[0].Some?)
    ensures (body.Object? && body.payload.main.Some? && body.payload.weather.Some? &&
             |body.payload.weather.value| > 0 && body.payload.weather.value[0].None?) ==>
      r == Err(PropertyError("description", true))
    ensures r.Ok? ==> var p := body.payload;
      (p.main.value.temp.Some? ==> r.value.temperature == Some(Round(p.main.value.temp.value))) &&
      (p.main.value.temp.None? ==> r.value.temperature.None?) &&
      r.value.humidity == p.main.value.humidity &&
      r.value.windSpeed == WindSpeed(p.wind) &&
      r.value.description == p.weather.value[0].value.description && r.value.icon == p.weather.value[0].value.icon
  {
    match body
    case Unparsable(m) => Err(m)
    case JsonNull => Err(PropertyError("main", true))
    case Object(p) =>
      if p.main.None? then Err(PropertyError("temp", false))
      else if p.weather.None? then Err(PropertyError("0", false))
      else if |p.weather.value| == 0 then Err(PropertyError("description", false))
      else if p.weather.value[0].None? then Err(PropertyError("description", true))
      else
        var c := p.weather.value[0].value;
        var temperature := if p.main.value.temp.Some? then Some(Round(p.main.value.temp.value)) else None;
        Ok(WeatherData(temperature, p.main.value.humidity, WindSpeed(p.wind), c.description, c.icon))
  }

  /** One fetch: the key check, the request, the status check and the decoding; the error is the message shown. */
  function Attempt(apiKey: Option<string>, fetch: string -> Outcome): (r: Result<WeatherData>)
    ensures apiKey.None? || apiKey.value == "" ==> r == Err("OpenWeather API key not configured")
  {
    if apiKey.None? || apiKey.value == "" then Err("OpenWeather API key not configured")
    else
      match fetch(WeatherUrl(StudyAreaLat, StudyAreaLon, apiKey.value))
      case Threw(e) => Err(if e.Some? then e.value else "Failed to fetch weather data")
      case Response(status, _, body) =>
        if !IsOk(status) then Err("Weather API error: " + StatusDigits(status))
        else Decode(body)
  }

  /**
   * The request goes to the study area with the configured key, and its
   * answer decides: a throw or a non-OK status fails, an OK answer succeeds
   * exactly when its body decodes.
   */
  lemma AttemptCases(apiKey: string, fetch: string -> Outcome)
    requires apiKey != ""
    ensures var answer := fetch(WeatherUrl(StudyAreaLat, StudyAreaLon, apiKey));
      (answer.Threw? ==> Attempt(Some(apiKey), fetch).Err?) &&
      (answer.Response? && !IsOk(answer.status) ==>
        Attempt(Some(apiKey), fetch) == Err("Weather API error: " + StatusDigits(answer.status))) &&
      (answer.Response? && IsOk(answer.status) ==> Attempt(Some(apiKey), fetch) == Decode(answer.body))
  {
  }

  // ---------------------------------------------------------------- icon

  datatype Icon = Sun | Cloud | CloudRain

  /** The icon for a weather code, checked in order: "01", then "02"/"03", then "09"/"10". */
  function WeatherIcon(code: string): (i: Icon)
    ensures Contains(code, "01") ==> i == Sun
    ensures !Contains(code, "01") && (Contains(code, "02") || Contains(code, "03")) ==> i == Cloud
    ensures !Contains(code, "01") && !Contains(code, "02") && !Contains(code, "03") ==>
      (i == CloudRain <==> Contains(code, "09") || Contains(code, "10"))
    ensures i == Sun <==> Contains(code, "01")
  {
    if Contains(code, "01") then Sun
    else if Contains(code, "02") || Contains(code, "03") then Cloud
    else if Contains(code, "09") || Contains(code, "10") then CloudRain
    else Cloud
  }

  predicate IsDigit(c: char) {
    '0' <= c <= '9'
  }

  /** The icon by the two-digit group of a standard code. */
  function GroupIcon(group: string): Icon {
    if group == "01" then Sun
    else if group == "02" || group == "03" then Cloud
    else if group == "09" || group == "10" then CloudRain
    else Cloud
  }

  /** In a code of two digits and a non-digit, a two-digit text occurs only as the leading group. */
  lemma LeadingGroupOnly(code: string, t: string)
    requires |code| == 3 && IsDigit(code[0]) && IsDigit(code[1]) && !IsDigit(code[2])
    requires |t| == 2 && IsDigit(t[0]) && IsDigit(t[1])
    ensures Contains(code, t) <==> code[..2] == t
  {
    ContainsIffOccurs(code, t);
    if code[..2] == t {
      assert OccursAt(code, t, 0);
    } else {
      assert !OccursAt(code, t, 0) by {
        assert code[0..2] == code[..2];
      }
      assert !OccursAt(code, t, 1) by {
        assert code[1..3][1] == code[2];
      }
    }
  }

  /**
   * A standard OpenWeather code ("01d", "10n", ...) gets the icon of its
   * two-digit group: 01 sun, 02 and 03 cloud, 09 and 10 rain, anything else
   * (04, 11, 13, 50) cloud.
   */
  lemma StandardCodeIcon(code: string)
    requires |code| == 3 && IsDigit(code[0]) && IsDigit(code[1]) && !IsDigit(code[2])
    ensures WeatherIcon(code) == GroupIcon(code[..2])
  {
    LeadingGroupOnly(code, "01");
    LeadingGroupOnly(code, "02");
    LeadingGroupOnly(code, "03");
    LeadingGroupOnly(code, "09");
    LeadingGroupOnly(code, "10");
  }

  // ---------------------------------------------------------------- card

  /** What the card renders, or the `TypeError` the render throws. */
  datatype Screen = Skeleton | Unavailable | Blank | Card(weather: WeatherData, icon: Icon) | RenderError(message: string)

  /**
   * The render: skeleton while loading, then the error line, nothing, or the
   * weather; `getWeatherIcon` calls `includes` on the icon, so a missing icon
   * throws.
   */
  function ScreenOf(loading: bool, error: Option<string>, weather: Option<WeatherData>): Screen {
    if loading then Skeleton
    else if error.Some? && weather.None? then Unavailable
    else if weather.None? then Blank
    else if weather.value.icon.None? then RenderError(PropertyError("includes", false))
    else Card(weather.value, WeatherIcon(weather.value.icon.value))
  }

  /**
   * After a fetch whose body decodes, the card shows the decoded weather with
   * the icon of its code, unless `weather[0]` had no `icon`: then the render
   * throws reading `includes` of `undefined`. A missing description only
   * leaves the description line empty.
   */
  lemma DecodedScreen(body: Body)
    requires Decode(body).Ok?
    ensures var c := body.payload.weather.value[0].value;
      var screen := ScreenOf(false, None, Some(Decode(body).value));
      (c.icon.None? ==> screen == RenderError(PropertyError("includes", false))) &&
      (c.icon.Some? ==> screen == Card(Decode(body).value, WeatherIcon(c.icon.value)) && screen.weather.description == c.description)
  {
  }

  /** The component's state. */
  class WeatherWidget {
    var weather: Option<WeatherData>
    var loading: bool
    var error: Option<string>

    /** Before the first fetch completes the card is loading with no error; afterwards there is always weather. */
    ghost predicate Valid()
      reads this
    {
      weather.Some? || (loading && error.None?)
    }

    constructor()
      ensures Valid() && weather == None && loading && error == None
    {
      weather := None;
      loading := true;
      error := None;
    }

    /** `fetchWeather`: success shows the decoded weather and clears the error; failure shows the fallback and the message. */
    method FetchWeather(apiKey: Option<string>, fetch: string -> Outcome)
      requires Valid()
      modifies this
      ensures Valid() && !loading && weather.Some?
      ensures Attempt(apiKey, fetch).Ok? ==> weather == Some(Attempt(apiKey, fetch).value) && error == None
      ensures Attempt(apiKey, fetch).Err? ==> weather == Some(Fallback) && error == Some(Attempt(apiKey, fetch).message)
    {
      loading := true;
      error := None;
      var outcome := Attempt(apiKey, fetch);
      if outcome.Ok? {
        weather := Some(outcome.value);
      } else {
        error := Some(outcome.message);
        weather := Some(Fallback);
      }
      loading := false;
    }

    /** The card never shows the "Unable to load weather data" line. */
    lemma NeverUnavailable()
      requires Valid()
      ensures ScreenOf(loading, error, weather) != Unavailable
    {
    }
  }
}
