/**
 * The request handlers index, search and apiCombined of
 * app/Http/Controllers/WeatherController.php.
 *
 * Each handler is a function of the environment keys, the favorites rows and
 * the replies the two HTTP services would give. The result is the response
 * together with the outgoing requests the handler made, in order. A reply is
 * either a status with an optional JSON body, or a connection failure. The
 * HTTP client throws on a connection failure, which ends the request as a
 * server error.
 */
module WeatherController {
  import opened Wrappers
  import opened Favorites

  const DefaultCity := "Manila"
  const Units := "metric"
  const CityNotFoundFlash := "City not found."
  const CityNotFoundJson := "City not found"
  const MissingKeyMessage := "Missing OPENWEATHER_API_KEY"

  /** The two environment values the handlers read: OPENWEATHER_API_KEY and OPENAIR_QUALITY_API_KEY. */
  datatype Config = Config(weatherKey: Option<string>, aqiKey: Option<string>)

  /** PHP truthiness of an environment string: null, "" and "0" are false. */
  predicate IsSet(value: Option<string>)
    ensures value.None? || value == Some("") || value == Some("0") ==> !IsSet(value)
    ensures IsSet(value) ==> value.Some? && |value.value| > 0
  {
    value.Some? && value.value != "" && value.value != "0"
  }

  datatype Coord = Coord(lat: Option<real>, lon: Option<real>)

  /**
   * The parts of an OpenWeatherMap reply body the handlers look at. A numeric
   * string `cod` is given as its number; a non-numeric one compares like an
   * absent one, so it is given as `None`.
   */
  datatype WeatherJson = WeatherJson(cod: Option<int>, coord: Option<Coord>)

  /** An AirVisual reply body, passed through untouched. */
  datatype AqiJson = AqiJson(aqius: Option<int>)

  /** What the HTTP client gives back: a status and an optional decoded body, or a connection failure. */
  datatype Reply<T> = Reply(status: int, json: Option<T>) | ConnectionFailed

  /** The client's `ok()`. */
  predicate Ok<T>(r: Reply<T>)
    ensures Ok(r) ==> r.Reply? && !(400 <= r.status < 600)
  {
    r.Reply? && r.status == 200
  }

  /**
   * The client's `failed()`: a client or server error status. A response
   * status lies in 100..599, so the upper bound never excludes a reply.
   */
  predicate Failed<T>(r: Reply<T>)
    ensures Failed(r) ==> r.Reply? && r.status != 200
  {
    r.Reply? && 400 <= r.status < 600
  }

  /** `json()['cod'] ?? 0`: a missing body or a missing code counts as 0. */
  function Cod(r: Reply<WeatherJson>): (cod: int)
    requires r.Reply?
    ensures cod == 200 <==> r.json.Some? && r.json.value.cod == Some(200)
  {
    match r.json
    case None => 0
    case Some(w) => w.cod.GetOr(0)
  }

  /** The guard of search and apiCombined: the reply failed or its body's code is not 200. */
  predicate WeatherRejected(r: Reply<WeatherJson>)
    requires r.Reply?
    ensures r.json.None? ==> WeatherRejected(r)
    ensures !WeatherRejected(r) ==> r.json.Some? && r.json.value.cod == Some(200) && !Failed(r)
  {
    Failed(r) || Cod(r) != 200
  }

  /** An outgoing request, with the query parameters it carries. */
  datatype Call =
    | WeatherCall(q: string, appid: Option<string>, units: string)
    | AqiCall(lat: Option<real>, lon: Option<real>, key: string)

  /** The optional air-quality lookup every handler runs after accepting the weather. */
  datatype AqiStep = AqiStep(aqi: Option<AqiJson>, calls: seq<Call>, crashed: bool)

  /**
   * The lookup runs only when the AQI key is set and the weather body has
   * coordinates. A non-200 reply leaves the AQI empty; a connection failure
   * ends the request.
   */
  function AqiLookup(config: Config, weather: Option<WeatherJson>, reply: Reply<AqiJson>): (step: AqiStep)
    ensures step.calls != [] <==> IsSet(config.aqiKey) && weather.Some? && weather.value.coord.Some?
    ensures |step.calls| <= 1
    ensures step.calls != [] ==> step.calls[0] == AqiCall(weather.value.coord.value.lat, weather.value.coord.value.lon, config.aqiKey.value)
    ensures step.crashed <==> step.calls != [] && reply.ConnectionFailed?
    ensures step.aqi.Some? <==> step.calls != [] && Ok(reply) && reply.json.Some?
    ensures step.aqi.Some? ==> step.aqi == reply.json
  {
    if IsSet(config.aqiKey) && weather.Some? && weather.value.coord.Some? then
      var coord := weather.value.coord.value;
      var call := AqiCall(coord.lat, coord.lon, config.aqiKey.value);
      match reply
      case ConnectionFailed => AqiStep(None, [call], true)
      case Reply(status, json) => AqiStep(if status == 200 then json else None, [call], false)
    else
      AqiStep(None, [], false)
  }

  /** What a handler sends back. */
  datatype Response =
    | Render(weather: Option<WeatherJson>, aqi: Option<AqiJson>, favorites: seq<Favorite>)
    | BackWithError(message: string, favorites: seq<Favorite>)
    | Invalid(errors: seq<FieldError>)
    | JsonData(weatherBody: WeatherJson, aqiBody: Option<AqiJson>)
    | JsonError(status: int, error: string)
    | ServerError

  datatype Handled = Handled(response: Response, calls: seq<Call>)

  /** After the weather is accepted: look up the AQI, then render the page or fail. */
  function RenderAfter(config: Config, rows: seq<Favorite>, weather: Option<WeatherJson>,
                       aqiReply: Reply<AqiJson>, weatherCall: Call): (h: Handled)
    ensures h.calls == [weatherCall] + AqiLookup(config, weather, aqiReply).calls
    ensures h.response.Render? || h.response.ServerError?
    ensures h.response.ServerError? <==> AqiLookup(config, weather, aqiReply).crashed
    ensures h.response.Render? ==> h.response.weather == weather && h.response.aqi == AqiLookup(config, weather, aqiReply).aqi
    ensures h.response.Render? ==> SortedByCity(h.response.favorites) && multiset(h.response.favorites) == multiset(rows)
  {
    var step := AqiLookup(config, weather, aqiReply);
    if step.crashed then Handled(ServerError, [weatherCall] + step.calls)
    else Handled(Render(weather, step.aqi, SortByCity(rows)), [weatherCall] + step.calls)
  }

  /**
   * GET / and GET /weather: with the key set, fetch the weather for the `city` query value or
   * Manila. Any 200 reply is shown, whatever its `cod`; without the key the
   * page renders with no weather and nothing is fetched.
   */
  function Index(config: Config, rows: seq<Favorite>, city: Option<string>,
                 weatherReply: Reply<WeatherJson>, aqiReply: Reply<AqiJson>): (h: Handled)
    ensures h.response.Render? || h.response.ServerError?
    ensures h.response.Render? ==> SortedByCity(h.response.favorites) && multiset(h.response.favorites) == multiset(rows)
    ensures h.calls == [] <==> !IsSet(config.weatherKey)
    ensures h.calls != [] ==> h.calls[0] == WeatherCall(if city.Some? then city.value else DefaultCity, config.weatherKey, Units)
    ensures h.calls != [] ==> h.calls[1..] == (if Ok(weatherReply) then AqiLookup(config, weatherReply.json, aqiReply).calls else [])
    ensures |h.calls| == 2 <==> IsSet(config.weatherKey) && Ok(weatherReply) && weatherReply.json.Some?
                                && weatherReply.json.value.coord.Some? && IsSet(config.aqiKey)
    ensures h.response.ServerError? <==> (h.calls != [] && weatherReply.ConnectionFailed?)
                                         || (|h.calls| == 2 && aqiReply.ConnectionFailed?)
    ensures h.response.Render? ==> (h.response.weather.Some? <==> IsSet(config.weatherKey) && Ok(weatherReply) && weatherReply.json.Some?)
    ensures h.response.Render? && h.response.weather.Some? ==> h.response.weather == weatherReply.json
    ensures h.response.Render? ==> (h.response.aqi.Some? <==> |h.calls| == 2 && Ok(aqiReply) && aqiReply.json.Some?)
    ensures h.response.Render? && h.response.aqi.Some? ==> h.response.aqi == aqiReply.json
  {
    var favorites := SortByCity(rows);
    if !IsSet(config.weatherKey) then Handled(Render(None, None, favorites), [])
    else
      var call := WeatherCall(city.GetOr(DefaultCity), config.weatherKey, Units);
      match weatherReply
      case ConnectionFailed => Handled(ServerError, [call])
      case Reply(status, json) =>
        if status == 200 then RenderAfter(config, rows, json, aqiReply, call)
        else Handled(Render(None, None, favorites), [call])
  }

  /**
   * POST /weather: validate the city, fetch its weather even when the key is
   * unset, go back with "City not found." when the reply fails or its `cod`
   * is not 200, otherwise render it with the AQI. A request without a city
   * is given as the blank city "".
   */
  function Search(config: Config, rows: seq<Favorite>, city: string,
                  weatherReply: Reply<WeatherJson>, aqiReply: Reply<AqiJson>): (h: Handled)
    ensures h.response.Invalid? <==> !ValidCity(city)
    ensures h.response.Invalid? ==> h.response.errors == CityErrors(city) && h.calls == []
    ensures !h.response.Invalid? ==> h.calls != [] && h.calls[0] == WeatherCall(city, config.weatherKey, Units)
    ensures !h.response.Invalid? ==> h.calls[1..] == (if weatherReply.Reply? && !WeatherRejected(weatherReply)
                                                      then AqiLookup(config, weatherReply.json, aqiReply).calls else [])
    ensures h.response.BackWithError? <==> ValidCity(city) && weatherReply.Reply? && WeatherRejected(weatherReply)
    ensures h.response.BackWithError? ==> h.response.message == CityNotFoundFlash && |h.calls| == 1
    ensures h.response.BackWithError? ==> SortedByCity(h.response.favorites) && multiset(h.response.favorites) == multiset(rows)
    ensures h.response.Render? ==> SortedByCity(h.response.favorites) && multiset(h.response.favorites) == multiset(rows)
    ensures h.response.Render? ==> weatherReply.Reply? && h.response.weather == weatherReply.json && h.response.weather.Some?
                                   && h.response.weather.value.cod == Some(200) && !Failed(weatherReply)
    ensures h.response.Render? ==> (h.response.aqi.Some? <==> |h.calls| == 2 && Ok(aqiReply) && aqiReply.json.Some?)
    ensures h.response.Render? && h.response.aqi.Some? ==> h.response.aqi == aqiReply.json
    ensures |h.calls| == 2 <==> ValidCity(city) && weatherReply.Reply? && !WeatherRejected(weatherReply)
                                && weatherReply.json.Some? && weatherReply.json.value.coord.Some? && IsSet(config.aqiKey)
    ensures h.response.ServerError? <==> (h.calls != [] && weatherReply.ConnectionFailed?)
                                         || (|h.calls| == 2 && aqiReply.ConnectionFailed?)
    ensures h.response.Render? || h.response.BackWithError? || h.response.Invalid? || h.response.ServerError?
  {
    var errors := CityErrors(city);
    if errors != [] then Handled(Invalid(errors), [])
    else
      var call := WeatherCall(city, config.weatherKey, Units);
      match weatherReply
      case ConnectionFailed => Handled(ServerError, [call])
      case Reply(_, _) =>
        if WeatherRejected(weatherReply) then Handled(BackWithError(CityNotFoundFlash, SortByCity(rows)), [call])
        else RenderAfter(config, rows, weatherReply.json, aqiReply, call)
  }

  /**
   * GET /api/combined/{city}: 500 without the key, 404 when the reply fails or
   * its `cod` is not 200, otherwise the weather and AQI bodies as JSON.
   */
  function ApiCombined(config: Config, city: string,
                       weatherReply: Reply<WeatherJson>, aqiReply: Reply<AqiJson>): (h: Handled)
    ensures h.response == JsonError(500, MissingKeyMessage) <==> !IsSet(config.weatherKey)
    ensures h.calls == [] <==> !IsSet(config.weatherKey)
    ensures h.calls != [] ==> h.calls[0] == WeatherCall(city, config.weatherKey, Units)
    ensures h.calls != [] ==> h.calls[1..] == (if weatherReply.Reply? && !WeatherRejected(weatherReply)
                                               then AqiLookup(config, weatherReply.json, aqiReply).calls else [])
    ensures h.response == JsonError(404, CityNotFoundJson) <==> IsSet(config.weatherKey) && weatherReply.Reply? && WeatherRejected(weatherReply)
    ensures h.response.JsonError? <==> !IsSet(config.weatherKey) || (weatherReply.Reply? && WeatherRejected(weatherReply))
    ensures h.response.JsonError? ==> |h.calls| <= 1
    ensures h.response.JsonData? ==> weatherReply.Reply? && Some(h.response.weatherBody) == weatherReply.json
                                     && h.response.weatherBody.cod == Some(200) && !Failed(weatherReply)
    ensures h.response.JsonData? ==> (h.response.aqiBody.Some? <==> |h.calls| == 2 && Ok(aqiReply) && aqiReply.json.Some?)
    ensures h.response.JsonData? && h.response.aqiBody.Some? ==> h.response.aqiBody == aqiReply.json
    ensures h.response.ServerError? <==> (h.calls != [] && weatherReply.ConnectionFailed?)
                                         || (|h.calls| == 2 && aqiReply.ConnectionFailed?)
    ensures h.response.JsonData? || h.response.JsonError? || h.response.ServerError?
  {
    if !IsSet(config.weatherKey) then Handled(JsonError(500, MissingKeyMessage), [])
    else
      var call := WeatherCall(city, config.weatherKey, Units);
      match weatherReply
      case ConnectionFailed => Handled(ServerError, [call])
      case Reply(_, _) =>
        if WeatherRejected(weatherReply) then Handled(JsonError(404, CityNotFoundJson), [call])
        else
          var step := AqiLookup(config, weatherReply.json, aqiReply);
          if step.crashed then Handled(ServerError, [call] + step.calls)
          else Handled(JsonData(weatherReply.json.value, step.aqi), [call] + step.calls)
  }

  /**
   * With the key set and a valid city, the form search and the JSON endpoint
   * make the same requests and reach the same verdict: the page renders
   * exactly when the endpoint answers with data, with the same bodies, and goes
   * back with an error exactly when the endpoint answers 404.
   */
  lemma SearchAgreesWithApiCombined(config: Config, rows: seq<Favorite>, city: string,
                                    weatherReply: Reply<WeatherJson>, aqiReply: Reply<AqiJson>)
    requires IsSet(config.weatherKey) && ValidCity(city)
    ensures var s := Search(config, rows, city, weatherReply, aqiReply);
            var a := ApiCombined(config, city, weatherReply, aqiReply);
            && s.calls == a.calls
            && (s.response.BackWithError? <==> a.response == JsonError(404, CityNotFoundJson))
            && (s.response.ServerError? <==> a.response.ServerError?)
            && (s.response.Render? <==> a.response.JsonData?)
            && (s.response.Render? ==> s.response.weather == Some(a.response.weatherBody) && s.response.aqi == a.response.aqiBody)
  {
  }

  /**
   * Unless the AQI service cannot be reached, its reply never changes what the
   * search decides about the weather: two AQI replies give the same kind of
   * response with the same weather and the same requests.
   */
  lemma AqiNeverAffectsWeather(config: Config, rows: seq<Favorite>, city: string,
                               weatherReply: Reply<WeatherJson>, aqiReply1: Reply<AqiJson>, aqiReply2: Reply<AqiJson>)
    requires aqiReply1.Reply? && aqiReply2.Reply?
    ensures var s1 := Search(config, rows, city, weatherReply, aqiReply1);
            var s2 := Search(config, rows, city, weatherReply, aqiReply2);
            && s1.calls == s2.calls
            && (s1.response.Render? <==> s2.response.Render?)
            && (s1.response.Render? ==> s1.response.weather == s2.response.weather)
            && (!s1.response.Render? ==> s1.response == s2.response)
    ensures var i1 := Index(config, rows, Some(city), weatherReply, aqiReply1);
            var i2 := Index(config, rows, Some(city), weatherReply, aqiReply2);
            && i1.calls == i2.calls
            && (i1.response.Render? <==> i2.response.Render?)
            && (i1.response.Render? ==> i1.response.weather == i2.response.weather)
  {
  }

  /**
   * The page's own load and the form search judge a reply differently: a 200
   * reply whose body reports an error code is shown by index but rejected by
   * search.
   */
  lemma IndexShowsWhatSearchRejects(config: Config, rows: seq<Favorite>, city: string,
                                    weatherReply: Reply<WeatherJson>, aqiReply: Reply<AqiJson>)
    requires IsSet(config.weatherKey) && ValidCity(city) && aqiReply.Reply?
    requires Ok(weatherReply) && weatherReply.json.Some? && weatherReply.json.value.cod != Some(200)
    ensures Index(config, rows, Some(city), weatherReply, aqiReply).response.Render?
    ensures Index(config, rows, Some(city), weatherReply, aqiReply).response.weather == weatherReply.json
    ensures Search(config, rows, city, weatherReply, aqiReply).response.BackWithError?
  {
  }

  /**
   * And the other way: a reply with a status other than 200 that is not an
   * error status, and whose body says 200, is accepted by search but shown
   * without weather by index.
   */
  lemma SearchShowsWhatIndexDrops(config: Config, rows: seq<Favorite>, city: string,
                                  weatherReply: Reply<WeatherJson>, aqiReply: Reply<AqiJson>)
    requires IsSet(config.weatherKey) && ValidCity(city) && aqiReply.Reply?
    requires weatherReply.Reply? && weatherReply.status != 200 && !Failed(weatherReply)
    requires weatherReply.json.Some? && weatherReply.json.value.cod == Some(200)
    ensures Search(config, rows, city, weatherReply, aqiReply).response.Render?
    ensures Index(config, rows, Some(city), weatherReply, aqiReply).response == Render(None, None, SortByCity(rows))
  {
  }

  /**
   * An AQI service that cannot be reached ends every handler in a server
   * error once the weather was accepted and a lookup was due, instead of
   * leaving the AQI empty.
   */
  lemma UnreachableAqiIsServerError(config: Config, rows: seq<Favorite>, city: string,
                                    weatherReply: Reply<WeatherJson>)
    requires IsSet(config.weatherKey) && IsSet(config.aqiKey) && ValidCity(city)
    requires Ok(weatherReply) && weatherReply.json.Some? && weatherReply.json.value.cod == Some(200)
    requires weatherReply.json.value.coord.Some?
    ensures Index(config, rows, Some(city), weatherReply, ConnectionFailed).response.ServerError?
    ensures Search(config, rows, city, weatherReply, ConnectionFailed).response.ServerError?
    ensures ApiCombined(config, city, weatherReply, ConnectionFailed).response.ServerError?
  {
  }

  /** A city the service does not know: the JSON endpoint answers 404, and 500 when the key is missing. */
  lemma ApiCombinedErrorStatuses(city: string, key: string)
    requires key != "" && key != "0"
    ensures ApiCombined(Config(Some(key), None), city, Reply(404, Some(WeatherJson(Some(404), None))), ConnectionFailed).response
            == JsonError(404, CityNotFoundJson)
    ensures ApiCombined(Config(None, Some(key)), city, Reply(200, Some(WeatherJson(Some(200), None))), ConnectionFailed).response
            == JsonError(500, MissingKeyMessage)
  {
  }
}
