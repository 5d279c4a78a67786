/** The request side of `WeatherApiService`: for each weather category, the
    endpoint URL and the ordered query parameters the client sends. The HTTP
    call itself is not modelled; a request is the value the client would hand
    to `HttpClient.get`. */
module WeatherApi {
  import opened Wrappers
  import opened JsText
  import opened WeatherModel

  /** `environment.apiUrl` and `environment.weatherApiKey`; the key is a
      placeholder that the deploy step substitutes. */
  const ApiUrl: string := "https://api.weatherapi.com"
  const WeatherApiKey: string := "__WEATHER_API_KEY__"
  const BaseUrl: string := ApiUrl + "/v1"

  /** The query parameters the client ever sets. */
  datatype ParamName = Key | Q | Days | Aqi | Alerts | Lang | Dt | EndDt

  /** The name a parameter has on the wire. */
  function WireName(p: ParamName): string {
    match p
    case Key => "key"
    case Q => "q"
    case Days => "days"
    case Aqi => "aqi"
    case Alerts => "alerts"
    case Lang => "lang"
    case Dt => "dt"
    case EndDt => "end_dt"
  }

  /** The provider's endpoints, one per weather category. */
  datatype Endpoint =
    | CurrentJson | ForecastJson | SearchJson | HistoryJson | AlertsJson | AstronomyJson
    | MarineJson | SportsJson | TimeZoneJson | FutureJson | IPJson

  function EndpointPath(e: Endpoint): string {
    match e
    case CurrentJson => "current.json"
    case ForecastJson => "forecast.json"
    case SearchJson => "search.json"
    case HistoryJson => "history.json"
    case AlertsJson => "alerts.json"
    case AstronomyJson => "astronomy.json"
    case MarineJson => "marine.json"
    case SportsJson => "sports.json"
    case TimeZoneJson => "timezone.json"
    case FutureJson => "future.json"
    case IPJson => "ip.json"
  }

  /** One query parameter: name and value, in the order `HttpParams.set` added them. */
  type QueryParam = (ParamName, string)

  datatype Request = Request(endpoint: Endpoint, params: seq<QueryParam>) {
    /** `${this.baseUrl}/<path>`. */
    function Url(): string {
      BaseUrl + "/" + EndpointPath(endpoint)
    }
  }

  /** `HttpParams.get`: the value of the first parameter with that name. */
  function Lookup(params: seq<QueryParam>, name: ParamName): (v: Option<string>)
    ensures v.None? <==> forall i :: 0 <= i < |params| ==> params[i].0 != name
    ensures v.Some? ==> exists k :: 0 <= k < |params| && params[k] == (name, v.value)
                                    && forall i :: 0 <= i < k ==> params[i].0 != name
  {
    if params == [] then None
    else if params[0].0 == name then Some(params[0].1)
    else Lookup(params[1..], name)
  }

  /** The value a request sends for a parameter, if it sends one. */
  function Param(r: Request, name: ParamName): Option<string> {
    Lookup(r.params, name)
  }

  /** The first of two optional values that is present. */
  function Or(x: Option<string>, y: Option<string>): Option<string> {
    if x.Some? then x else y
  }

  /** A lookup in two parameter lists set one after the other finds the earlier one first. */
  lemma {:induction false} LookupConcat(a: seq<QueryParam>, b: seq<QueryParam>, name: ParamName)
    ensures Lookup(a + b, name) == Or(Lookup(a, name), Lookup(b, name))
  {
    if a != [] {
      assert (a + b)[1..] == a[1..] + b;
      LookupConcat(a[1..], b, name);
    } else {
      assert a + b == b;
    }
  }

  function YesNo(b: bool): string {
    if b then "yes" else "no"
  }

  /** `if (v !== undefined) params = params.set(name, v ? 'yes' : 'no')`. */
  function FlagParam(name: ParamName, v: Option<bool>): seq<QueryParam> {
    if v.Some? then [(name, YesNo(v.value))] else []
  }

  /** `if (v) params = params.set(name, v)`: an empty string is falsy. */
  function TextParam(name: ParamName, v: Option<string>): seq<QueryParam> {
    if v.Some? && v.value != "" then [(name, v.value)] else []
  }

  /** `if (v) params = params.set(name, v.toString())`: zero is falsy. */
  function CountParam(name: ParamName, v: Option<int>): seq<QueryParam> {
    if v.Some? && v.value != 0 then [(name, IntToString(v.value))] else []
  }

  /** What a request sends for an optional boolean: 'yes'/'no' when defined. */
  function WhenDefined(v: Option<bool>): Option<string> {
    if v.Some? then Some(YesNo(v.value)) else None
  }

  /** What a request sends for an optional string: the string when it is non-empty. */
  function WhenNonEmpty(v: Option<string>): Option<string> {
    if v.Some? && v.value != "" then v else None
  }

  /** An optional flag is found under its own name only, as 'yes'/'no' when defined. */
  lemma LookupFlag(n: ParamName, v: Option<bool>, name: ParamName)
    ensures Lookup(FlagParam(n, v), name) == if name == n then WhenDefined(v) else None
  {
    if v.Some? {
      assert Lookup(FlagParam(n, v), name) == if name == n then Some(YesNo(v.value)) else Lookup([], name);
    }
  }

  /** An optional text is found under its own name only, when it is non-empty. */
  lemma LookupText(n: ParamName, v: Option<string>, name: ParamName)
    ensures Lookup(TextParam(n, v), name) == if name == n then WhenNonEmpty(v) else None
  {
    if v.Some? && v.value != "" {
      assert Lookup(TextParam(n, v), name) == if name == n then Some(v.value) else Lookup([], name);
    }
  }

  /** The two parameters every weather request starts with. */
  function KeyAndQuery(q: string): seq<QueryParam> {
    [(Key, WeatherApiKey), (Q, q)]
  }

  function GetCurrentWeather(q: string, options: CurrentWeatherOptions): Request {
    Request(CurrentJson, KeyAndQuery(q) + FlagParam(Aqi, options.aqi) + TextParam(Lang, options.lang))
  }

  /** `days` is the TypeScript default parameter: `None` stands for an omitted argument. */
  function GetForecast(q: string, days: Option<int>, options: ForecastOptions): Request {
    Request(ForecastJson,
      KeyAndQuery(q) + [(Days, IntToString(days.GetOr(3)))]
      + FlagParam(Aqi, options.aqi) + FlagParam(Alerts, options.alerts) + TextParam(Lang, options.lang))
  }

  function SearchLocations(q: string): Request {
    Request(SearchJson, KeyAndQuery(q))
  }

  function GetHistory(q: string, dt: string, options: HistoryOptions): Request {
    Request(HistoryJson, KeyAndQuery(q) + [(Dt, dt)] + TextParam(EndDt, options.endDt) + TextParam(Lang, options.lang))
  }

  function GetAlerts(q: string, options: AlertsOptions): Request {
    Request(AlertsJson, KeyAndQuery(q) + TextParam(Lang, options.lang))
  }

  function GetAstronomy(q: string, options: AstronomyOptions): Request {
    Request(AstronomyJson, KeyAndQuery(q) + TextParam(Dt, options.dt) + TextParam(Lang, options.lang))
  }

  function GetMarine(q: string, options: MarineOptions): Request {
    Request(MarineJson, KeyAndQuery(q) + CountParam(Days, options.days) + TextParam(Lang, options.lang))
  }

  function GetSports(q: string, options: SportsOptions): Request {
    Request(SportsJson, KeyAndQuery(q) + TextParam(Lang, options.lang))
  }

  function GetTimeZone(q: string, options: TimeZoneOptions): Request {
    Request(TimeZoneJson, KeyAndQuery(q) + TextParam(Lang, options.lang))
  }

  function GetFuture(q: string, dt: string, options: FutureOptions): Request {
    Request(FutureJson, KeyAndQuery(q) + [(Dt, dt)] + TextParam(Lang, options.lang))
  }

  /** `ip` is optional; an empty string counts as absent. */
  function GetIPLookup(ip: Option<string>): Request {
    Request(IPJson, [(Key, WeatherApiKey)] + TextParam(Q, ip))
  }

  // ---------------------------------------------------------------------------
  // What each request sends

  /** A request that starts with the configured key and the given query. */
  predicate CarriesKeyAndQuery(r: Request, q: string) {
    Param(r, Key) == Some(WeatherApiKey) && Param(r, Q) == Some(q)
  }

  /** A request whose parameters start with the key and the query carries both. */
  lemma KeyAndQueryLead(r: Request, q: string, rest: seq<QueryParam>)
    requires r.params == KeyAndQuery(q) + rest
    ensures CarriesKeyAndQuery(r, q)
  {
    LookupConcat(KeyAndQuery(q), rest, Key);
    LookupConcat(KeyAndQuery(q), rest, Q);
  }

  /** What the current-weather request sends under one name. */
  lemma CurrentWeatherParam(q: string, o: CurrentWeatherOptions, name: ParamName)
    ensures Param(GetCurrentWeather(q, o), name)
         == if name == Key then Some(WeatherApiKey)
            else if name == Q then Some(q)
            else if name == Aqi then WhenDefined(o.aqi)
            else if name == Lang then WhenNonEmpty(o.lang)
            else None
  {
    var a, f, t := KeyAndQuery(q), FlagParam(Aqi, o.aqi), TextParam(Lang, o.lang);
    assert GetCurrentWeather(q, o).params == a + f + t;
    LookupConcat(a + f, t, name);
    LookupConcat(a, f, name);
    LookupFlag(Aqi, o.aqi, name);
    LookupText(Lang, o.lang, name);
  }

  /** Current weather: `aqi` as yes/no exactly when defined, `lang` only when non-empty, nothing else. */
  lemma CurrentWeatherParams(q: string, o: CurrentWeatherOptions)
    ensures CarriesKeyAndQuery(GetCurrentWeather(q, o), q)
    ensures Param(GetCurrentWeather(q, o), Aqi) == WhenDefined(o.aqi)
    ensures Param(GetCurrentWeather(q, o), Lang) == WhenNonEmpty(o.lang)
    ensures forall name :: name !in {Key, Q, Aqi, Lang} ==> Param(GetCurrentWeather(q, o), name) == None
  {
    CurrentWeatherParam(q, o, Key);
    CurrentWeatherParam(q, o, Q);
    CurrentWeatherParam(q, o, Aqi);
    CurrentWeatherParam(q, o, Lang);
    forall name | name !in {Key, Q, Aqi, Lang} ensures Param(GetCurrentWeather(q, o), name) == None {
      CurrentWeatherParam(q, o, name);
    }
  }

  /** What the forecast request sends under one name. */
  lemma ForecastParam(q: string, days: Option<int>, o: ForecastOptions, name: ParamName)
    ensures Param(GetForecast(q, days, o), name)
         == if name == Key then Some(WeatherApiKey)
            else if name == Q then Some(q)
            else if name == Days then Some(IntToString(days.GetOr(3)))
            else if name == Aqi then WhenDefined(o.aqi)
            else if name == Alerts then WhenDefined(o.alerts)
            else if name == Lang then WhenNonEmpty(o.lang)
            else None
  {
    var a, d := KeyAndQuery(q), [(Days, IntToString(days.GetOr(3)))];
    var f1, f2, t := FlagParam(Aqi, o.aqi), FlagParam(Alerts, o.alerts), TextParam(Lang, o.lang);
    assert GetForecast(q, days, o).params == a + d + f1 + f2 + t;
    LookupConcat(a + d + f1 + f2, t, name);
    LookupConcat(a + d + f1, f2, name);
    LookupConcat(a + d, f1, name);
    LookupConcat(a, d, name);
    LookupFlag(Aqi, o.aqi, name);
    LookupFlag(Alerts, o.alerts, name);
    LookupText(Lang, o.lang, name);
  }

  /** Forecast: `days` always (3 when omitted), `aqi` and `alerts` as yes/no when defined, `lang` when non-empty. */
  lemma ForecastParams(q: string, days: Option<int>, o: ForecastOptions)
    ensures CarriesKeyAndQuery(GetForecast(q, days, o), q)
    ensures Param(GetForecast(q, days, o), Days) == Some(IntToString(days.GetOr(3)))
    ensures days.None? ==> Param(GetForecast(q, days, o), Days) == Some("3")
    ensures Param(GetForecast(q, days, o), Aqi) == WhenDefined(o.aqi)
    ensures Param(GetForecast(q, days, o), Alerts) == WhenDefined(o.alerts)
    ensures Param(GetForecast(q, days, o), Lang) == WhenNonEmpty(o.lang)
    ensures forall name :: name !in {Key, Q, Days, Aqi, Alerts, Lang} ==> Param(GetForecast(q, days, o), name) == None
  {
    ForecastParam(q, days, o, Key);
    ForecastParam(q, days, o, Q);
    ForecastParam(q, days, o, Days);
    ForecastParam(q, days, o, Aqi);
    ForecastParam(q, days, o, Alerts);
    ForecastParam(q, days, o, Lang);
    forall name | name !in {Key, Q, Days, Aqi, Alerts, Lang} ensures Param(GetForecast(q, days, o), name) == None {
      ForecastParam(q, days, o, name);
    }
    if days.None? {
      assert IntToString(3) == "3";
    }
  }

  /** What the history request sends under one name. */
  lemma HistoryParam(q: string, dt: string, o: HistoryOptions, name: ParamName)
    ensures Param(GetHistory(q, dt, o), name)
         == if name == Key then Some(WeatherApiKey)
            else if name == Q then Some(q)
            else if name == Dt then Some(dt)
            else if name == EndDt then WhenNonEmpty(o.endDt)
            else if name == Lang then WhenNonEmpty(o.lang)
            else None
  {
    var a, d := KeyAndQuery(q), [(Dt, dt)];
    var e, l := TextParam(EndDt, o.endDt), TextParam(Lang, o.lang);
    assert GetHistory(q, dt, o).params == a + d + e + l;
    LookupConcat(a + d + e, l, name);
    LookupConcat(a + d, e, name);
    LookupConcat(a, d, name);
    LookupText(EndDt, o.endDt, name);
    LookupText(Lang, o.lang, name);
  }

  /** History sends `dt` always and `end_dt`/`lang` only when non-empty. */
  lemma HistoryParams(q: string, dt: string, o: HistoryOptions)
    ensures CarriesKeyAndQuery(GetHistory(q, dt, o), q)
    ensures Param(GetHistory(q, dt, o), Dt) == Some(dt)
    ensures Param(GetHistory(q, dt, o), EndDt) == WhenNonEmpty(o.endDt)
    ensures Param(GetHistory(q, dt, o), Lang) == WhenNonEmpty(o.lang)
    ensures forall name :: name !in {Key, Q, Dt, EndDt, Lang} ==> Param(GetHistory(q, dt, o), name) == None
  {
    HistoryParam(q, dt, o, Key);
    HistoryParam(q, dt, o, Q);
    HistoryParam(q, dt, o, Dt);
    HistoryParam(q, dt, o, EndDt);
    HistoryParam(q, dt, o, Lang);
    forall name | name !in {Key, Q, Dt, EndDt, Lang} ensures Param(GetHistory(q, dt, o), name) == None {
      HistoryParam(q, dt, o, name);
    }
  }

  /** What the future request sends under one name. */
  lemma FutureParam(q: string, dt: string, o: FutureOptions, name: ParamName)
    ensures Param(GetFuture(q, dt, o), name)
         == if name == Key then Some(WeatherApiKey)
            else if name == Q then Some(q)
            else if name == Dt then Some(dt)
            else if name == Lang then WhenNonEmpty(o.lang)
            else None
  {
    var a, d, l := KeyAndQuery(q), [(Dt, dt)], TextParam(Lang, o.lang);
    assert GetFuture(q, dt, o).params == a + d + l;
    LookupConcat(a + d, l, name);
    LookupConcat(a, d, name);
    LookupText(Lang, o.lang, name);
  }

  /** Future sends `dt` always and `lang` only when non-empty, nothing else. */
  lemma FutureParams(q: string, dt: string, o: FutureOptions)
    ensures CarriesKeyAndQuery(GetFuture(q, dt, o), q)
    ensures Param(GetFuture(q, dt, o), Dt) == Some(dt)
    ensures Param(GetFuture(q, dt, o), Lang) == WhenNonEmpty(o.lang)
    ensures forall name :: name !in {Key, Q, Dt, Lang} ==> Param(GetFuture(q, dt, o), name) == None
  {
    FutureParam(q, dt, o, Key);
    FutureParam(q, dt, o, Q);
    FutureParam(q, dt, o, Dt);
    FutureParam(q, dt, o, Lang);
    forall name | name !in {Key, Q, Dt, Lang} ensures Param(GetFuture(q, dt, o), name) == None {
      FutureParam(q, dt, o, name);
    }
  }

  /** What the astronomy request sends under one name. */
  lemma AstronomyParam(q: string, o: AstronomyOptions, name: ParamName)
    ensures Param(GetAstronomy(q, o), name)
         == if name == Key then Some(WeatherApiKey)
            else if name == Q then Some(q)
            else if name == Dt then WhenNonEmpty(o.dt)
            else if name == Lang then WhenNonEmpty(o.lang)
            else None
  {
    var a, d, l := KeyAndQuery(q), TextParam(Dt, o.dt), TextParam(Lang, o.lang);
    assert GetAstronomy(q, o).params == a + d + l;
    LookupConcat(a + d, l, name);
    LookupConcat(a, d, name);
    LookupText(Dt, o.dt, name);
    LookupText(Lang, o.lang, name);
  }

  /** Astronomy sends `dt` and `lang` only when they are non-empty, nothing else. */
  lemma AstronomyParams(q: string, o: AstronomyOptions)
    ensures CarriesKeyAndQuery(GetAstronomy(q, o), q)
    ensures Param(GetAstronomy(q, o), Dt) == WhenNonEmpty(o.dt)
    ensures Param(GetAstronomy(q, o), Lang) == WhenNonEmpty(o.lang)
    ensures forall name :: name !in {Key, Q, Dt, Lang} ==> Param(GetAstronomy(q, o), name) == None
  {
    AstronomyParam(q, o, Key);
    AstronomyParam(q, o, Q);
    AstronomyParam(q, o, Dt);
    AstronomyParam(q, o, Lang);
    forall name | name !in {Key, Q, Dt, Lang} ensures Param(GetAstronomy(q, o), name) == None {
      AstronomyParam(q, o, name);
    }
  }

  /** An optional count is found under its own name only, when it is non-zero. */
  lemma LookupCount(n: ParamName, v: Option<int>, name: ParamName)
    ensures Lookup(CountParam(n, v), name)
         == if name == n && v.Some? && v.value != 0 then Some(IntToString(v.value)) else None
  {
    if v.Some? && v.value != 0 {
      assert Lookup(CountParam(n, v), name) == if name == n then Some(IntToString(v.value)) else Lookup([], name);
    }
  }

  /** What the marine request sends under one name. */
  lemma MarineParam(q: string, o: MarineOptions, name: ParamName)
    ensures Param(GetMarine(q, o), name)
         == if name == Key then Some(WeatherApiKey)
            else if name == Q then Some(q)
            else if name == Days then (if o.days.Some? && o.days.value != 0 then Some(IntToString(o.days.value)) else None)
            else if name == Lang then WhenNonEmpty(o.lang)
            else None
  {
    var a, d, l := KeyAndQuery(q), CountParam(Days, o.days), TextParam(Lang, o.lang);
    assert GetMarine(q, o).params == a + d + l;
    LookupConcat(a + d, l, name);
    LookupConcat(a, d, name);
    LookupCount(Days, o.days, name);
    LookupText(Lang, o.lang, name);
  }

  /** Marine sends `days` only when it is non-zero, so 0 is dropped, and `lang` only when non-empty; nothing else. */
  lemma MarineParams(q: string, o: MarineOptions)
    ensures CarriesKeyAndQuery(GetMarine(q, o), q)
    ensures Param(GetMarine(q, o), Days) == if o.days.Some? && o.days.value != 0 then Some(IntToString(o.days.value)) else None
    ensures o.days == Some(0) ==> Param(GetMarine(q, o), Days) == None
    ensures Param(GetMarine(q, o), Lang) == WhenNonEmpty(o.lang)
    ensures forall name :: name !in {Key, Q, Days, Lang} ==> Param(GetMarine(q, o), name) == None
  {
    MarineParam(q, o, Key);
    MarineParam(q, o, Q);
    MarineParam(q, o, Days);
    MarineParam(q, o, Lang);
    forall name | name !in {Key, Q, Days, Lang} ensures Param(GetMarine(q, o), name) == None {
      MarineParam(q, o, name);
    }
  }

  /** Search sends the key and the query and nothing else. */
  lemma SearchParams(q: string, name: ParamName)
    requires name != Key && name != Q
    ensures CarriesKeyAndQuery(SearchLocations(q), q)
    ensures Param(SearchLocations(q), name) == None
  {
    KeyAndQueryLead(SearchLocations(q), q, []);
  }

  /** Alerts send the key, the query and a non-empty `lang`, nothing else. */
  lemma AlertsParams(q: string, o: AlertsOptions, name: ParamName)
    requires name != Key && name != Q
    ensures CarriesKeyAndQuery(GetAlerts(q, o), q)
    ensures Param(GetAlerts(q, o), name) == if name == Lang then WhenNonEmpty(o.lang) else None
  {
    LookupConcat(KeyAndQuery(q), TextParam(Lang, o.lang), name);
    KeyAndQueryLead(GetAlerts(q, o), q, TextParam(Lang, o.lang));
  }

  /** Sports sends the key, the query and a non-empty `lang`, nothing else. */
  lemma SportsParams(q: string, o: SportsOptions, name: ParamName)
    requires name != Key && name != Q
    ensures CarriesKeyAndQuery(GetSports(q, o), q)
    ensures Param(GetSports(q, o), name) == if name == Lang then WhenNonEmpty(o.lang) else None
  {
    LookupConcat(KeyAndQuery(q), TextParam(Lang, o.lang), name);
    KeyAndQueryLead(GetSports(q, o), q, TextParam(Lang, o.lang));
  }

  /** Time zone sends the key, the query and a non-empty `lang`, nothing else. */
  lemma TimeZoneParams(q: string, o: TimeZoneOptions, name: ParamName)
    requires name != Key && name != Q
    ensures CarriesKeyAndQuery(GetTimeZone(q, o), q)
    ensures Param(GetTimeZone(q, o), name) == if name == Lang then WhenNonEmpty(o.lang) else None
  {
    LookupConcat(KeyAndQuery(q), TextParam(Lang, o.lang), name);
    KeyAndQueryLead(GetTimeZone(q, o), q, TextParam(Lang, o.lang));
  }

  /** The IP lookup always sends the key, and sends `q` only for a non-empty address. */
  lemma IPLookupParams(ip: Option<string>)
    ensures Param(GetIPLookup(ip), Key) == Some(WeatherApiKey)
    ensures Param(GetIPLookup(ip), Q) == WhenNonEmpty(ip)
    ensures forall name :: name != Key && name != Q ==> Param(GetIPLookup(ip), name) == None
  {
    var k, t := [(Key, WeatherApiKey)], TextParam(Q, ip);
    forall name ensures Param(GetIPLookup(ip), name) == Or(Lookup(k, name), Lookup(t, name)) {
      LookupConcat(k, t, name);
    }
  }

  /** Every request goes to `https://api.weatherapi.com/v1/` followed by its endpoint's path. */
  lemma RequestUrls(e: Endpoint, ps: seq<QueryParam>)
    ensures Request(e, ps).Url() == "https://api.weatherapi.com/v1/" + EndpointPath(e)
  {
  }

  /** Each endpoint has its own path, so no two methods share a URL under `${apiUrl}/v1`. */
  lemma EndpointPathsAreDistinct(e1: Endpoint, e2: Endpoint)
    ensures Request(e1, []).Url() == Request(e2, []).Url() ==> e1 == e2
  {
    var p1, p2 := EndpointPath(e1), EndpointPath(e2);
    assert p1 == (BaseUrl + "/" + p1)[|BaseUrl| + 1..];
    assert p2 == (BaseUrl + "/" + p2)[|BaseUrl| + 1..];
    assert e1 != e2 ==> p1 != p2;
    assert Request(e1, []).Url() == BaseUrl + "/" + p1;
    assert Request(e2, []).Url() == BaseUrl + "/" + p2;
  }
}
