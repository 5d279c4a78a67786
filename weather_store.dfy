/** `WeatherStoreService`: the dashboard's single store. Its fields are the
    eleven category cells plus `loading` and `error`; every loader is a method
    that starts, builds the HTTP request, and settles with the outcome the
    caller supplies for that request. Each method is proved to move `State()`
    exactly as the matching `StoreSpec` function does. */
module WeatherStoreService {
  import opened Wrappers
  import opened JsText
  import opened WeatherModel
  import Api = WeatherApi
  import Spec = StoreSpec

  class WeatherStore {
    var currentWeather: Option<CurrentWeatherResponse>
    var forecast: Option<ForecastResponse>
    var searchResults: seq<SearchLocationItem>
    var history: Option<HistoryResponse>
    var alerts: Option<AlertsResponse>
    var astronomy: Option<AstronomyResponse>
    var marine: Option<MarineResponse>
    var sports: Option<SportsResponse>
    var timeZone: Option<TimeZoneResponse>
    var future: Option<FutureResponse>
    var ipLookup: Option<IPLookupResponse>
    var loading: bool
    var error: Option<string>

    /** The store's signals, read as one value. */
    function State(): Spec.StoreState
      reads this
    {
      Spec.StoreState(currentWeather, forecast, searchResults, history, alerts, astronomy,
                      marine, sports, timeZone, future, ipLookup, loading, error)
    }

    constructor()
      ensures State() == Spec.Initial
    {
      currentWeather, forecast, searchResults, history := None, None, [], None;
      alerts, astronomy, marine, sports := None, None, None, None;
      timeZone, future, ipLookup := None, None, None;
      loading, error := false, None;
    }

    /** The synchronous prologue every loader runs before its `await`. */
    method Start()
      modifies this
      ensures State() == Spec.Start(old(State()))
    {
      loading, error := true, None;
    }

    /** The `catch` branch: the error's message, or the category's fallback. */
    method Fail<T>(o: Outcome<T>, c: Spec.Cell)
      requires o.Fail?
      modifies this
      ensures State() == old(State()).(error := Some(o.message.GetOr(Spec.FallbackMessage(c))))
    {
      match o.message {
        case Some(m) => error := Some(m);
        case None => error := Some(Spec.FallbackMessage(c));
      }
    }

    method SettleCurrentWeather(o: Outcome<CurrentWeatherResponse>)
      modifies this
      ensures State() == Spec.SettleCurrentWeather(old(State()), o)
    {
      if o.Ok? {
        currentWeather := Some(o.response);
      } else {
        Fail(o, Spec.CurrentWeatherCell);
        currentWeather := None;
      }
      loading := false;
    }

    method SettleForecast(o: Outcome<ForecastResponse>)
      modifies this
      ensures State() == Spec.SettleForecast(old(State()), o)
    {
      if o.Ok? {
        forecast := Some(o.response);
      } else {
        Fail(o, Spec.ForecastCell);
        forecast := None;
      }
      loading := false;
    }

    /** `loadCurrentWeather(q, options)`. */
    method LoadCurrentWeather(q: string, options: CurrentWeatherOptions, o: Outcome<CurrentWeatherResponse>)
      returns (request: Api.Request)
      modifies this
      ensures request == Api.GetCurrentWeather(q, options)
      ensures State() == Spec.SettleCurrentWeather(Spec.Start(old(State())), o)
    {
      Start();
      request := Api.GetCurrentWeather(q, options);
      SettleCurrentWeather(o);
    }

    /** `loadForecast(q, days = 3, options)`: the store applies the default and passes it on. */
    method LoadForecast(q: string, days: Option<int>, options: ForecastOptions, o: Outcome<ForecastResponse>)
      returns (request: Api.Request)
      modifies this
      ensures request == Api.GetForecast(q, Some(days.GetOr(3)), options)
      ensures State() == Spec.SettleForecast(Spec.Start(old(State())), o)
    {
      Start();
      request := Api.GetForecast(q, Some(days.GetOr(3)), options);
      SettleForecast(o);
    }

    /** `searchLocations(q)`: no request at all for an empty or blank query. */
    method SearchLocations(q: string, o: Outcome<seq<SearchLocationItem>>)
      returns (request: Option<Api.Request>)
      modifies this
      ensures request.None? <==> IsBlank(q)
      ensures request.Some? ==> request.value == Api.SearchLocations(q)
      ensures (if request.Some? then [request.value] else []) == Spec.CallRequests(Spec.SearchLocationsCall(q))
      ensures State() == Spec.SearchLocations(old(State()), q, o)
    {
      if q == "" || Trim(q) == [] {
        searchResults := [];
        return None;
      }
      Start();
      request := Some(Api.SearchLocations(q));
      if o.Ok? {
        searchResults := o.response;
      } else {
        Fail(o, Spec.SearchResultsCell);
        searchResults := [];
      }
      loading := false;
    }

    /** `loadHistory(q, dt, options)`. */
    method LoadHistory(q: string, dt: string, options: HistoryOptions, o: Outcome<HistoryResponse>)
      returns (request: Api.Request)
      modifies this
      ensures request == Api.GetHistory(q, dt, options)
      ensures State() == Spec.SettleHistory(Spec.Start(old(State())), o)
    {
      Start();
      request := Api.GetHistory(q, dt, options);
      if o.Ok? {
        history := Some(o.response);
      } else {
        Fail(o, Spec.HistoryCell);
        history := None;
      }
      loading := false;
    }

    /** `loadAlerts(q, options)`. */
    method LoadAlerts(q: string, options: AlertsOptions, o: Outcome<AlertsResponse>)
      returns (request: Api.Request)
      modifies this
      ensures request == Api.GetAlerts(q, options)
      ensures [request] == Spec.CallRequests(Spec.LoadAlertsCall(q, options))
      ensures State() == Spec.SettleAlerts(Spec.Start(old(State())), o)
    {
      Start();
      request := Api.GetAlerts(q, options);
      if o.Ok? {
        alerts := Some(o.response);
      } else {
        Fail(o, Spec.AlertsCell);
        alerts := None;
      }
      loading := false;
    }

    /** `loadWeatherAndForecast(q, days = 3, options)`: both loaders started
        together; `currentFirst` says which of the two requests resolves first. */
    method LoadWeatherAndForecast(
      q: string, days: Option<int>, current: CurrentWeatherOptions, forecastOptions: ForecastOptions,
      oc: Outcome<CurrentWeatherResponse>, of: Outcome<ForecastResponse>, currentFirst: bool)
      returns (requests: seq<Api.Request>)
      modifies this
      ensures requests == [Api.GetCurrentWeather(q, current), Api.GetForecast(q, Some(days.GetOr(3)), forecastOptions)]
      ensures requests == Spec.CallRequests(Spec.LoadWeatherAndForecastCall(q, days, current, forecastOptions))
      ensures State() == Spec.LoadWeatherAndForecast(old(State()), oc, of, currentFirst)
    {
      Start();
      Start();
      var rc := Api.GetCurrentWeather(q, current);
      Start();
      var rf := Api.GetForecast(q, Some(days.GetOr(3)), forecastOptions);
      requests := [rc, rf];
      if currentFirst {
        SettleCurrentWeather(oc);
        SettleForecast(of);
      } else {
        SettleForecast(of);
        SettleCurrentWeather(oc);
      }
      loading := false;
    }

    /** `clearError()`. */
    method ClearError()
      modifies this
      ensures State() == Spec.ClearError(old(State()))
    {
      error := None;
    }

    /** `loadAstronomy(q, options)`. */
    method LoadAstronomy(q: string, options: AstronomyOptions, o: Outcome<AstronomyResponse>)
      returns (request: Api.Request)
      modifies this
      ensures request == Api.GetAstronomy(q, options)
      ensures [request] == Spec.CallRequests(Spec.LoadAstronomyCall(q, options))
      ensures State() == Spec.SettleAstronomy(Spec.Start(old(State())), o)
    {
      Start();
      request := Api.GetAstronomy(q, options);
      if o.Ok? {
        astronomy := Some(o.response);
      } else {
        Fail(o, Spec.AstronomyCell);
        astronomy := None;
      }
      loading := false;
    }

    /** `loadMarine(q, options)`. */
    method LoadMarine(q: string, options: MarineOptions, o: Outcome<MarineResponse>)
      returns (request: Api.Request)
      modifies this
      ensures request == Api.GetMarine(q, options)
      ensures State() == Spec.SettleMarine(Spec.Start(old(State())), o)
    {
      Start();
      request := Api.GetMarine(q, options);
      if o.Ok? {
        marine := Some(o.response);
      } else {
        Fail(o, Spec.MarineCell);
        marine := None;
      }
      loading := false;
    }

    /** `loadSports(q, options)`. */
    method LoadSports(q: string, options: SportsOptions, o: Outcome<SportsResponse>)
      returns (request: Api.Request)
      modifies this
      ensures request == Api.GetSports(q, options)
      ensures State() == Spec.SettleSports(Spec.Start(old(State())), o)
    {
      Start();
      request := Api.GetSports(q, options);
      if o.Ok? {
        sports := Some(o.response);
      } else {
        Fail(o, Spec.SportsCell);
        sports := None;
      }
      loading := false;
    }

    /** `loadTimeZone(q, options)`. */
    method LoadTimeZone(q: string, options: TimeZoneOptions, o: Outcome<TimeZoneResponse>)
      returns (request: Api.Request)
      modifies this
      ensures request == Api.GetTimeZone(q, options)
      ensures State() == Spec.SettleTimeZone(Spec.Start(old(State())), o)
    {
      Start();
      request := Api.GetTimeZone(q, options);
      if o.Ok? {
        timeZone := Some(o.response);
      } else {
        Fail(o, Spec.TimeZoneCell);
        timeZone := None;
      }
      loading := false;
    }

    /** `loadFuture(q, dt, options)`. */
    method LoadFuture(q: string, dt: string, options: FutureOptions, o: Outcome<FutureResponse>)
      returns (request: Api.Request)
      modifies this
      ensures request == Api.GetFuture(q, dt, options)
      ensures [request] == Spec.CallRequests(Spec.LoadFutureCall(q, dt, options))
      ensures State() == Spec.SettleFuture(Spec.Start(old(State())), o)
    {
      Start();
      request := Api.GetFuture(q, dt, options);
      if o.Ok? {
        future := Some(o.response);
      } else {
        Fail(o, Spec.FutureCell);
        future := None;
      }
      loading := false;
    }

    /** `loadIPLookup(ip?)`. */
    method LoadIPLookup(ip: Option<string>, o: Outcome<IPLookupResponse>)
      returns (request: Api.Request)
      modifies this
      ensures request == Api.GetIPLookup(ip)
      ensures State() == Spec.SettleIPLookup(Spec.Start(old(State())), o)
    {
      Start();
      request := Api.GetIPLookup(ip);
      if o.Ok? {
        ipLookup := Some(o.response);
      } else {
        Fail(o, Spec.IPLookupCell);
        ipLookup := None;
      }
      loading := false;
    }

    /** `reset()`. */
    method Reset()
      modifies this
      ensures State() == Spec.Reset(old(State()))
    {
      EmptyCurrentCells();
      EmptyOtherCells();
      loading, error := false, None;
    }

    /** The first six cell writes of `reset()`. */
    method EmptyCurrentCells()
      modifies this
      ensures State() == old(State()).(currentWeather := None, forecast := None, searchResults := [],
                                       history := None, alerts := None, astronomy := None)
    {
      currentWeather, forecast, searchResults := None, None, [];
      history, alerts, astronomy := None, None, None;
    }

    /** The remaining five cell writes of `reset()`. */
    method EmptyOtherCells()
      modifies this
      ensures State() == old(State()).(marine := None, sports := None, timeZone := None, future := None, ipLookup := None)
    {
      marine, sports, timeZone, future, ipLookup := None, None, None, None, None;
    }

    /** The computed `currentLocation`. */
    function CurrentLocation(): (r: Option<Location>)
      reads this
      ensures r == Spec.CurrentLocation(State())
    {
      if currentWeather.Some? then Some(currentWeather.value.location) else None
    }

    /** The computed `currentData`. */
    function CurrentData(): (r: Option<Current>)
      reads this
      ensures r == Spec.CurrentData(State())
    {
      if currentWeather.Some? then Some(currentWeather.value.current) else None
    }
  }
}
