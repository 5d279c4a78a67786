/** The state machine behind `WeatherStore`, on values: eleven category cells,
    the shared `loading` flag and the shared `error` message. Each asynchronous
    loader is split at its one `await` into a start step (`loading` on, `error`
    cleared) and a settle step that consumes the call's outcome (write the
    cell, or null it and record a message; then `loading` off). */
module StoreSpec {
  import opened Wrappers
  import opened JsText
  import opened WeatherModel
  import Api = WeatherApi

  datatype StoreState = StoreState(
    currentWeather: Option<CurrentWeatherResponse>,
    forecast: Option<ForecastResponse>,
    searchResults: seq<SearchLocationItem>,
    history: Option<HistoryResponse>,
    alerts: Option<AlertsResponse>,
    astronomy: Option<AstronomyResponse>,
    marine: Option<MarineResponse>,
    sports: Option<SportsResponse>,
    timeZone: Option<TimeZoneResponse>,
    future: Option<FutureResponse>,
    ipLookup: Option<IPLookupResponse>,
    loading: bool,
    error: Option<string>)

  /** The eleven category cells. */
  datatype Cell =
    | CurrentWeatherCell | ForecastCell | SearchResultsCell | HistoryCell | AlertsCell | AstronomyCell
    | MarineCell | SportsCell | TimeZoneCell | FutureCell | IPLookupCell

  /** Cell `c` holds the same value in `s` and `t`. */
  predicate SameCell(s: StoreState, t: StoreState, c: Cell) {
    match c
    case CurrentWeatherCell => s.currentWeather == t.currentWeather
    case ForecastCell => s.forecast == t.forecast
    case SearchResultsCell => s.searchResults == t.searchResults
    case HistoryCell => s.history == t.history
    case AlertsCell => s.alerts == t.alerts
    case AstronomyCell => s.astronomy == t.astronomy
    case MarineCell => s.marine == t.marine
    case SportsCell => s.sports == t.sports
    case TimeZoneCell => s.timeZone == t.timeZone
    case FutureCell => s.future == t.future
    case IPLookupCell => s.ipLookup == t.ipLookup
  }

  /** Every cell other than `c` is the same in `s` and `t`. */
  predicate OthersUnchanged(s: StoreState, t: StoreState, c: Cell) {
    forall other :: other != c ==> SameCell(s, t, other)
  }

  /** Cell `c` holds nothing: `null`, or `[]` for the search results. */
  predicate IsEmptyCell(s: StoreState, c: Cell) {
    match c
    case CurrentWeatherCell => s.currentWeather.None?
    case ForecastCell => s.forecast.None?
    case SearchResultsCell => s.searchResults == []
    case HistoryCell => s.history.None?
    case AlertsCell => s.alerts.None?
    case AstronomyCell => s.astronomy.None?
    case MarineCell => s.marine.None?
    case SportsCell => s.sports.None?
    case TimeZoneCell => s.timeZone.None?
    case FutureCell => s.future.None?
    case IPLookupCell => s.ipLookup.None?
  }

  /** The message each loader records when the thrown value is not an `Error`. */
  function FallbackMessage(c: Cell): string {
    match c
    case CurrentWeatherCell => "Failed to load current weather"
    case ForecastCell => "Failed to load forecast"
    case SearchResultsCell => "Failed to search locations"
    case HistoryCell => "Failed to load historical data"
    case AlertsCell => "Failed to load alerts"
    case AstronomyCell => "Failed to load astronomy data"
    case MarineCell => "Failed to load marine weather"
    case SportsCell => "Failed to load sports weather"
    case TimeZoneCell => "Failed to load time zone data"
    case FutureCell => "Failed to load future weather"
    case IPLookupCell => "Failed to load IP lookup data"
  }

  /** The store as constructed: every cell empty, not loading, no error. */
  const Initial: StoreState :=
    StoreState(None, None, [], None, None, None, None, None, None, None, None, false, None)

  /** The cell a settled load leaves: the response, or `null` on failure. */
  function CellAfter<T>(o: Outcome<T>): Option<T> {
    if o.Ok? then Some(o.response) else None
  }

  /** The `error` a settled load leaves: untouched on success; on failure the
      error's own message, or the category's fallback for a non-`Error` value. */
  function ErrorAfter<T>(s: StoreState, o: Outcome<T>, c: Cell): Option<string> {
    if o.Ok? then s.error else Some(o.message.GetOr(FallbackMessage(c)))
  }

  /** The synchronous part of every loader: `loading.set(true); error.set(null)`. */
  function Start(s: StoreState): StoreState {
    s.(loading := true, error := None)
  }

  // Settle steps: what runs after the `await`, in the `try`/`catch` and then the `finally`.

  function SettleCurrentWeather(s: StoreState, o: Outcome<CurrentWeatherResponse>): StoreState {
    s.(currentWeather := CellAfter(o), error := ErrorAfter(s, o, CurrentWeatherCell), loading := false)
  }

  function SettleForecast(s: StoreState, o: Outcome<ForecastResponse>): StoreState {
    s.(forecast := CellAfter(o), error := ErrorAfter(s, o, ForecastCell), loading := false)
  }

  /** Search results fall back to `[]`, never `null`. */
  function SettleSearch(s: StoreState, o: Outcome<seq<SearchLocationItem>>): StoreState {
    s.(searchResults := if o.Ok? then o.response else [], error := ErrorAfter(s, o, SearchResultsCell), loading := false)
  }

  function SettleHistory(s: StoreState, o: Outcome<HistoryResponse>): StoreState {
    s.(history := CellAfter(o), error := ErrorAfter(s, o, HistoryCell), loading := false)
  }

  function SettleAlerts(s: StoreState, o: Outcome<AlertsResponse>): StoreState {
    s.(alerts := CellAfter(o), error := ErrorAfter(s, o, AlertsCell), loading := false)
  }

  function SettleAstronomy(s: StoreState, o: Outcome<AstronomyResponse>): StoreState {
    s.(astronomy := CellAfter(o), error := ErrorAfter(s, o, AstronomyCell), loading := false)
  }

  function SettleMarine(s: StoreState, o: Outcome<MarineResponse>): StoreState {
    s.(marine := CellAfter(o), error := ErrorAfter(s, o, MarineCell), loading := false)
  }

  function SettleSports(s: StoreState, o: Outcome<SportsResponse>): StoreState {
    s.(sports := CellAfter(o), error := ErrorAfter(s, o, SportsCell), loading := false)
  }

  function SettleTimeZone(s: StoreState, o: Outcome<TimeZoneResponse>): StoreState {
    s.(timeZone := CellAfter(o), error := ErrorAfter(s, o, TimeZoneCell), loading := false)
  }

  function SettleFuture(s: StoreState, o: Outcome<FutureResponse>): StoreState {
    s.(future := CellAfter(o), error := ErrorAfter(s, o, FutureCell), loading := false)
  }

  function SettleIPLookup(s: StoreState, o: Outcome<IPLookupResponse>): StoreState {
    s.(ipLookup := CellAfter(o), error := ErrorAfter(s, o, IPLookupCell), loading := false)
  }

  /** What a loader for a cell leaves behind once it settles: `loading` off; on
      success the response verbatim and no error; on failure an empty cell and
      the failure's message, or `fallback` for a non-`Error` value. */
  predicate SettledAs<T(==)>(t: StoreState, cell: Option<T>, o: Outcome<T>, fallback: string) {
    && !t.loading
    && (o.Ok? ==> cell == Some(o.response) && t.error == None)
    && (o.Fail? ==> cell == None && t.error == Some(o.message.GetOr(fallback)))
  }

  // ---------------------------------------------------------------------------
  // Each loader, run on its own: start then settle.

  lemma LoadCurrentWeatherSettles(s: StoreState, o: Outcome<CurrentWeatherResponse>)
    ensures var t := SettleCurrentWeather(Start(s), o);
            SettledAs(t, t.currentWeather, o, "Failed to load current weather") && OthersUnchanged(s, t, CurrentWeatherCell)
  {
  }

  lemma LoadForecastSettles(s: StoreState, o: Outcome<ForecastResponse>)
    ensures var t := SettleForecast(Start(s), o);
            SettledAs(t, t.forecast, o, "Failed to load forecast") && OthersUnchanged(s, t, ForecastCell)
  {
  }

  lemma LoadHistorySettles(s: StoreState, o: Outcome<HistoryResponse>)
    ensures var t := SettleHistory(Start(s), o);
            SettledAs(t, t.history, o, "Failed to load historical data") && OthersUnchanged(s, t, HistoryCell)
  {
  }

  lemma LoadAlertsSettles(s: StoreState, o: Outcome<AlertsResponse>)
    ensures var t := SettleAlerts(Start(s), o);
            SettledAs(t, t.alerts, o, "Failed to load alerts") && OthersUnchanged(s, t, AlertsCell)
  {
  }

  lemma LoadAstronomySettles(s: StoreState, o: Outcome<AstronomyResponse>)
    ensures var t := SettleAstronomy(Start(s), o);
            SettledAs(t, t.astronomy, o, "Failed to load astronomy data") && OthersUnchanged(s, t, AstronomyCell)
  {
  }

  lemma LoadMarineSettles(s: StoreState, o: Outcome<MarineResponse>)
    ensures var t := SettleMarine(Start(s), o);
            SettledAs(t, t.marine, o, "Failed to load marine weather") && OthersUnchanged(s, t, MarineCell)
  {
  }

  lemma LoadSportsSettles(s: StoreState, o: Outcome<SportsResponse>)
    ensures var t := SettleSports(Start(s), o);
            SettledAs(t, t.sports, o, "Failed to load sports weather") && OthersUnchanged(s, t, SportsCell)
  {
  }

  lemma LoadTimeZoneSettles(s: StoreState, o: Outcome<TimeZoneResponse>)
    ensures var t := SettleTimeZone(Start(s), o);
            SettledAs(t, t.timeZone, o, "Failed to load time zone data") && OthersUnchanged(s, t, TimeZoneCell)
  {
  }

  lemma LoadFutureSettles(s: StoreState, o: Outcome<FutureResponse>)
    ensures var t := SettleFuture(Start(s), o);
            SettledAs(t, t.future, o, "Failed to load future weather") && OthersUnchanged(s, t, FutureCell)
  {
  }

  lemma LoadIPLookupSettles(s: StoreState, o: Outcome<IPLookupResponse>)
    ensures var t := SettleIPLookup(Start(s), o);
            SettledAs(t, t.ipLookup, o, "Failed to load IP lookup data") && OthersUnchanged(s, t, IPLookupCell)
  {
  }

  // ---------------------------------------------------------------------------
  // Search

  /** `searchLocations(q)`: an empty or blank query only clears the results;
      any other query runs the loader, whose failure leaves `[]`. */
  function SearchLocations(s: StoreState, q: string, o: Outcome<seq<SearchLocationItem>>): StoreState {
    if q == "" || Trim(q) == [] then s.(searchResults := []) else SettleSearch(Start(s), o)
  }

  /** A blank query clears the results and touches nothing else, not even `loading` or `error`. */
  lemma BlankSearchOnlyClearsResults(s: StoreState, q: string, o: Outcome<seq<SearchLocationItem>>)
    requires IsBlank(q)
    ensures var t := SearchLocations(s, q, o);
            t.searchResults == [] && t.loading == s.loading && t.error == s.error && OthersUnchanged(s, t, SearchResultsCell)
  {
  }

  /** A query with a non-blank character settles like any loader, with `[]` instead of `null` on failure. */
  lemma SearchSettles(s: StoreState, q: string, o: Outcome<seq<SearchLocationItem>>)
    requires !IsBlank(q)
    ensures var t := SearchLocations(s, q, o);
            && !t.loading
            && (o.Ok? ==> t.searchResults == o.response && t.error == None)
            && (o.Fail? ==> t.searchResults == [] && t.error == Some(o.message.GetOr("Failed to search locations")))
            && OthersUnchanged(s, t, SearchResultsCell)
  {
  }

  // ---------------------------------------------------------------------------
  // Current weather and forecast together

  /** `loadWeatherAndForecast`: the outer start, both inner loaders' starts (in
      array order), the two settles in the order the calls resolve, and the
      outer `finally`. The outer `catch` cannot run: the inner loaders catch
      every rejection themselves. */
  function LoadWeatherAndForecast(
    s: StoreState, oc: Outcome<CurrentWeatherResponse>, of: Outcome<ForecastResponse>, currentFirst: bool): StoreState
  {
    var started := Start(Start(Start(s)));
    var settled :=
      if currentFirst then SettleForecast(SettleCurrentWeather(started, oc), of)
      else SettleCurrentWeather(SettleForecast(started, of), oc);
    settled.(loading := false)
  }

  /** Each half's cell depends only on its own outcome, in either completion
      order: one call's failure never clears the other's cell. */
  lemma WeatherAndForecastCells(
    s: StoreState, oc: Outcome<CurrentWeatherResponse>, of: Outcome<ForecastResponse>, currentFirst: bool)
    ensures var t := LoadWeatherAndForecast(s, oc, of, currentFirst);
            && t.currentWeather == CellAfter(oc)
            && t.forecast == CellAfter(of)
            && !t.loading
            && forall c :: c != CurrentWeatherCell && c != ForecastCell ==> SameCell(s, t, c)
  {
  }

  /** `error` ends `null` exactly when both calls succeed, whichever settles first;
      when both fail, the message of the one that settled last is kept. */
  lemma WeatherAndForecastError(
    s: StoreState, oc: Outcome<CurrentWeatherResponse>, of: Outcome<ForecastResponse>, currentFirst: bool)
    ensures var t := LoadWeatherAndForecast(s, oc, of, currentFirst);
            && (t.error == None <==> oc.Ok? && of.Ok?)
            && (oc.Fail? && of.Fail? ==>
                  t.error == Some(if currentFirst then of.message.GetOr("Failed to load forecast")
                                  else oc.message.GetOr("Failed to load current weather")))
            && (oc.Fail? && of.Ok? ==> t.error == Some(oc.message.GetOr("Failed to load current weather")))
            && (oc.Ok? && of.Fail? ==> t.error == Some(of.message.GetOr("Failed to load forecast")))
  {
  }

  /** The shared flag: once the first half settles, `loading` is already off
      although the other half is still outstanding. */
  lemma LoadingClearedWhileOtherHalfPending(s: StoreState, oc: Outcome<CurrentWeatherResponse>, of: Outcome<ForecastResponse>)
    ensures !SettleCurrentWeather(Start(Start(Start(s))), oc).loading
    ensures !SettleForecast(Start(Start(Start(s))), of).loading
  {
  }

  // ---------------------------------------------------------------------------
  // Reset, clearError and the computed projections

  /** `reset()`: every cell emptied, not loading, no error. */
  function Reset(s: StoreState): StoreState {
    Initial
  }

  /** From any state, reset empties every cell and clears both flags; it is idempotent. */
  lemma ResetFromAnyState(s: StoreState)
    ensures forall c :: IsEmptyCell(Reset(s), c)
    ensures !Reset(s).loading && Reset(s).error == None
    ensures Reset(Reset(s)) == Reset(s)
  {
  }

  /** `clearError()`. */
  function ClearError(s: StoreState): StoreState {
    s.(error := None)
  }

  /** clearError changes only `error`. */
  lemma ClearErrorOnlyClearsError(s: StoreState)
    ensures ClearError(s).error == None
    ensures forall c :: SameCell(s, ClearError(s), c)
    ensures ClearError(s).loading == s.loading
  {
  }

  /** `currentLocation`: the current weather's location, `null` exactly when there is no current weather. */
  function CurrentLocation(s: StoreState): (r: Option<Location>)
    ensures r.None? <==> s.currentWeather.None?
    ensures r.Some? ==> r.value == s.currentWeather.value.location
  {
    match s.currentWeather
    case Some(w) => Some(w.location)
    case None => None
  }

  /** `currentData`: the current weather's conditions, `null` exactly when there is no current weather. */
  function CurrentData(s: StoreState): (r: Option<Current>)
    ensures r.None? <==> s.currentWeather.None?
    ensures r.Some? ==> r.value == s.currentWeather.value.current
  {
    match s.currentWeather
    case Some(w) => Some(w.current)
    case None => None
  }

  // ---------------------------------------------------------------------------
  // Calls the components make on the store

  /** A call a component issues on the store (and does not await). */
  datatype StoreCall =
    | LoadWeatherAndForecastCall(q: string, days: Option<int>, current: CurrentWeatherOptions, forecastOptions: ForecastOptions)
    | LoadAlertsCall(q: string, alertsOptions: AlertsOptions)
    | LoadAstronomyCall(q: string, astronomyOptions: AstronomyOptions)
    | LoadFutureCall(q: string, dt: string, futureOptions: FutureOptions)
    | SearchLocationsCall(q: string)

  /** The HTTP requests a store call makes. */
  function CallRequests(call: StoreCall): seq<Api.Request> {
    match call
    case LoadWeatherAndForecastCall(q, days, current, forecast) =>
      [Api.GetCurrentWeather(q, current), Api.GetForecast(q, Some(days.GetOr(3)), forecast)]
    case LoadAlertsCall(q, options) => [Api.GetAlerts(q, options)]
    case LoadAstronomyCall(q, options) => [Api.GetAstronomy(q, options)]
    case LoadFutureCall(q, dt, options) => [Api.GetFuture(q, dt, options)]
    case SearchLocationsCall(q) => if q == "" || Trim(q) == [] then [] else [Api.SearchLocations(q)]
  }

  /** `"name, country"`: how the components name a place in a query. */
  function PlaceName(name: string, country: string): string {
    name + ", " + country
  }
}
