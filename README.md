# Weather dashboard: a verified model of its logic

This project models an Angular weather dashboard that reads its data from the
weatherapi.com REST API. The model covers:

- the central `WeatherStore`: eleven data cells, a shared `loading` flag and a
  shared `error` message, updated by asynchronous loaders;
- how `WeatherApiService` builds each request's endpoint and query parameters;
- the small rules in the components: air-quality banding, alert selection and
  severity colours, the sunrise/sunset time display, date rendering for the
  future-weather request, day and hour selection in the hourly forecast, and the
  search-as-you-type box with its debounce and selection guard;
- the dark-mode preference in `ThemeService` and the public-address fallback in
  `IpService`.

An HTTP call is an `Outcome<T>`: `Ok(response)`, or `Fail(message)`. The
message is `Some(m)` when the thrown value is an `Error` and `None` otherwise.

Each loader is split at its one `await` into two steps:

- a start step: `loading` on and `error` cleared;
- a settle step: consume the outcome, then `loading` off.

That split lets `loadWeatherAndForecast` be stated for either completion order.

Components do not call the store. They return `StoreCall` values, and
`StoreSpec.CallRequests` maps each one to the HTTP requests it causes.

Modules, one per source file plus three shared ones:

| module | file | models |
|---|---|---|
| `Wrappers` | wrappers.dfy | `Option`, `Outcome` |
| `JsText` | js_text.dfy | the JavaScript string and number built-ins used: `trim`, `\s`, `toLowerCase`, `length`, `toString`, `padStart`, `lastIndexOf` |
| `WeatherModel` | weather_model.dfy | response and option shapes from `weather.model.ts` |
| `WeatherApi` | weather_api.dfy | `WeatherApiService` |
| `StoreSpec` | store_spec.dfy | the store as a pure state machine |
| `WeatherStoreService` | weather_store.dfy | class `WeatherStore`, each method proved equal to a `StoreSpec` transition |
| `AirQualityComponent` | air_quality.dfy | `AirQualityComponent` |
| `WeatherAlertsComponent` | weather_alerts.dfy | `WeatherAlertsComponent` |
| `AstronomyComponent` | astronomy.dfy | `AstronomyComponent` |
| `FutureWeatherComponent` | future_weather.dfy | `FutureWeatherComponent` |
| `HourlyForecastComponent` | hourly_forecast.dfy | `HourlyForecastComponent` |
| `LocationSearchComponent` | location_search.dfy | `LocationSearchComponent` as events over a state value, plus a class |
| `ThemeService` | theme_service.dfy | `ThemeService` |
| `IpService` | ip_service.dfy | `IpService` |

## Model

| member | source | states |
|---|---|---|
| `StoreSpec.LoadCurrentWeatherSettles` | src/app/features/weather/services/weather-store.service.ts:58-72 | On success the response is stored unchanged, `error` is null and `loading` is false. On failure the cell is null and `error` is the error's message, or 'Failed to load current weather'. No other cell changes. |
| `StoreSpec.LoadForecastSettles` | src/app/features/weather/services/weather-store.service.ts:80-94 | The same for the forecast cell, with fallback 'Failed to load forecast'. |
| `StoreSpec.LoadHistorySettles` | src/app/features/weather/services/weather-store.service.ts:127-141 | The same for history, with fallback 'Failed to load historical data'. |
| `StoreSpec.LoadAlertsSettles` | src/app/features/weather/services/weather-store.service.ts:148-162 | The same for alerts, with fallback 'Failed to load alerts'. |
| `StoreSpec.LoadAstronomySettles` | src/app/features/weather/services/weather-store.service.ts:203-217 | The same for astronomy, with fallback 'Failed to load astronomy data'. |
| `StoreSpec.LoadMarineSettles` | src/app/features/weather/services/weather-store.service.ts:224-238 | The same for marine, with fallback 'Failed to load marine weather'. |
| `StoreSpec.LoadSportsSettles` | src/app/features/weather/services/weather-store.service.ts:245-260 | The same for sports, with fallback 'Failed to load sports weather'. |
| `StoreSpec.LoadTimeZoneSettles` | src/app/features/weather/services/weather-store.service.ts:267-281 | The same for time zone, with fallback 'Failed to load time zone data'. |
| `StoreSpec.LoadFutureSettles` | src/app/features/weather/services/weather-store.service.ts:289-303 | The same for future weather, with fallback 'Failed to load future weather'. |
| `StoreSpec.LoadIPLookupSettles` | src/app/features/weather/services/weather-store.service.ts:309-323 | The same for IP lookup, with fallback 'Failed to load IP lookup data'. |
| `StoreSpec.BlankSearchOnlyClearsResults` | src/app/features/weather/services/weather-store.service.ts:100-104 | An empty or all-whitespace query sets the results to `[]` and leaves `loading`, `error` and every other cell as they were. |
| `StoreSpec.SearchSettles` | src/app/features/weather/services/weather-store.service.ts:100-119 | Any other query settles like a loader, except that failure leaves `[]`, never null, with fallback 'Failed to search locations'. |
| `StoreSpec.WeatherAndForecastCells` | src/app/features/weather/services/weather-store.service.ts:170-189 | In either completion order, each cell depends only on its own call's outcome, so one failure never clears the other cell. `loading` ends false and the other nine cells are unchanged. |
| `StoreSpec.WeatherAndForecastError` | src/app/features/weather/services/weather-store.service.ts:170-189 | `error` ends null exactly when both calls succeed, in either order. With one failure it holds that failure's message. With two, it holds the message of the call that settled last. |
| `StoreSpec.LoadingClearedWhileOtherHalfPending` | src/app/features/weather/services/weather-store.service.ts:175-182 | The shared flag goes false as soon as the first of the two calls settles, while the other is still outstanding. |
| `StoreSpec.ResetFromAnyState` | src/app/features/weather/services/weather-store.service.ts:328-342 | From any state, reset empties all eleven cells (`[]` for search) and clears `loading` and `error`. It is idempotent. |
| `StoreSpec.ClearErrorOnlyClearsError` | src/app/features/weather/services/weather-store.service.ts:194-196 | `error` becomes null. Every cell and `loading` are unchanged. |
| `StoreSpec.CurrentLocation` | src/app/features/weather/services/weather-store.service.ts:50 | Null exactly when there is no current weather, otherwise its location. |
| `StoreSpec.CurrentData` | src/app/features/weather/services/weather-store.service.ts:51 | Null exactly when there is no current weather, otherwise its conditions. |
| `WeatherStoreService.WeatherStore.constructor` | src/app/features/weather/services/weather-store.service.ts:35-47 | Every cell empty, not loading, no error. |
| `WeatherStoreService.WeatherStore.Start` | src/app/features/weather/services/weather-store.service.ts:59-60 | Sets `loading` and clears `error`, and changes nothing else. |
| `WeatherStoreService.WeatherStore.Fail` | src/app/features/weather/services/weather-store.service.ts:66-67 | `error` becomes the message, or the category's fallback for a non-`Error` value. Nothing else changes. |
| `WeatherStoreService.WeatherStore.SettleCurrentWeather` | src/app/features/weather/services/weather-store.service.ts:62-71 | The field update equals `StoreSpec.SettleCurrentWeather`. |
| `WeatherStoreService.WeatherStore.SettleForecast` | src/app/features/weather/services/weather-store.service.ts:84-93 | The field update equals `StoreSpec.SettleForecast`. |
| `WeatherStoreService.WeatherStore.LoadCurrentWeather` | src/app/features/weather/services/weather-store.service.ts:58-72 | Issues `GetCurrentWeather(q, options)`. The new state is the start step followed by the settle step. |
| `WeatherStoreService.WeatherStore.LoadForecast` | src/app/features/weather/services/weather-store.service.ts:80-94 | Issues the forecast request with `days` defaulting to 3. The new state is start followed by settle. |
| `WeatherStoreService.WeatherStore.SearchLocations` | src/app/features/weather/services/weather-store.service.ts:100-119 | Makes no request exactly when the query is blank, agreeing with `StoreSpec.CallRequests`. The new state equals `StoreSpec.SearchLocations`. |
| `WeatherStoreService.WeatherStore.LoadHistory` | src/app/features/weather/services/weather-store.service.ts:127-141 | Issues `GetHistory(q, dt, options)`. The new state is start followed by settle. |
| `WeatherStoreService.WeatherStore.LoadAlerts` | src/app/features/weather/services/weather-store.service.ts:148-162 | Issues `GetAlerts`, the request `StoreSpec.CallRequests` gives for the matching call. The new state is start followed by settle. |
| `WeatherStoreService.WeatherStore.LoadWeatherAndForecast` | src/app/features/weather/services/weather-store.service.ts:170-189 | Issues the current and forecast requests, in that order, as `StoreSpec.CallRequests` gives for the matching call. The new state equals `StoreSpec.LoadWeatherAndForecast` for the given completion order. |
| `WeatherStoreService.WeatherStore.ClearError` | src/app/features/weather/services/weather-store.service.ts:194-196 | The new state equals `StoreSpec.ClearError`. |
| `WeatherStoreService.WeatherStore.LoadAstronomy` | src/app/features/weather/services/weather-store.service.ts:203-217 | Issues `GetAstronomy`, the request `StoreSpec.CallRequests` gives for the matching call. The new state is start followed by settle. |
| `WeatherStoreService.WeatherStore.LoadMarine` | src/app/features/weather/services/weather-store.service.ts:224-238 | Issues `GetMarine`. The new state is start followed by settle. |
| `WeatherStoreService.WeatherStore.LoadSports` | src/app/features/weather/services/weather-store.service.ts:245-260 | Issues `GetSports`. The new state is start followed by settle. |
| `WeatherStoreService.WeatherStore.LoadTimeZone` | src/app/features/weather/services/weather-store.service.ts:267-281 | Issues `GetTimeZone`. The new state is start followed by settle. |
| `WeatherStoreService.WeatherStore.LoadFuture` | src/app/features/weather/services/weather-store.service.ts:289-303 | Issues `GetFuture`, the request `StoreSpec.CallRequests` gives for the matching call. The new state is start followed by settle. |
| `WeatherStoreService.WeatherStore.LoadIPLookup` | src/app/features/weather/services/weather-store.service.ts:309-323 | Issues `GetIPLookup`. The new state is start followed by settle. |
| `WeatherStoreService.WeatherStore.EmptyCurrentCells` | src/app/features/weather/services/weather-store.service.ts:329-334 | The first six cells become empty (`[]` for search). Nothing else changes. |
| `WeatherStoreService.WeatherStore.EmptyOtherCells` | src/app/features/weather/services/weather-store.service.ts:335-339 | The last five cells become null. Nothing else changes. |
| `WeatherStoreService.WeatherStore.Reset` | src/app/features/weather/services/weather-store.service.ts:328-342 | The new state equals `StoreSpec.Reset`, the initial state. |
| `WeatherStoreService.WeatherStore.CurrentLocation` | src/app/features/weather/services/weather-store.service.ts:50 | Agrees with `StoreSpec.CurrentLocation` on the fields. |
| `WeatherStoreService.WeatherStore.CurrentData` | src/app/features/weather/services/weather-store.service.ts:51 | Agrees with `StoreSpec.CurrentData` on the fields. |
| `WeatherApi.Lookup` | src/app/features/weather/services/weather-api.service.ts:44-46 | When present, it is the value of a parameter with that name, and no earlier parameter has that name. It is absent exactly when no parameter has that name. |
| `WeatherApi.LookupFlag` | src/app/features/weather/services/weather-api.service.ts:48-50 | An optional boolean is sent under its own name only, as yes/no, and only when defined. |
| `WeatherApi.LookupText` | src/app/features/weather/services/weather-api.service.ts:52-54 | An optional string is sent under its own name only, and only when non-empty. |
| `WeatherApi.LookupConcat` | src/app/features/weather/services/weather-api.service.ts:44-54 | Looking a name up in parameters added one after another finds the earlier part first. |
| `WeatherApi.CurrentWeatherParam` | src/app/features/weather/services/weather-api.service.ts:40-57 | For every parameter name, what the current-weather request sends under it. |
| `WeatherApi.CurrentWeatherParams` | src/app/features/weather/services/weather-api.service.ts:40-57 | Sends `key` and `q`. Sends `aqi` as yes/no exactly when the option is defined, and `lang` exactly when it is non-empty. Sends nothing else. |
| `WeatherApi.ForecastParam` | src/app/features/weather/services/weather-api.service.ts:65-88 | For every parameter name, what the forecast request sends under it. |
| `WeatherApi.ForecastParams` | src/app/features/weather/services/weather-api.service.ts:65-88 | Sends `key` and `q`, and always `days`, rendered in decimal with default "3". `aqi` and `alerts` are yes/no when defined; `lang` only when non-empty. Nothing else. |
| `WeatherApi.SearchParams` | src/app/features/weather/services/weather-api.service.ts:94-100 | Sends `key` and `q` and nothing else. |
| `WeatherApi.HistoryParam` | src/app/features/weather/services/weather-api.service.ts:108-127 | For every parameter name, what the history request sends under it. |
| `WeatherApi.HistoryParams` | src/app/features/weather/services/weather-api.service.ts:108-127 | Sends `key`, `q` and always `dt`. Sends `end_dt` and `lang` only when non-empty. Sends nothing else. |
| `WeatherApi.AlertsParams` | src/app/features/weather/services/weather-api.service.ts:134-147 | Sends `key`, `q`, and `lang` only when non-empty. |
| `WeatherApi.AstronomyParam` | src/app/features/weather/services/weather-api.service.ts:154-171 | For every parameter name, what the astronomy request sends under it. |
| `WeatherApi.AstronomyParams` | src/app/features/weather/services/weather-api.service.ts:154-171 | Sends `key` and `q`. Sends `dt` and `lang` only when non-empty. Sends nothing else. |
| `WeatherApi.LookupCount` | src/app/features/weather/services/weather-api.service.ts:186-188 | An optional count is sent under its own name only, in decimal, and only when non-zero. |
| `WeatherApi.MarineParam` | src/app/features/weather/services/weather-api.service.ts:178-195 | For every parameter name, what the marine request sends under it. |
| `WeatherApi.MarineParams` | src/app/features/weather/services/weather-api.service.ts:178-195 | Sends `key` and `q`. Sends `days` only when non-zero, so 0 is dropped. Sends `lang` only when non-empty. Sends nothing else. |
| `WeatherApi.SportsParams` | src/app/features/weather/services/weather-api.service.ts:202-215 | Sends `key`, `q`, and `lang` only when non-empty. |
| `WeatherApi.TimeZoneParams` | src/app/features/weather/services/weather-api.service.ts:222-235 | Sends `key`, `q`, and `lang` only when non-empty. |
| `WeatherApi.FutureParam` | src/app/features/weather/services/weather-api.service.ts:243-258 | For every parameter name, what the future request sends under it. |
| `WeatherApi.FutureParams` | src/app/features/weather/services/weather-api.service.ts:243-258 | Sends `key`, `q` and always `dt`. Sends `lang` only when non-empty. Sends nothing else. |
| `WeatherApi.IPLookupParams` | src/app/features/weather/services/weather-api.service.ts:264-273 | Always sends `key`. Sends `q` only for a non-empty address. Sends nothing else. |
| `WeatherApi.RequestUrls` | src/app/features/weather/services/weather-api.service.ts:33-272 | Every request, for each of the eleven endpoints, goes to `https://api.weatherapi.com/v1/` followed by its endpoint's path. |
| `WeatherApi.EndpointPathsAreDistinct` | src/app/features/weather/services/weather-api.service.ts:56-272 | No two endpoints share a URL. |
| `StoreSpec.CallRequests` | src/app/features/weather/services/weather-store.service.ts:170-189 | The requests each store call makes. This is the link that the component lemmas use. |
| `AirQualityComponent.GetAqiLevel` | src/app/features/weather/components/air-quality/air-quality.component.ts:19-33 | The badge is the entry of the six-badge table picked by how many of the cut points 1 to 5 the index exceeds. |
| `AirQualityComponent.AqiLevelIsTotal` | src/app/features/weather/components/air-quality/air-quality.component.ts:19-33 | Every index gets one of the six badges, and its label's rank equals its band. |
| `AirQualityComponent.AqiLevelMonotone` | src/app/features/weather/components/air-quality/air-quality.component.ts:20-31 | A larger index never gets a less severe label. |
| `AirQualityComponent.AqiLabelFixesColours` | src/app/features/weather/components/air-quality/air-quality.component.ts:20-31 | Two indexes with the same label get the same text and background colours. |
| `AirQualityComponent.AqiBoundaries` | src/app/features/weather/components/air-quality/air-quality.component.ts:20-31 | Boundaries are inclusive (1 is Good, 5 is Very Unhealthy). Anything above 5 is Hazardous, and negative indexes are Good. |
| `AirQualityComponent.Threshold` | src/app/features/weather/components/air-quality/air-quality.component.ts:37-59 | Positive. Any key other than the six pollutant keys gets 50. |
| `AirQualityComponent.PollutantThresholds` | src/app/features/weather/components/air-quality/air-quality.component.ts:37-59 | The thresholds are co 9, no2 100, o3 100, so2 75, pm2_5 35, pm10 55, and 50 otherwise. Matching is case-sensitive. |
| `AirQualityComponent.GetPollutantLevel` | src/app/features/weather/components/air-quality/air-quality.component.ts:35-70 | The badge is picked by how many of the cut points 0.5×, 1× and 1.5× the threshold the value exceeds. |
| `AirQualityComponent.PollutantLevelMonotone` | src/app/features/weather/components/air-quality/air-quality.component.ts:61-69 | For a fixed pollutant, a larger value never gets a less severe label. |
| `AirQualityComponent.AirQuality` | src/app/features/weather/components/air-quality/air-quality.component.ts:16 | Present exactly when there is current weather that carries air quality, and then it is that value. |
| `AirQualityComponent.HasAirQuality` | src/app/features/weather/components/air-quality/air-quality.component.ts:17 | Holds exactly when the current weather carries air quality. |
| `WeatherAlertsComponent.AlertList` | src/app/features/weather/components/weather-alerts/weather-alerts.component.ts:18-29 | The alerts endpoint's list whenever present, even if empty. Otherwise the forecast's list, otherwise `[]`. A non-empty result comes from one of the two. |
| `WeatherAlertsComponent.HasAlerts` | src/app/features/weather/components/weather-alerts/weather-alerts.component.ts:31 | Holds exactly when the list is non-empty. |
| `WeatherAlertsComponent.EmptyAlertsEndpointWins` | src/app/features/weather/components/weather-alerts/weather-alerts.component.ts:23-24 | An empty list from the alerts endpoint hides the forecast's alerts. |
| `WeatherAlertsComponent.NoSourceNoAlerts` | src/app/features/weather/components/weather-alerts/weather-alerts.component.ts:25-28 | With neither list present, there is nothing to show. |
| `WeatherAlertsComponent.GetSeverityColor` | src/app/features/weather/components/weather-alerts/weather-alerts.component.ts:33-46 | One of five colours. Each of the four named colours is returned exactly when the lower-cased severity is its keyword. |
| `WeatherAlertsComponent.SeverityColorIgnoresCase` | src/app/features/weather/components/weather-alerts/weather-alerts.component.ts:34 | The colour depends only on the lower-cased severity. |
| `WeatherAlertsComponent.SeverityColorDefault` | src/app/features/weather/components/weather-alerts/weather-alerts.component.ts:43-44 | Any other severity gets bg-blue-500. |
| `WeatherAlertsComponent.SeverityColorCapitalised` | src/app/features/weather/components/weather-alerts/weather-alerts.component.ts:34-36 | "Extreme" maps to bg-red-600. |
| `WeatherAlertsComponent.SeverityColorUpperCase` | src/app/features/weather/components/weather-alerts/weather-alerts.component.ts:41-42 | "MINOR" maps to bg-yellow-500. |
| `WeatherAlertsComponent.FormatDate` | src/app/features/weather/components/weather-alerts/weather-alerts.component.ts:48-51 | The empty string gives the empty string. Anything else goes to `Date`. |
| `AstronomyComponent.FormatTime` | src/app/features/weather/components/astronomy/astronomy.component.ts:30-58 | The placeholder 'â€”' exactly for empty or blank input. The trimmed text exactly when it matches the clock pattern. Otherwise the untrimmed input goes to `Date`. |
| `AstronomyComponent.FormatTimePadded` | src/app/features/weather/components/astronomy/astronomy.component.ts:38-41 | A clock time surrounded by whitespace is shown as the bare clock time. |
| `AstronomyComponent.FormatTimeIdempotent` | src/app/features/weather/components/astronomy/astronomy.component.ts:38-41 | Formatting an already formatted clock time changes nothing. |
| `AstronomyComponent.FormatTimeDoesNotCheckRanges` | src/app/features/weather/components/astronomy/astronomy.component.ts:39 | "99:99 pm" is accepted: hours and minutes are not range-checked, and the meridiem may be lower case. |
| `AstronomyComponent.FormatTimeTrims` | src/app/features/weather/components/astronomy/astronomy.component.ts:38-41 | " 3:05PM\n" is shown as "3:05PM": one hour digit, no space. |
| `AstronomyComponent.FormatTimeNeedsMeridiem` | src/app/features/weather/components/astronomy/astronomy.component.ts:39-44 | "15:30" is not a clock time and goes to `Date`. |
| `AstronomyComponent.LoadAstronomy` | src/app/features/weather/components/astronomy/astronomy.component.ts:22-28 | No call exactly when there is no location. Otherwise the astronomy load for "name, country". |
| `AstronomyComponent.AstronomyRequestDate` | src/app/features/weather/components/astronomy/astronomy.component.ts:26-27 | The resulting request carries the place, and carries `dt` exactly when a date was picked. |
| `FutureWeatherComponent.ApiDateRoundTrip` | src/app/features/weather/components/future-weather/future-weather.component.ts:48-53 | The `year-MM-dd` rendering reads back as the same year, month and day. |
| `FutureWeatherComponent.ApiDateInjective` | src/app/features/weather/components/future-weather/future-weather.component.ts:48-53 | Different dates are sent as different strings. |
| `FutureWeatherComponent.ApiDateShape` | src/app/features/weather/components/future-weather/future-weather.component.ts:48-53 | With a four-digit year the string has 10 characters, dashes at 4 and 7, and the month and day padded to two digits. |
| `FutureWeatherComponent.DisplayDateRoundTrip` | src/app/features/weather/components/future-weather/future-weather.component.ts:37-43 | The `year/MM/d` rendering reads back as the same date. |
| `FutureWeatherComponent.DisplayDayUnpadded` | src/app/features/weather/components/future-weather/future-weather.component.ts:37-53 | 5 January 2025 renders as "2025/01/5" for display and as "2025-01-05" for the API. |
| `FutureWeatherComponent.JoinedDateRoundTrip` | src/app/features/weather/components/future-weather/future-weather.component.ts:42-52 | A year and two digit strings joined by a non-digit separator read back as their values. |
| `FutureWeatherComponent.InvalidDateUnreadable` | src/app/features/weather/components/future-weather/future-weather.component.ts:48-53 | The "NaN-NaN-NaN" an invalid date yields does not read as a date. |
| `FutureWeatherComponent.DateForApiRoundTrip` | src/app/features/weather/components/future-weather/future-weather.component.ts:33-34 | The date sent reads back as the picked date, or as nothing for an invalid date. |
| `FutureWeatherComponent.LoadFuture` | src/app/features/weather/components/future-weather/future-weather.component.ts:25-35 | No call exactly when no date is picked or there is no location. Otherwise the future load for "name, country". |
| `FutureWeatherComponent.LoadFutureRequestDate` | src/app/features/weather/components/future-weather/future-weather.component.ts:31-34 | The resulting request carries the place and a `dt` that reads back as the picked date. |
| `HourlyForecastComponent.ForecastDays` | src/app/features/weather/components/hourly-forecast/hourly-forecast.component.ts:19-22 | `[]` without a forecast, otherwise the forecast's days. |
| `HourlyForecastComponent.SelectedDayHours` | src/app/features/weather/components/hourly-forecast/hourly-forecast.component.ts:24-31 | The selected day's hours when the index is in range, otherwise `[]`, negative indexes included. |
| `HourlyForecastComponent.FindIndex` | src/app/features/weather/components/hourly-forecast/hourly-forecast.component.ts:36-40 | -1 exactly when no hour matches. Otherwise the first matching position. |
| `HourlyForecastComponent.CurrentHourIndex` | src/app/features/weather/components/hourly-forecast/hourly-forecast.component.ts:33-41 | The position of the first of the selected day's hours that matches. It is -1 exactly when none matches. |
| `HourlyForecastComponent.NoDayNoCurrentHour` | src/app/features/weather/components/hourly-forecast/hourly-forecast.component.ts:24-41 | Without a forecast, or with an index out of range, there are no hours and the index is -1. |
| `HourlyForecastComponent.FindIndexSkipsMisses` | src/app/features/weather/components/hourly-forecast/hourly-forecast.component.ts:36-40 | Hours that do not match, placed in front, shift the found position by their number. |
| `HourlyForecastComponent.HourlyForecast.constructor` | src/app/features/weather/components/hourly-forecast/hourly-forecast.component.ts:17 | The first day is selected. |
| `HourlyForecastComponent.HourlyForecast.SelectDay` | src/app/features/weather/components/hourly-forecast/hourly-forecast.component.ts:43-45 | The index is stored as given, without clamping. |
| `HourlyForecastComponent.SelectOutOfRange` | src/app/features/weather/components/hourly-forecast/hourly-forecast.component.ts:24-31 | Selecting one past the last day shows no hours. |
| `LocationSearchComponent.AfterEffect` | src/app/features/weather/components/location-search/location-search.component.ts:29-57 | The effect never changes the query, the selected city, the selecting flag or any timer other than the debounce timer. |
| `LocationSearchComponent.EffectIgnoredWhileSelecting` | src/app/features/weather/components/location-search/location-search.component.ts:34-36 | While a selection is in progress, the effect changes nothing. |
| `LocationSearchComponent.EffectOnSelectedCity` | src/app/features/weather/components/location-search/location-search.component.ts:39-42 | A query equal to the selected city hides the results and keeps an armed search armed. |
| `LocationSearchComponent.EffectRearms` | src/app/features/weather/components/location-search/location-search.component.ts:45-56 | Any other query cancels the armed search. A query of two or more code units arms one for itself; a shorter one hides the results. |
| `LocationSearchComponent.OneCharacterQueries` | src/app/features/weather/components/location-search/location-search.component.ts:49 | "L" is too short to search. One character outside the Basic Multilingual Plane is long enough, because it takes two UTF-16 code units. |
| `LocationSearchComponent.TimerSearchesArmedQuery` | src/app/features/weather/components/location-search/location-search.component.ts:50-53 | The timer searches for the query it was armed with and shows the results. With nothing armed, it does nothing. |
| `LocationSearchComponent.StepKeepsValid` | src/app/features/weather/components/location-search/location-search.component.ts:49-53 | No event can arm a query shorter than two code units. |
| `LocationSearchComponent.RunSearchesLongEnough` | src/app/features/weather/components/location-search/location-search.component.ts:29-104 | For every sequence of events, every search the component asks for is for a query of two or more code units. |
| `LocationSearchComponent.SearchTimerTwice` | src/app/features/weather/components/location-search/location-search.component.ts:50-53 | An armed search fires once. A second timer finds nothing armed and makes no call. |
| `LocationSearchComponent.DebounceKeepsLastQuery` | src/app/features/weather/components/location-search/location-search.component.ts:45-53 | Typing two long-enough queries, each followed by the effect, before the timer fires gives exactly one search, for the last query. The results end up shown and nothing stays armed. |
| `LocationSearchComponent.SelectionLoadsPlace` | src/app/features/weather/components/location-search/location-search.component.ts:65-91 | Selecting makes "name, country" the query and the selected city, sets the selecting flag and hides the results. It leaves the debounce timer alone and loads weather, forecast and alerts for the place. |
| `LocationSearchComponent.SelectionRequests` | src/app/features/weather/components/location-search/location-search.component.ts:84-87 | The selection's requests ask for seven forecast days, with `aqi=yes` on both and `alerts=yes` on the forecast. |
| `LocationSearchComponent.SelectionDoesNotSearch` | src/app/features/weather/components/location-search/location-search.component.ts:69-81 | After a selection, the effect searches nothing, both before and after the guard expires, and the results stay hidden. |
| `LocationSearchComponent.ArmedSearchSurvivesSelection` | src/app/features/weather/components/location-search/location-search.component.ts:50-53 | A search armed just before a selection still fires afterwards and shows the results again. |
| `LocationSearchComponent.FocusShowsNonEmptyResults` | src/app/features/weather/components/location-search/location-search.component.ts:93-97 | Focus shows the results exactly when there are some, and otherwise changes nothing. |
| `LocationSearchComponent.BlurHidesResults` | src/app/features/weather/components/location-search/location-search.component.ts:99-104 | A blur hides the results once its timer fires. |
| `LocationSearchComponent.LocationSearch.constructor` | src/app/features/weather/components/location-search/location-search.component.ts:16-25 | Empty query, results hidden, 'Cebu, Philippines' selected, nothing armed. |
| `LocationSearchComponent.LocationSearch.OnSearchInput` | src/app/features/weather/components/location-search/location-search.component.ts:60-63 | The new state equals `AfterInput`. |
| `LocationSearchComponent.LocationSearch.RunEffect` | src/app/features/weather/components/location-search/location-search.component.ts:29-57 | The new state equals `AfterEffect`, and the armed query stays long enough. |
| `LocationSearchComponent.LocationSearch.OnSearchTimer` | src/app/features/weather/components/location-search/location-search.component.ts:50-53 | The new state and the calls made equal `AfterSearchTimer`. |
| `LocationSearchComponent.LocationSearch.SelectLocation` | src/app/features/weather/components/location-search/location-search.component.ts:65-91 | The new state and the calls made equal `AfterSelect`. |
| `LocationSearchComponent.LocationSearch.OnGuardExpired` | src/app/features/weather/components/location-search/location-search.component.ts:79-81 | The new state equals `AfterGuard`. |
| `LocationSearchComponent.LocationSearch.OnFocus` | src/app/features/weather/components/location-search/location-search.component.ts:93-97 | The new state equals `AfterFocus`. |
| `LocationSearchComponent.LocationSearch.OnBlur` | src/app/features/weather/components/location-search/location-search.component.ts:99-104 | The new state equals `AfterBlur`. |
| `LocationSearchComponent.LocationSearch.OnBlurTimer` | src/app/features/weather/components/location-search/location-search.component.ts:101-103 | The new state equals `AfterBlurTimer`. |
| `ThemeService.InitialTheme` | src/app/core/services/theme.service.ts:30-43 | A stored value decides: dark exactly for "dark". Without one, the system preference decides; without that, light. |
| `ThemeService.GetItem` | src/app/core/services/theme.service.ts:32 | Null exactly for a missing key, otherwise the stored string. |
| `ThemeService.SavedThemeRestores` | src/app/core/services/theme.service.ts:32-34 | A saved mode is read back as itself, whatever the system prefers. |
| `ThemeService.UnknownStoredValueIsLight` | src/app/core/services/theme.service.ts:33-34 | "light", or any stored string other than "dark", means light mode, even on a dark system. |
| `ThemeService.StoredValue` | src/app/core/services/theme.service.ts:56-59 | Either "dark" or "light". |
| `ThemeService.Applied` | src/app/core/services/theme.service.ts:45-54 | 'dark' is present exactly when the mode is dark. No other class changes. |
| `ThemeService.AppliedLastWins` | src/app/core/services/theme.service.ts:45-54 | Applying a mode over another gives the same classes as applying it alone. |
| `ThemeService.ThemeService.constructor` | src/app/core/services/theme.service.ts:9-13 | Starts in the initial mode read from storage, with that mode already applied to the classes. |
| `ThemeService.ThemeService.ToggleTheme` | src/app/core/services/theme.service.ts:22-24 | The mode flips. Storage and classes wait for the effect. |
| `ThemeService.ThemeService.SetDarkMode` | src/app/core/services/theme.service.ts:26-28 | The mode becomes exactly the argument. |
| `ThemeService.ThemeService.ApplyTheme` | src/app/core/services/theme.service.ts:45-54 | The classes become `Applied(classes, isDark)`. |
| `ThemeService.ThemeService.SaveTheme` | src/app/core/services/theme.service.ts:56-59 | Only the theme key is written, with "dark" or "light". |
| `ThemeService.ThemeService.Sync` | src/app/core/services/theme.service.ts:15-19 | Applies and saves the mode, so a service created later from this storage starts in the same mode. |
| `ThemeService.ToggleTwice` | src/app/core/services/theme.service.ts:22-24 | Two toggles, each followed by the effect, restore the mode and the classes. |
| `IpService.SettledIP` | src/app/core/services/ip.service.ts:31-39 | The reported address on success, '' on failure. |
| `IpService.FailureClearsDefault` | src/app/core/services/ip.service.ts:35-38 | A failed lookup does not leave 'Cebu, Philippines' in place. |
| `IpService.IpService.constructor` | src/app/core/services/ip.service.ts:17 | `publicIP` starts as 'Cebu, Philippines'. |
| `IpService.IpService.GetPublicIPAsync` | src/app/core/services/ip.service.ts:23-39 | Requests 'https://api.ipify.org?format=json'. `publicIP` becomes `SettledIP(outcome)`, and no failure escapes. |
| `JsText.Trim` | src/app/features/weather/components/astronomy/astronomy.component.ts:32-38 | Empty exactly for a blank string. Never starts or ends with whitespace. |
| `JsText.TrimIdempotent` | src/app/features/weather/components/astronomy/astronomy.component.ts:38 | Trimming twice is trimming once. |
| `JsText.TrimPadded` | src/app/features/weather/services/weather-store.service.ts:101 | Trimming strips exactly the surrounding whitespace. |
| `JsText.ToLower` | src/app/features/weather/components/weather-alerts/weather-alerts.component.ts:34 | Same length, lower-cased letter by letter. |
| `JsText.ToLowerIdempotent` | src/app/features/weather/components/weather-alerts/weather-alerts.component.ts:34 | Lower-casing twice is lower-casing once. |
| `JsText.Utf16Length` | src/app/features/weather/components/location-search/location-search.component.ts:49 | Between one and two units per character, and equal to the character count exactly when every character is in the Basic Multilingual Plane. |
| `JsText.NatToDecimal` | src/app/features/weather/services/weather-api.service.ts:73 | A non-empty digit string with no leading zero. |
| `JsText.IntRoundTrip` | src/app/features/weather/services/weather-api.service.ts:73 | Every integer rendered with `toString` reads back as itself. |
| `JsText.IntToStringInjective` | src/app/features/weather/services/weather-api.service.ts:187 | Different integers render differently. |
| `JsText.PadStart2` | src/app/features/weather/components/future-weather/future-weather.component.ts:50-51 | Two characters at least: the original at the end, zeros in front. |
| `JsText.PadStart2Value` | src/app/features/weather/components/future-weather/future-weather.component.ts:50-51 | Zero padding does not change a digit string's value. |
| `JsText.LastIndexOf` | src/app/features/weather/components/future-weather/future-weather.component.ts:52 | -1 or a position of the character, with no occurrence after it. |

## Left out

- HTTP transport, `Observable`/`lastValueFrom` and Angular's `signal`, `computed`, `effect` and `inject`.
  - Responses are `Outcome` values supplied by the caller.
  - Signals are plain fields.
  - An effect run is an explicit event.
- Interleaving of concurrent loads beyond one chosen order.
  - `loadWeatherAndForecast` takes the order in which its two requests settle.
  - Other overlapping loads, and the bootstrap orchestration in `weather-initializer.service.ts`, are not modelled.
- The outer `catch` of `loadWeatherAndForecast` has no branch in the model.
  - The two inner loaders catch every rejection themselves, so `Promise.all` never rejects and that branch cannot run.
- Wall-clock timers: the 300 ms debounce, the 100 ms selection guard and the 200 ms blur delay.
  - Each armed timer is recorded in the state and fires as an event.
  - Their relative timing is left to the order of events.
- `Date` parsing and locale formatting, which depend on the host's clock, time zone and locale:
  - the `Date` fallback of `formatTime` and the non-empty branch of the alerts `formatDate` (both return `DateFormatted(input)`);
  - `new Date(futureDate)` in `loadFuture` and in `formatDate` (the local year, month and day are an input);
  - `minFutureDate`/`maxFutureDate`;
  - the hour test inside `currentHourIndex` (a parameter);
  - `getHour` and `getDateLabel`.
- `FutureWeatherComponent.LoadFuture`: how the picked `yyyy-MM-dd` string becomes local date components is an input.
  - The model does not capture the day shift that parsing a date-only string as UTC can cause west of Greenwich.
- Rendering-only components, templates and page components: `weather-card`, `forecast-list`, `marine-weather`, `time-zone`, `ip-lookup`, `historical-weather`, `app.ts`.
- `console.log`/`console.warn`, `window.matchMedia` (the system preference is an input), and the server-side guards `typeof document`/`typeof localStorage === 'undefined'` (a browser is assumed).
- `environment.ts` is not part of this model beyond its two constants, the API URL and the key placeholder. `app.config.ts`, `app.routes.ts` and `scripts/build-netlify.js` are not part of this model.
- `JsText.ToLower`: only ASCII letters are lower-cased.
  - Full Unicode case mapping is not modelled.
  - This changes no colour. The only non-ASCII letter whose lower case is an ASCII letter is the Kelvin sign (U+212A), which lower-cases to 'k'. No severity keyword contains 'k', so every input gets the same colour as under full `toLowerCase`.
- `JsText.IntToString`: integers only.
  - No exponent form above 10^21, no fractions, no `NaN`.
  - `days` values are integers in the model.
- `JsText.Utf16Length` counts code units for strings of Unicode scalar values. Unpaired surrogates cannot be written in the model.
- Option fields the client declares but never reads (`days` in `ForecastOptions`, `dt` in `HistoryOptions` and `FutureOptions`) are carried and ignored, as in the source.
- Pollutant and index values are exact reals. Every threshold and every half or one-and-a-half multiple of one is exactly representable as a double, so the comparisons agree with floating point.
