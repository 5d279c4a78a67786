/** The provider's JSON shapes, cut down to the fields the dashboard's logic reads,
    and the option records the API client accepts. An omitted optional field
    (`aqi?: boolean`) is `None`; an omitted options object is the record whose
    fields are all `None`. */
module WeatherModel {
  import opened Wrappers

  datatype Location = Location(name: string, region: string, country: string, tzId: string, localtime: string)

  /** Pollutant concentrations and the two indexes, as reported by the provider. */
  datatype AirQuality = AirQuality(
    co: real, no2: real, o3: real, so2: real, pm2_5: real, pm10: real,
    usEpaIndex: real, gbDefraIndex: real)

  datatype Current = Current(lastUpdated: string, tempC: real, airQuality: Option<AirQuality>)

  datatype HourForecast = HourForecast(timeEpoch: int, time: string, tempC: real)

  datatype Astronomy = Astronomy(sunrise: string, sunset: string, moonrise: string, moonset: string)

  datatype ForecastDay = ForecastDay(date: string, astro: Astronomy, hour: seq<HourForecast>)

  datatype Alert = Alert(headline: string, severity: string, event: string, effective: string, expires: string)

  datatype CurrentWeatherResponse = CurrentWeatherResponse(location: Location, current: Current)

  /** `alerts?.alert`: `None` when the response has no alert list. */
  datatype ForecastResponse = ForecastResponse(
    location: Location, current: Current, forecastday: seq<ForecastDay>, alerts: Option<seq<Alert>>)

  datatype SearchLocationItem = SearchLocationItem(id: int, name: string, region: string, country: string, url: string)

  datatype HistoryResponse = HistoryResponse(location: Location, forecastday: seq<ForecastDay>)

  /** `alerts?.alert`: `None` when the payload carries no alert list. */
  datatype AlertsResponse = AlertsResponse(location: Location, alerts: Option<seq<Alert>>)

  datatype AstronomyResponse = AstronomyResponse(location: Location, astro: Astronomy)

  datatype MarineResponse = MarineResponse(location: Location, forecastday: seq<ForecastDay>)

  datatype SportsEvent = SportsEvent(stadium: string, country: string, tournament: string, start: string)

  datatype SportsResponse = SportsResponse(
    location: Location, football: Option<seq<SportsEvent>>, cricket: Option<seq<SportsEvent>>, golf: Option<seq<SportsEvent>>)

  datatype TimeZoneResponse = TimeZoneResponse(location: Location)

  datatype FutureResponse = FutureResponse(location: Location, forecastday: seq<ForecastDay>)

  datatype IPLookupResponse = IPLookupResponse(ip: string, countryName: string, city: string, tzId: string)

  datatype CurrentWeatherOptions = CurrentWeatherOptions(aqi: Option<bool>, lang: Option<string>)

  /** `days` is declared by the model file but never read by the client. */
  datatype ForecastOptions = ForecastOptions(days: Option<int>, aqi: Option<bool>, alerts: Option<bool>, lang: Option<string>)

  /** `dt` is declared by the model file but the client takes the date as its own argument. */
  datatype HistoryOptions = HistoryOptions(dt: Option<string>, endDt: Option<string>, lang: Option<string>)

  datatype AlertsOptions = AlertsOptions(lang: Option<string>)

  datatype AstronomyOptions = AstronomyOptions(dt: Option<string>, lang: Option<string>)

  datatype MarineOptions = MarineOptions(days: Option<int>, lang: Option<string>)

  datatype SportsOptions = SportsOptions(lang: Option<string>)

  datatype TimeZoneOptions = TimeZoneOptions(lang: Option<string>)

  /** `dt` is declared by the model file but the client takes the date as its own argument. */
  datatype FutureOptions = FutureOptions(dt: Option<string>, lang: Option<string>)
}
