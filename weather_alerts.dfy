/** `WeatherAlertsComponent`: which alert list is shown, the severity colour
    and the empty-input case of the date display. */
module WeatherAlertsComponent {
  import opened Wrappers
  import opened JsText
  import opened WeatherModel
  import Spec = StoreSpec

  /** `alertList`: the alerts endpoint's list whenever it has one (even an empty
      one), otherwise the forecast's list, otherwise `[]`. */
  function AlertList(alerts: Option<AlertsResponse>, forecast: Option<ForecastResponse>): (r: seq<Alert>)
    ensures alerts.Some? && alerts.value.alerts.Some? ==> r == alerts.value.alerts.value
    ensures !(alerts.Some? && alerts.value.alerts.Some?) && forecast.Some? && forecast.value.alerts.Some?
            ==> r == forecast.value.alerts.value
    ensures r != [] ==> (alerts.Some? && alerts.value.alerts == Some(r)) || (forecast.Some? && forecast.value.alerts == Some(r))
  {
    if alerts.Some? && alerts.value.alerts.Some? then alerts.value.alerts.value
    else if forecast.Some? && forecast.value.alerts.Some? then forecast.value.alerts.value
    else []
  }

  /** The list as read from the store's `alerts` and `forecast` cells. */
  function StoreAlertList(s: Spec.StoreState): seq<Alert> {
    AlertList(s.alerts, s.forecast)
  }

  /** `hasAlerts`. */
  function HasAlerts(s: Spec.StoreState): (b: bool)
    ensures b <==> StoreAlertList(s) != []
  {
    |StoreAlertList(s)| > 0
  }

  /** An empty list from the alerts endpoint hides the forecast's alerts. */
  lemma EmptyAlertsEndpointWins(s: Spec.StoreState)
    requires s.alerts.Some? && s.alerts.value.alerts == Some([])
    ensures !HasAlerts(s)
  {
  }

  /** With nothing from either source there is nothing to show. */
  lemma NoSourceNoAlerts(s: Spec.StoreState)
    requires s.alerts.None? || s.alerts.value.alerts.None?
    requires s.forecast.None? || s.forecast.value.alerts.None?
    ensures StoreAlertList(s) == [] && !HasAlerts(s)
  {
  }

  const SeverityColors: set<string> := {"bg-red-600", "bg-red-500", "bg-orange-500", "bg-yellow-500", "bg-blue-500"}

  /** `getSeverityColor(severity)`: a switch on the lower-cased severity. */
  function GetSeverityColor(severity: string): (color: string)
    ensures color in SeverityColors
    ensures color == "bg-red-600" <==> ToLower(severity) == "extreme"
    ensures color == "bg-red-500" <==> ToLower(severity) == "severe"
    ensures color == "bg-orange-500" <==> ToLower(severity) == "moderate"
    ensures color == "bg-yellow-500" <==> ToLower(severity) == "minor"
  {
    var key := ToLower(severity);
    if key == "extreme" then "bg-red-600"
    else if key == "severe" then "bg-red-500"
    else if key == "moderate" then "bg-orange-500"
    else if key == "minor" then "bg-yellow-500"
    else "bg-blue-500"
  }

  /** The colour depends only on the lower-cased severity. */
  lemma SeverityColorIgnoresCase(a: string, b: string)
    requires ToLower(a) == ToLower(b)
    ensures GetSeverityColor(a) == GetSeverityColor(b)
  {
  }

  /** Any other severity, such as "Unknown" or the empty string, gets the default colour. */
  lemma SeverityColorDefault(severity: string)
    requires ToLower(severity) !in {"extreme", "severe", "moderate", "minor"}
    ensures GetSeverityColor(severity) == "bg-blue-500"
  {
  }

  /** Severities as the provider capitalises them. */
  lemma SeverityColorCapitalised()
    ensures GetSeverityColor("Extreme") == "bg-red-600"
  {
    var lower := ToLower("Extreme");
    assert lower[0] == 'e' && lower[1..] == "xtreme";
  }

  lemma SeverityColorUpperCase()
    ensures GetSeverityColor("MINOR") == "bg-yellow-500"
  {
    var lower := ToLower("MINOR");
    assert lower == "minor";
  }

  /** `formatDate(dateString)`: the empty string stays empty; anything else goes to `Date`. */
  function FormatDate(dateString: string): (r: Rendered)
    ensures r.Shown? <==> dateString == ""
    ensures r.Shown? ==> r.text == ""
    ensures r.DateFormatted? ==> r.input == dateString
  {
    if dateString == "" then Shown("") else DateFormatted(dateString)
  }
}
