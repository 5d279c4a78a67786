/** `AirQualityComponent`: the US EPA index badge, the per-pollutant badge and
    the air-quality projection of the store's current conditions. Index and
    concentrations are JavaScript numbers, modelled as reals: every threshold
    and every half or one-and-a-half multiple of one is exact in binary. */
module AirQualityComponent {
  import opened Wrappers
  import opened WeatherModel
  import Spec = StoreSpec

  datatype AqiBadge = AqiBadge(level: string, color: string, bgColor: string)

  /** The six EPA index badges, least severe first. */
  const AqiBadges: seq<AqiBadge> := [
    AqiBadge("Good", "text-green-700", "bg-green-100"),
    AqiBadge("Moderate", "text-yellow-700", "bg-yellow-100"),
    AqiBadge("Unhealthy for Sensitive Groups", "text-orange-700", "bg-orange-100"),
    AqiBadge("Unhealthy", "text-red-700", "bg-red-100"),
    AqiBadge("Very Unhealthy", "text-purple-700", "bg-purple-100"),
    AqiBadge("Hazardous", "text-red-900", "bg-red-200")
  ]

  /** How many of the cut points 1, 2, 3, 4, 5 the index exceeds. */
  function AqiBand(epaIndex: real): (b: nat)
    ensures b < |AqiBadges|
  {
    (if epaIndex > 1.0 then 1 else 0) + (if epaIndex > 2.0 then 1 else 0) + (if epaIndex > 3.0 then 1 else 0)
    + (if epaIndex > 4.0 then 1 else 0) + (if epaIndex > 5.0 then 1 else 0)
  }

  /** `getAQILevel(epaIndex)`: the badge of the band the index falls in. */
  function GetAqiLevel(epaIndex: real): (badge: AqiBadge)
    ensures badge == AqiBadges[AqiBand(epaIndex)]
  {
    if epaIndex <= 1.0 then AqiBadge("Good", "text-green-700", "bg-green-100")
    else if epaIndex <= 2.0 then AqiBadge("Moderate", "text-yellow-700", "bg-yellow-100")
    else if epaIndex <= 3.0 then AqiBadge("Unhealthy for Sensitive Groups", "text-orange-700", "bg-orange-100")
    else if epaIndex <= 4.0 then AqiBadge("Unhealthy", "text-red-700", "bg-red-100")
    else if epaIndex <= 5.0 then AqiBadge("Very Unhealthy", "text-purple-700", "bg-purple-100")
    else AqiBadge("Hazardous", "text-red-900", "bg-red-200")
  }

  /** The position of a level label in the severity order, -1 for an unknown label. */
  function AqiRank(level: string): (k: int)
    ensures -1 <= k < |AqiBadges|
    ensures k >= 0 ==> AqiBadges[k].level == level
  {
    if level == "Good" then 0
    else if level == "Moderate" then 1
    else if level == "Unhealthy for Sensitive Groups" then 2
    else if level == "Unhealthy" then 3
    else if level == "Very Unhealthy" then 4
    else if level == "Hazardous" then 5
    else -1
  }

  /** Every index gets one of the six badges, and its label's rank is its band. */
  lemma AqiLevelIsTotal(epaIndex: real)
    ensures GetAqiLevel(epaIndex) in AqiBadges
    ensures AqiRank(GetAqiLevel(epaIndex).level) == AqiBand(epaIndex)
  {
  }

  /** A larger index never gets a less severe label. */
  lemma AqiLevelMonotone(x: real, y: real)
    requires x <= y
    ensures AqiRank(GetAqiLevel(x).level) <= AqiRank(GetAqiLevel(y).level)
  {
    AqiLevelIsTotal(x);
    AqiLevelIsTotal(y);
  }

  /** The label fixes both colours: two indexes with the same label get the same badge. */
  lemma AqiLabelFixesColours(x: real, y: real)
    requires GetAqiLevel(x).level == GetAqiLevel(y).level
    ensures GetAqiLevel(x) == GetAqiLevel(y)
  {
    AqiLevelIsTotal(x);
    AqiLevelIsTotal(y);
  }

  /** The band boundaries are inclusive on the left-hand label. */
  lemma AqiBoundaries()
    ensures GetAqiLevel(1.0).level == "Good" && GetAqiLevel(1.5).level == "Moderate"
    ensures GetAqiLevel(5.0).level == "Very Unhealthy" && GetAqiLevel(5.01).level == "Hazardous"
    ensures GetAqiLevel(-3.0).level == "Good"
  {
  }

  datatype PollutantBadge = PollutantBadge(level: string, color: string)

  /** The four pollutant badges, least severe first. */
  const PollutantBadges: seq<PollutantBadge> := [
    PollutantBadge("Good", "text-green-600"),
    PollutantBadge("Moderate", "text-yellow-600"),
    PollutantBadge("Unhealthy", "text-orange-600"),
    PollutantBadge("Very Unhealthy", "text-red-600")
  ]

  /** The reference concentration for a pollutant key; 50 for any other key. */
  function Threshold(pollutant: string): (t: real)
    ensures t > 0.0
    ensures pollutant !in {"co", "no2", "o3", "so2", "pm2_5", "pm10"} ==> t == 50.0
  {
    if pollutant == "co" then 9.0
    else if pollutant == "no2" then 100.0
    else if pollutant == "o3" then 100.0
    else if pollutant == "so2" then 75.0
    else if pollutant == "pm2_5" then 35.0
    else if pollutant == "pm10" then 55.0
    else 50.0
  }

  /** How many of the cut points half, whole and one and a half times the threshold the value exceeds. */
  function PollutantBand(value: real, threshold: real): (b: nat)
    requires threshold > 0.0
    ensures b < |PollutantBadges|
  {
    (if value > threshold * 0.5 then 1 else 0) + (if value > threshold then 1 else 0)
    + (if value > threshold * 1.5 then 1 else 0)
  }

  /** `getPollutantLevel(value, type)`. */
  function GetPollutantLevel(value: real, pollutant: string): (badge: PollutantBadge)
    ensures badge == PollutantBadges[PollutantBand(value, Threshold(pollutant))]
  {
    var threshold := Threshold(pollutant);
    if value <= threshold * 0.5 then PollutantBadge("Good", "text-green-600")
    else if value <= threshold then PollutantBadge("Moderate", "text-yellow-600")
    else if value <= threshold * 1.5 then PollutantBadge("Unhealthy", "text-orange-600")
    else PollutantBadge("Very Unhealthy", "text-red-600")
  }

  /** The position of a pollutant label in the severity order, -1 for an unknown label. */
  function PollutantRank(level: string): (k: int)
    ensures -1 <= k < |PollutantBadges|
    ensures k >= 0 ==> PollutantBadges[k].level == level
  {
    if level == "Good" then 0
    else if level == "Moderate" then 1
    else if level == "Unhealthy" then 2
    else if level == "Very Unhealthy" then 3
    else -1
  }

  /** For a fixed pollutant, a larger concentration never gets a less severe label. */
  lemma PollutantLevelMonotone(x: real, y: real, pollutant: string)
    requires x <= y
    ensures PollutantRank(GetPollutantLevel(x, pollutant).level) <= PollutantRank(GetPollutantLevel(y, pollutant).level)
  {
    var t := Threshold(pollutant);
    assert PollutantRank(GetPollutantLevel(x, pollutant).level) == PollutantBand(x, t);
    assert PollutantRank(GetPollutantLevel(y, pollutant).level) == PollutantBand(y, t);
  }

  /** The table of thresholds, with the bands it gives for carbon monoxide. */
  lemma PollutantThresholds()
    ensures Threshold("co") == 9.0 && Threshold("no2") == 100.0 && Threshold("o3") == 100.0
    ensures Threshold("so2") == 75.0 && Threshold("pm2_5") == 35.0 && Threshold("pm10") == 55.0
    ensures Threshold("nh3") == 50.0 && Threshold("CO") == 50.0
    ensures GetPollutantLevel(4.5, "co").level == "Good" && GetPollutantLevel(9.0, "co").level == "Moderate"
    ensures GetPollutantLevel(13.5, "co").level == "Unhealthy" && GetPollutantLevel(13.6, "co").level == "Very Unhealthy"
  {
  }

  /** `airQuality`: the current conditions' air quality, `null` when either is missing. */
  function AirQuality(s: Spec.StoreState): (r: Option<AirQuality>)
    ensures r.Some? <==> s.currentWeather.Some? && s.currentWeather.value.current.airQuality.Some?
    ensures r.Some? ==> r.value == s.currentWeather.value.current.airQuality.value
  {
    match Spec.CurrentData(s)
    case Some(current) => current.airQuality
    case None => None
  }

  /** `hasAirQuality`. */
  function HasAirQuality(s: Spec.StoreState): (b: bool)
    ensures b <==> s.currentWeather.Some? && s.currentWeather.value.current.airQuality.Some?
  {
    AirQuality(s) != None
  }
}
