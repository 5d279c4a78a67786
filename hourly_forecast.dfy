/** `HourlyForecastComponent`: the forecast days, the hours of the selected
    day, the index of the current hour among them, and the selection itself.
    Whether an hour is the current one depends on the clock and on `Date`
    parsing, so that test is a parameter. */
module HourlyForecastComponent {
  import opened Wrappers
  import opened WeatherModel
  import Spec = StoreSpec

  /** `forecastDays`: the forecast's days, `[]` while there is no forecast. */
  function ForecastDays(s: Spec.StoreState): (days: seq<ForecastDay>)
    ensures s.forecast.None? ==> days == []
    ensures s.forecast.Some? ==> days == s.forecast.value.forecastday
  {
    match s.forecast
    case Some(f) => f.forecastday
    case None => []
  }

  /** `selectedDayHours`: the hours of day `index` when there is such a day,
      `[]` for an empty list and for a negative or too large index. */
  function SelectedDayHours(days: seq<ForecastDay>, index: int): (hours: seq<HourForecast>)
    ensures 0 <= index < |days| ==> hours == days[index].hour
    ensures !(0 <= index < |days|) ==> hours == []
  {
    if |days| > 0 && 0 <= index < |days| then days[index].hour else []
  }

  /** `Array.prototype.findIndex`: the first position whose hour satisfies the test, or -1. */
  function FindIndex(hours: seq<HourForecast>, isCurrent: HourForecast -> bool): (k: int)
    ensures -1 <= k < |hours|
    ensures k >= 0 ==> isCurrent(hours[k]) && forall i :: 0 <= i < k ==> !isCurrent(hours[i])
    ensures k == -1 <==> forall i :: 0 <= i < |hours| ==> !isCurrent(hours[i])
  {
    if hours == [] then -1
    else if isCurrent(hours[0]) then 0
    else
      var k := FindIndex(hours[1..], isCurrent);
      if k == -1 then -1 else k + 1
  }

  /** `currentHourIndex`: the first of the selected day's hours that is the current
      hour, or -1 exactly when none is. */
  function CurrentHourIndex(days: seq<ForecastDay>, index: int, isCurrent: HourForecast -> bool): (k: int)
    ensures -1 <= k < |SelectedDayHours(days, index)|
    ensures k >= 0 ==> isCurrent(SelectedDayHours(days, index)[k])
    ensures k >= 0 ==> forall i :: 0 <= i < k ==> !isCurrent(SelectedDayHours(days, index)[i])
    ensures k == -1 <==> forall i :: 0 <= i < |SelectedDayHours(days, index)| ==> !isCurrent(SelectedDayHours(days, index)[i])
  {
    FindIndex(SelectedDayHours(days, index), isCurrent)
  }

  /** Without a forecast, or with an index outside the days, there are no hours and no current hour. */
  lemma NoDayNoCurrentHour(s: Spec.StoreState, index: int, isCurrent: HourForecast -> bool)
    requires s.forecast.None? || !(0 <= index < |s.forecast.value.forecastday|)
    ensures SelectedDayHours(ForecastDays(s), index) == []
    ensures CurrentHourIndex(ForecastDays(s), index, isCurrent) == -1
  {
  }

  /** Once an hour has been found, the hours before it do not change the answer. */
  lemma {:induction false} FindIndexSkipsMisses(prefix: seq<HourForecast>, rest: seq<HourForecast>, isCurrent: HourForecast -> bool)
    requires forall i :: 0 <= i < |prefix| ==> !isCurrent(prefix[i])
    requires FindIndex(rest, isCurrent) >= 0
    ensures FindIndex(prefix + rest, isCurrent) == |prefix| + FindIndex(rest, isCurrent)
  {
    if prefix != [] {
      assert (prefix + rest)[1..] == prefix[1..] + rest;
      FindIndexSkipsMisses(prefix[1..], rest, isCurrent);
    } else {
      assert prefix + rest == rest;
    }
  }

  /** The component's own state: which day is selected. */
  class HourlyForecast {
    var selectedDayIndex: int

    constructor()
      ensures selectedDayIndex == 0
    {
      selectedDayIndex := 0;
    }

    /** `selectDay(index)`: the index is stored as given, without clamping. */
    method SelectDay(index: int)
      modifies this
      ensures selectedDayIndex == index
    {
      selectedDayIndex := index;
    }

    /** The hours shown for the store's forecast. */
    function ShownHours(s: Spec.StoreState): seq<HourForecast>
      reads this
    {
      SelectedDayHours(ForecastDays(s), selectedDayIndex)
    }
  }

  /** Selecting a day out of range shows no hours rather than failing. */
  method SelectOutOfRange(s: Spec.StoreState) returns (hours: seq<HourForecast>)
    ensures hours == []
  {
    var h := new HourlyForecast();
    h.SelectDay(|ForecastDays(s)|);
    hours := h.ShownHours(s);
  }
}
