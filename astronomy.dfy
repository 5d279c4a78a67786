/** `AstronomyComponent`: the sunrise/sunset time display and the request it
    makes for the chosen date. */
module AstronomyComponent {
  import opened Wrappers
  import opened JsText
  import opened WeatherModel
  import Spec = StoreSpec
  import Api = WeatherApi

  /** The display for a missing time, exactly as the source spells it: the UTF-8
      bytes of an em dash read back as Windows-1252 ("â€”"). */
  const Placeholder: string := "\U{00E2}\U{20AC}\U{201D}"

  /** `A` or `P` under the `i` flag; without the `u` flag only ASCII letters fold. */
  predicate IsMeridiemLead(c: char) {
    c == 'A' || c == 'a' || c == 'P' || c == 'p'
  }

  predicate IsMeridiemM(c: char) {
    c == 'M' || c == 'm'
  }

  /** One shape the pattern accepts: `hourDigits` digits, `:`, two digits, an
      optional whitespace character, then AM or PM in any case. */
  predicate ClockShape(s: string, hourDigits: nat, spaced: bool)
    requires hourDigits == 1 || hourDigits == 2
  {
    && |s| == hourDigits + 5 + (if spaced then 1 else 0)
    && (forall i :: 0 <= i < hourDigits ==> IsDigit(s[i]))
    && s[hourDigits] == ':' && IsDigit(s[hourDigits + 1]) && IsDigit(s[hourDigits + 2])
    && (spaced ==> IsWhitespace(s[hourDigits + 3]))
    && IsMeridiemLead(s[|s| - 2]) && IsMeridiemM(s[|s| - 1])
  }

  /** `/^\d{1,2}:\d{2}\s?(AM|PM)$/i.test(s)`. */
  predicate IsClockTime(s: string) {
    ClockShape(s, 1, false) || ClockShape(s, 1, true) || ClockShape(s, 2, false) || ClockShape(s, 2, true)
  }

  /** A clock time starts with a digit and ends with `m`/`M`, so trimming leaves it alone. */
  lemma ClockTimeEnds(s: string)
    requires IsClockTime(s)
    ensures s != [] && !IsWhitespace(s[0]) && !IsWhitespace(s[|s| - 1])
  {
  }

  /** `formatTime(timeString)`: the placeholder for empty or blank input; the
      trimmed text when it already reads as a clock time; otherwise the input
      goes to `Date` parsing and locale formatting. */
  function FormatTime(timeString: string): (r: Rendered)
    ensures r == Shown(Placeholder) <==> IsBlank(timeString)
    ensures r.Shown? && !IsBlank(timeString) ==> r.text == Trim(timeString) && IsClockTime(r.text)
    ensures r.DateFormatted? <==> !IsBlank(timeString) && !IsClockTime(Trim(timeString))
    ensures r.DateFormatted? ==> r.input == timeString
  {
    if timeString == "" || Trim(timeString) == [] then Shown(Placeholder)
    else
      var trimmed := Trim(timeString);
      if IsClockTime(trimmed) then Shown(trimmed) else DateFormatted(timeString)
  }

  /** A clock time with any whitespace around it is shown as the bare clock time. */
  lemma FormatTimePadded(pre: string, t: string, post: string)
    requires IsBlank(pre) && IsBlank(post) && IsClockTime(t)
    ensures FormatTime(pre + t + post) == Shown(t)
  {
    ClockTimeEnds(t);
    TrimPadded(pre, t, post);
  }

  /** Formatting a time that was shown as a clock time shows it again unchanged. */
  lemma FormatTimeIdempotent(s: string)
    requires IsClockTime(Trim(s))
    ensures FormatTime(FormatTime(s).text) == FormatTime(s)
  {
    var t := Trim(s);
    FormatTimePadded([], t, []);
    assert [] + t + [] == t;
  }

  /** Hours and minutes are not range-checked, and the meridiem may be lower case. */
  lemma FormatTimeDoesNotCheckRanges()
    ensures FormatTime("99:99 pm") == Shown("99:99 pm")
  {
    var t := "99:99 pm";
    assert ClockShape(t, 2, true);
    FormatTimePadded([], t, []);
    assert [] + t + [] == t;
  }

  /** Surrounding whitespace is dropped and the space before the meridiem is optional. */
  lemma FormatTimeTrims()
    ensures FormatTime(" 3:05PM\n") == Shown("3:05PM")
  {
    var t := "3:05PM";
    assert ClockShape(t, 1, false);
    FormatTimePadded(" ", t, "\n");
    assert " " + t + "\n" == " 3:05PM\n";
  }

  /** A 24-hour time without AM/PM is not a clock time and goes to `Date`. */
  lemma FormatTimeNeedsMeridiem()
    ensures FormatTime("15:30") == DateFormatted("15:30")
  {
    TrimPadded([], "15:30", []);
    assert [] + "15:30" + [] == "15:30";
  }

  /** `loadAstronomy()`: nothing without a current location; otherwise the
      astronomy load for "name, country", with no date when the picker is empty. */
  function LoadAstronomy(location: Option<Location>, astronomyDate: string): (call: Option<Spec.StoreCall>)
    ensures call.None? <==> location.None?
    ensures call.Some? ==> call.value.LoadAstronomyCall? && call.value.q == location.value.name + ", " + location.value.country
  {
    match location
    case None => None
    case Some(l) =>
      Some(Spec.LoadAstronomyCall(Spec.PlaceName(l.name, l.country),
                                  AstronomyOptions(if astronomyDate == "" then None else Some(astronomyDate), None)))
  }

  /** The request that follows names the place and sends `dt` exactly when a date was picked. */
  lemma AstronomyRequestDate(l: Location, astronomyDate: string)
    ensures var rs := Spec.CallRequests(LoadAstronomy(Some(l), astronomyDate).value);
            && |rs| == 1
            && Api.CarriesKeyAndQuery(rs[0], l.name + ", " + l.country)
            && Api.Param(rs[0], Api.Dt) == (if astronomyDate == "" then None else Some(astronomyDate))
            && Api.Param(rs[0], Api.Lang) == None
  {
    var o := AstronomyOptions(if astronomyDate == "" then None else Some(astronomyDate), None);
    Api.AstronomyParams(Spec.PlaceName(l.name, l.country), o);
  }
}
