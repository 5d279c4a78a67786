/** `FutureWeatherComponent`: the two date renderings built from a `Date`'s
    local year, month and day, and the request for the picked date. Parsing
    the picked string into a `Date` is not modelled: its local components are
    an input, `None` standing for an invalid date. */
module FutureWeatherComponent {
  import opened Wrappers
  import opened JsText
  import opened WeatherModel
  import Spec = StoreSpec
  import Api = WeatherApi

  /** A `Date`'s `getFullYear()`, `getMonth()` (0 for January) and `getDate()`. */
  datatype CalendarDate = CalendarDate(year: int, monthIndex: int, day: int)

  /** The components a valid `Date` can report. */
  type LocalDate = d: CalendarDate | 0 <= d.monthIndex < 12 && 1 <= d.day <= 31
    witness CalendarDate(1970, 0, 1)

  /** `formatDateForAPI(date)`: `year-MM-dd`, month and day zero-padded to two digits. */
  function FormatDateForApi(d: LocalDate): string {
    IntToString(d.year) + "-" + PadStart2(IntToString(d.monthIndex + 1)) + "-" + PadStart2(IntToString(d.day))
  }

  /** `formatDate(dateString)` once the string is parsed: `year/MM/d`, only the month padded. */
  function FormatDate(d: LocalDate): string {
    IntToString(d.year) + "/" + PadStart2(IntToString(d.monthIndex + 1)) + "/" + IntToString(d.day)
  }

  /** What `formatDateForAPI` yields for the picked date: an invalid `Date`
      reports `NaN` for every component, and `padStart` leaves `"NaN"` alone. */
  function DateForApi(picked: Option<LocalDate>): string {
    match picked
    case Some(d) => FormatDateForApi(d)
    case None => "NaN-NaN-NaN"
  }

  /** Reads a date written as year, month and day joined by `sep`, the partner of both renderings. */
  function SplitDate(s: string, sep: char): Option<CalendarDate> {
    var j := LastIndexOf(s, sep);
    if j < 0 then None
    else
      var i := LastIndexOf(s[..j], sep);
      if i < 0 then None else PartsAt(s, i, j)
  }

  /** The year before index `i`, the month between `i` and `j`, the day after `j`. */
  function PartsAt(s: string, i: nat, j: nat): Option<CalendarDate>
    requires i < j < |s|
  {
    var y, m, d := ParseInt(s[..i]), ParseInt(s[i + 1..j]), ParseInt(s[j + 1..]);
    if y.Some? && m.Some? && d.Some? then Some(CalendarDate(y.value, m.value - 1, d.value)) else None
  }

  /** The last `c` in `a + [c] + b` is the one after `a` when `b` has none. */
  lemma {:induction false} LastIndexOfAfter(a: string, c: char, b: string)
    requires c !in b
    ensures LastIndexOf(a + [c] + b, c) == |a|
  {
    if b != [] {
      var s := a + [c] + b;
      assert s[..|s| - 1] == a + [c] + b[..|b| - 1];
      LastIndexOfAfter(a, c, b[..|b| - 1]);
    }
  }

  /** Digits never include a separator that is not itself a digit. */
  lemma SeparatorNotInDigits(s: string, sep: char)
    requires AllDigits(s) && !IsDigit(sep)
    ensures sep !in s
  {
  }

  /** A non-empty digit string reads as its decimal value. */
  lemma ParseDigits(s: string)
    requires AllDigits(s) && s != []
    ensures ParseInt(s) == Some(DecimalValue(s) as int)
  {
    assert IsDigit(s[0]);
  }

  /** In a date joined by a separator that its parts do not contain, the two
      separators are found where the parts meet. */
  lemma JoinedDateSeparators(ys: string, month: string, day: string, sep: char)
    requires sep !in month && sep !in day
    ensures var s := ys + [sep] + month + [sep] + day;
            LastIndexOf(s, sep) == |ys| + 1 + |month| && LastIndexOf(s[..|ys| + 1 + |month|], sep) == |ys|
  {
    var s := ys + [sep] + month + [sep] + day;
    LastIndexOfAfter(ys + [sep] + month, sep, day);
    assert s[..|ys| + 1 + |month|] == ys + [sep] + month;
    LastIndexOfAfter(ys, sep, month);
  }

  /** Once the two separators are located, reading the date reads the three parts around them. */
  lemma SplitDateAt(s: string, sep: char, i: nat, j: nat)
    requires i < j < |s| && LastIndexOf(s, sep) == j && LastIndexOf(s[..j], sep) == i
    ensures SplitDate(s, sep) == PartsAt(s, i, j)
  {
  }

  /** The parts read as the numbers they spell. */
  lemma PartsAtValues(s: string, i: nat, j: nat, year: int, month: int, day: int)
    requires i < j < |s|
    requires ParseInt(s[..i]) == Some(year) && ParseInt(s[i + 1..j]) == Some(month) && ParseInt(s[j + 1..]) == Some(day)
    ensures PartsAt(s, i, j) == Some(CalendarDate(year, month - 1, day))
  {
  }

  /** Any year text followed by two digit strings, joined by a non-digit separator, reads back. */
  lemma {:induction false} JoinedDateRoundTrip(ys: string, year: int, month: string, day: string, sep: char)
    requires ParseInt(ys) == Some(year)
    requires AllDigits(month) && month != [] && AllDigits(day) && day != [] && !IsDigit(sep)
    ensures SplitDate(ys + [sep] + month + [sep] + day, sep)
            == Some(CalendarDate(year, DecimalValue(month) - 1, DecimalValue(day)))
  {
    var s := ys + [sep] + month + [sep] + day;
    var i, j := |ys|, |ys| + 1 + |month|;
    SeparatorNotInDigits(month, sep);
    SeparatorNotInDigits(day, sep);
    JoinedDateSeparators(ys, month, day, sep);
    SplitDateAt(s, sep, i, j);
    assert s[..i] == ys && s[i + 1..j] == month && s[j + 1..] == day;
    ParseDigits(month);
    ParseDigits(day);
    PartsAtValues(s, i, j, year, DecimalValue(month), DecimalValue(day));
  }

  /** A number from 1 to 99 rendered and zero-padded reads back as itself. */
  lemma PaddedRoundTrip(n: int)
    requires 1 <= n
    ensures AllDigits(PadStart2(IntToString(n))) && PadStart2(IntToString(n)) != []
    ensures DecimalValue(PadStart2(IntToString(n))) == n
  {
    DecimalRoundTrip(n);
    PadStart2Value(IntToString(n));
  }

  /** The API rendering of a date reads back as that date. */
  lemma ApiDateRoundTrip(d: LocalDate)
    ensures SplitDate(FormatDateForApi(d), '-') == Some(d)
  {
    var ys, ms, ds := IntToString(d.year), PadStart2(IntToString(d.monthIndex + 1)), PadStart2(IntToString(d.day));
    PaddedRoundTrip(d.monthIndex + 1);
    PaddedRoundTrip(d.day);
    IntRoundTrip(d.year);
    assert FormatDateForApi(d) == ys + ['-'] + ms + ['-'] + ds;
    JoinedDateRoundTrip(ys, d.year, ms, ds, '-');
  }

  /** The display rendering of a date reads back as that date. */
  lemma DisplayDateRoundTrip(d: LocalDate)
    ensures SplitDate(FormatDate(d), '/') == Some(d)
  {
    var ys, ms, ds := IntToString(d.year), PadStart2(IntToString(d.monthIndex + 1)), IntToString(d.day);
    PaddedRoundTrip(d.monthIndex + 1);
    DecimalRoundTrip(d.day);
    IntRoundTrip(d.year);
    assert FormatDate(d) == ys + ['/'] + ms + ['/'] + ds;
    JoinedDateRoundTrip(ys, d.year, ms, ds, '/');
  }

  /** Different dates are sent as different strings. */
  lemma ApiDateInjective(d1: LocalDate, d2: LocalDate)
    requires FormatDateForApi(d1) == FormatDateForApi(d2)
    ensures d1 == d2
  {
    ApiDateRoundTrip(d1);
    ApiDateRoundTrip(d2);
  }

  /** A number below 100 renders in at most two digits. */
  lemma {:induction false} TwoDigitsAtMost(n: nat)
    requires n < 100
    ensures |NatToDecimal(n)| <= 2
  {
    if n >= 10 {
      assert NatToDecimal(n) == NatToDecimal(n / 10) + [DigitChar(n % 10)];
    }
  }

  /** A four-digit year renders in four digits. */
  lemma {:induction false} FourDigits(n: nat)
    requires 1000 <= n < 10000
    ensures |NatToDecimal(n)| == 4
  {
    assert |NatToDecimal(n / 1000)| == 1;
    assert |NatToDecimal(n / 100)| == 2 by {
      assert NatToDecimal(n / 100) == NatToDecimal(n / 100 / 10) + [DigitChar(n / 100 % 10)];
    }
    assert |NatToDecimal(n / 10)| == 3 by {
      assert NatToDecimal(n / 10) == NatToDecimal(n / 10 / 10) + [DigitChar(n / 10 % 10)];
    }
    assert NatToDecimal(n) == NatToDecimal(n / 10) + [DigitChar(n % 10)];
  }

  /** With a four-digit year the API rendering is exactly `yyyy-MM-dd`. */
  lemma ApiDateShape(d: LocalDate)
    requires 1000 <= d.year < 10000
    ensures var r := FormatDateForApi(d);
            |r| == 10 && r[4] == '-' && r[7] == '-'
            && r[..4] == IntToString(d.year)
            && AllDigits(r[5..7]) && DecimalValue(r[5..7]) == d.monthIndex + 1
            && AllDigits(r[8..]) && DecimalValue(r[8..]) == d.day
  {
    var ys, ms, ds := IntToString(d.year), PadStart2(IntToString(d.monthIndex + 1)), PadStart2(IntToString(d.day));
    FourDigits(d.year);
    TwoDigitsAtMost(d.monthIndex + 1);
    TwoDigitsAtMost(d.day);
    PaddedRoundTrip(d.monthIndex + 1);
    PaddedRoundTrip(d.day);
    assert FormatDateForApi(d) == ys + ['-'] + ms + ['-'] + ds;
    JoinedDateLayout(ys, ms, ds, '-');
  }

  /** Where the parts of a date with a four-character year and two-character month and day sit. */
  lemma JoinedDateLayout(ys: string, ms: string, ds: string, sep: char)
    requires |ys| == 4 && |ms| == 2 && |ds| == 2
    ensures var r := ys + [sep] + ms + [sep] + ds;
            |r| == 10 && r[4] == sep && r[7] == sep && r[..4] == ys && r[5..7] == ms && r[8..] == ds
  {
    var r := ys + [sep] + ms + [sep] + ds;
    assert r[..4] == ys;
    assert r[5..7] == ms;
    assert r[8..] == ds;
  }

  /** The day is not padded in the display rendering. */
  lemma DisplayDayUnpadded()
    ensures FormatDate(CalendarDate(2025, 0, 5)) == "2025/01/5"
    ensures FormatDateForApi(CalendarDate(2025, 0, 5)) == "2025-01-05"
  {
    assert NatToDecimal(2025) == NatToDecimal(202) + ['5'];
    assert NatToDecimal(202) == NatToDecimal(20) + ['2'];
    assert NatToDecimal(20) == "2" + ['0'];
    assert IntToString(2025) == "2025";
    assert IntToString(1) == "1" && IntToString(5) == "5";
  }

  /** `loadFuture()`: nothing when no date is picked or there is no current
      location; otherwise the future load for "name, country" on the picked date. */
  function LoadFuture(futureDate: string, location: Option<Location>, picked: Option<LocalDate>): (call: Option<Spec.StoreCall>)
    ensures call.None? <==> futureDate == "" || location.None?
    ensures call.Some? ==> call.value.LoadFutureCall? && call.value.q == location.value.name + ", " + location.value.country
  {
    if futureDate == "" then None
    else
      match location
      case None => None
      case Some(l) => Some(Spec.LoadFutureCall(Spec.PlaceName(l.name, l.country), DateForApi(picked), FutureOptions(None, None)))
  }

  /** The string sent for an invalid date does not read as a date. */
  lemma InvalidDateUnreadable()
    ensures SplitDate(DateForApi(None), '-') == None
  {
    var s := "NaN-NaN-NaN";
    LastIndexOfAfter("NaN-NaN", '-', "NaN");
    assert s == "NaN-NaN" + ['-'] + "NaN";
    assert !IsDigit(s[8]);
  }

  /** The date sent for the picked date reads back as that date, and as nothing
      when the picked string is not a valid date. */
  lemma DateForApiRoundTrip(picked: Option<LocalDate>)
    ensures SplitDate(DateForApi(picked), '-') == picked
  {
    if picked.Some? {
      ApiDateRoundTrip(picked.value);
    } else {
      InvalidDateUnreadable();
    }
  }

  /** The request that follows names the place and sends a `dt` that reads back
      as the picked date. */
  lemma LoadFutureRequestDate(futureDate: string, l: Location, picked: Option<LocalDate>)
    requires futureDate != ""
    ensures var rs := Spec.CallRequests(LoadFuture(futureDate, Some(l), picked).value);
            && |rs| == 1
            && Api.CarriesKeyAndQuery(rs[0], l.name + ", " + l.country)
            && Api.Param(rs[0], Api.Dt).Some?
            && SplitDate(Api.Param(rs[0], Api.Dt).value, '-') == picked
  {
    Api.FutureParams(Spec.PlaceName(l.name, l.country), DateForApi(picked), FutureOptions(None, None));
    DateForApiRoundTrip(picked);
  }
}
