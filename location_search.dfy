/** `LocationSearchComponent`: search-as-you-type with a debounce timer, a
    selection guard and delayed hiding of the results. Timers become events:
    arming a timer records what it will do, and a `...Fired`/`...Expired`
    event runs it. The effect is an event of its own, since Angular runs it
    some time after the signals it reads change. Calls into the store are
    returned as `StoreCall` values. */
module LocationSearchComponent {
  import opened Wrappers
  import opened JsText
  import opened WeatherModel
  import Spec = StoreSpec
  import Api = WeatherApi

  /** The component's signals and private fields. `pending` is the query of the
      armed debounce timer (`timeoutId` not yet fired nor cleared); `guardTimers`
      and `blurTimers` count the selection-guard and blur timers still to fire. */
  datatype SearchUi = SearchUi(
    searchQuery: string,
    showResults: bool,
    selectedCity: string,
    pending: Option<string>,
    isSelecting: bool,
    guardTimers: nat,
    blurTimers: nat)

  const DefaultCity: string := "Cebu, Philippines"

  /** The component as constructed, before its effect first runs. */
  const Initial: SearchUi := SearchUi("", false, DefaultCity, None, false, 0, 0)

  datatype Event =
    | Input(value: string)
    | EffectRun
    | SearchTimerFired
    | Select(location: SearchLocationItem)
    | GuardExpired
    | Focus(results: seq<SearchLocationItem>)
    | Blur
    | BlurTimerFired

  /** `query && query.length >= 2`, the length counted in UTF-16 code units. */
  predicate LongEnough(query: string) {
    query != "" && Utf16Length(query) >= 2
  }

  /** Only a query long enough to search is ever armed. */
  predicate Valid(u: SearchUi) {
    u.pending.Some? ==> LongEnough(u.pending.value)
  }

  /** `onSearchInput`: the field's value becomes the query. */
  function AfterInput(u: SearchUi, value: string): SearchUi {
    u.(searchQuery := value)
  }

  /** The debounce effect. */
  function AfterEffect(u: SearchUi): (v: SearchUi)
    ensures v.searchQuery == u.searchQuery && v.selectedCity == u.selectedCity && v.isSelecting == u.isSelecting
    ensures v.guardTimers == u.guardTimers && v.blurTimers == u.blurTimers
  {
    if u.isSelecting then u
    else if u.searchQuery == u.selectedCity then u.(showResults := false)
    else if LongEnough(u.searchQuery) then u.(pending := Some(u.searchQuery))
    else u.(pending := None, showResults := false)
  }

  /** The debounce timer's callback: search for the armed query and show the results. */
  function AfterSearchTimer(u: SearchUi): (SearchUi, seq<Spec.StoreCall>) {
    match u.pending
    case None => (u, [])
    case Some(q) => (u.(pending := None, showResults := true), [Spec.SearchLocationsCall(q)])
  }

  /** The loads `selectLocation` starts for a place. */
  function SelectionCalls(place: string): seq<Spec.StoreCall> {
    [ Spec.LoadWeatherAndForecastCall(place, Some(7), CurrentWeatherOptions(Some(true), None),
                                      ForecastOptions(None, Some(true), Some(true), None)),
      Spec.LoadAlertsCall(place, AlertsOptions(None)) ]
  }

  /** `selectLocation(location)`. The debounce timer is left armed. */
  function AfterSelect(u: SearchUi, location: SearchLocationItem): (SearchUi, seq<Spec.StoreCall>) {
    var place := Spec.PlaceName(location.name, location.country);
    (u.(selectedCity := place, isSelecting := true, showResults := false, searchQuery := place,
        guardTimers := u.guardTimers + 1),
     SelectionCalls(place))
  }

  /** The selection guard's timer: selecting is over. */
  function AfterGuard(u: SearchUi): SearchUi {
    if u.guardTimers == 0 then u else u.(guardTimers := u.guardTimers - 1, isSelecting := false)
  }

  /** `onFocus()`: show the results again when there are some. */
  function AfterFocus(u: SearchUi, results: seq<SearchLocationItem>): SearchUi {
    if |results| > 0 then u.(showResults := true) else u
  }

  /** `onBlur()`: arm a timer that hides the results. */
  function AfterBlur(u: SearchUi): SearchUi {
    u.(blurTimers := u.blurTimers + 1)
  }

  function AfterBlurTimer(u: SearchUi): SearchUi {
    if u.blurTimers == 0 then u else u.(blurTimers := u.blurTimers - 1, showResults := false)
  }

  /** One event: the new state and the store calls it makes. */
  function Step(u: SearchUi, e: Event): (SearchUi, seq<Spec.StoreCall>) {
    match e
    case Input(value) => (AfterInput(u, value), [])
    case EffectRun => (AfterEffect(u), [])
    case SearchTimerFired => AfterSearchTimer(u)
    case Select(location) => AfterSelect(u, location)
    case GuardExpired => (AfterGuard(u), [])
    case Focus(results) => (AfterFocus(u, results), [])
    case Blur => (AfterBlur(u), [])
    case BlurTimerFired => (AfterBlurTimer(u), [])
  }

  /** A sequence of events, in order: the final state and every store call made. */
  function Run(u: SearchUi, events: seq<Event>): (SearchUi, seq<Spec.StoreCall>)
    decreases |events|
  {
    if events == [] then (u, [])
    else
      var (v, calls) := Step(u, events[0]);
      var (w, more) := Run(v, events[1..]);
      (w, calls + more)
  }

  /** A single event runs as one step. */
  lemma RunSingle(u: SearchUi, e: Event)
    ensures Run(u, [e]) == Step(u, e)
  {
    assert [e][1..] == [];
    var (v, calls) := Step(u, e);
    assert calls + [] == calls;
  }

  /** Running a first event and then the rest. */
  lemma RunCons(u: SearchUi, e: Event, rest: seq<Event>)
    ensures Run(u, [e] + rest) == (Run(Step(u, e).0, rest).0, Step(u, e).1 + Run(Step(u, e).0, rest).1)
  {
    assert ([e] + rest)[0] == e && ([e] + rest)[1..] == rest;
  }

  /** An event that makes no store call only moves the state. */
  lemma RunQuiet(u: SearchUi, e: Event, rest: seq<Event>)
    requires Step(u, e).1 == []
    ensures Run(u, [e] + rest) == Run(Step(u, e).0, rest)
  {
    RunCons(u, e, rest);
    assert [] + Run(Step(u, e).0, rest).1 == Run(Step(u, e).0, rest).1;
  }

  // ---------------------------------------------------------------------------
  // The effect

  /** While a selection is in progress the effect changes nothing. */
  lemma EffectIgnoredWhileSelecting(u: SearchUi)
    requires u.isSelecting
    ensures AfterEffect(u) == u
  {
  }

  /** A query equal to the selected city hides the results and leaves an armed search armed. */
  lemma EffectOnSelectedCity(u: SearchUi)
    requires !u.isSelecting && u.searchQuery == u.selectedCity
    ensures !AfterEffect(u).showResults && AfterEffect(u).pending == u.pending
  {
  }

  /** Any other query cancels the armed search; a query of two or more code
      units arms a new one for itself, a shorter one hides the results. */
  lemma EffectRearms(u: SearchUi)
    requires !u.isSelecting && u.searchQuery != u.selectedCity
    ensures LongEnough(u.searchQuery) ==> AfterEffect(u).pending == Some(u.searchQuery) && AfterEffect(u).showResults == u.showResults
    ensures !LongEnough(u.searchQuery) ==> AfterEffect(u).pending == None && !AfterEffect(u).showResults
  {
  }

  /** A single character is too short, even when it takes two code units... */
  lemma OneCharacterQueries()
    ensures !LongEnough("L")
    ensures LongEnough("\U{1F30D}")
  {
  }

  // ---------------------------------------------------------------------------
  // Debounce

  /** When the timer fires it searches for the query it was armed with and shows
      the results; with nothing armed it does nothing. */
  lemma TimerSearchesArmedQuery(u: SearchUi)
    ensures u.pending.Some? ==> AfterSearchTimer(u) == (u.(pending := None, showResults := true), [Spec.SearchLocationsCall(u.pending.value)])
    ensures u.pending.None? ==> AfterSearchTimer(u) == (u, [])
  {
  }

  /** Every event keeps the armed query long enough to search. */
  lemma StepKeepsValid(u: SearchUi, e: Event)
    requires Valid(u)
    ensures Valid(Step(u, e).0)
  {
  }

  /** Only a search call carries a query typed by the user. */
  predicate SearchesLongEnough(calls: seq<Spec.StoreCall>) {
    forall i :: 0 <= i < |calls| && calls[i].SearchLocationsCall? ==> LongEnough(calls[i].q)
  }

  /** Every search the component asks for is for a query of two or more code
      units, however the events interleave. */
  lemma {:induction false} RunSearchesLongEnough(u: SearchUi, events: seq<Event>)
    requires Valid(u)
    ensures Valid(Run(u, events).0)
    ensures SearchesLongEnough(Run(u, events).1)
    decreases |events|
  {
    if events != [] {
      var (v, calls) := Step(u, events[0]);
      StepKeepsValid(u, events[0]);
      RunSearchesLongEnough(v, events[1..]);
      var more := Run(v, events[1..]).1;
      assert Run(u, events).1 == calls + more;
      assert SearchesLongEnough(calls);
    }
  }

  /** The armed search fires once: a second timer finds nothing armed. */
  lemma SearchTimerTwice(u: SearchUi)
    requires u.pending.Some?
    ensures Run(u, [SearchTimerFired, SearchTimerFired])
         == (u.(pending := None, showResults := true), [Spec.SearchLocationsCall(u.pending.value)])
  {
    var v := u.(pending := None, showResults := true);
    RunSingle(v, SearchTimerFired);
    RunCons(u, SearchTimerFired, [SearchTimerFired]);
    assert [SearchTimerFired, SearchTimerFired] == [SearchTimerFired] + [SearchTimerFired];
    assert [Spec.SearchLocationsCall(u.pending.value)] + [] == [Spec.SearchLocationsCall(u.pending.value)];
  }

  /** Typing one query and then another before the timer fires searches once, for the last one. */
  lemma DebounceKeepsLastQuery(u: SearchUi, first: string, last: string)
    requires !u.isSelecting && LongEnough(first) && LongEnough(last)
    requires first != u.selectedCity && last != u.selectedCity
    ensures var r := Run(u, [Input(first), EffectRun, Input(last), EffectRun, SearchTimerFired, SearchTimerFired]);
            r.1 == [Spec.SearchLocationsCall(last)] && r.0.showResults && r.0.pending.None?
  {
    var t := [SearchTimerFired, SearchTimerFired];
    var u1 := AfterInput(u, first);
    var u2 := AfterEffect(u1);
    var u3 := AfterInput(u2, last);
    var u4 := AfterEffect(u3);
    assert u4.pending == Some(last);
    SearchTimerTwice(u4);
    RunQuiet(u3, EffectRun, t);
    RunQuiet(u2, Input(last), [EffectRun] + t);
    RunQuiet(u1, EffectRun, [Input(last)] + ([EffectRun] + t));
    RunQuiet(u, Input(first), [EffectRun] + ([Input(last)] + ([EffectRun] + t)));
    assert [Input(first)] + ([EffectRun] + ([Input(last)] + ([EffectRun] + t)))
        == [Input(first), EffectRun, Input(last), EffectRun, SearchTimerFired, SearchTimerFired];
  }

  // ---------------------------------------------------------------------------
  // Selection, focus and blur

  /** Selecting a place makes it the query and the selected city, hides the
      results and starts the weather, forecast and alerts loads for it. */
  lemma SelectionLoadsPlace(u: SearchUi, location: SearchLocationItem)
    ensures var (v, calls) := AfterSelect(u, location);
            var place := location.name + ", " + location.country;
            && v.selectedCity == place && v.searchQuery == place && v.isSelecting && !v.showResults
            && v.pending == u.pending
            && |calls| == 2 && calls[0].LoadWeatherAndForecastCall? && calls[0].q == place
            && calls[1] == Spec.LoadAlertsCall(place, AlertsOptions(None))
  {
  }

  /** The selection's requests ask for seven days with air quality and alerts. */
  lemma SelectionRequests(place: string)
    ensures var rs := Spec.CallRequests(SelectionCalls(place)[0]);
            && |rs| == 2
            && Api.CarriesKeyAndQuery(rs[0], place) && Api.Param(rs[0], Api.Aqi) == Some("yes")
            && Api.CarriesKeyAndQuery(rs[1], place) && Api.Param(rs[1], Api.Days) == Some("7")
            && Api.Param(rs[1], Api.Aqi) == Some("yes") && Api.Param(rs[1], Api.Alerts) == Some("yes")
  {
    Api.CurrentWeatherParams(place, CurrentWeatherOptions(Some(true), None));
    Api.ForecastParams(place, Some(7), ForecastOptions(None, Some(true), Some(true), None));
  }

  /** The effect run the selection triggers searches nothing, and after the
      guard expires the effect still only hides the results. */
  lemma SelectionDoesNotSearch(u: SearchUi, location: SearchLocationItem)
    requires u.pending.None?
    ensures var r := Run(u, [Select(location), EffectRun, GuardExpired, EffectRun]);
            r.0.pending.None? && !r.0.showResults && !r.0.isSelecting
            && r.1 == SelectionCalls(location.name + ", " + location.country)
  {
    var (v, calls) := AfterSelect(u, location);
    var v2 := AfterGuard(v);
    var v3 := AfterEffect(v2);
    RunSingle(v2, EffectRun);
    assert Run(v, [GuardExpired, EffectRun]) == (v3, []) by {
      assert [GuardExpired, EffectRun][1..] == [EffectRun];
    }
    assert Run(v, [EffectRun, GuardExpired, EffectRun]) == (v3, []) by {
      assert AfterEffect(v) == v;
      assert [EffectRun, GuardExpired, EffectRun][1..] == [GuardExpired, EffectRun];
    }
    assert [Select(location), EffectRun, GuardExpired, EffectRun][1..] == [EffectRun, GuardExpired, EffectRun];
    assert calls + [] == calls;
  }

  /** A search armed just before a selection still fires after it and shows results again. */
  lemma ArmedSearchSurvivesSelection(u: SearchUi, location: SearchLocationItem)
    requires u.pending.Some?
    ensures var r := Run(u, [Select(location), EffectRun, SearchTimerFired]);
            r.0.showResults && r.1 == SelectionCalls(location.name + ", " + location.country) + [Spec.SearchLocationsCall(u.pending.value)]
  {
    var (v, calls) := AfterSelect(u, location);
    var (w, found) := AfterSearchTimer(v);
    RunSingle(v, SearchTimerFired);
    assert Run(v, [EffectRun, SearchTimerFired]) == (w, found) by {
      assert AfterEffect(v) == v;
      assert [EffectRun, SearchTimerFired][1..] == [SearchTimerFired];
      assert [] + found == found;
    }
    assert [Select(location), EffectRun, SearchTimerFired][1..] == [EffectRun, SearchTimerFired];
  }

  /** Focus shows the results exactly when there are some, and otherwise changes nothing. */
  lemma FocusShowsNonEmptyResults(u: SearchUi, results: seq<SearchLocationItem>)
    ensures AfterFocus(u, results).showResults <==> (|results| > 0 || u.showResults)
    ensures results == [] ==> AfterFocus(u, results) == u
  {
  }

  /** A blur hides the results once its timer fires. */
  lemma BlurHidesResults(u: SearchUi)
    ensures !Run(u, [Blur, BlurTimerFired]).0.showResults
  {
  }

  // ---------------------------------------------------------------------------
  // The component as an object

  class LocationSearch {
    var searchQuery: string
    var showResults: bool
    var selectedCity: string
    var pending: Option<string>
    var isSelecting: bool
    var guardTimers: nat
    var blurTimers: nat

    function State(): SearchUi
      reads this
    {
      SearchUi(searchQuery, showResults, selectedCity, pending, isSelecting, guardTimers, blurTimers)
    }

    constructor()
      ensures State() == Initial
    {
      searchQuery, showResults, selectedCity := "", false, DefaultCity;
      pending, isSelecting, guardTimers, blurTimers := None, false, 0, 0;
    }

    method OnSearchInput(value: string)
      modifies this
      ensures State() == AfterInput(old(State()), value)
    {
      searchQuery := value;
    }

    /** The effect's body. */
    method RunEffect()
      modifies this
      requires Valid(State())
      ensures State() == AfterEffect(old(State())) && Valid(State())
    {
      if isSelecting {
        return;
      }
      if searchQuery == selectedCity {
        showResults := false;
        return;
      }
      pending := None;
      if searchQuery != "" && Utf16Length(searchQuery) >= 2 {
        pending := Some(searchQuery);
      } else {
        showResults := false;
      }
    }

    method OnSearchTimer() returns (calls: seq<Spec.StoreCall>)
      modifies this
      ensures (State(), calls) == AfterSearchTimer(old(State()))
    {
      calls := [];
      if pending.Some? {
        calls := [Spec.SearchLocationsCall(pending.value)];
        pending := None;
        showResults := true;
      }
    }

    method SelectLocation(location: SearchLocationItem) returns (calls: seq<Spec.StoreCall>)
      modifies this
      ensures (State(), calls) == AfterSelect(old(State()), location)
    {
      var place := Spec.PlaceName(location.name, location.country);
      selectedCity := place;
      isSelecting := true;
      showResults := false;
      searchQuery := place;
      guardTimers := guardTimers + 1;
      calls := SelectionCalls(place);
    }

    method OnGuardExpired()
      modifies this
      ensures State() == AfterGuard(old(State()))
    {
      if guardTimers > 0 {
        guardTimers := guardTimers - 1;
        isSelecting := false;
      }
    }

    method OnFocus(results: seq<SearchLocationItem>)
      modifies this
      ensures State() == AfterFocus(old(State()), results)
    {
      if |results| > 0 {
        showResults := true;
      }
    }

    method OnBlur()
      modifies this
      ensures State() == AfterBlur(old(State()))
    {
      blurTimers := blurTimers + 1;
    }

    method OnBlurTimer()
      modifies this
      ensures State() == AfterBlurTimer(old(State()))
    {
      if blurTimers > 0 {
        blurTimers := blurTimers - 1;
        showResults := false;
      }
    }
  }
}
