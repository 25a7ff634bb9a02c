/** The dashboard's navigation state machine (App.tsx): the view level, the
    selected district and station, the time mode and the timeline value,
    changed by the map's click handlers, the back control, the time-mode
    buttons and the timeline slider.

    The handlers themselves check nothing. What keeps the state consistent is
    where the map attaches them: district clicks only on active regions at
    city level, station clicks only on the markers of the selected district,
    which exist only at district and station level. The pure transition
    functions below are total and say what each handler does in any state;
    the Dashboard class, whose methods are the handlers, takes the map's
    wiring as its callers' obligation and keeps the invariant. */
module Navigation {
  import opened Types
  import opened Catalog
  import MapView
  import Timeline

  /** A snapshot of the five state cells of the app. */
  datatype NavState = NavState(
    view: ViewState,
    district: Option<string>,
    station: Option<Station>,
    timeMode: TimeMode,
    timelineValue: int)

  /** City: nothing selected. District: a district and no station. Station:
      both, and the station belongs to the district. The timeline value stays
      in the slider's range. */
  ghost predicate Inv(s: NavState) {
    && 0 <= s.timelineValue <= Timeline.SliderMax
    && match s.view
       case CityView => s.district.None? && s.station.None?
       case DistrictView => s.district.Some? && s.station.None?
       case StationView => s.district.Some? && s.station.Some? && s.station.value.districtId == s.district.value
  }

  /** The initial state: city level, nothing selected, CURRENT, noon. */
  function Initial(): (s: NavState)
    ensures Inv(s)
    ensures s.view == CityView && s.timeMode == Current
    ensures Timeline.FormatTime(s.timelineValue) == "12:00"
  {
    Timeline.InitialTimeIsNoon();
    NavState(CityView, None, None, Current, 48)
  }

  /** `handleDistrictClick(id)`: select the district and show district level;
      the station, time mode and timeline value are left as they were. The
      invariant survives unless a station was selected. */
  function DistrictClick(s: NavState, id: string): (r: NavState)
    ensures r.view == DistrictView && r.district == Some(id)
    ensures r.station == s.station && r.timeMode == s.timeMode && r.timelineValue == s.timelineValue
    ensures Inv(s) ==> (Inv(r) <==> s.view != StationView)
  {
    s.(district := Some(id), view := DistrictView)
  }

  /** `handleStationClick(station)`: select the station and show station level;
      the district is left as it was. From a consistent state the result is
      consistent exactly when the station belongs to the selected district. */
  function StationClick(s: NavState, st: Station): (r: NavState)
    ensures r.view == StationView && r.station == Some(st)
    ensures r.district == s.district && r.timeMode == s.timeMode && r.timelineValue == s.timelineValue
    ensures Inv(s) ==> (Inv(r) <==> s.district == Some(st.districtId))
  {
    s.(station := Some(st), view := StationView)
  }

  /** `handleBack`: station level goes to district level and drops the station;
      district level goes to city level and drops the district; at city level
      nothing changes. */
  function Back(s: NavState): (r: NavState)
    ensures s.view == StationView ==> r == s.(view := DistrictView, station := None)
    ensures s.view == DistrictView ==> r == s.(view := CityView, district := None)
    ensures s.view == CityView ==> r == s
    ensures Inv(s) ==> Inv(r)
  {
    match s.view
    case StationView => s.(view := DistrictView, station := None)
    case DistrictView => s.(view := CityView, district := None)
    case CityView => s
  }

  /** The user actions that reach the state machine. */
  datatype Event =
    | DistrictClicked(id: string)
    | StationClicked(station: Station)
    | BackClicked
    | TimeModeChosen(mode: TimeMode)
    | TimelineMoved(value: int)

  function Apply(s: NavState, e: Event): NavState {
    match e
    case DistrictClicked(id) => DistrictClick(s, id)
    case StationClicked(st) => StationClick(s, st)
    case BackClicked => Back(s)
    case TimeModeChosen(m) => s.(timeMode := m)
    case TimelineMoved(v) => s.(timelineValue := v)
  }

  /** The events the interface can produce in state s: region clicks only at
      city level on active districts, marker clicks only at district or station
      level on a station of the selected district, the back control anywhere
      (it is hidden at city level, where it would do nothing), any time mode,
      and slider values from 0 to 96. Every such event keeps the invariant. */
  predicate Wired(s: NavState, e: Event): (wired: bool)
    ensures Inv(s) && wired ==> Inv(Apply(s, e))
  {
    match e
    case DistrictClicked(id) => s.view == CityView && IsActiveDistrict(id)
    case StationClicked(st) => s.view != CityView && s.district == Some(st.districtId)
    case BackClicked => true
    case TimeModeChosen(_) => true
    case TimelineMoved(v) => 0 <= v <= Timeline.SliderMax
  }

  function Run(s: NavState, events: seq<Event>): NavState
    decreases |events|
  {
    if events == [] then s else Run(Apply(s, events[0]), events[1..])
  }

  ghost predicate AllWired(s: NavState, events: seq<Event>)
    decreases |events|
  {
    events == [] || (Wired(s, events[0]) && AllWired(Apply(s, events[0]), events[1..]))
  }

  /** Any sequence of events the interface can produce keeps the invariant. */
  lemma {:induction false} WiredRunsKeepInv(s: NavState, events: seq<Event>)
    requires Inv(s) && AllWired(s, events)
    ensures Inv(Run(s, events))
    decreases |events|
  {
    if events != [] {
      WiredRunsKeepInv(Apply(s, events[0]), events[1..]);
    }
  }

  /** The id the map highlights: the selected station's, if any. */
  function SelectedId(s: NavState): Option<string> {
    if s.station.Some? then Some(s.station.value.id) else None
  }

  /** The map only produces wired events: every clickable region and every
      station marker drawn in a consistent state leads to a wired click. */
  lemma MapClicksAreWired(s: NavState, countDraw: real, draws: seq<StationDraws>)
    requires Inv(s)
    requires IsDraw(countDraw) && |draws| >= StationCount(countDraw)
    requires forall k :: 0 <= k < |draws| ==> ValidStationDraws(draws[k])
    ensures s.view == CityView ==>
      forall sh :: sh in MapView.DistrictLayer(s.view, s.timeMode, s.district) && MapView.ClickTarget(sh).Some? ==>
        Wired(s, DistrictClicked(MapView.ClickTarget(sh).value))
    ensures forall m :: m in MapView.StationLayer(s.view, MapView.CurrentStations(s.district, countDraw, draws), SelectedId(s)) ==>
      Wired(s, StationClicked(m.station))
  {
    if s.view == CityView {
      MapView.ClicksSelectActiveDistricts(s.timeMode, s.district);
    }
    var ms := MapView.StationLayer(s.view, MapView.CurrentStations(s.district, countDraw, draws), SelectedId(s));
    forall m | m in ms ensures Wired(s, StationClicked(m.station)) {
      var k :| 0 <= k < |ms| && ms[k] == m;
    }
  }

  /** The back control is on screen exactly when pressing it changes the state. */
  lemma BackShownExactlyWhenItActs(s: NavState)
    ensures MapView.BackVisible(s.view) <==> Back(s) != s
  {
  }

  /** Drilling into a district and a station, then going back twice, returns
      to the city with nothing selected and the time controls untouched. */
  lemma DrillDownAndBackToCity(id: string, st: Station)
    requires st.districtId == id
    ensures var s := Back(Back(StationClick(DistrictClick(Initial(), id), st)));
      s.view == CityView && s.district.None? && s.station.None?
      && s.timeMode == Initial().timeMode && s.timelineValue == Initial().timelineValue && Inv(s)
  {
    var s1 := DistrictClick(Initial(), id);
    var s2 := StationClick(s1, st);
    assert Inv(s2);
  }

  /** The state cells of App.tsx and its handlers. */
  class Dashboard {
    var viewState: ViewState
    var selectedDistrictId: Option<string>
    var selectedStation: Option<Station>
    var timeMode: TimeMode
    var timelineValue: int

    function State(): NavState
      reads this
    {
      NavState(viewState, selectedDistrictId, selectedStation, timeMode, timelineValue)
    }

    ghost predicate Valid()
      reads this
    {
      Inv(State())
    }

    constructor ()
      ensures State() == Initial() && Valid()
    {
      viewState := CityView;
      selectedDistrictId := None;
      selectedStation := None;
      timeMode := Current;
      timelineValue := 48;
    }

    method HandleDistrictClick(districtId: string)
      requires Valid() && Wired(State(), DistrictClicked(districtId))
      modifies this
      ensures State() == DistrictClick(old(State()), districtId) && Valid()
    {
      selectedDistrictId := Some(districtId);
      viewState := DistrictView;
    }

    method HandleStationClick(station: Station)
      requires Valid() && Wired(State(), StationClicked(station))
      modifies this
      ensures State() == StationClick(old(State()), station) && Valid()
    {
      selectedStation := Some(station);
      viewState := StationView;
    }

    method HandleBack()
      requires Valid()
      modifies this
      ensures State() == Back(old(State())) && Valid()
    {
      if viewState == StationView {
        viewState := DistrictView;
        selectedStation := None;
      } else if viewState == DistrictView {
        viewState := CityView;
        selectedDistrictId := None;
      }
    }

    /** A time-mode button: only the time mode changes. */
    method SetTimeMode(mode: TimeMode)
      requires Valid()
      modifies this
      ensures State() == old(State()).(timeMode := mode) && Valid()
    {
      timeMode := mode;
    }

    /** The slider: only the timeline value changes. */
    method SetTimelineValue(value: int)
      requires Valid() && Wired(State(), TimelineMoved(value))
      modifies this
      ensures State() == old(State()).(timelineValue := value) && Valid()
    {
      timelineValue := value;
    }
  }

  /** Longhua is one of the active districts the map lets the user click. */
  lemma LonghuaIsActive(id: string)
    requires id == "sz_longhua"
    ensures IsActiveDistrict(id)
  {
    DistrictsWellFormed();
    var longhua := Districts()[5];
    assert longhua.id == id && longhua.isActive;
    MapView.FindInDistinct(Districts(), longhua);
    assert FindDistrict(id) == Some(longhua);
  }

  /** The drill-down scenario on the app's own state cells: into Longhua and
      one of its stations, then back twice. */
  method LonghuaScenario(st: Station) returns (view: ViewState, district: Option<string>, station: Option<Station>)
    requires st.districtId == "sz_longhua"
    ensures view == CityView && district == None && station == None
  {
    var app := new Dashboard();
    LonghuaIsActive(st.districtId);
    app.HandleDistrictClick("sz_longhua");
    app.HandleStationClick(st);
    app.HandleBack();
    app.HandleBack();
    view, district, station := app.viewState, app.selectedDistrictId, app.selectedStation;
  }
}
