/** The drawing rules of the map (components/MapComponent.tsx), stated as the
    list of shapes each layer holds after its effect has run: which capacity
    and colour a region shows, which shapes react to clicks and what a click
    dispatches, and how station markers are coloured and highlighted.
    Leaflet itself (tiles, layer groups, hover styling, camera flights) and
    the floating-point opacities are not modelled. */
module MapView {
  import opened Types
  import opened Catalog

  // ------------------------------------------------------ district layer

  /** The capacity a region shows in a time mode. */
  function DisplayedCapacity(d: District, mode: TimeMode): (cap: int)
    ensures cap in {d.capacityHistory, d.capacityCurrent, d.capacityPrediction}
    ensures mode == History ==> cap == d.capacityHistory
    ensures mode == Prediction ==> cap == d.capacityPrediction
    ensures mode == Current ==> cap == d.capacityCurrent
  {
    if mode == History then d.capacityHistory
    else if mode == Prediction then d.capacityPrediction
    else d.capacityCurrent
  }

  const Slate: string := "#475569"
  const Red: string := "#ef4444"
  const Blue: string := "#3b82f6"
  const Cyan: string := "#06b6d4"

  /** The fill of an active region: muted in HISTORY, otherwise blue unless the
      capacity is strictly above 80, which is red in PREDICTION and cyan in CURRENT. */
  function FillColor(mode: TimeMode, capacity: int): (c: string)
    ensures mode == History <==> c == Slate
    ensures c == Blue <==> mode != History && capacity <= 80
    ensures c == Red <==> mode == Prediction && capacity > 80
    ensures c == Cyan <==> mode == Current && capacity > 80
  {
    assert Slate[1] != Red[1] && Slate[1] != Blue[1] && Slate[1] != Cyan[1];
    assert Red[1] != Blue[1] && Red[1] != Cyan[1] && Blue[1] != Cyan[1];
    match mode
    case History => Slate
    case Prediction => if capacity > 80 then Red else Blue
    case Current => if capacity > 80 then Cyan else Blue
  }

  /** What the district layer holds. Only a Region reacts to clicks. */
  datatype Shape =
    | Background(districtId: string)
    | RegionLabel(districtId: string, capacity: int, alert: bool)
    | Region(districtId: string, capacity: int, fillColor: string, onClick: string)
    | Outline(districtId: string)

  /** The district a click on this shape selects, if it has a click handler. */
  function ClickTarget(s: Shape): Option<string> {
    if s.Region? then Some(s.onClick) else None
  }

  /** The shapes drawn for one district at city level: a dashed background
      polygon for an inactive one; a label and a clickable coloured polygon
      for an active one. */
  function CityShapesOf(d: District, mode: TimeMode): (r: seq<Shape>)
    ensures !d.isActive ==> r == [Background(d.id)]
    ensures d.isActive ==> |r| == 2
    ensures d.isActive ==>
      && r[0].RegionLabel? && r[0].districtId == d.id && r[0].capacity == DisplayedCapacity(d, mode)
      && (r[0].alert <==> FillColor(mode, r[0].capacity) == Red)
    ensures d.isActive ==>
      && r[1].Region? && r[1].districtId == d.id && r[1].onClick == d.id
      && r[1].capacity == DisplayedCapacity(d, mode)
      && r[1].fillColor == FillColor(mode, DisplayedCapacity(d, mode))
  {
    if !d.isActive then [Background(d.id)]
    else
      var cap := DisplayedCapacity(d, mode);
      [RegionLabel(d.id, cap, mode == Prediction && cap > 80),
       Region(d.id, cap, FillColor(mode, cap), d.id)]
  }

  /** The city-level layer: the shapes of every district in table order. */
  function CityShapes(ds: seq<District>, mode: TimeMode): (r: seq<Shape>)
    ensures forall s :: s in r && s.Region? ==>
      s.onClick == s.districtId && exists d :: d in ds && d.isActive && d.id == s.onClick
    decreases |ds|
  {
    if ds == [] then [] else CityShapesOf(ds[0], mode) + CityShapes(ds[1..], mode)
  }

  /** Every district of the table is drawn: an active one as its coloured,
      clickable region, an inactive one as its background polygon. */
  lemma {:induction false} CityShapesCover(ds: seq<District>, mode: TimeMode)
    ensures forall d :: d in ds && d.isActive ==>
      Region(d.id, DisplayedCapacity(d, mode), FillColor(mode, DisplayedCapacity(d, mode)), d.id) in CityShapes(ds, mode)
    ensures forall d :: d in ds && !d.isActive ==> Background(d.id) in CityShapes(ds, mode)
    decreases |ds|
  {
    if ds != [] {
      CityShapesCover(ds[1..], mode);
      assert forall d :: d in ds ==> d == ds[0] || d in ds[1..];
    }
  }

  /** The district layer for a view: all districts at city level; at district
      or station level only the selected district's outline. */
  function DistrictLayer(view: ViewState, mode: TimeMode, selectedDistrictId: Option<string>)
    : (r: seq<Shape>)
    ensures view != CityView ==> forall k :: 0 <= k < |r| ==> ClickTarget(r[k]).None?
    ensures view != CityView ==> |r| <= 1
    ensures view != CityView && selectedDistrictId.Some? && FindDistrict(selectedDistrictId.value).Some? ==>
      r == [Outline(selectedDistrictId.value)]
    ensures view != CityView && (selectedDistrictId.None? || FindDistrict(selectedDistrictId.value).None?) ==>
      r == []
  {
    if view == CityView then CityShapes(Districts(), mode)
    else match selectedDistrictId
      case None => []
      case Some(id) =>
        match FindDistrict(id)
        case Some(d) => [Outline(d.id)]
        case None => []
  }

  /** In a table of distinct ids, `find` returns the district itself. */
  lemma {:induction false} FindInDistinct(ds: seq<District>, d: District)
    requires d in ds
    requires forall j, k :: 0 <= j < k < |ds| ==> ds[j].id != ds[k].id
    ensures FindIn(ds, d.id) == Some(d)
    decreases |ds|
  {
    if ds[0] != d {
      assert ds[0].id != d.id by {
        var k :| 0 <= k < |ds| && ds[k] == d;
        assert k > 0;
      }
      assert d in ds[1..];
      FindInDistinct(ds[1..], d);
    }
  }

  /** Over a table of distinct ids, every clickable region selects a district
      that `find` resolves to an active one. */
  lemma RegionsSelectActive(ds: seq<District>, mode: TimeMode)
    requires forall j, k :: 0 <= j < k < |ds| ==> ds[j].id != ds[k].id
    ensures forall s :: s in CityShapes(ds, mode) && ClickTarget(s).Some? ==>
      && s.Region? && ClickTarget(s).value == s.districtId
      && FindIn(ds, s.onClick).Some? && FindIn(ds, s.onClick).value.isActive
  {
    forall s | s in CityShapes(ds, mode) && ClickTarget(s).Some?
      ensures s.Region? && FindIn(ds, s.onClick).Some? && FindIn(ds, s.onClick).value.isActive
    {
      var d :| d in ds && d.isActive && d.id == s.onClick;
      FindInDistinct(ds, d);
    }
  }

  /** Every click handler of the city-level layer selects its own region's id,
      and that id names an active district: no background district is ever
      clickable. (Other levels have no click handlers at all, see DistrictLayer.) */
  lemma ClicksSelectActiveDistricts(mode: TimeMode, selectedDistrictId: Option<string>)
    ensures forall s :: s in DistrictLayer(CityView, mode, selectedDistrictId) && ClickTarget(s).Some? ==>
      && s.Region? && ClickTarget(s).value == s.districtId
      && IsActiveDistrict(ClickTarget(s).value)
  {
    var layer := DistrictLayer(CityView, mode, selectedDistrictId);
    assert layer == CityShapes(Districts(), mode);
    DistrictsWellFormed();
    RegionsSelectActive(Districts(), mode);
    forall s | s in layer && ClickTarget(s).Some?
      ensures IsActiveDistrict(s.onClick)
    {
      assert FindDistrict(s.onClick) == FindIn(Districts(), s.onClick);
    }
  }

  /** Each active district has a region at city level, coloured by the
      capacity of the current time mode, whose click dispatches its own id. */
  lemma ActiveDistrictsClickable(mode: TimeMode, d: District)
    requires d in Districts() && d.isActive
    ensures exists s :: && s in DistrictLayer(CityView, mode, None) && s.Region?
                        && ClickTarget(s) == Some(d.id)
                        && s.fillColor == FillColor(mode, DisplayedCapacity(d, mode))
  {
    var s := Region(d.id, DisplayedCapacity(d, mode), FillColor(mode, DisplayedCapacity(d, mode)), d.id);
    CityShapesCover(Districts(), mode);
    assert s in DistrictLayer(CityView, mode, None);
  }

  /** Futian/Luohu is listed, active, with a predicted load of 98. */
  lemma FutianLookup(id: string)
    requires id == "sz_futian"
    ensures FindDistrict(id).Some? && FindDistrict(id).value.isActive
    ensures FindDistrict(id).value.capacityPrediction == 98
  {
    DistrictsWellFormed();
    var futian := Districts()[10];
    assert futian.id == id && futian.capacityPrediction == 98 && futian.isActive;
    FindInDistinct(Districts(), futian);
    assert FindDistrict(id) == Some(futian);
  }

  /** Futian/Luohu in PREDICTION (98) is drawn red. */
  lemma FutianPredictionIsRed(id: string)
    requires id == "sz_futian"
    ensures FindDistrict(id).Some?
    ensures FillColor(Prediction, DisplayedCapacity(FindDistrict(id).value, Prediction)) == Red
  {
    FutianLookup(id);
    assert FillColor(Prediction, 98) == Red;
  }

  // ------------------------------------------------------- station layer

  /** Marker colour by revenue level; C is grey. */
  function MarkerColor(level: Rank): (c: string)
    ensures level == S <==> c == "#f43f5e"
    ensures level == A <==> c == "#f59e0b"
    ensures level == B <==> c == "#06b6d4"
    ensures level == C <==> c == "#94a3b8"
  {
    assert "#f43f5e"[2] != "#f59e0b"[2] && "#f43f5e"[1] != "#06b6d4"[1] && "#f43f5e"[1] != "#94a3b8"[1];
    assert "#f59e0b"[1] != "#06b6d4"[1] && "#f59e0b"[1] != "#94a3b8"[1] && "#06b6d4"[1] != "#94a3b8"[1];
    match level
    case S => "#f43f5e"
    case A => "#f59e0b"
    case B => "#06b6d4"
    case C => "#94a3b8"
  }

  /** One station marker. A click hands the whole station to the handler. */
  datatype Marker = Marker(station: Station, color: string, selected: bool, scale: real, zOffset: int)

  /** The marker of one station: coloured by its revenue level, enlarged to
      1.5 and raised by 1000 exactly when it is the selected station. */
  function MarkerFor(s: Station, selectedStationId: Option<string>): (m: Marker)
    ensures m.station == s && m.color == MarkerColor(s.revenueLevel)
    ensures m.selected <==> selectedStationId == Some(s.id)
    ensures m.selected ==> m.scale == 1.5 && m.zOffset == 1000
    ensures !m.selected ==> m.scale == 1.0 && m.zOffset == 0
  {
    var selected := selectedStationId == Some(s.id);
    Marker(s, MarkerColor(s.revenueLevel), selected, if selected then 1.5 else 1.0, if selected then 1000 else 0)
  }

  /** The station layer: one marker per station at district or station level,
      none at city level; exactly the selected station is enlarged and raised. */
  function StationLayer(view: ViewState, stations: seq<Station>, selectedStationId: Option<string>)
    : (r: seq<Marker>)
    ensures view == CityView ==> r == []
    ensures view != CityView ==> |r| == |stations|
    ensures forall i :: 0 <= i < |r| ==>
      && r[i].station == stations[i]
      && r[i].color == MarkerColor(stations[i].revenueLevel)
      && (r[i].selected <==> selectedStationId == Some(stations[i].id))
      && (r[i].selected ==> r[i].scale == 1.5 && r[i].zOffset == 1000)
      && (!r[i].selected ==> r[i].scale == 1.0 && r[i].zOffset == 0)
  {
    if view.DistrictView? || view.StationView? then
      seq(|stations|, i requires 0 <= i < |stations| => MarkerFor(stations[i], selectedStationId))
    else []
  }

  /** The stations of the selected district (`currentStations`): none when no
      district is selected. */
  function CurrentStations(selectedDistrictId: Option<string>, countDraw: real, draws: seq<StationDraws>)
    : (r: seq<Station>)
    requires IsDraw(countDraw) && |draws| >= StationCount(countDraw)
    requires forall k :: 0 <= k < |draws| ==> ValidStationDraws(draws[k])
    ensures selectedDistrictId.None? ==> r == []
    ensures selectedDistrictId.Some? ==> r == Stations(selectedDistrictId.value, countDraw, draws)
    ensures forall i :: 0 <= i < |r| ==> Some(r[i].districtId) == selectedDistrictId
  {
    match selectedDistrictId
    case None => []
    case Some(id) => Stations(id, countDraw, draws)
  }

  /** With generated stations, at most one marker is highlighted, and every
      marker hands over a station of the selected district. */
  lemma OneHighlightedMarker(view: ViewState, selectedDistrictId: Option<string>, countDraw: real,
                             draws: seq<StationDraws>, selectedStationId: Option<string>)
    requires IsDraw(countDraw) && |draws| >= StationCount(countDraw)
    requires forall k :: 0 <= k < |draws| ==> ValidStationDraws(draws[k])
    ensures var ms := StationLayer(view, CurrentStations(selectedDistrictId, countDraw, draws), selectedStationId);
      && (forall i, j :: 0 <= i < j < |ms| ==> !(ms[i].selected && ms[j].selected))
      && (forall i :: 0 <= i < |ms| ==> Some(ms[i].station.districtId) == selectedDistrictId)
  {
    if selectedDistrictId.Some? {
      StationIdsDistinct(selectedDistrictId.value, countDraw, draws);
    }
  }

  // --------------------------------------------------------- overlays

  /** The back control is shown exactly when the view is not the city. */
  function BackVisible(view: ViewState): (shown: bool)
    ensures shown <==> view != CityView
  {
    view != CityView
  }

  /** Which legend the overlay shows. */
  datatype Legend = OverloadLegend | LoadLegend | RevenueLegend

  function LegendFor(view: ViewState, mode: TimeMode): (l: Legend)
    ensures l == RevenueLegend <==> view != CityView
    ensures l == OverloadLegend <==> view == CityView && mode == Prediction
  {
    if view == CityView then (if mode == Prediction then OverloadLegend else LoadLegend)
    else RevenueLegend
  }
}
