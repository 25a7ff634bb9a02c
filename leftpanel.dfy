/** The selection logic of the left statistics panel (components/LeftPanel.tsx):
    which pie dataset the classification selector shows, the dispatch on the
    view level, the district scale factor, the region title and the labels
    of the pile table. The markup is not modelled; the panel is described by
    the values it shows. */
module LeftPanel {
  import opened Types
  import opened Text
  import opened Charts

  /** The seven keys of the classification selector, in menu order. */
  function ChartKeys(): (keys: seq<string>)
    ensures |keys| == 7
    ensures forall j, k :: 0 <= j < k < |keys| ==> keys[j] != keys[k]
  {
    ["power", "function", "utilization", "cost", "l2", "service", "ops"]
  }

  /** The selector's initial key. */
  const InitialChartType: string := "power"

  /** Before any choice the panel shows the power-type pie. */
  lemma InitialChartIsPower()
    ensures InitialChartType == ChartKeys()[0]
    ensures ChartData(InitialChartType) == PieDataPower()
  {
  }

  /** The datasets the seven selector keys stand for, in menu order. */
  function KeyedPies(): seq<seq<PieSlice>> {
    [PieDataPower(), PieDataFunction(), PieDataUtilization(), PieDataCostDist(),
     PieDataL2Grid(), PieDataServiceCap(), PieDataOpsStatus()]
  }

  /** `getChartData`: the dataset for a selector key, the power pie for any other key. */
  function ChartData(chartType: string): (r: seq<PieSlice>)
    ensures r in AllPies() && r != PieDataCost()
    ensures forall k :: 0 <= k < 7 && chartType == ChartKeys()[k] ==> r == KeyedPies()[k]
    ensures chartType !in ChartKeys() ==> r == PieDataPower()
  {
    match chartType
    case "power" => PieDataPower()
    case "function" => PieDataFunction()
    case "utilization" => PieDataUtilization()
    case "cost" => PieDataCostDist()
    case "l2" => PieDataL2Grid()
    case "service" => PieDataServiceCap()
    case "ops" => PieDataOpsStatus()
    case _ => PieDataPower()
  }

  /** Tells the seven selectable datasets apart: slice count and first value. */
  function Fingerprint(data: seq<PieSlice>): int {
    if data == [] then 0 else |data| * 1000 + data[0].value
  }

  lemma ChartDataAt(i: nat)
    requires i < 7
    ensures Fingerprint(ChartData(ChartKeys()[i])) == [4045, 6120, 3200, 3150, 4320, 4120, 3850][i]
  {
  }

  /** Each of the seven keys selects its own dataset. */
  lemma ChartDataInjectiveOnKeys(j: nat, k: nat)
    requires j < k < 7
    ensures ChartData(ChartKeys()[j]) != ChartData(ChartKeys()[k])
  {
    ChartDataAt(j);
    ChartDataAt(k);
  }

  /** `COLORS[i % COLORS.length]` for each slice: always in range, and distinct
      within a pie that has no more slices than there are colours. */
  function SliceColors(data: seq<PieSlice>): (cs: seq<string>)
    ensures |cs| == |data|
    ensures forall i :: 0 <= i < |cs| ==> cs[i] in Colors()
    ensures |data| <= |Colors()| ==> forall j, k :: 0 <= j < k < |cs| ==> cs[j] != cs[k]
  {
    var palette := Colors();
    seq(|data|, i requires 0 <= i < |data| => palette[i % |palette|])
  }

  /** Every pie the panel draws gets pairwise distinct colours. */
  lemma PieColorsDistinct(p: nat)
    requires p < |AllPies()|
    ensures forall j, k :: 0 <= j < k < |AllPies()[p]| ==>
      SliceColors(AllPies()[p])[j] != SliceColors(AllPies()[p])[k]
  {
  }

  // ------------------------------------------------------------ aggregates

  /** The city-wide figures of the six numeric cards. */
  function CityCardBases(): seq<int> {
    [450, 12450, 45, 120, 850, 8500]
  }

  /** The scale factor m: 0.2 at district level, 1 at city level. */
  function ScaleFactor(view: ViewState): (m: real)
    ensures view == DistrictView ==> m * 5.0 == 1.0
    ensures view != DistrictView ==> m == 1.0
  {
    if view == DistrictView then 0.2 else 1.0
  }

  /** `Math.floor(N * m)` for each card figure N. */
  function Cards(m: real): (r: seq<int>)
    ensures |r| == |CityCardBases()|
  {
    seq(6, i requires 0 <= i < 6 => (CityCardBases()[i] as real * m).Floor)
  }

  /** Scaling by 0.2 and rounding down is integer division by 5. */
  lemma FloorOfFifth(n: nat)
    ensures (n as real * 0.2).Floor == n / 5
  {
    var q, rem := n / 5, n % 5;
    assert n as real * 0.2 == q as real + rem as real / 5.0;
  }

  /** The district-level cards: every city figure divided by 5, exactly,
      because every figure is a multiple of 5. */
  lemma DistrictCards()
    ensures Cards(ScaleFactor(DistrictView)) == [90, 2490, 9, 24, 170, 1700]
    ensures forall i :: 0 <= i < 6 ==>
      Cards(ScaleFactor(DistrictView))[i] * 5 == CityCardBases()[i]
  {
    var bases := CityCardBases();
    forall i | 0 <= i < 6
      ensures Cards(0.2)[i] == bases[i] / 5
    {
      FloorOfFifth(bases[i]);
    }
  }

  lemma CityCards()
    ensures Cards(ScaleFactor(CityView)) == CityCardBases()
  {
  }

  /** The heading: the upper-cased district id at district level (JavaScript
      renders a missing id as "undefined"), the whole city otherwise. */
  function RegionTitle(view: ViewState, selectedDistrictId: Option<string>): (t: string)
    ensures view == DistrictView && selectedDistrictId.Some? ==>
      t == "区域: " + ToUpper(selectedDistrictId.value)
    ensures view != DistrictView ==> t == "深圳市全域"
  {
    if view == DistrictView then
      "区域: " + (match selectedDistrictId case Some(id) => ToUpper(id) case None => "undefined")
    else "深圳市全域"
  }

  // ---------------------------------------------------------- pile table

  /** Status column of the pile table. Idle and Offline share a label. */
  function PileStatusLabel(s: PileStatus): (shown: string)
    ensures shown in {"充电中", "故障", "空闲"}
    ensures shown == "充电中" <==> s == Charging
    ensures shown == "故障" <==> s == Fault
    ensures shown == "空闲" <==> s == Idle || s == Offline
  {
    assert "充电中"[0] != "空闲"[0] && "故障"[0] != "空闲"[0] && "充电中"[0] != "故障"[0];
    match s
    case Charging => "充电中"
    case Fault => "故障"
    case _ => "空闲"
  }

  /** `pile.currentUser || '-'`: an absent or empty user shows as a dash. */
  function UserLabel(u: Option<string>): (shown: string)
    ensures shown != ""
    ensures u.None? || u.value == "" ==> shown == "-"
    ensures u.Some? && u.value != "" ==> shown == u.value
  {
    if u.None? || u.value == "" then "-" else u.value
  }

  datatype PileRow = PileRow(id: string, pileType: string, status: string, user: string)

  function PileRows(piles: seq<Pile>): (rows: seq<PileRow>)
    ensures |rows| == |piles|
    ensures forall k :: 0 <= k < |rows| ==>
      rows[k].id == piles[k].id && rows[k].pileType == piles[k].pileType
      && rows[k].status == PileStatusLabel(piles[k].status) && rows[k].user == UserLabel(piles[k].currentUser)
  {
    seq(|piles|, k requires 0 <= k < |piles| =>
      PileRow(piles[k].id, piles[k].pileType, PileStatusLabel(piles[k].status), UserLabel(piles[k].currentUser)))
  }

  // ---------------------------------------------------------- the panel

  /** What the panel shows: the aggregate view, a station's detail, or nothing. */
  datatype Panel =
    | Aggregate(title: string, cards: seq<int>, chart: seq<PieSlice>, colors: seq<string>)
    | StationDetail(station: Station, rows: seq<PileRow>)
    | Nothing

  /** The view-level dispatch of the panel. */
  function Render(view: ViewState, selectedStation: Option<Station>,
                  selectedDistrictId: Option<string>, chartType: string): (p: Panel)
    ensures view != StationView <==> p.Aggregate?
    ensures p.Aggregate? ==>
      && p.cards == Cards(ScaleFactor(view))
      && p.title == RegionTitle(view, selectedDistrictId)
      && p.chart == ChartData(chartType)
      && p.colors == SliceColors(p.chart)
    ensures view == StationView ==> (p.Nothing? <==> selectedStation.None?)
    ensures p.StationDetail? ==> selectedStation == Some(p.station) && p.rows == PileRows(p.station.piles)
  {
    if view != StationView then
      var data := ChartData(chartType);
      Aggregate(RegionTitle(view, selectedDistrictId), Cards(ScaleFactor(view)), data, SliceColors(data))
    else match selectedStation
      case Some(s) => StationDetail(s, PileRows(s.piles))
      case None => Nothing
  }
}
