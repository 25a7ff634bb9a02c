/** The region catalogue and the station/pile generators of constants.ts.
    Every `Math.random()` call becomes an explicit draw in [0, 1): the count
    draw of a district, and one StationDraws record per station, holding one
    PileDraws record per pile. */
module Catalog {
  import opened Types
  import opened Text

  /** The fixed district table: three background regions at the top, nine
      interactive Shenzhen regions, two background regions at the bottom. */
  function Districts(): (ds: seq<District>)
    ensures |ds| == 14
  {
    [ District("bg_nw", "东莞西部", 0, 0, 0, C, false),
      District("bg_n", "东莞中部", 0, 0, 0, C, false),
      District("bg_ne", "惠州区域", 0, 0, 0, C, false),
      District("sz_baoan_n", "宝安北部", 45, 68, 75, A, true),
      District("sz_guangming", "光明区", 50, 72, 85, B, true),
      District("sz_longhua", "龙华区", 60, 88, 95, S, true),
      District("sz_longgang_w", "龙岗西部", 55, 70, 65, B, true),
      District("sz_longgang_e", "龙岗东部", 40, 55, 50, B, true),
      District("sz_pingshan", "坪山区", 30, 45, 42, C, true),
      District("sz_qianhai", "前海中心", 70, 92, 88, S, true),
      District("sz_futian", "福田/罗湖", 75, 85, 98, S, true),
      District("sz_yantian", "盐田/大鹏", 35, 50, 45, C, true),
      District("bg_sw", "珠江口", 0, 0, 0, C, false),
      District("bg_se", "大亚湾海域", 0, 0, 0, C, false) ]
  }

  /** `Array.prototype.find` over a district list: the first district with the id. */
  function FindIn(ds: seq<District>, id: string): (r: Option<District>)
    ensures r.Some? ==> r.value in ds && r.value.id == id
    ensures r.None? <==> forall k :: 0 <= k < |ds| ==> ds[k].id != id
    decreases |ds|
  {
    if ds == [] then None
    else if ds[0].id == id then Some(ds[0])
    else FindIn(ds[1..], id)
  }

  /** The table's ids are pairwise distinct, and every background region
      shows no load in any mode and has rank C. */
  lemma DistrictsWellFormed()
    ensures forall j, k :: 0 <= j < k < |Districts()| ==> Districts()[j].id != Districts()[k].id
    ensures forall k :: 0 <= k < |Districts()| && !Districts()[k].isActive ==>
      && Districts()[k].capacityHistory == Districts()[k].capacityCurrent == Districts()[k].capacityPrediction == 0
      && Districts()[k].revenueRank == C
  {
  }

  function FindDistrict(id: string): Option<District> {
    FindIn(Districts(), id)
  }

  predicate IsActiveDistrict(id: string) {
    FindDistrict(id).Some? && FindDistrict(id).value.isActive
  }

  /** The functional-zone tags a station's location label is drawn from. */
  function LocationTags(): (tags: seq<string>)
    ensures |tags| == 7
    ensures forall j, k :: 0 <= j < k < |tags| ==> tags[j] != tags[k]
  {
    assert "高新科技园"[1] != "高端住宅区"[1];
    ["核心商业区", "高新科技园", "5A级景区", "高端住宅区", "交通枢纽", "物流园区", "会展中心"]
  }

  predicate IsDraw(r: real) {
    0.0 <= r < 1.0
  }

  /** `Math.floor(lo + r * span)` for a draw r: always one of the `span`
      integers starting at `lo`. */
  function FloorOfDraw(lo: int, r: real, span: nat): (k: int)
    requires IsDraw(r) && span > 0
    ensures lo <= k < lo + span
  {
    assert 0.0 <= r * span as real < span as real;
    (lo as real + r * span as real).Floor
  }

  // ---------------------------------------------------------------- piles

  /** The random draws used for one pile: two for its status, one deciding
      whether it has a current user, one for the plate number. */
  datatype PileDraws = PileDraws(status1: real, status2: real, user: real, plate: real)

  predicate ValidPileDraws(d: PileDraws) {
    IsDraw(d.status1) && IsDraw(d.status2) && IsDraw(d.user) && IsDraw(d.plate)
  }

  /** Charging above 0.8 on the first draw; otherwise Fault above 0.9 on the
      second; otherwise Idle. Offline is never drawn. */
  function PileStatusOf(d: PileDraws): (status: PileStatus)
    ensures status != Offline
    ensures status == Charging <==> d.status1 > 0.8
    ensures status == Fault <==> d.status1 <= 0.8 && d.status2 > 0.9
    ensures status == Idle <==> d.status1 <= 0.8 && d.status2 <= 0.9
  {
    if d.status1 > 0.8 then Charging else if d.status2 > 0.9 then Fault else Idle
  }

  /** A plate tag as the pile generator writes it: the province prefix
      followed by a five-digit number. */
  ghost predicate IsPlateTag(u: string) {
    exists n: nat :: 10000 <= n <= 99999 && u == "粤B" + NatToString(n)
  }

  /** A current user exactly when the user draw is above 0.8, shown as a plate. */
  function PileUserOf(d: PileDraws): (user: Option<string>)
    requires ValidPileDraws(d)
    ensures user.Some? <==> d.user > 0.8
    ensures user.Some? ==> IsPlateTag(user.value)
  {
    if d.user > 0.8 then
      var n := FloorOfDraw(10000, d.plate, 90000);
      assert IsPlateTag("粤B" + NatToString(n));
      Some("粤B" + NatToString(n))
    else None
  }

  function PileId(i: nat): string {
    "P-" + NatToString(1000 + i)
  }

  /** What `generatePiles(count)` promises of each pile. */
  ghost predicate PileShape(p: Pile, i: nat) {
    && p.id == PileId(i)
    && (i % 3 == 0 ==> p.pileType == "DC-120kW" && p.power == 120)
    && (i % 3 != 0 ==> p.pileType == "DC-60kW" && p.power == 60)
    && p.status != Offline
    && (p.currentUser.Some? ==> IsPlateTag(p.currentUser.value))
  }

  /** Pile i of a station, from its four draws. */
  function MakePile(i: nat, d: PileDraws): (p: Pile)
    requires ValidPileDraws(d)
    ensures PileShape(p, i)
    ensures p.status == PileStatusOf(d) && p.currentUser == PileUserOf(d)
  {
    Pile(PileId(i),
         if i % 3 == 0 then "DC-120kW" else "DC-60kW",
         if i % 3 == 0 then 120 else 60,
         PileStatusOf(d),
         PileUserOf(d))
  }

  function GeneratePiles(count: nat, draws: seq<PileDraws>): (ps: seq<Pile>)
    requires count <= |draws|
    requires forall k :: 0 <= k < |draws| ==> ValidPileDraws(draws[k])
    ensures |ps| == count
    ensures forall i :: 0 <= i < count ==> PileShape(ps[i], i)
  {
    seq(count, i requires 0 <= i < count => MakePile(i, draws[i]))
  }

  lemma PileIdsDistinct(count: nat, draws: seq<PileDraws>)
    requires count <= |draws|
    requires forall k :: 0 <= k < |draws| ==> ValidPileDraws(draws[k])
    ensures forall i, j :: 0 <= i < j < count ==>
      GeneratePiles(count, draws)[i].id != GeneratePiles(count, draws)[j].id
  {
    var ps := GeneratePiles(count, draws);
    forall i, j | 0 <= i < j < count ensures ps[i].id != ps[j].id {
      PrefixedNatInjective("P-", 1000 + i, 1000 + j);
    }
  }

  // ------------------------------------------------------------- stations

  /** The random draws used for one station (its position jitter is not modelled). */
  datatype StationDraws = StationDraws(
    location: real,
    type1: real,
    type2: real,
    revenue: real,
    fixedCost: real,
    operationalCost: real,
    groundLock: real,
    coverage: real,
    staff: real,
    salary: real,
    pileCount: real,
    piles: seq<PileDraws>)

  predicate ValidStationDraws(d: StationDraws) {
    && IsDraw(d.location) && IsDraw(d.type1) && IsDraw(d.type2) && IsDraw(d.revenue)
    && IsDraw(d.fixedCost) && IsDraw(d.operationalCost) && IsDraw(d.groundLock)
    && IsDraw(d.coverage) && IsDraw(d.staff) && IsDraw(d.salary) && IsDraw(d.pileCount)
    && |d.piles| >= 29
    && forall k :: 0 <= k < |d.piles| ==> ValidPileDraws(d.piles[k])
  }

  /** Revenue level from a draw r: S above 0.8, A above 0.5, B above 0.2, C otherwise. */
  function RevenueOf(draw: real): (level: Rank)
    ensures level == S <==> draw > 0.8
    ensures level == A <==> 0.5 < draw <= 0.8
    ensures level == B <==> 0.2 < draw <= 0.5
    ensures level == C <==> draw <= 0.2
  {
    if draw > 0.8 then S else if draw > 0.5 then A else if draw > 0.2 then B else C
  }

  /** S > A > B > C as a number, to state that the level grows with the draw. */
  function RankOrder(k: Rank): nat {
    match k
    case S => 3
    case A => 2
    case B => 1
    case C => 0
  }

  lemma RevenueMonotone(r1: real, r2: real)
    requires r1 <= r2
    ensures RankOrder(RevenueOf(r1)) <= RankOrder(RevenueOf(r2))
  {
  }

  /** Dedicated above 0.7 on the first draw; otherwise Public above 0.4 on
      the second; otherwise Private. */
  function StationTypeOf(d1: real, d2: real): (t: StationType)
    ensures t == Dedicated <==> d1 > 0.7
    ensures t == Public <==> d1 <= 0.7 && d2 > 0.4
    ensures t == Private <==> d1 <= 0.7 && d2 <= 0.4
  {
    if d1 > 0.7 then Dedicated else if d2 > 0.4 then Public else Private
  }

  /** 12 + floor(r * 6) stations for an active district. */
  function StationCount(countDraw: real): (n: nat)
    requires IsDraw(countDraw)
    ensures 12 <= n <= 17
  {
    FloorOfDraw(12, countDraw, 6)
  }

  function StationId(districtId: string, i: nat): string {
    districtId + "-s-" + NatToString(i)
  }

  function StationName(districtName: string, i: nat): string {
    districtName + "站 #" + NatToString(i + 1)
  }

  /** The integer field ranges every generated station respects. */
  ghost predicate StationFieldsInRange(s: Station) {
    && s.locationLabel in LocationTags()
    && 100 <= s.fixedCost <= 299
    && 20 <= s.operationalCost <= 49
    && s.parkingFee == 10
    && 40 <= s.groundLockCoverage <= 99
    && 2 <= s.staffCount <= 5
    && 6500 <= s.avgStaffSalary <= 8499
    && 10 <= |s.piles| <= 29
    && forall k :: 0 <= k < |s.piles| ==> PileShape(s.piles[k], k)
  }

  /** Station i of a district, from its draw record. */
  function MakeStation(district: District, i: nat, d: StationDraws): (st: Station)
    requires ValidStationDraws(d)
    ensures st.id == StationId(district.id, i) && st.districtId == district.id
    ensures st.name == StationName(district.name, i)
    ensures st.stationType == StationTypeOf(d.type1, d.type2) && st.revenueLevel == RevenueOf(d.revenue)
    ensures StationFieldsInRange(st)
  {
    var tags := LocationTags();
    assert tags[FloorOfDraw(0, d.location, |tags|)] in tags;
    Station(
      StationId(district.id, i),
      district.id,
      StationName(district.name, i),
      LocationTags()[FloorOfDraw(0, d.location, |LocationTags()|)],
      StationTypeOf(d.type1, d.type2),
      RevenueOf(d.revenue),
      FloorOfDraw(100, d.fixedCost, 200),
      FloorOfDraw(20, d.operationalCost, 30),
      10,
      0.6,
      d.groundLock > 0.3,
      FloorOfDraw(40, d.coverage, 60),
      FloorOfDraw(2, d.staff, 4),
      FloorOfDraw(6500, d.salary, 2000),
      GeneratePiles(FloorOfDraw(10, d.pileCount, 20), d.piles))
  }

  /** The first n stations the generator pushes for a district: station i
      is built from the i-th draw record. */
  function StationsPrefix(district: District, draws: seq<StationDraws>, n: nat): (r: seq<Station>)
    requires n <= |draws|
    requires forall k :: 0 <= k < |draws| ==> ValidStationDraws(draws[k])
    ensures |r| == n
    ensures forall i :: 0 <= i < n ==> r[i] == MakeStation(district, i, draws[i])
  {
    if n == 0 then [] else StationsPrefix(district, draws, n - 1) + [MakeStation(district, n - 1, draws[n - 1])]
  }

  /** One station per index for an active district. */
  function StationsOf(district: District, countDraw: real, draws: seq<StationDraws>): (r: seq<Station>)
    requires IsDraw(countDraw) && |draws| >= StationCount(countDraw)
    requires forall k :: 0 <= k < |draws| ==> ValidStationDraws(draws[k])
    ensures |r| == StationCount(countDraw)
    ensures forall i :: 0 <= i < |r| ==>
      && r[i].id == StationId(district.id, i)
      && r[i].districtId == district.id
      && r[i].name == StationName(district.name, i)
      && r[i].revenueLevel == RevenueOf(draws[i].revenue)
      && StationFieldsInRange(r[i])
  {
    var n := StationCount(countDraw);
    StationsPrefix(district, draws, n)
  }

  /** The stations `generateStations(districtId)` builds for a given set of draws:
      none for an unknown or background district, otherwise 12 to 17 stations
      whose ids, owner, names and fields follow the generator's formats. */
  function Stations(districtId: string, countDraw: real, draws: seq<StationDraws>): (r: seq<Station>)
    requires IsDraw(countDraw) && |draws| >= StationCount(countDraw)
    requires forall k :: 0 <= k < |draws| ==> ValidStationDraws(draws[k])
    ensures !IsActiveDistrict(districtId) ==> r == []
    ensures IsActiveDistrict(districtId) ==> r == StationsOf(FindDistrict(districtId).value, countDraw, draws)
    ensures forall i :: 0 <= i < |r| ==> r[i].districtId == districtId
  {
    match FindDistrict(districtId)
    case None => []
    case Some(district) =>
      if !district.isActive then [] else StationsOf(district, countDraw, draws)
  }

  /** Station ids are unique within one generated list. */
  lemma StationIdsDistinct(districtId: string, countDraw: real, draws: seq<StationDraws>)
    requires IsDraw(countDraw) && |draws| >= StationCount(countDraw)
    requires forall k :: 0 <= k < |draws| ==> ValidStationDraws(draws[k])
    ensures forall i, j :: 0 <= i < j < |Stations(districtId, countDraw, draws)| ==>
      Stations(districtId, countDraw, draws)[i].id != Stations(districtId, countDraw, draws)[j].id
  {
    var r := Stations(districtId, countDraw, draws);
    forall i, j | 0 <= i < j < |r| ensures r[i].id != r[j].id {
      PrefixedNatInjective(districtId + "-s-", i, j);
    }
  }

  /** The push loop of `generateStations`: one station per index, for
      StationCount indices. */
  method PushStations(district: District, countDraw: real, draws: seq<StationDraws>)
    returns (stations: seq<Station>)
    requires IsDraw(countDraw) && |draws| >= StationCount(countDraw)
    requires forall k :: 0 <= k < |draws| ==> ValidStationDraws(draws[k])
    ensures stations == StationsOf(district, countDraw, draws)
  {
    stations := [];
    var count := StationCount(countDraw);
    for i := 0 to count
      invariant stations == StationsPrefix(district, draws, i)
    {
      stations := stations + [MakeStation(district, i, draws[i])];
    }
  }

  /** `generateStations`: finds the district, returns early for an unknown or
      background one, and otherwise pushes one station per index. */
  method GenerateStations(districtId: string, countDraw: real, draws: seq<StationDraws>)
    returns (stations: seq<Station>)
    requires IsDraw(countDraw) && |draws| >= StationCount(countDraw)
    requires forall k :: 0 <= k < |draws| ==> ValidStationDraws(draws[k])
    ensures stations == Stations(districtId, countDraw, draws)
  {
    var found := FindDistrict(districtId);
    if found.None? || !found.value.isActive {
      return [];
    }
    stations := PushStations(found.value, countDraw, draws);
  }
}
