/** The dashboard's enumerations and records, as declared in types.ts.
    Floating-point geometry (district centres and outlines, station positions)
    is not part of this model. */
module Types {

  datatype Option<+T> = None | Some(value: T)

  /** The three drill-down levels of the map. */
  datatype ViewState = CityView | DistrictView | StationView

  /** Which capacity figure and which colour rule the map uses. */
  datatype TimeMode = History | Current | Prediction

  /** Revenue rank of a district, revenue level of a station. */
  datatype Rank = S | A | B | C

  /** A region of the map. Background regions (isActive == false) are decoration only. */
  datatype District = District(
    id: string,
    name: string,
    capacityHistory: int,
    capacityCurrent: int,
    capacityPrediction: int,
    revenueRank: Rank,
    isActive: bool)

  datatype PileStatus = Idle | Charging | Offline | Fault

  /** One charging terminal of a station. */
  datatype Pile = Pile(
    id: string,
    pileType: string,
    power: int,
    status: PileStatus,
    currentUser: Option<string>)

  datatype StationType = Public | Private | Dedicated

  /** A charging site, with the fields the station generator actually fills in
      (it never sets the staff roster or the feature tags). */
  datatype Station = Station(
    id: string,
    districtId: string,
    name: string,
    locationLabel: string,
    stationType: StationType,
    revenueLevel: Rank,
    fixedCost: int,
    operationalCost: int,
    parkingFee: int,
    serviceFee: real,
    hasGroundLock: bool,
    groundLockCoverage: int,
    staffCount: int,
    avgStaffSalary: int,
    piles: seq<Pile>)

  /** One point of a chart series; the secondary and tertiary values are optional. */
  datatype ChartDataPoint = ChartDataPoint(
    time: string,
    value: real,
    value2: Option<real>,
    value3: Option<real>)

  /** One slice of a pie chart. */
  datatype PieSlice = PieSlice(name: string, value: int)
}
