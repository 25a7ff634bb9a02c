# Charging-station dashboard: navigation, catalogue and drawing rules

A Dafny model of the discrete core of a single-page dashboard that monitors
electric-vehicle charging infrastructure in Shenzhen. It covers these parts:

- **Navigation** (`navigation.dfy`, App.tsx). The three view levels are city, district and station. The state also holds the selected district and station, the time mode and the timeline value. The state cells are fields of the class `Navigation.Dashboard`, and the handlers are its methods. The methods are proved against the pure transition functions `DistrictClick`, `StationClick` and `Back`. The invariant `Inv` ties the view level to which selections are set.
- **Region catalogue and generators** (`catalog.dfy`, `series.dfy`, `charts.dfy`, constants.ts). This covers the district table, the pile and station generators, the 24-hour and quarter-hour series, the spot-price bands, the palette and the pie datasets. Every `Math.random()` call is an explicit draw in [0, 1). `generateStations` is a method with a loop, proved equal to the function `Stations`.
- **Map drawing rules** (`mapview.dfy`, components/MapComponent.tsx). The district layer and the station layer are lists of shape descriptors. A descriptor gives the colour, whether the shape is interactive and what a click dispatches.
- **Timeline labels** (`timeline.dfy`, components/Timeline.tsx): `formatTime` and the tick labels.
- **Left panel** (`leftpanel.dfy`, components/LeftPanel.tsx): the dataset selector, the view-level dispatch, the scale factor of 0.2, the region title and the pile-table labels.
- **Shared types and text** (`types.dfy`, `text.dfy`). `types.dfy` holds the enums and records of types.ts. `text.dfy` holds decimal rendering, two-digit padding and upper-casing.

In these places the model follows what the code does:

- `generateStations` never fills a staff roster or feature tags. Pile status is Charging when the first draw is above 0.8, otherwise Fault when a second draw is above 0.9, otherwise Idle. A current user is drawn independently of the status.
- The handlers check nothing. District clicks are only possible at city level, because the map attaches them only there. A station-to-station click is possible at station level.
- Series are labelled by hour only for 24 points. Any other length is labelled by quarter hour.

## Model

| member | source | states |
|---|---|---|
| Catalog.Districts | constants.ts:7-86 | the table holds 14 districts |
| Catalog.DistrictsWellFormed | constants.ts:7-86 | the 14 ids are pairwise distinct; every background district has zero capacity in all three modes and rank C |
| Catalog.FindIn | constants.ts:103 | `find` yields a listed district with the requested id, and yields nothing exactly when no district has that id |
| Catalog.LocationTags | constants.ts:89 | seven pairwise distinct functional-zone tags |
| Catalog.FloorOfDraw | constants.ts:122-130 | `Math.floor(lo + r * span)` for a draw r in [0,1) is one of the `span` integers from `lo` |
| Catalog.PileStatusOf | constants.ts:96 | never Offline; Charging exactly when the first draw is above 0.8; Fault exactly when it is not and the second is above 0.9; Idle otherwise |
| Catalog.PileUserOf | constants.ts:97 | a user exactly when the user draw is above 0.8, and then a `粤B` plate with a number in 10000..99999 |
| Catalog.MakePile | constants.ts:92-98 | pile i has the id, type and power generatePiles promises for index i, and the status and user of its draws |
| Catalog.GeneratePiles | constants.ts:91-99 | exactly `count` piles; pile i has id `P-` + (1000+i) and is DC-120kW/120 iff i % 3 == 0, else DC-60kW/60; it is never Offline; a present user is `粤B` + a number in 10000..99999 |
| Catalog.PileIdsDistinct | constants.ts:93 | the pile ids of one call are pairwise distinct |
| Catalog.RevenueOf | constants.ts:121 | S exactly above 0.8, A exactly in (0.5, 0.8], B exactly in (0.2, 0.5], C exactly at or below 0.2 |
| Catalog.RevenueMonotone | constants.ts:121 | a larger revenue draw never gives a lower level (C < B < A < S) |
| Catalog.StationCount | constants.ts:107 | an active district gets 12 + floor(r*6) stations, between 12 and 17 |
| Catalog.StationTypeOf | constants.ts:120 | Dedicated exactly when the first draw is above 0.7; Public exactly when it is not and the second is above 0.4; Private otherwise |
| Catalog.MakeStation | constants.ts:114-131 | station i has id `<district>-s-<i>`, the district's id and name + `站 #` + (i+1), the type and revenue level of its draws, a location tag from the tag list; fixedCost 100..299, operationalCost 20..49, parkingFee 10, coverage 40..99, staff 2..5, salary 6500..8499, 10..29 piles each shaped as generatePiles promises |
| Catalog.StationsPrefix | constants.ts:109-132 | the first n pushed stations: n entries, entry i built from the i-th draw record |
| Catalog.StationsOf | constants.ts:109-132 | StationCount stations; station i has id `<district>-s-<i>`, the district's id, the name district name + `站 #` + (i+1), the revenue level of its draw and all fields in range |
| Catalog.Stations | constants.ts:101-134 | empty for an unknown or background district, otherwise the stations of the found district; every station names the requested district |
| Catalog.StationIdsDistinct | constants.ts:115 | station ids within one generated list are pairwise distinct |
| Catalog.PushStations | constants.ts:109-132 | the push loop builds exactly `StationsOf` of the district |
| Catalog.GenerateStations | constants.ts:101-134 | the early return and the push loop build exactly `Stations(districtId, …)` |
| Series.Max0 | constants.ts:157-159 | the clamp is non-negative, at least its argument, and equals the argument or 0 |
| Series.SeriesPoint | constants.ts:155-160 | the point's label, and three present values, each never negative and never below its unclamped formula |
| Series.GenerateTimeSeries | constants.ts:137-162 | exactly `points` entries; label i is `HH:00` for 24 points and the quarter-hour label otherwise; value, value2 and value3 are all present and never negative |
| Series.HourLabelRoundTrip | constants.ts:147 | an hour label has 5 characters and its first two digits read back as the hour |
| Series.HourLabelsDistinct | constants.ts:147 | different hours get different labels |
| Series.SpotBase | constants.ts:166-170 | the base price is one of 0.25, 0.7, 1.2, 1.5, and the two peak prices fall only in hours 10-21 |
| Series.SpotBands | constants.ts:165-171 | over a day: 1.2 exactly for hours 10-14, 1.5 exactly for 18-21, 0.25 exactly for 0-6, 0.7 exactly for 7-9, 15-17, 22-23 |
| Series.SpotPriceData | constants.ts:165-176 | 24 points labelled `HH:00` (5 characters), each price within 0.05 of its band, no secondary values |
| Charts.Colors | constants.ts:192 | nine pairwise distinct colours |
| Charts.AllPies | constants.ts:194-251 | eight pie datasets, each with between 1 and 8 slices |
| Text.NatToString | constants.ts:93 | `String(n)` is a non-empty run of digits with no leading zero except for 0, one digit exactly below 10 |
| Text.ParseNatToString | constants.ts:93 | reading the decimal text back gives the number |
| Text.NatToStringInjective | constants.ts:115 | distinct numbers have distinct decimal texts |
| Text.PrefixedNatInjective | constants.ts:115 | `prefix + String(i)` names differ for different i |
| Text.Pad2 | components/Timeline.tsx:14 | `padStart(2, '0')` gives two digits below 100 and at least three from 100 on |
| Text.Pad2RoundTrip | components/Timeline.tsx:14 | padding does not change the value the digits stand for |
| Text.ToUpper | components/LeftPanel.tsx:39 | same length; each lower-case ASCII letter becomes its capital (code point minus 32); everything else is kept |
| Text.ToUpperIdempotent | components/LeftPanel.tsx:39 | upper-casing twice equals upper-casing once |
| Timeline.QuarterMinutes | components/Timeline.tsx:13-14 | quarter q has minutes text `00`, `15`, `30` or `45` |
| Timeline.FormatTime | components/Timeline.tsx:11-15 | a `:` sits before the last two characters, which are `00`, `15`, `30` or `45`; 5 characters for values below 400 |
| Timeline.FormatTimeRoundTrip | components/Timeline.tsx:12-13 | 4·hours + minutes/15 read back from the label equals the value |
| Timeline.FormatTimeInjective | components/Timeline.tsx:11-15 | no two values share a label |
| Timeline.SliderHours | components/Timeline.tsx:57-61 | over the slider range 0..96 the label has 5 characters and hours 0..24; 96 reads `24:00` |
| Timeline.InitialTimeIsNoon | App.tsx:17 | the initial timeline value 48 reads `12:00` |
| Timeline.TickLabels | components/Timeline.tsx:43-47 | the ticks read `00:00`, `06:00`, `12:00`, `18:00`, `24:00` |
| Timeline.TickLabelIsFormatTime | components/Timeline.tsx:43-47 | a tick on a whole hour is labelled as `formatTime` labels it |
| Timeline.SeriesLabelsAgree | constants.ts:150-152 | the quarter-hour labels of the series generator equal `formatTime` |
| MapView.DisplayedCapacity | components/MapComponent.tsx:102-105 | HISTORY shows capacityHistory, PREDICTION capacityPrediction, CURRENT capacityCurrent |
| MapView.FillColor | components/MapComponent.tsx:107-122 | slate exactly in HISTORY; blue exactly outside HISTORY with capacity ≤ 80; red exactly in PREDICTION above 80; cyan exactly in CURRENT above 80 |
| MapView.CityShapesOf | components/MapComponent.tsx:85-157 | an inactive district is one non-interactive background shape; an active one is a label with the mode's capacity, alerting exactly when the region is red, followed by a region with that capacity and its fill colour whose click dispatches its own id |
| MapView.CityShapes | components/MapComponent.tsx:84-158 | every region's click dispatches its own id, and that id is an active district's |
| MapView.CityShapesCover | components/MapComponent.tsx:85-157 | every active district has its region, coloured by the mode's capacity and dispatching its id; every background district has its background shape |
| MapView.DistrictLayer | components/MapComponent.tsx:79-173 | at district or station level nothing is clickable; the layer is exactly the selected district's outline when the id is in the table, and empty otherwise |
| MapView.FindInDistinct | components/MapComponent.tsx:161 | in a table of distinct ids, `find` by a district's id returns that district |
| MapView.RegionsSelectActive | components/MapComponent.tsx:131-134 | every region's click target resolves to an active district |
| MapView.ClicksSelectActiveDistricts | components/MapComponent.tsx:84-134 | at city level every click handler dispatches its own region's id, and that id is an active district |
| MapView.ActiveDistrictsClickable | components/MapComponent.tsx:100-134 | every active district has a clickable region at city level, coloured by the current mode's capacity |
| MapView.FutianLookup | constants.ts:66-67 | sz_futian is listed and active, with a predicted load of 98 |
| MapView.FutianPredictionIsRed | components/MapComponent.tsx:114-117 | sz_futian in PREDICTION is drawn red |
| MapView.MarkerFor | components/MapComponent.tsx:183-215 | a marker carries its station, the colour of its revenue level, and is enlarged (1.5) and raised (1000) exactly when it is the selected station |
| MapView.MarkerColor | components/MapComponent.tsx:185-189 | S rose, A amber, B cyan, C grey, and each colour belongs to one level only |
| MapView.StationLayer | components/MapComponent.tsx:176-219 | no markers at city level, one per station otherwise, coloured by revenue level; a marker is enlarged (1.5) and raised (1000) exactly when its id is the selected one |
| MapView.CurrentStations | components/MapComponent.tsx:42-45 | no stations without a selected district; otherwise exactly the generated `Stations` of that id; every station belongs to the selected district |
| MapView.OneHighlightedMarker | components/MapComponent.tsx:183-215 | among generated stations at most one marker is highlighted, and every marker hands over a station of the selected district |
| Navigation.BackShownExactlyWhenItActs | components/MapComponent.tsx:254-258 | the back control is shown exactly when pressing it would change the state |
| MapView.LegendFor | components/MapComponent.tsx:263-285 | revenue legend exactly below city level; the overload variant exactly at city level in PREDICTION |
| Navigation.Initial | App.tsx:11-17 | the initial state satisfies the invariant, is city level in CURRENT, and its timeline value reads `12:00` |
| Navigation.DistrictClick | App.tsx:20-23 | selects the district at district level and keeps station, mode and timeline; from a consistent state the result is consistent exactly when no station was selected |
| Navigation.StationClick | App.tsx:25-28 | selects the station at station level and keeps the district; from a consistent state the result is consistent exactly when the station belongs to the selected district |
| Navigation.Back | App.tsx:30-38 | station → district level with the station cleared; district → city level with the district cleared; city unchanged; preserves the invariant |
| Navigation.Wired | components/MapComponent.tsx:84-213 | every event the map can produce in a consistent state leaves the state consistent |
| Navigation.WiredRunsKeepInv | App.tsx:20-38 | every sequence of events the interface can produce keeps the invariant |
| Navigation.MapClicksAreWired | components/MapComponent.tsx:181-213 | in a consistent state every clickable region and every marker the map draws, with the selected station highlighted, produces a wired event |
| Navigation.DrillDownAndBackToCity | App.tsx:20-38 | district, station, back, back ends at city level with nothing selected and the time controls unchanged |
| Navigation.Dashboard.constructor | App.tsx:11-17 | the state cells start at the initial state |
| Navigation.Dashboard.HandleDistrictClick | App.tsx:20-23 | the new state is DistrictClick of the old one and stays valid |
| Navigation.Dashboard.HandleStationClick | App.tsx:25-28 | the new state is StationClick of the old one and stays valid |
| Navigation.Dashboard.HandleBack | App.tsx:30-38 | the new state is Back of the old one and stays valid |
| Navigation.Dashboard.SetTimeMode | components/MapComponent.tsx:239-242 | only the time mode changes |
| Navigation.Dashboard.SetTimelineValue | components/Timeline.tsx:57-62 | only the timeline value changes, within 0..96 |
| Navigation.LonghuaIsActive | constants.ts:39-40 | sz_longhua is an active district, so its region is clickable |
| Navigation.LonghuaScenario | App.tsx:20-38 | on the class: into sz_longhua and one of its stations, back twice, ends at city level with both selections empty |
| LeftPanel.ChartKeys | components/LeftPanel.tsx:71-77 | seven distinct selector keys |
| LeftPanel.ChartData | components/LeftPanel.tsx:23-34 | each of the seven keys selects its own dataset (power, function, utilization, cost distribution, L2 grid, service capacity, ops status); any other key gives the power pie; never the station cost pie |
| LeftPanel.InitialChartIsPower | components/LeftPanel.tsx:20 | the initial key is the first menu entry and selects the power pie |
| LeftPanel.ChartDataInjectiveOnKeys | components/LeftPanel.tsx:24-31 | the seven keys select seven different datasets |
| LeftPanel.SliceColors | components/LeftPanel.tsx:90-91 | one palette colour per slice, in range, and pairwise distinct when the pie has at most nine slices |
| LeftPanel.PieColorsDistinct | components/LeftPanel.tsx:104 | every pie the panel draws gets pairwise distinct colours |
| LeftPanel.ScaleFactor | components/LeftPanel.tsx:40 | 0.2 (one fifth) at district level, 1 otherwise |
| LeftPanel.Cards | components/LeftPanel.tsx:51-59 | one card value per city figure |
| LeftPanel.FloorOfFifth | components/LeftPanel.tsx:51 | floor(N·0.2) is N / 5 |
| LeftPanel.DistrictCards | components/LeftPanel.tsx:51-59 | district cards are 90, 2490, 9, 24, 170, 1700, each exactly a fifth of its city figure |
| LeftPanel.CityCards | components/LeftPanel.tsx:51-59 | city cards are the unscaled figures |
| LeftPanel.RegionTitle | components/LeftPanel.tsx:38-39 | `区域: ` + upper-cased id at district level, `深圳市全域` otherwise |
| LeftPanel.PileStatusLabel | components/LeftPanel.tsx:259 | `充电中` exactly for Charging, `故障` exactly for Fault, `空闲` exactly for Idle and Offline |
| LeftPanel.UserLabel | components/LeftPanel.tsx:262 | an absent or empty user shows `-`; any other user is shown as is |
| LeftPanel.PileRows | components/LeftPanel.tsx:249-263 | one row per pile with its id, type, status label and user label |
| LeftPanel.Render | components/LeftPanel.tsx:37-275 | the aggregate view exactly below station level, with that level's cards, title, dataset and colours; at station level nothing exactly when no station is selected, otherwise the station's detail with the pile rows of its piles |

## Left out

- Leaflet is not modelled: map creation, the tile layer, layer groups, the icon patch, hover restyling, `DomEvent` and `flyTo`. The layers are described by the shapes they hold.
- Floating-point values are not modelled: district centres and outlines, station positions and their jitter, fill opacities, slider percentages and `CARBON_FACTOR_DATA`. The series generator takes the sine and cosine terms as parameters in [-1, 1].
- The order in which `Math.random` is consumed is not modelled. Every pile gets four draws and every station one draw per field, even where the code draws lazily (the second status draw, the plate draw). The model gives the possible outcomes, not their probabilities.
- Stations are regenerated, with new draws, whenever the selected district changes. The model represents this only as the draws parameter of `CurrentStations`.
- The region label's text is not modelled; only its capacity and its alert flag are. The same holds for the other JSX markup and Tailwind classes. The constant cards of the left panel (28.4, 0.8, the 45/42/13 status bars) and the header and cost pie of the station detail are not modelled either.
- The header clock, StatCard and RightPanel are presentation and a timer, so they are not part of this model.
- Text.ToUpper: maps only ASCII letters, which is enough for the district ids; JavaScript's `toUpperCase` covers all of Unicode.
- Navigation.Dashboard.HandleDistrictClick: requires the map's wiring (city level, active district). The handler itself checks nothing; `Navigation.DistrictClick` states its effect in every state.
- Navigation.Dashboard.HandleStationClick: requires the map's wiring (a station of the selected district, below city level). `Navigation.StationClick` states its effect in every state.
- The `0.4` start value of the spot price is overwritten on every branch, so no hour uses it.
