# Terralink dashboard: alert engine and farm details page

This project models the core of the Terralink dashboard. It covers two parts.

The first is the alert detection engine. It takes a list of sensor readings,
groups them by farm in first-seen order and sorts each farm's readings by
timestamp. It then runs four rules over each farm's series, in a fixed order:

- drought onset;
- acute water stress;
- flood;
- irrigation failure.

Each trigger appends one alert, so the output lists the farms one after
another and, within a farm, the four rule blocks in rule order.

The second is the logic of the farm details page:

- the farm's latest reading;
- its status (normal, warning, critical) and the status label;
- the irrigation advice for the latest reading;
- the label of an alert's claim status;
- the farm's own alerts, picked out of the engine's output.

## Module layout

- `types.dfy` (`Types`): sensor readings and alerts.
- `ordering.dfy` (`Ordering`): the code-point order on timestamp strings and the stable sort by timestamp.
- `detections.dfy` (`Detections`): the engine. The functions `FarmIds`, `ReadingsOf`, `Fires`, `Emit`, `Scan`, `FarmAlerts` and `Detect` specify it. The methods `GroupByFarm`, `ScanDrought`, `ScanWaterStress`, `ScanFlood`, `ScanIrrigationFailure` and `DetectAlerts` run it with the engine's loops, and each is proved equal to its specification.
- `detection_properties.dfy` (`DetectionProperties`, `TiedTimestamps`): what the engine's output means, and a two-reading example where input order changes the result.
- `farm_details.dfy` (`FarmDetails`): the farm details page.

## Input order under timestamp ties

One might expect the number of alerts not to depend on the order of the
input rows. The code does not guarantee this. The sort is
stable, so two readings of one farm with the same timestamp stay in arrival
order, and the pair rules then see a different predecessor.

- `TiedTimestamps.TiedTimestampsChangeAlerts` exhibits this. The same two readings yield one high water-stress alert in one order and no alert in the other.
- `DetectionProperties.FarmSeriesIgnoresInputOrder` proves that order independence does hold for a farm whose different readings all have different timestamps: its series and its block of alerts are then the same.
- `DetectionProperties.DetectIgnoresInputOrder` lifts this to the whole output. When no farm has two different readings with the same timestamp, any reordering of the rows yields the same alerts, each as often, and so the same number of alerts. The order of the farm blocks can still differ.

The model follows the code.

## Model

| member | source | states |
|---|---|---|
| Detections.DetectAlerts | src/detections.ts:16-108 | The engine's result equals `Detect(rows, t)`: the farm blocks of the farms in first-seen order, each farm's four rule blocks over its sorted series. An empty input gives no alerts. Default thresholds apply when none are given. |
| Detections.GroupByFarm | src/detections.ts:21-26 | The grouping loop yields the farm ids in first-seen order, a key for exactly those farms, and for each farm its readings in input order. |
| Detections.FarmIds | src/detections.ts:21-28 | The farm ids are pairwise distinct, and a farm id is listed iff some row carries it. |
| Detections.ReadingsOf | src/detections.ts:23-26 | A reading is in a farm's list iff it is an input row of that farm. |
| Detections.NoReadingsOfUnseenFarm | src/detections.ts:21-26 | A farm absent from the grouping keys has no readings. |
| Detections.ScanDrought | src/detections.ts:33-52 | The streak loop appends exactly the drought-rule block: at each reading where the streak counter becomes 2, one medium, pending, unresolved drought alert stamped with that reading. |
| Detections.DryRunIsRunLength | src/detections.ts:34-51 | The streak counter after `n` readings is the length of the maximal run of dry readings ending there. |
| Detections.DryRunTwoIsOnset | src/detections.ts:36-38 | The counter equals 2 at reading `i` iff readings `i-1` and `i` are dry and reading `i-2` is not dry (or does not exist). |
| Detections.ScanWaterStress | src/detections.ts:54-72 | The loop from the second reading appends exactly the water-stress block. An alert is raised where moisture fell by at least 2 into a reading at or above the heat threshold with zero rainfall. It is high when the fall is at least 5 and medium otherwise. |
| Detections.ScanFlood | src/detections.ts:74-87 | The loop appends one medium, pending flood alert per reading with rainfall at or above the flood threshold and soil moisture at least 30. |
| Detections.ScanIrrigationFailure | src/detections.ts:89-104 | The loop appends one low alert with claim status none for each reading whose moisture did not rise after a reading with more than 5 mm of rain. |
| Detections.FarmBlockAppended | src/detections.ts:33-104 | Running the four scans one after another appends the farm's whole block, in rule order. |
| Detections.AlertsOverStep | src/detections.ts:28-105 | Handling one more farm appends that farm's block to the alerts so far. |
| Ordering.LexLeqReflexive | src/detections.ts:29-31 | Every timestamp compares no later than itself. |
| Ordering.LexLeqTotal | src/detections.ts:29-31 | Any two timestamps are comparable. |
| Ordering.LexLeqTransitive | src/detections.ts:29-31 | The timestamp order is transitive. |
| Ordering.LexLeqAntisymmetric | src/detections.ts:29-31 | Timestamps that compare both ways are equal. |
| Ordering.Insert | src/detections.ts:29-31 | Insertion adds exactly one reading, and it keeps a sorted series sorted. |
| Ordering.SortByTimestamp | src/detections.ts:29-31 | The sorted series is in ascending timestamp order and is a permutation of the farm's readings. |
| Ordering.SortIsStable | src/detections.ts:29-31 | For every timestamp, the readings with that stamp keep their input order. |
| Ordering.SortedArrangementUnique | src/detections.ts:29-31 | When no two different readings share a timestamp, any two sorted permutations are equal, so the series depends only on the readings. |
| DetectionProperties.ScanMembers | src/detections.ts:33-104 | A rule's block holds exactly the alerts that the rule emits at the positions where it triggers. |
| DetectionProperties.ScanCount | src/detections.ts:74-87 | A rule's block has one alert per triggering position. Nothing is merged or de-duplicated, so consecutive flood readings each raise an alert. |
| DetectionProperties.ScanFields | src/detections.ts:39-47 | Every alert of a rule's block has that rule's type, the farm's id and a timestamp from its series. It is unresolved and carries the status and severity of its type. |
| DetectionProperties.WaterStressSeverity | src/detections.ts:58-61 | A water-stress alert is high iff its drop is at least 5, and medium iff the drop is below 5. |
| DetectionProperties.FarmAlertFields | src/detections.ts:33-104 | Every alert of a farm's block belongs to that farm and carries the fields of its type. |
| DetectionProperties.FarmAlertsOwner | src/detections.ts:33-104 | Every alert of a farm's block names that farm. |
| DetectionProperties.ScanInSeriesOrder | src/detections.ts:33-104 | Over a sorted series, a rule's block is in timestamp order: each alert is stamped no earlier than the one before it. |
| DetectionProperties.FarmBlocksInTimeOrder | src/detections.ts:29-104 | Each of the four blocks the engine reports for a farm is in timestamp order. |
| DetectionProperties.PairRulesNeedTwoReadings | src/detections.ts:55 | A series of at most one reading raises no water-stress and no irrigation-failure alert. |
| DetectionProperties.DroughtOncePerRun | src/detections.ts:33-52 | Within a maximal run of dry readings, drought triggers exactly at the run's second reading. |
| DetectionProperties.DroughtOnsetsSeparated | src/detections.ts:34-51 | Between any two drought alerts of one series lies a reading that is not dry. |
| DetectionProperties.FirstSeen | src/detections.ts:23-24 | The position of a farm's first row, or the row count when the farm has none: no earlier row belongs to the farm. |
| DetectionProperties.FarmIdsInFirstSeenOrder | src/detections.ts:21-28 | Farms are listed in strictly increasing order of their first row. |
| DetectionProperties.AlertsOverMembers | src/detections.ts:28-105 | An alert is in the blocks of a list of farms iff its farm is in the list and the farm's own scans raise it. |
| DetectionProperties.DetectMembers | src/detections.ts:16-108 | An alert is reported iff the scans of its farm's sorted series raise it. |
| DetectionProperties.DetectProvenance | src/detections.ts:39-47 | Every reported alert names a farm of the input and the timestamp of one of that farm's readings. It is unresolved, and its status is pending except for irrigation failure, whose status is none. |
| DetectionProperties.SingleReadingFarm | src/detections.ts:55-90 | A farm with at most one reading gets no water-stress and no irrigation-failure alert. |
| DetectionProperties.ReadingsOfMultiset | src/detections.ts:23-26 | A farm's readings, as a multiset, are the input rows of that farm. |
| DetectionProperties.SameRowsSameReadings | src/detections.ts:23-26 | Reordering the rows leaves each farm's multiset of readings unchanged. |
| DetectionProperties.FarmSeriesIgnoresInputOrder | src/detections.ts:28-31 | Take any reordering of the rows. If a farm's different readings have different timestamps, its sorted series and its block of alerts stay the same. |
| DetectionProperties.AlertsOverCount | src/detections.ts:28-105 | Over a list of distinct farms, an alert occurs as often as in its own farm's block if that farm is listed, and never otherwise. |
| DetectionProperties.DetectIgnoresInputOrder | src/detections.ts:16-108 | Take any reordering of the rows. If no farm has two different readings with the same timestamp, the output holds the same alerts with the same multiplicities, and so has the same length. |
| TiedTimestamps.SeriesKeepsArrivalOrder | src/detections.ts:29-31 | Two readings of one farm with equal timestamps stay in arrival order after sorting. |
| TiedTimestamps.TiedTimestampsChangeAlerts | src/detections.ts:29-72 | Take one farm's two readings at one instant: moisture 20 then 10, 33 °C, no rain. Given in one order they raise exactly one high water-stress alert; in the other order they raise none. |
| FarmDetails.LatestOf | src/pages/FarmDetails.tsx:19-41 | There is no latest reading iff the farm has no rows. Otherwise the latest is one of the farm's rows, and no row of the farm has a later timestamp. Among the farm's rows with that timestamp, it is the one that arrived last. |
| FarmDetails.EmptySeriesNoRows | src/pages/FarmDetails.tsx:19-41 | When a farm's sorted series is empty, no input row belongs to that farm. |
| FarmDetails.SeriesLastIsRow | src/pages/FarmDetails.tsx:19-41 | The last reading of a farm's non-empty series is an input row of that farm. |
| FarmDetails.SeriesLastIsLatest | src/pages/FarmDetails.tsx:19-41 | No row of the farm has a later timestamp than the last reading of its series. |
| FarmDetails.SeriesLastIsLastStamped | src/pages/FarmDetails.tsx:19-41 | The last reading of a farm's series is the last to arrive among the farm's rows with its timestamp. |
| FarmDetails.SortedLastIsLastStamped | src/pages/FarmDetails.tsx:19-21 | After the stable sort, the sorted list's last reading is the last in input order among the readings sharing its timestamp. |
| FarmDetails.LastOfStamped | src/pages/FarmDetails.tsx:41 | The last reading of a sequence is the last of its readings with that reading's timestamp. |
| FarmDetails.SeriesMembers | src/pages/FarmDetails.tsx:19-21 | A reading is in a farm's sorted series iff it is an input row of that farm. |
| FarmDetails.LastIsLatest | src/pages/FarmDetails.tsx:41 | The last reading of a sorted series has a timestamp no earlier than any reading in it. |
| FarmDetails.GetStatus | src/pages/FarmDetails.tsx:191-211 | The status is critical iff moisture is below 12 and temperature is above 32. It is warning iff moisture is below 16 and the reading is not critical. It is normal iff moisture is at least 16. The label is the status's label, as the program's file spells it: each emoji appears as the characters its UTF-8 bytes make when read as Mac Roman (for example U+201A U+00FA U+00D6 before "Normal"). |
| FarmDetails.StatusTextOneToOne | src/pages/FarmDetails.tsx:203-208 | Different statuses have different labels. |
| FarmDetails.GetIrrigationAdvice | src/pages/FarmDetails.tsx:213-257 | Critical advice iff the status is critical, low-moisture advice iff it is warning. Well-supplied advice iff the status is normal with moisture above 30 and rain above 5; stable advice for every other normal reading. The extra list is never empty. |
| FarmDetails.FormatStatus | src/pages/FarmDetails.tsx:259-270 | Each of "pending", "approved" and "rejected" maps to its own label, and only those inputs do. Every other string reads "Not triggered". |
| FarmDetails.FormatAlertStatus | src/pages/FarmDetails.tsx:259-270 | On the four claim statuses an alert can carry, the label is one-to-one, and only status none reads "Not triggered". |
| FarmDetails.AlertsForFarm | src/pages/FarmDetails.tsx:42-44 | An alert is kept iff it is in the input and belongs to the farm. The result is no longer than the input. |
| FarmDetails.AlertsForFarmAppend | src/pages/FarmDetails.tsx:42-44 | The filter keeps order: filtering a concatenation concatenates the filtered parts. |
| FarmDetails.AlertsForFarmOneOwner | src/pages/FarmDetails.tsx:42-44 | Filtering alerts that all belong to one farm keeps all of them or none. |
| FarmDetails.AlertsForFarmBlock | src/pages/FarmDetails.tsx:42-44 | Appending a block that belongs to one farm adds the whole block to the filtered alerts of that farm, and nothing to those of any other farm. |
| FarmDetails.AlertsOverForFarm | src/pages/FarmDetails.tsx:42-44 | Filtering the blocks of a list of distinct farms down to one farm gives that farm's block if it is listed, and nothing otherwise. |
| FarmDetails.FarmViewIsFarmBlock | src/pages/FarmDetails.tsx:42-44 | The page's alert list for a farm is exactly that farm's block of the engine's output with default thresholds, complete and in engine order. |

## Left out

- Alert identifiers: the engine gives each alert a random UUID. That randomness is not modelled, and alerts are compared on their other fields.
- Timestamp comparison: `localeCompare` is modelled as code-point lexicographic order. Locale collation can differ from it, but it agrees on the ISO-8601 timestamps the dashboard uses.
- Farm order: object key order is taken to be insertion order. The engine's farm ids are non-numeric strings, so JavaScript keeps that order. Integer-like keys, which JavaScript lists first, are not modelled.
- Prototype-named farm ids: the grouping (src/detections.ts:21-25) uses a plain object. A farm id that names an inherited object member, such as "constructor", "toString", "valueOf", "hasOwnProperty" or "__proto__", finds a value already there, so the `[]` initialisation is skipped and `push` throws a TypeError. The engine then fails, and so do the pages that call it. The model groups such rows like any other farm and does not capture this failure.
- The sort algorithm: `Array.prototype.sort` is modelled by its stable, ascending result (an insertion sort given as a function), not by the engine's in-place mutation of the grouped arrays.
- Numbers: readings are exact reals. Floating-point rounding and NaN are not modelled.
- Data loading: loading the readings from the bundled JSON is not modelled. The readings are a parameter.
- Rendering: JSX rendering, routing, charts, the map and the overview and analytics pages are not part of this model.
- The missing-farm-id guard: the farm page's check that a farm id is present in the route (src/pages/FarmDetails.tsx:23-25) is not modelled, because the route parameter is a parameter here.
- GetIrrigationAdvice: `extra` is optional in the program's advice type. The model always has a list, and every branch of the program supplies one.
- FormatStatus: src/pages/Alerts.tsx:79-90 holds an identical copy. It is covered by the same function and has no row of its own.
- Claim workflow: no code in the program changes an alert after detection. The approved and rejected statuses and the resolved flag are only ever displayed (by `formatStatus` and the alerts table), never produced, so the model has no operation for them.
