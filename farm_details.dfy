/**
 * The farm details page: the farm's latest reading, its status and status
 * label, the irrigation advice for that reading, the label of an alert's
 * claim status, and the farm's own alerts picked out of the engine's output.
 */
module FarmDetails {
  import opened Types
  import opened Ordering
  import opened Detections
  import opened DetectionProperties

  // ---------------------------------------------------------------------
  // The latest reading

  datatype LatestReading = NoSensorData | Latest(reading: SensorData)

  /** The last reading of the farm's series, when the farm has any: a
      reading with the latest timestamp and, among the farm's readings that
      share that timestamp, the one that arrived last. */
  function LatestOf(allData: seq<SensorData>, farmId: string): (r: LatestReading)
    ensures r == NoSensorData <==> forall x :: x in allData ==> x.farmId != farmId
    ensures r.Latest? ==> r.reading in allData && r.reading.farmId == farmId
    ensures r.Latest? ==> forall x :: x in allData && x.farmId == farmId ==> LexLeq(x.timestamp, r.reading.timestamp)
    ensures r.Latest? ==> LastOfTied(ReadingsOf(allData, farmId), r.reading)
  {
    if Series(allData, farmId) == [] then
      EmptySeriesNoRows(allData, farmId);
      NoSensorData
    else
      SeriesLastIsRow(allData, farmId);
      SeriesLastIsLatest(allData, farmId);
      SeriesLastIsLastStamped(allData, farmId);
      Latest(SeriesLast(allData, farmId))
  }

  /** The last reading of a farm's non-empty series. */
  function SeriesLast(allData: seq<SensorData>, farmId: string): SensorData
    requires Series(allData, farmId) != []
  {
    var s := Series(allData, farmId);
    s[|s| - 1]
  }

  lemma EmptySeriesNoRows(allData: seq<SensorData>, farmId: string)
    requires Series(allData, farmId) == []
    ensures forall x :: x in allData ==> x.farmId != farmId
  {
    SeriesMembers(allData, farmId);
  }

  lemma SeriesLastIsRow(allData: seq<SensorData>, farmId: string)
    requires Series(allData, farmId) != []
    ensures SeriesLast(allData, farmId) in allData && SeriesLast(allData, farmId).farmId == farmId
  {
    SeriesMembers(allData, farmId);
    var s := Series(allData, farmId);
    assert s[|s| - 1] in s;
  }

  lemma SeriesLastIsLatest(allData: seq<SensorData>, farmId: string)
    requires Series(allData, farmId) != []
    ensures forall x :: x in allData && x.farmId == farmId ==> LexLeq(x.timestamp, SeriesLast(allData, farmId).timestamp)
  {
    SeriesMembers(allData, farmId);
    LastIsLatest(Series(allData, farmId));
  }

  lemma SeriesLastIsLastStamped(allData: seq<SensorData>, farmId: string)
    requires Series(allData, farmId) != []
    ensures LastOfTied(ReadingsOf(allData, farmId), SeriesLast(allData, farmId))
  {
    var s := Series(allData, farmId);
    SortedLastIsLastStamped(ReadingsOf(allData, farmId), s, s[|s| - 1]);
  }

  /** `x` is the last of the readings of `rs` stamped like it. */
  predicate LastOfTied(rs: seq<SensorData>, x: SensorData)
  {
    var tied := StampedAt(rs, x.timestamp);
    |tied| > 0 && tied[|tied| - 1] == x
  }

  /** After a stable sort, the last reading is the last to arrive among
      those sharing its timestamp. */
  lemma SortedLastIsLastStamped(rs: seq<SensorData>, s: seq<SensorData>, last: SensorData)
    requires s == SortByTimestamp(rs) && s != [] && last == s[|s| - 1]
    ensures LastOfTied(rs, last)
  {
    SortIsStable(rs, last.timestamp);
    LastOfStamped(s, last.timestamp);
  }

  /** The last reading of `s` is the last of the readings stamped like it. */
  lemma {:induction false} LastOfStamped(s: seq<SensorData>, stamp: string)
    requires s != [] && s[|s| - 1].timestamp == stamp
    ensures |StampedAt(s, stamp)| > 0 && StampedAt(s, stamp)[|StampedAt(s, stamp)| - 1] == s[|s| - 1]
  {
    if |s| > 1 {
      LastOfStamped(s[1..], stamp);
    }
  }

  /** A farm's series holds exactly the farm's rows. */
  lemma SeriesMembers(allData: seq<SensorData>, farmId: string)
    ensures forall x :: x in Series(allData, farmId) <==> x in allData && x.farmId == farmId
  {
    forall x
      ensures x in Series(allData, farmId) <==> x in allData && x.farmId == farmId
    {
      assert x in Series(allData, farmId) <==> x in multiset(Series(allData, farmId));
      assert x in ReadingsOf(allData, farmId) <==> x in multiset(ReadingsOf(allData, farmId));
    }
  }

  /** The last reading of a sorted series is stamped no earlier than any. */
  lemma LastIsLatest(s: seq<SensorData>)
    requires s != [] && SortedByTimestamp(s)
    ensures forall x :: x in s ==> LexLeq(x.timestamp, s[|s| - 1].timestamp)
  {
    forall x | x in s
      ensures LexLeq(x.timestamp, s[|s| - 1].timestamp)
    {
      var k :| 0 <= k < |s| && s[k] == x;
      if k == |s| - 1 {
        LexLeqReflexive(x.timestamp);
      }
    }
  }

  // ---------------------------------------------------------------------
  // Status of the latest reading

  datatype FarmStatus = Normal | Warning | Critical

  datatype StatusView = StatusView(status: FarmStatus, statusText: string)

  /** The label shown for a status. The program's labels open with an
      emoji whose UTF-8 bytes were saved decoded as Mac Roman, so the page
      shows these characters, not the emoji themselves. */
  function StatusText(status: FarmStatus): string
  {
    match status
    case Normal => "\U{201A}\U{00FA}\U{00D6} Normal"
    case Warning => "\U{F8FF}\U{00FC}\U{00FC}\U{00B0} Water stress"
    case Critical => "\U{F8FF}\U{00FC}\U{00EE}\U{00A5} Drought risk"
  }

  /** The three statuses have three different labels. */
  lemma StatusTextOneToOne(a: FarmStatus, b: FarmStatus)
    ensures StatusText(a) == StatusText(b) ==> a == b
  {
  }

  /** Critical when the soil is very dry and it is hot, warning when the
      soil is merely dry, normal otherwise. */
  function GetStatus(latest: SensorData): (v: StatusView)
    ensures v.status == Critical <==> latest.soilMoisture < 12.0 && latest.temperature > 32.0
    ensures v.status == Warning <==> latest.soilMoisture < 16.0 && !(latest.soilMoisture < 12.0 && latest.temperature > 32.0)
    ensures v.status == Normal <==> latest.soilMoisture >= 16.0
    ensures v.statusText == StatusText(v.status)
  {
    var status :=
      if latest.soilMoisture < 12.0 && latest.temperature > 32.0 then Critical
      else if latest.soilMoisture < 16.0 then Warning
      else Normal;
    StatusView(status, StatusText(status))
  }

  // ---------------------------------------------------------------------
  // Irrigation advice

  datatype Advice = Advice(main: string, extra: seq<string>)

  const CriticalDroughtAdvice: Advice := Advice(
    "Critical drought risk detected. Irrigation is strongly recommended as soon as possible, if water is available.",
    ["Prioritize this plot in your irrigation schedule.",
     "If you are covered, microinsurance partners are notified to support potential yield loss."])

  const LowMoistureAdvice: Advice := Advice(
    "Soil moisture is low. Plan irrigation within the next 24 hours, especially during cooler morning or evening hours.",
    ["Avoid mid-day irrigation to reduce evaporation.",
     "Monitor the dashboard to see if moisture continues to fall."])

  const WellSuppliedAdvice: Advice := Advice(
    "Soil is currently well supplied with water. Irrigation is not needed now and over-irrigation could damage roots.",
    ["Wait and re-check soil moisture before scheduling new irrigation cycles."])

  const StableAdvice: Advice := Advice(
    "Conditions are stable. No immediate irrigation is required, but keep monitoring forecasts and soil moisture trends.",
    ["Irrigate only if several days of high temperature and no rainfall are expected."])

  /** Advice for the latest reading. Its first two cases are the critical
      and warning statuses; a normal reading is either well supplied (wet
      soil after rain) or stable. */
  function GetIrrigationAdvice(latest: SensorData): (a: Advice)
    ensures |a.extra| > 0
    ensures a == CriticalDroughtAdvice <==> GetStatus(latest).status == Critical
    ensures a == LowMoistureAdvice <==> GetStatus(latest).status == Warning
    ensures a == WellSuppliedAdvice <==>
              GetStatus(latest).status == Normal && latest.soilMoisture > 30.0 && latest.rainfall > 5.0
    ensures a == StableAdvice <==>
              GetStatus(latest).status == Normal && !(latest.soilMoisture > 30.0 && latest.rainfall > 5.0)
  {
    if latest.soilMoisture < 12.0 && latest.temperature > 32.0 then CriticalDroughtAdvice
    else if latest.soilMoisture < 16.0 then LowMoistureAdvice
    else if latest.soilMoisture > 30.0 && latest.rainfall > 5.0 then WellSuppliedAdvice
    else StableAdvice
  }

  // ---------------------------------------------------------------------
  // Claim status labels

  /** The text form of a claim status, as it is stored on an alert. */
  function StatusName(m: MicroinsuranceStatus): string
  {
    match m
    case None => "none"
    case Pending => "pending"
    case Approved => "approved"
    case Rejected => "rejected"
  }

  /** The label of a claim status; anything but the three active statuses
      reads as not triggered. */
  function FormatStatus(status: string): (shown: string)
    ensures shown == "Pending partner response" <==> status == "pending"
    ensures shown == "Compensation approved" <==> status == "approved"
    ensures shown == "Claim rejected" <==> status == "rejected"
    ensures shown == "Not triggered" <==> status != "pending" && status != "approved" && status != "rejected"
  {
    if status == "pending" then "Pending partner response"
    else if status == "approved" then "Compensation approved"
    else if status == "rejected" then "Claim rejected"
    else "Not triggered"
  }

  /** On the statuses an alert can carry, the label tells the status apart,
      and only the status none reads as not triggered. */
  lemma FormatAlertStatus(m1: MicroinsuranceStatus, m2: MicroinsuranceStatus)
    ensures FormatStatus(StatusName(m1)) == "Not triggered" <==> m1 == None
    ensures FormatStatus(StatusName(m1)) == FormatStatus(StatusName(m2)) ==> m1 == m2
  {
  }

  // ---------------------------------------------------------------------
  // The farm's alerts

  /** The alerts of farm `farmId`, in their order in `alerts`. */
  function AlertsForFarm(alerts: seq<Alert>, farmId: string): (r: seq<Alert>)
    ensures |r| <= |alerts|
    ensures forall a :: a in r <==> a in alerts && a.farmId == farmId
  {
    if alerts == [] then []
    else
      var front, last := alerts[..|alerts| - 1], alerts[|alerts| - 1];
      assert alerts == front + [last];
      AlertsForFarm(front, farmId) + (if last.farmId == farmId then [last] else [])
  }

  /** Picking a farm's alerts keeps their order: it commutes with
      concatenation. */
  lemma {:induction false} AlertsForFarmAppend(x: seq<Alert>, y: seq<Alert>, farmId: string)
    ensures AlertsForFarm(x + y, farmId) == AlertsForFarm(x, farmId) + AlertsForFarm(y, farmId)
  {
    if y == [] {
      assert x + y == x;
    } else {
      var front, last := y[..|y| - 1], y[|y| - 1];
      assert x + y == (x + front) + [last];
      assert (x + y)[..|x + y| - 1] == x + front;
      assert (x + y)[|x + y| - 1] == last;
      AlertsForFarmAppend(x, front, farmId);
    }
  }

  /** Picking farm `farmId` out of alerts that all belong to farm `owner`
      keeps all of them or none. */
  lemma {:induction false} AlertsForFarmOneOwner(alerts: seq<Alert>, owner: string, farmId: string)
    requires forall a :: a in alerts ==> a.farmId == owner
    ensures AlertsForFarm(alerts, farmId) == if owner == farmId then alerts else []
  {
    if alerts != [] {
      var front, last := alerts[..|alerts| - 1], alerts[|alerts| - 1];
      assert alerts == front + [last];
      AlertsForFarmOneOwner(front, owner, farmId);
    }
  }

  /** Appending a block owned by farm `owner` adds all of it to the
      alerts of farm `farmId` when the two are the same farm, and nothing
      otherwise. */
  lemma AlertsForFarmBlock(before: seq<Alert>, block: seq<Alert>, owner: string, farmId: string)
    requires forall a :: a in block ==> a.farmId == owner
    ensures AlertsForFarm(before + block, farmId)
         == AlertsForFarm(before, farmId) + (if owner == farmId then block else [])
  {
    AlertsForFarmAppend(before, block, farmId);
    AlertsForFarmOneOwner(block, owner, farmId);
  }

  lemma {:induction false} AlertsOverForFarm(rows: seq<SensorData>, farms: seq<string>, t: Thresholds, farmId: string)
    requires forall i, j :: 0 <= i < j < |farms| ==> farms[i] != farms[j]
    ensures AlertsForFarm(AlertsOver(rows, farms, t), farmId)
         == if farmId in farms then FarmAlerts(farmId, Series(rows, farmId), t) else []
  {
    if farms != [] {
      var front, last := farms[..|farms| - 1], farms[|farms| - 1];
      assert farms == front + [last];
      AlertsOverForFarm(rows, front, t, farmId);
      FarmAlertsOwner(last, Series(rows, last), t);
      AlertsForFarmBlock(AlertsOver(rows, front, t), FarmAlerts(last, Series(rows, last), t), last, farmId);
      if farmId == last {
        assert farmId !in front;
      }
    }
  }

  /** The alerts the farm page lists: the engine's output with default
      thresholds, restricted to the farm. */
  function FarmAlertView(allData: seq<SensorData>, farmId: string): seq<Alert>
  {
    AlertsForFarm(Detect(allData, DefaultThresholds), farmId)
  }

  /** The farm page lists exactly the farm's own block of the engine's
      output, all of it and in the same order. */
  lemma FarmViewIsFarmBlock(allData: seq<SensorData>, farmId: string)
    ensures FarmAlertView(allData, farmId)
         == FarmAlerts(farmId, Series(allData, farmId), DefaultThresholds)
  {
    AlertsOverForFarm(allData, FarmIds(allData), DefaultThresholds, farmId);
    if farmId !in FarmIds(allData) {
      NoReadingsOfUnseenFarm(allData, farmId);
    }
  }
}
