/**
 * The alert detection engine. Readings are grouped by farm in first-seen
 * order, each farm's readings are sorted by timestamp, and four rules scan
 * the sorted series in a fixed order (drought onset, acute water stress,
 * flood, irrigation failure), appending one alert per trigger.
 *
 * The pure functions below (FarmIds, ReadingsOf, Fires, Emit, Scan,
 * FarmAlerts, Detect) say what the engine computes; the methods
 * (GroupByFarm, ScanDrought, ScanWaterStress, ScanFlood,
 * ScanIrrigationFailure, DetectAlerts) do it step by step, the way the
 * engine does, and are proved to agree with them.
 */
module Detections {
  import opened Types
  import opened Ordering

  datatype Thresholds = Thresholds(droughtSoilPct: real, highTempC: real, floodRainMmDay: real)

  const DefaultThresholds: Thresholds := Thresholds(12.0, 32.0, 40.0)

  // ---------------------------------------------------------------------
  // Grouping by farm

  /** The distinct farm ids of `rows`, each listed when first seen. */
  function FarmIds(rows: seq<SensorData>): (ids: seq<string>)
    ensures forall i, j :: 0 <= i < j < |ids| ==> ids[i] != ids[j]
    ensures forall f :: f in ids <==> exists r :: r in rows && r.farmId == f
  {
    if rows == [] then []
    else
      var front := rows[..|rows| - 1];
      var last := rows[|rows| - 1];
      assert rows == front + [last];
      var ids := FarmIds(front);
      if last.farmId in ids then ids else ids + [last.farmId]
  }

  /** The readings of farm `farmId`, in input order. */
  function ReadingsOf(rows: seq<SensorData>, farmId: string): (rs: seq<SensorData>)
    ensures forall r :: r in rs <==> r in rows && r.farmId == farmId
  {
    if rows == [] then []
    else
      var front := rows[..|rows| - 1];
      var last := rows[|rows| - 1];
      assert rows == front + [last];
      ReadingsOf(front, farmId) + (if last.farmId == farmId then [last] else [])
  }

  /** The readings of farm `farmId` in the order the rules scan them. */
  function Series(rows: seq<SensorData>, farmId: string): seq<SensorData>
  {
    SortByTimestamp(ReadingsOf(rows, farmId))
  }

  /** Groups `rows` by farm: the farm ids in first-seen order, and for each
      farm the list of its readings in input order. */
  method GroupByFarm(rows: seq<SensorData>) returns (farmIds: seq<string>, byFarm: map<string, seq<SensorData>>)
    ensures farmIds == FarmIds(rows)
    ensures forall f :: f in byFarm <==> f in farmIds
    ensures forall f :: f in byFarm ==> byFarm[f] == ReadingsOf(rows, f)
  {
    farmIds, byFarm := [], map[];
    for i := 0 to |rows|
      invariant farmIds == FarmIds(rows[..i])
      invariant forall f :: f in byFarm <==> f in farmIds
      invariant forall f :: f in byFarm ==> byFarm[f] == ReadingsOf(rows[..i], f)
    {
      var r := rows[i];
      GroupStep(rows, i);
      ghost var before := byFarm;
      if r.farmId !in byFarm {
        byFarm := byFarm[r.farmId := []];
        farmIds := farmIds + [r.farmId];
      }
      byFarm := byFarm[r.farmId := byFarm[r.farmId] + [r]];
      forall f | f in byFarm
        ensures byFarm[f] == ReadingsOf(rows[..i + 1], f)
      {
        if f != r.farmId {
          assert byFarm[f] == before[f];
        } else if f !in before {
          NoReadingsOfUnseenFarm(rows[..i], f);
        }
      }
    }
    assert rows[..|rows|] == rows;
  }

  /** How the grouping of the first `i + 1` rows extends that of the first `i`. */
  lemma GroupStep(rows: seq<SensorData>, i: nat)
    requires i < |rows|
    ensures FarmIds(rows[..i + 1])
         == if rows[i].farmId in FarmIds(rows[..i]) then FarmIds(rows[..i]) else FarmIds(rows[..i]) + [rows[i].farmId]
    ensures forall f :: (ReadingsOf(rows[..i + 1], f)
         == ReadingsOf(rows[..i], f) + (if rows[i].farmId == f then [rows[i]] else []))
  {
    assert rows[..i + 1][..i] == rows[..i];
  }

  /** A farm that is not among the farm ids has no readings. */
  lemma NoReadingsOfUnseenFarm(rows: seq<SensorData>, farmId: string)
    requires farmId !in FarmIds(rows)
    ensures ReadingsOf(rows, farmId) == []
  {
  }

  // ---------------------------------------------------------------------
  // The four rules, reading by reading

  /** The reading's soil is below the drought threshold. */
  predicate IsDry(r: SensorData, t: Thresholds)
  {
    r.soilMoisture < t.droughtSoilPct
  }

  /** How far soil moisture fell from reading `i - 1` to reading `i`. */
  function Drop(s: seq<SensorData>, i: nat): real
    requires 1 <= i < |s|
  {
    s[i - 1].soilMoisture - s[i].soilMoisture
  }

  /** Rule `kind` triggers at position `i` of the sorted series `s`:
      drought at the second reading of a run of dry readings; water stress
      and irrigation failure on the pair ending at `i`; flood on reading `i`. */
  predicate Fires(kind: AlertType, s: seq<SensorData>, t: Thresholds, i: nat)
    requires i < |s|
  {
    match kind
    case Drought =>
      1 <= i && IsDry(s[i], t) && IsDry(s[i - 1], t) && (i == 1 || !IsDry(s[i - 2], t))
    case WaterStress =>
      1 <= i && Drop(s, i) >= 2.0 && s[i].temperature >= t.highTempC && s[i].rainfall == 0.0
    case Flood =>
      s[i].rainfall >= t.floodRainMmDay && s[i].soilMoisture >= 30.0
    case IrrigationFailure =>
      1 <= i && s[i - 1].rainfall > 5.0 && s[i].soilMoisture <= s[i - 1].soilMoisture
  }

  /** The alert rule `kind` raises at position `i` of farm `farmId`'s series. */
  function Emit(kind: AlertType, farmId: string, s: seq<SensorData>, i: nat): Alert
    requires i < |s|
  {
    var severity :=
      match kind
      case Drought => Medium
      case WaterStress => if 1 <= i && Drop(s, i) >= 5.0 then High else Medium
      case Flood => Medium
      case IrrigationFailure => Low;
    var status := if kind == IrrigationFailure then None else Pending;
    Alert(farmId, kind, severity, s[i].timestamp, false, status)
  }

  /** The alerts rule `kind` raises over the first `n` readings of `s`,
      in series order. */
  function Scan(kind: AlertType, farmId: string, s: seq<SensorData>, t: Thresholds, n: nat): seq<Alert>
    requires n <= |s|
  {
    if n == 0 then []
    else Scan(kind, farmId, s, t, n - 1) + (if Fires(kind, s, t, n - 1) then [Emit(kind, farmId, s, n - 1)] else [])
  }

  /** All alerts of one farm: the whole block of each rule, in rule order. */
  function FarmAlerts(farmId: string, s: seq<SensorData>, t: Thresholds): seq<Alert>
  {
    Scan(Drought, farmId, s, t, |s|) + Scan(WaterStress, farmId, s, t, |s|)
    + Scan(Flood, farmId, s, t, |s|) + Scan(IrrigationFailure, farmId, s, t, |s|)
  }

  /** The alerts of the farms `farms`, one farm's block after another. */
  function AlertsOver(rows: seq<SensorData>, farms: seq<string>, t: Thresholds): seq<Alert>
  {
    if farms == [] then []
    else
      var last := farms[|farms| - 1];
      AlertsOver(rows, farms[..|farms| - 1], t) + FarmAlerts(last, Series(rows, last), t)
  }

  /** Appending the four rule blocks one after another appends the farm's block. */
  lemma FarmBlockAppended(before: seq<Alert>, after: seq<Alert>, farmId: string, s: seq<SensorData>, t: Thresholds)
    requires after == before + Scan(Drought, farmId, s, t, |s|) + Scan(WaterStress, farmId, s, t, |s|)
                     + Scan(Flood, farmId, s, t, |s|) + Scan(IrrigationFailure, farmId, s, t, |s|)
    ensures after == before + FarmAlerts(farmId, s, t)
  {
    var d, w, f, i := Scan(Drought, farmId, s, t, |s|), Scan(WaterStress, farmId, s, t, |s|),
                      Scan(Flood, farmId, s, t, |s|), Scan(IrrigationFailure, farmId, s, t, |s|);
    assert FarmAlerts(farmId, s, t) == d + w + f + i;
    assert before + d + w + f + i == before + (d + w + f + i);
  }

  lemma AlertsOverStep(rows: seq<SensorData>, farms: seq<string>, k: nat, t: Thresholds)
    requires k < |farms|
    ensures AlertsOver(rows, farms[..k + 1], t)
         == AlertsOver(rows, farms[..k], t) + FarmAlerts(farms[k], Series(rows, farms[k]), t)
  {
    assert farms[..k + 1][..k] == farms[..k];
  }

  /** Everything the engine reports for `rows`. */
  function Detect(rows: seq<SensorData>, t: Thresholds): seq<Alert>
  {
    AlertsOver(rows, FarmIds(rows), t)
  }

  // ---------------------------------------------------------------------
  // The streak counter of the drought scan

  /** The number of dry readings in a row that end the first `n` readings. */
  function DryRun(s: seq<SensorData>, t: Thresholds, n: nat): nat
    requires n <= |s|
  {
    if n == 0 then 0
    else if IsDry(s[n - 1], t) then DryRun(s, t, n - 1) + 1
    else 0
  }

  /** The counter is the length of the maximal run of dry readings ending
      just before `n`. */
  lemma {:induction false} DryRunIsRunLength(s: seq<SensorData>, t: Thresholds, n: nat)
    requires n <= |s|
    ensures DryRun(s, t, n) <= n
    ensures forall j :: n - DryRun(s, t, n) <= j < n ==> IsDry(s[j], t)
    ensures DryRun(s, t, n) < n ==> !IsDry(s[n - 1 - DryRun(s, t, n)], t)
  {
    if n > 0 && IsDry(s[n - 1], t) {
      DryRunIsRunLength(s, t, n - 1);
    }
  }

  /** The counter reaches exactly two at reading `i` exactly when the drought
      rule triggers there. */
  lemma {:induction false} DryRunTwoIsOnset(s: seq<SensorData>, t: Thresholds, i: nat)
    requires i < |s|
    ensures DryRun(s, t, i + 1) == 2 <==> Fires(Drought, s, t, i)
  {
    if i >= 1 && IsDry(s[i], t) && IsDry(s[i - 1], t) {
      assert DryRun(s, t, i + 1) == DryRun(s, t, i - 1) + 2;
      if i >= 2 {
        assert DryRun(s, t, i - 1) == 0 <==> !IsDry(s[i - 2], t);
      }
    } else if i >= 1 && IsDry(s[i], t) {
      assert DryRun(s, t, i) == 0;
    } else if i == 0 {
      assert DryRun(s, t, 0) == 0;
    }
  }

  // ---------------------------------------------------------------------
  // The four scans as the engine runs them

  /** Drought onset: counts consecutive dry readings and reports the
      reading at which the count becomes two. */
  method ScanDrought(farmId: string, series: seq<SensorData>, t: Thresholds, alerts: seq<Alert>)
    returns (out: seq<Alert>)
    ensures out == alerts + Scan(Drought, farmId, series, t, |series|)
  {
    out := alerts;
    var streak := 0;
    for i := 0 to |series|
      invariant streak == DryRun(series, t, i)
      invariant out == alerts + Scan(Drought, farmId, series, t, i)
    {
      var r := series[i];
      DryRunTwoIsOnset(series, t, i);
      if r.soilMoisture < t.droughtSoilPct {
        streak := streak + 1;
        if streak == 2 {
          out := out + [Alert(farmId, Drought, Medium, r.timestamp, false, Pending)];
        }
      } else {
        streak := 0;
      }
    }
  }

  /** Acute water stress: a drop of soil moisture of at least 2 into a hot,
      rainless reading; severity high when the drop is at least 5. */
  method ScanWaterStress(farmId: string, series: seq<SensorData>, t: Thresholds, alerts: seq<Alert>)
    returns (out: seq<Alert>)
    ensures out == alerts + Scan(WaterStress, farmId, series, t, |series|)
  {
    out := alerts;
    var i := 1;
    while i < |series|
      invariant 1 <= i && (series != [] ==> i <= |series|)
      invariant out == alerts + Scan(WaterStress, farmId, series, t, if series == [] then 0 else i)
    {
      var prev, cur := series[i - 1], series[i];
      var drop := prev.soilMoisture - cur.soilMoisture;
      if drop >= 2.0 && cur.temperature >= t.highTempC && cur.rainfall == 0.0 {
        var severity := if drop >= 5.0 then High else Medium;
        out := out + [Alert(farmId, WaterStress, severity, cur.timestamp, false, Pending)];
      }
      i := i + 1;
    }
  }

  /** Flood: every reading with heavy rain on wet soil. */
  method ScanFlood(farmId: string, series: seq<SensorData>, t: Thresholds, alerts: seq<Alert>)
    returns (out: seq<Alert>)
    ensures out == alerts + Scan(Flood, farmId, series, t, |series|)
  {
    out := alerts;
    for i := 0 to |series|
      invariant out == alerts + Scan(Flood, farmId, series, t, i)
    {
      var r := series[i];
      if r.rainfall >= t.floodRainMmDay && r.soilMoisture >= 30.0 {
        out := out + [Alert(farmId, Flood, Medium, r.timestamp, false, Pending)];
      }
    }
  }

  /** Irrigation failure: soil moisture did not rise after a rainy reading. */
  method ScanIrrigationFailure(farmId: string, series: seq<SensorData>, t: Thresholds, alerts: seq<Alert>)
    returns (out: seq<Alert>)
    ensures out == alerts + Scan(IrrigationFailure, farmId, series, t, |series|)
  {
    out := alerts;
    var i := 1;
    while i < |series|
      invariant 1 <= i && (series != [] ==> i <= |series|)
      invariant out == alerts + Scan(IrrigationFailure, farmId, series, t, if series == [] then 0 else i)
    {
      var prev, cur := series[i - 1], series[i];
      if prev.rainfall > 5.0 && cur.soilMoisture <= prev.soilMoisture {
        out := out + [Alert(farmId, IrrigationFailure, Low, cur.timestamp, false, None)];
      }
      i := i + 1;
    }
  }

  /** The engine: group, sort each farm's series, run the four scans farm
      by farm, appending to one alert list. */
  method DetectAlerts(rows: seq<SensorData>, t: Thresholds := DefaultThresholds) returns (alerts: seq<Alert>)
    ensures alerts == Detect(rows, t)
    ensures rows == [] ==> alerts == []
  {
    alerts := [];
    var farmIds, byFarm := GroupByFarm(rows);
    for k := 0 to |farmIds|
      invariant alerts == AlertsOver(rows, farmIds[..k], t)
    {
      var farmId := farmIds[k];
      var series := SortByTimestamp(byFarm[farmId]);
      assert series == Series(rows, farmId);
      ghost var before := alerts;
      alerts := ScanDrought(farmId, series, t, alerts);
      alerts := ScanWaterStress(farmId, series, t, alerts);
      alerts := ScanFlood(farmId, series, t, alerts);
      alerts := ScanIrrigationFailure(farmId, series, t, alerts);
      FarmBlockAppended(before, alerts, farmId, series, t);
      AlertsOverStep(rows, farmIds, k, t);
    }
    assert farmIds[..|farmIds|] == farmIds;
  }
}
