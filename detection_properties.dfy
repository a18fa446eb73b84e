/**
 * What the engine's output means: which alerts a scan raises and how many,
 * what every alert carries, where it comes from, how the drought streak
 * behaves, and when the result depends on the order of the input.
 */
module DetectionProperties {
  import opened Types
  import opened Ordering
  import opened Detections

  // ---------------------------------------------------------------------
  // One rule over one series

  /** A scan raises exactly the alerts of the positions where its rule
      triggers. */
  lemma {:induction false} ScanMembers(kind: AlertType, farmId: string, s: seq<SensorData>, t: Thresholds, n: nat)
    requires n <= |s|
    ensures forall a :: a in Scan(kind, farmId, s, t, n) <==>
              exists i :: 0 <= i < n && Fires(kind, s, t, i) && a == Emit(kind, farmId, s, i)
  {
    if n > 0 {
      ScanMembers(kind, farmId, s, t, n - 1);
    }
  }

  /** The positions among the first `n` of `s` at which rule `kind` triggers. */
  function FiringPositions(kind: AlertType, s: seq<SensorData>, t: Thresholds, n: nat): set<nat>
    requires n <= |s|
  {
    set i: nat | i < n && Fires(kind, s, t, i)
  }

  /** A scan raises one alert per triggering position: none is merged or
      suppressed (flood alerts on consecutive wet readings are all kept). */
  lemma {:induction false} ScanCount(kind: AlertType, farmId: string, s: seq<SensorData>, t: Thresholds, n: nat)
    requires n <= |s|
    ensures |Scan(kind, farmId, s, t, n)| == |FiringPositions(kind, s, t, n)|
  {
    if n > 0 {
      ScanCount(kind, farmId, s, t, n - 1);
      FiringPositionsStep(kind, s, t, n);
    }
  }

  lemma FiringPositionsStep(kind: AlertType, s: seq<SensorData>, t: Thresholds, n: nat)
    requires 0 < n <= |s|
    ensures n - 1 !in FiringPositions(kind, s, t, n - 1)
    ensures FiringPositions(kind, s, t, n)
         == FiringPositions(kind, s, t, n - 1) + (if Fires(kind, s, t, n - 1) then {n - 1} else {})
  {
  }

  /** The fields every alert of farm `farmId` with series `s` carries: the
      farm, a reading's timestamp, not resolved, the claim status of its
      type (none for irrigation failure, pending otherwise) and the
      severity of its type. */
  predicate RaisedFrom(a: Alert, farmId: string, s: seq<SensorData>)
  {
    && a.farmId == farmId
    && (exists i :: 0 <= i < |s| && s[i].timestamp == a.triggeredAt)
    && !a.resolved
    && a.microinsuranceStatus == (if a.kind == IrrigationFailure then None else Pending)
    && (a.kind == Drought || a.kind == Flood ==> a.severity == Medium)
    && (a.kind == WaterStress ==> a.severity == Medium || a.severity == High)
    && (a.kind == IrrigationFailure ==> a.severity == Low)
  }

  lemma ScanFields(kind: AlertType, farmId: string, s: seq<SensorData>, t: Thresholds)
    ensures forall a :: a in Scan(kind, farmId, s, t, |s|) ==> a.kind == kind && RaisedFrom(a, farmId, s)
  {
    ScanMembers(kind, farmId, s, t, |s|);
    forall a | a in Scan(kind, farmId, s, t, |s|)
      ensures a.kind == kind && RaisedFrom(a, farmId, s)
    {
      var i :| 0 <= i < |s| && Fires(kind, s, t, i) && a == Emit(kind, farmId, s, i);
    }
  }

  /** Water-stress alerts are high exactly when soil moisture fell by at
      least 5, and medium otherwise. */
  lemma WaterStressSeverity(farmId: string, s: seq<SensorData>, t: Thresholds)
    ensures forall a :: a in Scan(WaterStress, farmId, s, t, |s|) ==>
              exists i :: 1 <= i < |s| && Fires(WaterStress, s, t, i) && a.triggeredAt == s[i].timestamp
                          && (a.severity == High <==> Drop(s, i) >= 5.0)
                          && (a.severity == Medium <==> Drop(s, i) < 5.0)
  {
    ScanMembers(WaterStress, farmId, s, t, |s|);
  }

  /** The alerts of one farm all carry the fields of their type. */
  lemma FarmAlertFields(farmId: string, s: seq<SensorData>, t: Thresholds)
    ensures forall a :: a in FarmAlerts(farmId, s, t) ==> RaisedFrom(a, farmId, s)
  {
    ScanFields(Drought, farmId, s, t);
    ScanFields(WaterStress, farmId, s, t);
    ScanFields(Flood, farmId, s, t);
    ScanFields(IrrigationFailure, farmId, s, t);
  }

  /** Every alert of a farm's block names that farm. */
  lemma FarmAlertsOwner(farmId: string, s: seq<SensorData>, t: Thresholds)
    ensures forall a :: a in FarmAlerts(farmId, s, t) ==> a.farmId == farmId
  {
    FarmAlertFields(farmId, s, t);
  }

  /** Alerts stamped in chronological order. */
  predicate TriggeredInOrder(alerts: seq<Alert>)
  {
    forall i, j :: 0 <= i < j < |alerts| ==> LexLeq(alerts[i].triggeredAt, alerts[j].triggeredAt)
  }

  /** Over a sorted series, a rule's block is in timestamp order. */
  lemma {:induction false} ScanInSeriesOrder(kind: AlertType, farmId: string, s: seq<SensorData>, t: Thresholds, n: nat)
    requires n <= |s| && SortedByTimestamp(s)
    ensures TriggeredInOrder(Scan(kind, farmId, s, t, n))
  {
    if n > 0 {
      var prev := Scan(kind, farmId, s, t, n - 1);
      ScanInSeriesOrder(kind, farmId, s, t, n - 1);
      if Fires(kind, s, t, n - 1) {
        ScanMembers(kind, farmId, s, t, n - 1);
        var r := prev + [Emit(kind, farmId, s, n - 1)];
        forall i, j | 0 <= i < j < |r|
          ensures LexLeq(r[i].triggeredAt, r[j].triggeredAt)
        {
          if j == |prev| {
            assert prev[i] in prev;
            var k :| 0 <= k < n - 1 && Fires(kind, s, t, k) && prev[i] == Emit(kind, farmId, s, k);
          }
        }
      }
    }
  }

  /** Each of the four blocks the engine reports for a farm is in timestamp
      order. */
  lemma FarmBlocksInTimeOrder(rows: seq<SensorData>, farmId: string, t: Thresholds)
    ensures TriggeredInOrder(Scan(Drought, farmId, Series(rows, farmId), t, |Series(rows, farmId)|))
    ensures TriggeredInOrder(Scan(WaterStress, farmId, Series(rows, farmId), t, |Series(rows, farmId)|))
    ensures TriggeredInOrder(Scan(Flood, farmId, Series(rows, farmId), t, |Series(rows, farmId)|))
    ensures TriggeredInOrder(Scan(IrrigationFailure, farmId, Series(rows, farmId), t, |Series(rows, farmId)|))
  {
    var s := Series(rows, farmId);
    ScanInSeriesOrder(Drought, farmId, s, t, |s|);
    ScanInSeriesOrder(WaterStress, farmId, s, t, |s|);
    ScanInSeriesOrder(Flood, farmId, s, t, |s|);
    ScanInSeriesOrder(IrrigationFailure, farmId, s, t, |s|);
  }

  /** The pair rules need two readings: a series of at most one reading
      raises no water-stress and no irrigation-failure alert. */
  lemma PairRulesNeedTwoReadings(farmId: string, s: seq<SensorData>, t: Thresholds)
    requires |s| <= 1
    ensures Scan(WaterStress, farmId, s, t, |s|) == []
    ensures Scan(IrrigationFailure, farmId, s, t, |s|) == []
  {
    if |s| == 1 {
      assert !Fires(WaterStress, s, t, 0) && !Fires(IrrigationFailure, s, t, 0);
    }
  }

  // ---------------------------------------------------------------------
  // Drought onset

  /** In a run of dry readings `a..b` that starts a run (the reading before
      it, if any, is not dry), the drought rule triggers exactly once, at
      the run's second reading; a run of one reading triggers nothing. */
  lemma DroughtOncePerRun(s: seq<SensorData>, t: Thresholds, a: nat, b: nat)
    requires a <= b < |s|
    requires forall j :: a <= j <= b ==> IsDry(s[j], t)
    requires a == 0 || !IsDry(s[a - 1], t)
    ensures forall i :: a <= i <= b ==> (Fires(Drought, s, t, i) <==> i == a + 1)
  {
  }

  /** Two drought alerts of one series are always separated by a reading
      that is not dry: a streak longer than two raises nothing more. */
  lemma DroughtOnsetsSeparated(s: seq<SensorData>, t: Thresholds, i: nat, j: nat)
    requires i < j < |s|
    requires Fires(Drought, s, t, i) && Fires(Drought, s, t, j)
    ensures exists k :: i < k < j && !IsDry(s[k], t)
  {
    assert i < j - 2 && !IsDry(s[j - 2], t);
  }

  // ---------------------------------------------------------------------
  // Farm order

  /** The position of the first row of farm `farmId`, or the number of rows
      when the farm has none. */
  function FirstSeen(rows: seq<SensorData>, farmId: string): (k: nat)
    ensures k <= |rows|
    ensures k < |rows| ==> rows[k].farmId == farmId
    ensures forall j :: 0 <= j < k ==> rows[j].farmId != farmId
  {
    if rows == [] then 0
    else if rows[0].farmId == farmId then 0
    else 1 + FirstSeen(rows[1..], farmId)
  }

  /** Adding a row at the end does not move the first row of a farm already seen. */
  lemma FirstSeenExtend(front: seq<SensorData>, x: SensorData, farmId: string)
    ensures FirstSeen(front + [x], farmId)
         == if FirstSeen(front, farmId) < |front| then FirstSeen(front, farmId)
            else if x.farmId == farmId then |front| else |front| + 1
  {
    var rows := front + [x];
    var k, k1 := FirstSeen(rows, farmId), FirstSeen(front, farmId);
    if k1 < |front| {
      assert rows[k1] == front[k1];
    } else {
      assert rows[|front|] == x;
    }
  }

  /** The farm ids come in the order in which their farms first appear in
      the input. */
  lemma {:induction false} FarmIdsInFirstSeenOrder(rows: seq<SensorData>)
    ensures forall i, j :: 0 <= i < j < |FarmIds(rows)| ==>
              FirstSeen(rows, FarmIds(rows)[i]) < FirstSeen(rows, FarmIds(rows)[j]) < |rows|
  {
    if rows != [] {
      var front, last := rows[..|rows| - 1], rows[|rows| - 1];
      assert rows == front + [last];
      FarmIdsInFirstSeenOrder(front);
      var ids, ids0 := FarmIds(rows), FarmIds(front);
      forall g | g in ids0
        ensures FirstSeen(rows, g) == FirstSeen(front, g) < |front|
      {
        var r :| r in front && r.farmId == g;
        FirstSeenExtend(front, last, g);
      }
      FirstSeenExtend(front, last, last.farmId);
      forall i, j | 0 <= i < j < |ids|
        ensures FirstSeen(rows, ids[i]) < FirstSeen(rows, ids[j]) < |rows|
      {
        assert ids[i] in ids0;
        if j < |ids0| {
          assert ids[j] in ids0;
        }
      }
    }
  }

  // ---------------------------------------------------------------------
  // The whole output

  /** Every alert in the farm blocks of `farms` belongs to one of those
      farms and is one that farm's own scans raise, and conversely. */
  lemma {:induction false} AlertsOverMembers(rows: seq<SensorData>, farms: seq<string>, t: Thresholds)
    ensures forall a :: a in AlertsOver(rows, farms, t) <==>
              a.farmId in farms && a in FarmAlerts(a.farmId, Series(rows, a.farmId), t)
  {
    if farms != [] {
      var front, last := farms[..|farms| - 1], farms[|farms| - 1];
      assert farms == front + [last];
      AlertsOverMembers(rows, front, t);
      FarmAlertFields(last, Series(rows, last), t);
    }
  }

  /** An alert is reported exactly when the scans of its own farm's sorted
      series raise it. */
  lemma DetectMembers(rows: seq<SensorData>, t: Thresholds)
    ensures forall a :: a in Detect(rows, t) <==> a in FarmAlerts(a.farmId, Series(rows, a.farmId), t)
  {
    AlertsOverMembers(rows, FarmIds(rows), t);
    forall a: Alert | a in FarmAlerts(a.farmId, Series(rows, a.farmId), t)
      ensures a.farmId in FarmIds(rows)
    {
      if a.farmId !in FarmIds(rows) {
        NoReadingsOfUnseenFarm(rows, a.farmId);
      }
    }
  }

  /** Every reported alert names a farm of the input and the timestamp of a
      reading of that farm; it is unresolved, and its claim status is
      pending except for irrigation failure, whose status is none. */
  lemma DetectProvenance(rows: seq<SensorData>, t: Thresholds)
    ensures forall a :: a in Detect(rows, t) ==>
              (exists r :: r in rows && r.farmId == a.farmId && r.timestamp == a.triggeredAt)
              && !a.resolved
              && a.microinsuranceStatus == (if a.kind == IrrigationFailure then None else Pending)
  {
    DetectMembers(rows, t);
    forall a | a in Detect(rows, t)
      ensures exists r :: r in rows && r.farmId == a.farmId && r.timestamp == a.triggeredAt
    {
      var s := Series(rows, a.farmId);
      FarmAlertFields(a.farmId, s, t);
      var i :| 0 <= i < |s| && s[i].timestamp == a.triggeredAt;
      assert s[i] in multiset(ReadingsOf(rows, a.farmId));
      assert s[i] in ReadingsOf(rows, a.farmId);
    }
    forall a | a in Detect(rows, t)
      ensures !a.resolved && a.microinsuranceStatus == (if a.kind == IrrigationFailure then None else Pending)
    {
      FarmAlertFields(a.farmId, Series(rows, a.farmId), t);
    }
  }

  /** A farm with at most one reading gets no water-stress and no
      irrigation-failure alert, whatever the readings say. */
  lemma SingleReadingFarm(rows: seq<SensorData>, t: Thresholds, farmId: string)
    requires |ReadingsOf(rows, farmId)| <= 1
    ensures forall a :: a in Detect(rows, t) && a.farmId == farmId ==>
              a.kind != WaterStress && a.kind != IrrigationFailure
  {
    var s := Series(rows, farmId);
    assert |s| == |multiset(s)| == |multiset(ReadingsOf(rows, farmId))| == |ReadingsOf(rows, farmId)|;
    PairRulesNeedTwoReadings(farmId, s, t);
    ScanFields(Drought, farmId, s, t);
    ScanFields(Flood, farmId, s, t);
    DetectMembers(rows, t);
  }

  // ---------------------------------------------------------------------
  // Input order

  /** A farm's readings are the input rows of that farm, as a multiset. */
  lemma {:induction false} ReadingsOfMultiset(rows: seq<SensorData>, farmId: string)
    ensures forall x :: multiset(ReadingsOf(rows, farmId))[x] == if x.farmId == farmId then multiset(rows)[x] else 0
  {
    if rows != [] {
      var front, last := rows[..|rows| - 1], rows[|rows| - 1];
      assert rows == front + [last];
      ReadingsOfMultiset(front, farmId);
    }
  }

  /** Reordering the input rows does not change which readings a farm has. */
  lemma SameRowsSameReadings(rows1: seq<SensorData>, rows2: seq<SensorData>, farmId: string)
    requires multiset(rows1) == multiset(rows2)
    ensures multiset(ReadingsOf(rows1, farmId)) == multiset(ReadingsOf(rows2, farmId))
  {
    ReadingsOfMultiset(rows1, farmId);
    ReadingsOfMultiset(rows2, farmId);
    forall x
      ensures multiset(ReadingsOf(rows1, farmId))[x] == multiset(ReadingsOf(rows2, farmId))[x]
    {
    }
  }

  /** When a farm has no two different readings with the same timestamp,
      the series its rules scan, and hence its block of alerts, does not
      depend on the order of the input rows. */
  lemma FarmSeriesIgnoresInputOrder(rows1: seq<SensorData>, rows2: seq<SensorData>, farmId: string, t: Thresholds)
    requires multiset(rows1) == multiset(rows2)
    requires TimestampsIdentify(ReadingsOf(rows1, farmId))
    ensures Series(rows1, farmId) == Series(rows2, farmId)
    ensures FarmAlerts(farmId, Series(rows1, farmId), t) == FarmAlerts(farmId, Series(rows2, farmId), t)
  {
    SameRowsSameReadings(rows1, rows2, farmId);
    var a, b := Series(rows1, farmId), Series(rows2, farmId);
    assert TimestampsIdentify(a) by {
      forall x, y | x in a && y in a && x.timestamp == y.timestamp
        ensures x == y
      {
        assert x in multiset(ReadingsOf(rows1, farmId)) && y in multiset(ReadingsOf(rows1, farmId));
      }
    }
    SortedArrangementUnique(a, b);
  }

  /** How often an alert occurs in the blocks of a list of distinct farms:
      as often as in its own farm's block if that farm is listed, else never. */
  lemma {:induction false} AlertsOverCount(rows: seq<SensorData>, farms: seq<string>, t: Thresholds, a: Alert)
    requires forall i, j :: 0 <= i < j < |farms| ==> farms[i] != farms[j]
    ensures multiset(AlertsOver(rows, farms, t))[a]
         == if a.farmId in farms then multiset(FarmAlerts(a.farmId, Series(rows, a.farmId), t))[a] else 0
  {
    if farms != [] {
      var front, last := farms[..|farms| - 1], farms[|farms| - 1];
      assert farms == front + [last];
      AlertsOverCount(rows, front, t, a);
      FarmAlertsOwner(last, Series(rows, last), t);
      if a.farmId != last {
        assert a !in FarmAlerts(last, Series(rows, last), t);
      }
    }
  }

  /** When no farm has two different readings with the same timestamp, the
      engine reports the same alerts, each as often, whatever the order of
      the input rows; in particular, the same number of alerts. */
  lemma DetectIgnoresInputOrder(rows1: seq<SensorData>, rows2: seq<SensorData>, t: Thresholds)
    requires multiset(rows1) == multiset(rows2)
    requires forall f :: TimestampsIdentify(ReadingsOf(rows1, f))
    ensures multiset(Detect(rows1, t)) == multiset(Detect(rows2, t))
    ensures |Detect(rows1, t)| == |Detect(rows2, t)|
  {
    forall a
      ensures multiset(Detect(rows1, t))[a] == multiset(Detect(rows2, t))[a]
    {
      AlertsOverCount(rows1, FarmIds(rows1), t, a);
      AlertsOverCount(rows2, FarmIds(rows2), t, a);
      FarmSeriesIgnoresInputOrder(rows1, rows2, a.farmId, t);
      assert a.farmId in FarmIds(rows1) <==> a.farmId in FarmIds(rows2) by {
        forall r | r in rows1 ensures r in rows2 {
          assert r in multiset(rows1);
        }
        forall r | r in rows2 ensures r in rows1 {
          assert r in multiset(rows2);
        }
      }
    }
    assert multiset(Detect(rows1, t)) == multiset(Detect(rows2, t));
    assert |multiset(Detect(rows1, t))| == |Detect(rows1, t)|;
  }
}

/** Two readings of one farm stamped at the same instant: the order in
    which they arrive decides the order of the series, and so whether the
    water-stress rule sees a fall in soil moisture. */
module TiedTimestamps {
  import opened Types
  import opened Ordering
  import opened Detections

  /** A moist reading and a parched, hot, rainless one of the same farm at
      the same instant. */
  predicate TiedPair(moist: SensorData, parched: SensorData)
  {
    && moist.farmId == parched.farmId && moist.timestamp == parched.timestamp
    && moist.soilMoisture == 20.0 && parched.soilMoisture == 10.0
    && moist.temperature == 33.0 && parched.temperature == 33.0
    && moist.rainfall == 0.0 && parched.rainfall == 0.0
  }

  lemma SeriesKeepsArrivalOrder(x: SensorData, y: SensorData)
    requires x.farmId == y.farmId && x.timestamp == y.timestamp
    ensures Series([x, y], x.farmId) == [x, y]
  {
    var f := x.farmId;
    assert [x, y][..1] == [x] && [x][..0] == [];
    assert ReadingsOf([x], f) == ReadingsOf([], f) + [x];
    assert ReadingsOf([x, y], f) == ReadingsOf([x], f) + [y];
    LexLeqReflexive(x.timestamp);
    assert [x, y][1..] == [y];
    assert SortByTimestamp([y]) == Insert(y, []) == [y];
  }

  lemma FarmIdsOfPair(x: SensorData, y: SensorData)
    requires x.farmId == y.farmId
    ensures FarmIds([x, y]) == [x.farmId]
  {
    assert [x, y][..1] == [x] && [x][..0] == [];
    assert FarmIds([x]) == [x.farmId];
  }

  lemma OneFarm(rows: seq<SensorData>, farmId: string, t: Thresholds)
    requires FarmIds(rows) == [farmId]
    ensures Detect(rows, t) == FarmAlerts(farmId, Series(rows, farmId), t)
  {
    assert [farmId][..0] == [];
    assert AlertsOver(rows, [farmId], t) == AlertsOver(rows, [], t) + FarmAlerts(farmId, Series(rows, farmId), t);
  }

  /** A rule that triggers at neither reading of a pair raises nothing. */
  lemma QuietOnPair(kind: AlertType, farmId: string, s: seq<SensorData>, t: Thresholds)
    requires |s| == 2 && !Fires(kind, s, t, 0) && !Fires(kind, s, t, 1)
    ensures Scan(kind, farmId, s, t, 2) == []
  {
    assert Scan(kind, farmId, s, t, 1) == [];
  }

  lemma MoistFirstAlerts(moist: SensorData, parched: SensorData)
    requires TiedPair(moist, parched)
    ensures FarmAlerts(moist.farmId, [moist, parched], DefaultThresholds)
         == [Alert(moist.farmId, WaterStress, High, moist.timestamp, false, Pending)]
  {
    var f, t, s := moist.farmId, DefaultThresholds, [moist, parched];
    QuietOnPair(Drought, f, s, t);
    QuietOnPair(Flood, f, s, t);
    QuietOnPair(IrrigationFailure, f, s, t);
    assert !Fires(WaterStress, s, t, 0) && Fires(WaterStress, s, t, 1);
    assert Scan(WaterStress, f, s, t, 1) == [];
  }

  lemma ParchedFirstAlerts(moist: SensorData, parched: SensorData)
    requires TiedPair(moist, parched)
    ensures FarmAlerts(moist.farmId, [parched, moist], DefaultThresholds) == []
  {
    var f, t, s := moist.farmId, DefaultThresholds, [parched, moist];
    QuietOnPair(Drought, f, s, t);
    QuietOnPair(WaterStress, f, s, t);
    QuietOnPair(Flood, f, s, t);
    QuietOnPair(IrrigationFailure, f, s, t);
  }

  /** The same two readings, given in the two possible orders, yield
      different alert lists: one high water-stress alert, or none. */
  lemma TiedTimestampsChangeAlerts(moist: SensorData, parched: SensorData)
    requires TiedPair(moist, parched)
    ensures multiset([moist, parched]) == multiset([parched, moist])
    ensures Detect([moist, parched], DefaultThresholds)
         == [Alert(moist.farmId, WaterStress, High, moist.timestamp, false, Pending)]
    ensures Detect([parched, moist], DefaultThresholds) == []
  {
    var f, t := moist.farmId, DefaultThresholds;
    SeriesKeepsArrivalOrder(moist, parched);
    SeriesKeepsArrivalOrder(parched, moist);
    FarmIdsOfPair(moist, parched);
    FarmIdsOfPair(parched, moist);
    MoistFirstAlerts(moist, parched);
    ParchedFirstAlerts(moist, parched);
    OneFarm([moist, parched], f, t);
    OneFarm([parched, moist], f, t);
  }
}
