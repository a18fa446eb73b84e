/**
 * Chronological order of readings: timestamps are compared as text,
 * character by character, and a farm's readings are put in ascending
 * timestamp order by a stable sort (readings with equal timestamps keep
 * their input order).
 */
module Ordering {
  import opened Types

  /** Lexicographic order on strings: `a` comes no later than `b`. */
  predicate LexLeq(a: string, b: string)
    decreases |a|
  {
    |a| == 0 || (|b| > 0 && (a[0] < b[0] || (a[0] == b[0] && LexLeq(a[1..], b[1..]))))
  }

  lemma {:induction false} LexLeqReflexive(a: string)
    ensures LexLeq(a, a)
    decreases |a|
  {
    if |a| > 0 {
      LexLeqReflexive(a[1..]);
    }
  }

  lemma {:induction false} LexLeqTotal(a: string, b: string)
    ensures LexLeq(a, b) || LexLeq(b, a)
    decreases |a|
  {
    if |a| > 0 && |b| > 0 && a[0] == b[0] {
      LexLeqTotal(a[1..], b[1..]);
    }
  }

  lemma {:induction false} LexLeqTransitive(a: string, b: string, c: string)
    requires LexLeq(a, b) && LexLeq(b, c)
    ensures LexLeq(a, c)
    decreases |a|
  {
    if |a| > 0 && a[0] == b[0] && b[0] == c[0] {
      LexLeqTransitive(a[1..], b[1..], c[1..]);
    }
  }

  lemma {:induction false} LexLeqAntisymmetric(a: string, b: string)
    requires LexLeq(a, b) && LexLeq(b, a)
    ensures a == b
    decreases |a|
  {
    if |a| > 0 {
      LexLeqAntisymmetric(a[1..], b[1..]);
      assert a == [a[0]] + a[1..] && b == [b[0]] + b[1..];
    }
  }

  /** Every earlier reading is stamped no later than every later one. */
  predicate SortedByTimestamp(s: seq<SensorData>)
  {
    forall i, j :: 0 <= i < j < |s| ==> LexLeq(s[i].timestamp, s[j].timestamp)
  }

  /** Puts `x` into `s` in front of the first reading stamped no earlier than it. */
  function Insert(x: SensorData, s: seq<SensorData>): (r: seq<SensorData>)
    ensures multiset(r) == multiset(s) + multiset{x}
    ensures SortedByTimestamp(s) ==> SortedByTimestamp(r)
  {
    if s == [] then [x]
    else if LexLeq(x.timestamp, s[0].timestamp) then
      InsertFrontSorted(x, s);
      [x] + s
    else
      var rest := Insert(x, s[1..]);
      assert s == [s[0]] + s[1..];
      InsertBehindSorted(x, s, rest);
      [s[0]] + rest
  }

  lemma InsertFrontSorted(x: SensorData, s: seq<SensorData>)
    requires s != [] && LexLeq(x.timestamp, s[0].timestamp)
    ensures SortedByTimestamp(s) ==> SortedByTimestamp([x] + s)
  {
    if SortedByTimestamp(s) {
      forall j | 0 < j < |s| + 1
        ensures LexLeq(x.timestamp, ([x] + s)[j].timestamp)
      {
        if j > 1 {
          LexLeqTransitive(x.timestamp, s[0].timestamp, s[j - 1].timestamp);
        }
      }
    }
  }

  lemma InsertBehindSorted(x: SensorData, s: seq<SensorData>, rest: seq<SensorData>)
    requires s != [] && !LexLeq(x.timestamp, s[0].timestamp)
    requires multiset(rest) == multiset(s[1..]) + multiset{x}
    requires SortedByTimestamp(s[1..]) ==> SortedByTimestamp(rest)
    ensures SortedByTimestamp(s) ==> SortedByTimestamp([s[0]] + rest)
  {
    if SortedByTimestamp(s) {
      LexLeqTotal(x.timestamp, s[0].timestamp);
      forall y | y in rest
        ensures LexLeq(s[0].timestamp, y.timestamp)
      {
        assert y in multiset(rest);
        if y != x {
          assert y in multiset(s[1..]);
          var k :| 0 <= k < |s[1..]| && s[1..][k] == y;
          assert s[k + 1] == y;
        }
      }
      assert SortedByTimestamp(s[1..]);
      forall i, j | 0 <= i < j < |rest| + 1
        ensures LexLeq(([s[0]] + rest)[i].timestamp, ([s[0]] + rest)[j].timestamp)
      {
        if i == 0 {
          assert rest[j - 1] in rest;
        }
      }
    }
  }

  /** The readings of `s` in ascending timestamp order, ties kept in input order. */
  function SortByTimestamp(s: seq<SensorData>): (r: seq<SensorData>)
    ensures SortedByTimestamp(r)
    ensures multiset(r) == multiset(s)
  {
    if s == [] then []
    else
      assert s == [s[0]] + s[1..];
      Insert(s[0], SortByTimestamp(s[1..]))
  }

  /** The readings of `s` stamped exactly `stamp`, in their order in `s`. */
  function StampedAt(s: seq<SensorData>, stamp: string): seq<SensorData>
  {
    if s == [] then []
    else (if s[0].timestamp == stamp then [s[0]] else []) + StampedAt(s[1..], stamp)
  }

  lemma {:induction false} InsertStampedAt(x: SensorData, s: seq<SensorData>, stamp: string)
    ensures StampedAt(Insert(x, s), stamp)
         == (if x.timestamp == stamp then [x] else []) + StampedAt(s, stamp)
  {
    if s == [] {
    } else if LexLeq(x.timestamp, s[0].timestamp) {
      StampedAtCons(x, s, stamp);
    } else {
      var rest := Insert(x, s[1..]);
      LexLeqReflexive(x.timestamp);
      InsertStampedAt(x, s[1..], stamp);
      StampedAtCons(s[0], rest, stamp);
      StampedAtCons(s[0], s[1..], stamp);
      assert [s[0]] + s[1..] == s;
    }
  }

  lemma StampedAtCons(y: SensorData, r: seq<SensorData>, stamp: string)
    ensures StampedAt([y] + r, stamp) == (if y.timestamp == stamp then [y] else []) + StampedAt(r, stamp)
  {
    assert ([y] + r)[1..] == r;
  }

  /** Sorting is stable: for every timestamp, the readings stamped with it
      appear in the result in the same order as in the input. */
  lemma {:induction false} SortIsStable(s: seq<SensorData>, stamp: string)
    ensures StampedAt(SortByTimestamp(s), stamp) == StampedAt(s, stamp)
  {
    if s != [] {
      SortIsStable(s[1..], stamp);
      InsertStampedAt(s[0], SortByTimestamp(s[1..]), stamp);
    }
  }

  lemma SortedTail(s: seq<SensorData>)
    requires s != [] && SortedByTimestamp(s)
    ensures SortedByTimestamp(s[1..])
  {
    forall i, j | 0 <= i < j < |s| - 1
      ensures LexLeq(s[1..][i].timestamp, s[1..][j].timestamp)
    {
      assert s[1..][i] == s[i + 1] && s[1..][j] == s[j + 1];
    }
  }

  /** Readings with equal timestamps are equal: no two different readings
      share a timestamp. */
  predicate TimestampsIdentify(s: seq<SensorData>)
  {
    forall x, y :: x in s && y in s && x.timestamp == y.timestamp ==> x == y
  }

  /** When no two different readings share a timestamp, the sorted order is
      fixed by the readings alone: any two sorted arrangements of them are
      equal. */
  lemma {:induction false} SortedArrangementUnique(a: seq<SensorData>, b: seq<SensorData>)
    requires SortedByTimestamp(a) && SortedByTimestamp(b)
    requires multiset(a) == multiset(b)
    requires TimestampsIdentify(a)
    ensures a == b
    decreases |a|
  {
    assert |a| == |multiset(a)| == |multiset(b)| == |b|;
    if |a| > 0 {
      SortedHeadsEqual(a, b);
      assert a == [a[0]] + a[1..] && b == [b[0]] + b[1..];
      assert multiset(a[1..]) == multiset(a) - multiset{a[0]};
      assert multiset(b[1..]) == multiset(b) - multiset{b[0]};
      SortedTail(a);
      SortedTail(b);
      SortedArrangementUnique(a[1..], b[1..]);
    }
  }

  lemma SortedHeadsEqual(a: seq<SensorData>, b: seq<SensorData>)
    requires a != [] && b != []
    requires SortedByTimestamp(a) && SortedByTimestamp(b)
    requires multiset(a) == multiset(b)
    requires TimestampsIdentify(a)
    ensures a[0] == b[0]
  {
    assert a[0] in multiset(b) && b[0] in multiset(a);
    var i :| 0 <= i < |a| && a[i] == b[0];
    var j :| 0 <= j < |b| && b[j] == a[0];
    assert LexLeq(a[0].timestamp, b[0].timestamp) by {
      if i == 0 {
        LexLeqReflexive(a[0].timestamp);
      }
    }
    assert LexLeq(b[0].timestamp, a[0].timestamp) by {
      if j == 0 {
        LexLeqReflexive(b[0].timestamp);
      }
    }
    LexLeqAntisymmetric(a[0].timestamp, b[0].timestamp);
    assert a[0] in a && a[i] in a;
  }
}
