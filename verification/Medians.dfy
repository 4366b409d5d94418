/**
  Medians, leave-one-out thresholds and scales of football/experiments/economic_selector.py,
  as functions of the values and not of their order.
 */
module Medians {
  import opened Common

  predicate Ascending(s: seq<real>) {
    forall i, j :: 0 <= i < j < |s| ==> s[i] <= s[j]
  }

  function Insert(x: real, s: seq<real>): (r: seq<real>)
    ensures |r| == |s| + 1 && multiset(r) == multiset(s) + multiset{x}
  {
    if s == [] || x <= s[0] then [x] + s
    else
      assert s == [s[0]] + s[1..];
      [s[0]] + Insert(x, s[1..])
  }

  function Sort(s: seq<real>): (r: seq<real>)
    ensures |r| == |s| && multiset(r) == multiset(s)
  {
    if s == [] then []
    else
      assert s == [s[0]] + s[1..];
      Insert(s[0], Sort(s[1..]))
  }

  lemma {:induction false} InsertAscending(x: real, s: seq<real>)
    requires Ascending(s)
    ensures Ascending(Insert(x, s))
  {
    if s != [] && s[0] < x {
      InsertAscending(x, s[1..]);
      var t := Insert(x, s[1..]);
      forall j | 0 <= j < |t|
        ensures s[0] <= t[j]
      {
        assert t[j] in multiset(t);
        assert t[j] in s[1..] || t[j] == x;
      }
    }
  }

  lemma {:induction false} SortAscending(s: seq<real>)
    ensures Ascending(Sort(s))
  {
    if s != [] {
      SortAscending(s[1..]);
      InsertAscending(s[0], Sort(s[1..]));
    }
  }

  /** Two ascending listings of the same values are the same listing. */
  lemma TailValues(s: seq<real>)
    requires s != []
    ensures s == [s[0]] + s[1..] && multiset(s[1..]) == multiset(s) - multiset{s[0]}
  {
    assert s == [s[0]] + s[1..];
  }

  lemma {:induction false} AscendingUnique(a: seq<real>, b: seq<real>)
    requires Ascending(a) && Ascending(b) && multiset(a) == multiset(b)
    ensures a == b
  {
    assert |a| == |multiset(a)| == |multiset(b)| == |b|;
    if a != [] {
      assert a[0] in multiset(b) && b[0] in multiset(a);
      assert a[0] == b[0];
      TailValues(a);
      TailValues(b);
      AscendingUnique(a[1..], b[1..]);
    }
  }

  /** Sorting forgets the order in which the values came. */
  lemma SortForgets(a: seq<real>, b: seq<real>)
    requires multiset(a) == multiset(b)
    ensures Sort(a) == Sort(b)
  {
    SortAscending(a);
    SortAscending(b);
    AscendingUnique(Sort(a), Sort(b));
  }

  // ---- medians -------------------------------------------------------------------------

  /** The middle value, or the mean of the two middle values. */
  function Middle(s: seq<real>): real
    requires s != []
  {
    var half := |s| / 2;
    if |s| % 2 == 1 then s[half] else (s[half - 1] + s[half]) / 2.0
  }

  function Median(values: seq<real>): real
    requires values != []
  {
    Middle(Sort(values))
  }

  function RemoveAt<T>(s: seq<T>, j: nat): (r: seq<T>)
    requires j < |s|
    ensures |r| == |s| - 1
  {
    s[..j] + s[j + 1..]
  }

  lemma RemovedValues(s: seq<real>, j: nat)
    requires j < |s|
    ensures multiset(RemoveAt(s, j)) == multiset(s) - multiset{s[j]}
  {
    assert s == s[..j] + [s[j]] + s[j + 1..];
  }

  /** The least median of the values without one of the first n. */
  function LeastWithoutOne(values: seq<real>, n: nat): real
    requires 2 <= |values| && 1 <= n <= |values|
  {
    var last := Median(RemoveAt(values, n - 1));
    if n == 1 then last else Min(LeastWithoutOne(values, n - 1), last)
  }

  function Threshold(values: seq<real>): real
    requires values != []
  {
    if |values| == 1 then values[0] else LeastWithoutOne(values, |values|)
  }

  lemma {:induction false} LeastIsLeast(values: seq<real>, n: nat)
    requires 2 <= |values| && 1 <= n <= |values|
    ensures forall j :: 0 <= j < n ==> LeastWithoutOne(values, n) <= Median(RemoveAt(values, j))
    ensures exists j :: 0 <= j < n && LeastWithoutOne(values, n) == Median(RemoveAt(values, j))
  {
    hide Median;
    hide RemoveAt;
    if 1 < n {
      LeastIsLeast(values, n - 1);
      var k :| 0 <= k < n - 1 && LeastWithoutOne(values, n - 1) == Median(RemoveAt(values, k));
      assert LeastWithoutOne(values, n) == Median(RemoveAt(values, k)) || LeastWithoutOne(values, n) == Median(RemoveAt(values, n - 1));
    } else {
      assert LeastWithoutOne(values, n) == Median(RemoveAt(values, 0));
    }
  }

  lemma RemovedAscending(s: seq<real>, j: nat)
    requires Ascending(s) && j < |s|
    ensures Ascending(RemoveAt(s, j))
    ensures forall k :: 0 <= k < |s| - 1 ==> s[k] <= RemoveAt(s, j)[k]
  {
  }

  lemma MiddleMonotone(a: seq<real>, b: seq<real>)
    requires |a| == |b| && a != [] && forall k :: 0 <= k < |a| ==> a[k] <= b[k]
    ensures Middle(a) <= Middle(b)
  {
  }

  /** Sorting what is left after one value is removed. */
  lemma SortRemoved(values: seq<real>, j: nat, k: nat)
    requires j < |values| && k < |values| && Sort(values)[k] == values[j]
    ensures Sort(RemoveAt(values, j)) == RemoveAt(Sort(values), k)
  {
    var s := Sort(values);
    RemovedValues(values, j);
    RemovedValues(s, k);
    SortAscending(values);
    RemovedAscending(s, k);
    SortAscending(RemoveAt(values, j));
    hide Sort;
    hide RemoveAt;
    AscendingUnique(Sort(RemoveAt(values, j)), RemoveAt(s, k));
  }

  lemma Somewhere(values: seq<real>, j: nat) returns (k: nat)
    requires j < |values|
    ensures k < |values| && Sort(values)[k] == values[j]
  {
    hide Sort;
    assert values[j] in multiset(Sort(values));
    k :| 0 <= k < |values| && Sort(values)[k] == values[j];
  }

  lemma MiddleDropped(s: seq<real>, k: nat)
    requires Ascending(s) && 2 <= |s| && k < |s|
    ensures Middle(s[..|s| - 1]) <= Middle(RemoveAt(s, k))
  {
    RemovedAscending(s, k);
    MiddleMonotone(s[..|s| - 1], RemoveAt(s, k));
  }

  lemma MiddleKept(values: seq<real>, j: nat)
    requires 2 <= |values| && j < |values|
    ensures Middle(Sort(values)[..|values| - 1]) <= Median(RemoveAt(values, j))
  {
    hide Sort;
    hide Middle;
    hide RemoveAt;
    hide Ascending;
    SortAscending(values);
    var k := Somewhere(values, j);
    SortRemoved(values, j, k);
    MiddleDropped(Sort(values), k);
  }

  lemma RemoveLast(s: seq<real>)
    requires s != []
    ensures RemoveAt(s, |s| - 1) == s[..|s| - 1]
  {
  }

  lemma WithoutLargest(values: seq<real>, j: nat)
    requires 2 <= |values| && j < |values| && values[j] == Sort(values)[|values| - 1]
    ensures Median(RemoveAt(values, j)) == Middle(Sort(values)[..|values| - 1])
  {
    hide Sort;
    hide Middle;
    hide RemoveAt;
    SortRemoved(values, j, |values| - 1);
    RemoveLast(Sort(values));
  }

  /** The threshold is the median of the values without one largest one. */
  lemma ThresholdDropsLargest(values: seq<real>)
    requires 2 <= |values|
    ensures Threshold(values) == Middle(Sort(values)[..|values| - 1])
  {
    hide Sort;
    hide Middle;
    hide Median;
    hide RemoveAt;
    hide LeastWithoutOne;
    forall j | 0 <= j < |values|
      ensures Middle(Sort(values)[..|values| - 1]) <= Median(RemoveAt(values, j))
    {
      MiddleKept(values, j);
    }
    var top := Sort(values)[|values| - 1];
    assert top in multiset(Sort(values));
    var j :| 0 <= j < |values| && values[j] == top;
    WithoutLargest(values, j);
    LeastIsLeast(values, |values|);
  }

  /** The threshold depends on the values, not on their order. */
  lemma ThresholdForgets(a: seq<real>, b: seq<real>)
    requires multiset(a) == multiset(b) && a != []
    ensures b != [] && Threshold(a) == Threshold(b)
  {
    assert |a| == |multiset(a)| == |multiset(b)| == |b|;
    if |a| == 1 {
      assert a[0] in multiset(b);
    } else {
      ThresholdDropsLargest(a);
      ThresholdDropsLargest(b);
      SortForgets(a, b);
    }
  }

  lemma MiddleAtLeast(s: seq<real>)
    requires Ascending(s) && s != []
    ensures s[0] <= Middle(s)
  {
    MiddleMonotone(seq(|s|, i requires 0 <= i < |s| => s[0]), s);
  }

  /** Some value meets the threshold. */
  lemma SomeMeetThreshold(values: seq<real>)
    requires values != []
    ensures exists v :: v in values && v <= Threshold(values)
  {
    hide Sort;
    hide Middle;
    if |values| == 1 {
      assert values[0] in values && Threshold(values) == values[0];
    } else {
      var s := Sort(values);
      SortAscending(values);
      ThresholdDropsLargest(values);
      MiddleAtLeast(s[..|s| - 1]);
      assert s[0] in multiset(s);
      assert s[0] in values;
    }
  }

  // ---- scale ---------------------------------------------------------------------------

  const TOLERANCE: real := 0.000000000001

  /** Linear interpolation at three quarters (or one quarter) of the way through the sorted values. */
  function Quartile(s: seq<real>, quarter: nat): real
    requires s != [] && quarter <= 4
  {
    var h := (|s| - 1) * quarter;
    var low := h / 4;
    var rest := (h % 4) as real / 4.0;
    if low + 1 < |s| then s[low] + rest * (s[low + 1] - s[low]) else s[low]
  }

  function Distances(values: seq<real>, centre: real): (r: seq<real>)
    ensures |r| == |values|
  {
    seq(|values|, i requires 0 <= i < |values| => if values[i] < centre then centre - values[i] else values[i] - centre)
  }

  /** The interquartile range or the median absolute deviation, whichever is larger, and never zero. */
  function Scale(values: seq<real>): (r: real)
    requires values != []
    ensures 0.0 < r
  {
    var s := Sort(values);
    Max(Max(Quartile(s, 3) - Quartile(s, 1), Median(Distances(values, Median(values)))), TOLERANCE)
  }

  /** A quartile lies between two neighbours of the sorted values, in quarters of the way from one to the next. */
  ghost predicate AtQuartile(s: seq<real>, quarter: nat, x: real)
    requires s != [] && quarter <= 4
  {
    var h := (|s| - 1) * quarter;
    var low, over := h / 4, (h % 4) as real;
    4.0 * x == (4.0 - over) * s[low] + over * s[if low + 1 < |s| then low + 1 else low]
  }

  lemma QuartileMeans(s: seq<real>, quarter: nat)
    requires s != [] && quarter <= 4
    ensures AtQuartile(s, quarter, Quartile(s, quarter))
  {
    var h := (|s| - 1) * quarter;
    var low, over := h / 4, (h % 4) as real;
    Interpolates(s[low], s[if low + 1 < |s| then low + 1 else low], over);
  }

  lemma Interpolates(a: real, b: real, over: real)
    ensures 4.0 * (a + over / 4.0 * (b - a)) == (4.0 - over) * a + over * b
  {
    assert over / 4.0 * (b - a) == over / 4.0 * b - over / 4.0 * a;
  }

  /** The deviations of values from a centre. */
  ghost predicate Deviations(values: seq<real>, centre: real, d: seq<real>) {
    |d| == |values| && forall i :: 0 <= i < |d| ==> 0.0 <= d[i] && (values[i] == centre + d[i] || values[i] == centre - d[i])
  }

  /** The scale is the largest of the interquartile range, the median deviation from the median, and the tolerance. */
  lemma ScaleMeans(values: seq<real>) returns (lower: real, upper: real, deviations: seq<real>)
    requires values != []
    ensures AtQuartile(Sort(values), 1, lower) && AtQuartile(Sort(values), 3, upper)
    ensures Deviations(values, Median(values), deviations)
    ensures var x := Scale(values);
            && upper - lower <= x && Median(deviations) <= x && 0.000000000001 <= x
            && (x == upper - lower || x == Median(deviations) || x == 0.000000000001)
  {
    lower, upper := Quartile(Sort(values), 1), Quartile(Sort(values), 3);
    deviations := Distances(values, Median(values));
    QuartileMeans(Sort(values), 1);
    QuartileMeans(Sort(values), 3);
    hide Quartile;
    hide Median;
    hide Sort;
    hide AtQuartile;
  }

  lemma DistancesSplit(b: seq<real>, centre: real, j: nat)
    requires j < |b|
    ensures Distances(RemoveAt(b, j), centre) == RemoveAt(Distances(b, centre), j)
    ensures multiset(Distances(b, centre)) == multiset(Distances(RemoveAt(b, j), centre)) + multiset{Distances(b, centre)[j]}
  {
    var d := Distances(b, centre);
    RemovedValues(d, j);
    assert d[j] in multiset(d);
  }

  lemma {:induction false} DistancesForget(a: seq<real>, b: seq<real>, centre: real)
    requires multiset(a) == multiset(b)
    ensures multiset(Distances(a, centre)) == multiset(Distances(b, centre))
    decreases |a|
  {
    assert |a| == |multiset(a)| == |multiset(b)| == |b|;
    if a != [] {
      assert a[0] in multiset(b);
      var j :| 0 <= j < |b| && b[j] == a[0];
      RemovedValues(a, 0);
      RemovedValues(b, j);
      assert Distances(a, centre)[0] == Distances(b, centre)[j];
      DistancesForget(RemoveAt(a, 0), RemoveAt(b, j), centre);
      hide RemoveAt;
      DistancesSplit(a, centre, 0);
      DistancesSplit(b, centre, j);
      hide Distances;
    }
  }

  /** The scale depends on the values, not on their order. */
  lemma ScaleForgets(a: seq<real>, b: seq<real>)
    requires multiset(a) == multiset(b) && a != []
    ensures b != [] && Scale(a) == Scale(b)
  {
    assert |a| == |multiset(a)| == |multiset(b)| == |b|;
    SortForgets(a, b);
    DistancesForget(a, b, Median(a));
    SortForgets(Distances(a, Median(a)), Distances(b, Median(b)));
    hide Quartile;
    hide Sort;
  }
}
