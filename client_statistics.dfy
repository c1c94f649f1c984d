/** The statistics MeterDBHelper derives from a gauge's stored readings: the
    last value, the average (of daily increases for a cumulative gauge) and
    the median (for a non-cumulative gauge), written onto the gauge. */
module ClientStatistics {
  import opened Lang
  import opened ClientGaugeValue
  import opened ClientGauge
  import ClientDateUtils

  /** MeterDBHelper.DataFilter: what a query should load. */
  datatype DataFilter = BASE_DETAILS | GAUGES | GAUGE_VALUES | GAUGE_STATISTICS

  /** One row of the statistics query (ordered by timestamp, oldest first):
      the value column read as text (getString) and as a number (getDouble),
      and the timestamp column in milliseconds. */
  datatype Row = Row(text: Option<string>, number: real, time: int)

  predicate Sorted(s: seq<real>) {
    forall i, j :: 0 <= i < j < |s| ==> s[i] <= s[j]
  }

  /** The rows' numbers, in row order. */
  function Numbers(rows: seq<Row>): (ns: seq<real>)
    ensures |ns| == |rows|
  {
    if rows == [] then [] else Numbers(rows[..|rows| - 1]) + [rows[|rows| - 1].number]
  }

  lemma {:induction false} NumbersAt(rows: seq<Row>)
    ensures forall i :: 0 <= i < |rows| ==> Numbers(rows)[i] == rows[i].number
  {
    if rows != [] {
      NumbersAt(rows[..|rows| - 1]);
    }
  }

  function Total(s: seq<real>): real {
    if s == [] then 0.0 else Total(s[..|s| - 1]) + s[|s| - 1]
  }

  // ------------------------------------------------------- ordered insertion

  /** The first position whose element is not smaller than x, or |values|. */
  function InsertionPoint(values: seq<real>, x: real): (k: nat)
    ensures k <= |values|
    ensures forall j :: 0 <= j < k ==> values[j] < x
    ensures k < |values| ==> x <= values[k]
  {
    if values == [] || x <= values[0] then 0 else 1 + InsertionPoint(values[1..], x)
  }

  /** The list after the insertion loop of getGaugeStatistics: x goes before
      the first element it does not exceed, or after the last one; into an
      empty list the loop inserts nothing. */
  function Inserted(values: seq<real>, x: real): seq<real> {
    if values == [] then []
    else
      var k := InsertionPoint(values, x);
      values[..k] + [x] + values[k..]
  }

  lemma SortedConcat(a: seq<real>, b: seq<real>)
    requires Sorted(a) && Sorted(b)
    requires forall i, j :: 0 <= i < |a| && 0 <= j < |b| ==> a[i] <= b[j]
    ensures Sorted(a + b)
  {
  }

  /** Insertion into a non-empty sorted list keeps it sorted and adds exactly x. */
  lemma InsertedSortedPermutation(values: seq<real>, x: real)
    requires values != []
    ensures Sorted(values) ==> Sorted(Inserted(values, x))
    ensures multiset(Inserted(values, x)) == multiset(values) + multiset{x}
  {
    var k := InsertionPoint(values, x);
    assert Inserted(values, x) == (values[..k] + [x]) + values[k..];
    assert values == values[..k] + values[k..];
    if Sorted(values) {
      InsertedSorted(values, x, k);
    }
  }

  lemma InsertedSorted(values: seq<real>, x: real, k: nat)
    requires Sorted(values) && k == InsertionPoint(values, x)
    ensures Sorted((values[..k] + [x]) + values[k..])
  {
    var front, back := values[..k], values[k..];
    SortedConcat(front, [x]);
    forall i, j | 0 <= i < |front + [x]| && 0 <= j < |back| ensures (front + [x])[i] <= back[j] {
      assert back[j] == values[k + j] && values[k] <= values[k + j];
    }
    SortedConcat(front + [x], back);
  }

  /** The insertion loop of getGaugeStatistics, with its biggerThanIndex
      fallback for a value larger than every element. */
  method InsertOrdered(values: seq<real>, x: real) returns (r: seq<real>)
    ensures r == Inserted(values, x)
  {
    r := values;
    var biggerThanIndex := -1;
    var added := false;
    var i := 0;
    while i < |r|
      invariant 0 <= i <= |values|
      invariant !added
      invariant r == values
      invariant forall j :: 0 <= j < i ==> values[j] < x
      invariant biggerThanIndex == i - 1
    {
      if x <= r[i] {
        r := r[..i] + [x] + r[i..];
        added := true;
        break;
      } else if x > r[i] {
        biggerThanIndex := i;
      }
      i := i + 1;
    }
    if biggerThanIndex != -1 && !added {
      r := r[..biggerThanIndex + 1] + [x] + r[biggerThanIndex + 1..];
    }
  }

  /** The median list of a non-cumulative gauge: the first number as it is,
      every later one inserted in order. */
  function OrderedValues(ns: seq<real>): (r: seq<real>)
    ensures |r| == |ns|
  {
    if |ns| <= 1 then ns else Inserted(OrderedValues(ns[..|ns| - 1]), ns[|ns| - 1])
  }

  /** The median list is the rows' numbers, sorted. */
  lemma {:induction false} OrderedValuesSortedPermutation(ns: seq<real>)
    ensures Sorted(OrderedValues(ns))
    ensures multiset(OrderedValues(ns)) == multiset(ns)
  {
    if |ns| > 1 {
      var init := ns[..|ns| - 1];
      OrderedValuesSortedPermutation(init);
      InsertedSortedPermutation(OrderedValues(init), ns[|ns| - 1]);
      assert ns == init + [ns[|ns| - 1]];
    }
  }

  /** Two sorted lists holding the same numbers are the same list. */
  lemma {:induction false} SortedPermutationUnique(a: seq<real>, b: seq<real>)
    requires Sorted(a) && Sorted(b) && multiset(a) == multiset(b)
    ensures a == b
  {
    if a != [] {
      assert |b| == |a| by { assert |multiset(a)| == |multiset(b)|; }
      SortedHeads(a, b);
      SortedTail(a);
      SortedTail(b);
      SortedPermutationUnique(a[1..], b[1..]);
      assert a == [a[0]] + a[1..];
      assert b == [b[0]] + b[1..];
    }
  }

  /** Sorted lists with the same numbers start with the same number, and
      what follows it is again the same numbers. */
  lemma SortedHeads(a: seq<real>, b: seq<real>)
    requires Sorted(a) && Sorted(b) && multiset(a) == multiset(b) && a != [] && b != []
    ensures a[0] == b[0] && multiset(a[1..]) == multiset(b[1..])
  {
    assert a[0] in multiset(b);
    assert b[0] in multiset(a);
    assert a == [a[0]] + a[1..];
    assert b == [b[0]] + b[1..];
    assert multiset(a) == multiset{a[0]} + multiset(a[1..]);
    assert multiset(b) == multiset{b[0]} + multiset(b[1..]);
    assert a[0] == b[0];
    assert multiset(a[1..]) == multiset(a) - multiset{a[0]};
    assert multiset(b[1..]) == multiset(b) - multiset{b[0]};
  }

  lemma SortedTail(a: seq<real>)
    requires Sorted(a) && a != []
    ensures Sorted(a[1..])
  {
    forall i, j | 0 <= i < j < |a[1..]| ensures a[1..][i] <= a[1..][j] {
      assert a[1..][i] == a[i + 1] && a[1..][j] == a[j + 1];
    }
  }

  // -------------------------------------------------------------- the median

  /** calculateMedian: the middle element of the sorted list, or the mean of
      the two middle elements when the count is even. */
  function Median(sorted: seq<real>): (m: real)
    requires |sorted| > 0
    ensures Sorted(sorted) ==> sorted[0] <= m <= sorted[|sorted| - 1]
  {
    var n := |sorted|;
    if n % 2 == 0 then (sorted[n / 2] + sorted[n / 2 - 1]) / 2.0 else sorted[n / 2]
  }

  /** The median of a gauge depends only on which numbers were stored, not on
      the order of rows with equal timestamps. */
  lemma MedianOrderIndependent(ns: seq<real>, ms: seq<real>)
    requires |ns| > 0 && multiset(ns) == multiset(ms)
    ensures Median(OrderedValues(ns)) == Median(OrderedValues(ms))
  {
    OrderedValuesSortedPermutation(ns);
    OrderedValuesSortedPermutation(ms);
    SortedPermutationUnique(OrderedValues(ns), OrderedValues(ms));
  }

  // ----------------------------------------------------- cumulative averages

  /** A later row counts towards a cumulative gauge's average when it is dated
      differently from the row before it and shows a larger number. */
  predicate Rises(prev: Row, cur: Row) {
    cur.time != prev.time && cur.number > prev.number
  }

  /** The increase per day between two differently dated rows. */
  function DailyIncrease(prev: Row, cur: Row): real
    requires cur.time != prev.time
  {
    Rate(prev.number, prev.time, cur.number, cur.time)
  }

  /** The change of a number per day between two different dates. */
  function Rate(previousValue: real, previousDate: int, currentValue: real, currentDate: int): real
    requires currentDate != previousDate
  {
    (currentValue - previousValue) / ClientDateUtils.DurationAsDays(currentDate, previousDate)
  }

  /** A rise over a positive time is a positive rate. */
  lemma RatePositive(previousValue: real, previousDate: int, currentValue: real, currentDate: int)
    requires currentDate != previousDate && currentValue > previousValue
    ensures Rate(previousValue, previousDate, currentValue, currentDate) > 0.0
  {
    var days := ClientDateUtils.DurationAsDays(currentDate, previousDate);
    assert days > 0.0;
    var d := currentValue - previousValue;
    assert d > 0.0;
    assert d / days * days == d;
  }

  /** The sum of the daily increases over consecutive rising rows. */
  function RateSum(rows: seq<Row>): real {
    if |rows| < 2 then 0.0
    else
      var n := |rows|;
      RateSum(rows[..n - 1]) + (if Rises(rows[n - 2], rows[n - 1]) then DailyIncrease(rows[n - 2], rows[n - 1]) else 0.0)
  }

  /** The number of consecutive rising rows (cumulativeRecordCount). */
  function RateCount(rows: seq<Row>): nat {
    if |rows| < 2 then 0
    else
      var n := |rows|;
      RateCount(rows[..n - 1]) + (if Rises(rows[n - 2], rows[n - 1]) then 1 else 0)
  }

  /** Every counted daily increase is positive, so the sum of increases is zero
      exactly when nothing was counted. */
  lemma {:induction false} RateSumSign(rows: seq<Row>)
    ensures RateSum(rows) >= 0.0
    ensures RateSum(rows) == 0.0 <==> RateCount(rows) == 0
  {
    if |rows| >= 2 {
      var n := |rows|;
      RateSumSign(rows[..n - 1]);
      assert rows[..n - 1][..n - 2] == rows[..n - 2];
      if Rises(rows[n - 2], rows[n - 1]) {
        RatePositive(rows[n - 2].number, rows[n - 2].time, rows[n - 1].number, rows[n - 1].time);
      }
    }
  }

  /** The average stored for a gauge with more than one row: the mean daily
      increase for a cumulative gauge (NaN when no increase was counted, as
      0.0 / 0 is in Java), the mean of the numbers otherwise. */
  function Average(rows: seq<Row>, cumulative: bool): Double {
    if cumulative then Divide(RateSum(rows), RateCount(rows) as real)
    else Divide(Total(Numbers(rows)), |rows| as real)
  }

  /** A cumulative gauge without a single rising pair gets NaN as its average;
      with one, a positive finite average. */
  lemma CumulativeAverageDefinedness(rows: seq<Row>)
    ensures RateCount(rows) == 0 ==> Average(rows, true) == NaN
    ensures RateCount(rows) > 0 ==> Average(rows, true).Finite? && Average(rows, true).x > 0.0
  {
    RateSumSign(rows);
  }

  lemma {:induction false} TotalBounds(s: seq<real>, lo: real, hi: real)
    requires forall i :: 0 <= i < |s| ==> lo <= s[i] <= hi
    ensures |s| as real * lo <= Total(s) <= |s| as real * hi
  {
    if s != [] {
      TotalBounds(s[..|s| - 1], lo, hi);
    }
  }

  /** The average of a non-cumulative gauge lies between its smallest and its
      largest number. */
  lemma AverageWithinRange(rows: seq<Row>, lo: real, hi: real)
    requires |rows| > 0
    requires forall i :: 0 <= i < |rows| ==> lo <= rows[i].number <= hi
    ensures Average(rows, false).Finite?
    ensures lo <= Average(rows, false).x <= hi
  {
    var ns := Numbers(rows);
    NumbersAt(rows);
    TotalBounds(ns, lo, hi);
    MeanBounds(Total(ns), |rows| as real, lo, hi);
  }

  lemma MeanBounds(total: real, n: real, lo: real, hi: real)
    requires n > 0.0 && n * lo <= total <= n * hi
    ensures lo <= total / n <= hi
  {
    assert total / n * n == total;
  }

  // --------------------------------------------------------- the scan itself

  /** How the numbers of the rows grow when the scan takes one more row. */
  lemma NumbersStep(rows: seq<Row>, i: nat)
    requires i < |rows|
    ensures Numbers(rows[..i + 1]) == Numbers(rows[..i]) + [rows[i].number]
    ensures Total(Numbers(rows[..i + 1])) == Total(Numbers(rows[..i])) + rows[i].number
    ensures i == 0 ==> OrderedValues(Numbers(rows[..i + 1])) == [rows[i].number]
    ensures i > 0 ==> OrderedValues(Numbers(rows[..i + 1])) == Inserted(OrderedValues(Numbers(rows[..i])), rows[i].number)
  {
    assert rows[..i + 1][..i] == rows[..i];
    var ns := Numbers(rows[..i + 1]);
    assert ns[..i] == Numbers(rows[..i]);
  }

  /** How the daily increases grow when the scan takes one more row. */
  lemma RatesStep(rows: seq<Row>, i: nat)
    requires 0 < i < |rows|
    ensures Rises(rows[i - 1], rows[i]) ==>
      RateSum(rows[..i + 1]) == RateSum(rows[..i]) + DailyIncrease(rows[i - 1], rows[i]) &&
      RateCount(rows[..i + 1]) == RateCount(rows[..i]) + 1
    ensures !Rises(rows[i - 1], rows[i]) ==>
      RateSum(rows[..i + 1]) == RateSum(rows[..i]) && RateCount(rows[..i + 1]) == RateCount(rows[..i])
  {
    assert rows[..i + 1][..i] == rows[..i];
  }

  /** The running state of the scan over the rows. */
  datatype Aggregate = Aggregate(values: seq<real>, sum: real, rowCount: nat, recordCount: nat)

  /** The do-while loop of getGaugeStatistics over all rows. The first row is
      recognised by its position (see the findings for the -1 sentinel the
      source uses instead). */
  method Scan(rows: seq<Row>, cumulative: bool) returns (a: Aggregate)
    ensures a.rowCount == |rows|
    ensures cumulative ==> a.values == Numbers(rows) && a.sum == RateSum(rows) && a.recordCount == RateCount(rows)
    ensures !cumulative ==> a.values == OrderedValues(Numbers(rows)) && a.sum == Total(Numbers(rows))
  {
    var values: seq<real> := [];
    var sum := 0.0;
    var previousDate := 0;
    var rowCount: nat := 0;
    var recordCount: nat := 0;
    while rowCount < |rows|
      invariant rowCount <= |rows|
      invariant rowCount > 0 ==> previousDate == rows[rowCount - 1].time
      invariant cumulative && rowCount > 0 ==> |values| == rowCount && values[rowCount - 1] == rows[rowCount - 1].number
      invariant cumulative ==>
        values == Numbers(rows[..rowCount]) && sum == RateSum(rows[..rowCount]) && recordCount == RateCount(rows[..rowCount])
      invariant !cumulative ==>
        values == OrderedValues(Numbers(rows[..rowCount])) && sum == Total(Numbers(rows[..rowCount]))
    {
      var i := rowCount;
      var currentValue := rows[i].number;
      var currentDate := rows[i].time;
      NumbersStep(rows, i);
      if i == 0 {
        assert rows[..i + 1] == [rows[0]];
        values := values + [currentValue];
        if !cumulative {
          sum := sum + currentValue;
        }
      } else if cumulative {
        RatesStep(rows, i);
        var previousValue := values[|values| - 1];
        values := values + [currentValue];
        if currentDate != previousDate && currentValue > previousValue {
          var average := Rate(previousValue, previousDate, currentValue, currentDate);
          sum := sum + average;
          recordCount := recordCount + 1;
        }
        assert values == Numbers(rows[..i + 1]) && sum == RateSum(rows[..i + 1]) && recordCount == RateCount(rows[..i + 1]);
      } else {
        values := InsertOrdered(values, currentValue);
        sum := sum + currentValue;
        assert values == OrderedValues(Numbers(rows[..i + 1])) && sum == Total(Numbers(rows[..i + 1]));
      }
      previousDate := currentDate;
      rowCount := rowCount + 1;
    }
    assert rows[..rowCount] == rows;
    a := Aggregate(values, sum, rowCount, recordCount);
  }

  /** Whether the filters ask for statistics (a null filter set does not). */
  predicate StatisticsRequested(filters: Option<set<DataFilter>>) {
    filters.Some? && GAUGE_STATISTICS in filters.value
  }

  /** getGaugeStatistics, given the rows of the gauge's readings (oldest first)
      and doubleValueToDisplayString as `format`. */
  method GetGaugeStatistics(gauge: Gauge?, filters: Option<set<DataFilter>>, rows: seq<Row>,
                            format: Double -> string)
    requires gauge != null && StatisticsRequested(filters) ==> gauge.dataType.Some?
    modifies (if gauge == null then {} else {gauge})`lastValue
    modifies (if gauge == null then {} else {gauge})`average
    modifies (if gauge == null then {} else {gauge})`median
    ensures gauge != null ==>
      gauge.values == old(gauge.values) && gauge.id == old(gauge.id) && gauge.dataType == old(gauge.dataType) &&
      gauge.cumulative == old(gauge.cumulative) && gauge.min == old(gauge.min) && gauge.max == old(gauge.max) &&
      gauge.options == old(gauge.options) && gauge.minIncrease == old(gauge.minIncrease) &&
      gauge.maxIncrease == old(gauge.maxIncrease)
    ensures gauge != null && (!StatisticsRequested(filters) || !gauge.dataType.value.IsNumeric() || |rows| == 0) ==>
      gauge.lastValue == old(gauge.lastValue) && gauge.average == old(gauge.average) && gauge.median == old(gauge.median)
    ensures gauge != null && StatisticsRequested(filters) && gauge.dataType.value.IsNumeric() && |rows| > 0 ==>
      StatisticsStored(gauge, old(gauge.average), old(gauge.median), rows, format)
  {
    if gauge == null {
      return;
    }
    if !StatisticsRequested(filters) {
      return;
    }
    if !gauge.dataType.value.IsNumeric() {
      return;
    }
    if |rows| > 0 {
      StoreStatistics(gauge, rows, format);
    }
  }

  /** What getGaugeStatistics leaves on a numeric gauge with at least one row:
      one row gives the last value as stored text and nothing else; more rows
      give the last number formatted, the average, and for a non-cumulative
      gauge the median of the sorted numbers. */
  ghost predicate StatisticsStored(gauge: Gauge, average: Option<Reading>, median: Option<Reading>,
                                   rows: seq<Row>, format: Double -> string)
    reads gauge
    requires |rows| > 0
  {
    if |rows| == 1 then
      gauge.lastValue == Some(Reading(rows[0].text, Some(Date(rows[0].time)))) &&
      gauge.average == average && gauge.median == median
    else
      gauge.lastValue == Some(Reading(Some(format(Finite(rows[|rows| - 1].number))), Some(Date(rows[|rows| - 1].time)))) &&
      gauge.average == Some(Reading(Some(format(Average(rows, gauge.IsCumulative()))), None)) &&
      (gauge.IsCumulative() ==> gauge.median == median) &&
      (!gauge.IsCumulative() ==>
         gauge.median == Some(Reading(Some(format(Finite(Median(OrderedValues(Numbers(rows)))))), None)))
  }

  /** The writes getGaugeStatistics makes once it has rows: only the last
      value, the average and the median change. */
  method StoreStatistics(gauge: Gauge, rows: seq<Row>, format: Double -> string)
    requires |rows| > 0
    modifies gauge`lastValue, gauge`average, gauge`median
    ensures StatisticsStored(gauge, old(gauge.average), old(gauge.median), rows, format)
  {
    if |rows| == 1 {
      gauge.lastValue := Some(Reading(rows[0].text, Some(Date(rows[0].time))));
    } else {
      var lastValue, average, median := Summarise(rows, gauge.IsCumulative(), format);
      gauge.lastValue := Some(lastValue);
      gauge.average := Some(average);
      if median.Some? {
        gauge.median := median;
      }
    }
  }

  /** The readings getGaugeStatistics stores for more than one row: the last
      number, the average and, for a non-cumulative gauge, the median. */
  method Summarise(rows: seq<Row>, cumulative: bool, format: Double -> string)
    returns (lastValue: Reading, average: Reading, median: Option<Reading>)
    requires |rows| > 1
    ensures lastValue == Reading(Some(format(Finite(rows[|rows| - 1].number))), Some(Date(rows[|rows| - 1].time)))
    ensures average == Reading(Some(format(Average(rows, cumulative))), None)
    ensures cumulative <==> median.None?
    ensures !cumulative ==> median == Some(Reading(Some(format(Finite(Median(OrderedValues(Numbers(rows)))))), None))
  {
    var a := Scan(rows, cumulative);
    var last := rows[|rows| - 1];
    lastValue := Reading(Some(format(Finite(last.number))), Some(Date(last.time)));
    if cumulative {
      average := Reading(Some(format(Divide(a.sum, a.recordCount as real))), None);
      median := None;
    } else {
      average := Reading(Some(format(Divide(a.sum, a.rowCount as real))), None);
      median := Some(Reading(Some(format(Finite(Median(a.values)))), None));
    }
  }

  // ------------------------------------------------ the -1 sentinel, as written

  /** The median list as the source builds it: a row counts as the first one
      while the remembered first date is still the sentinel -1, so a leading
      row dated -1 ms makes the next row "first" as well and it is appended
      unsorted. */
  function SentinelOrderedValues(rows: seq<Row>, values: seq<real>, firstDate: int): seq<real> {
    if rows == [] then values
    else if firstDate == -1 then SentinelOrderedValues(rows[1..], values + [rows[0].number], rows[0].time)
    else SentinelOrderedValues(rows[1..], Inserted(values, rows[0].number), firstDate)
  }

  /** Three readings dated -1 ms (31 December 1969, 23:59:59.999 UTC) with
      the numbers 5, 1 and 3. */
  function CollisionRows(): seq<Row> {
    [Row(None, 5.0, -1), Row(None, 1.0, -1), Row(None, 3.0, -1)]
  }

  /** On those rows the source keeps the list [5, 1, 3], unsorted, and reports
      1 as the median. */
  lemma SentinelCollision()
    ensures SentinelOrderedValues(CollisionRows(), [], -1) == [5.0, 1.0, 3.0]
    ensures !Sorted(SentinelOrderedValues(CollisionRows(), [], -1))
    ensures Median(SentinelOrderedValues(CollisionRows(), [], -1)) == 1.0
  {
    SentinelTrace();
    var sv: seq<real> := [5.0, 1.0, 3.0];
    assert sv[0] > sv[1];
  }

  /** The three steps of the source's scan over those rows: each row finds
      the sentinel still in place and is appended. */
  lemma SentinelTrace()
    ensures SentinelOrderedValues(CollisionRows(), [], -1) == [5.0, 1.0, 3.0]
  {
    var rows := CollisionRows();
    assert rows[1..] == [Row(None, 1.0, -1), Row(None, 3.0, -1)];
    assert rows[1..][1..] == [Row(None, 3.0, -1)];
    assert [] + [5.0] == [5.0] && [5.0] + [1.0] == [5.0, 1.0] && [5.0, 1.0] + [3.0] == [5.0, 1.0, 3.0];
    assert SentinelOrderedValues(rows, [], -1) == SentinelOrderedValues(rows[1..], [5.0], -1);
    assert SentinelOrderedValues(rows, [], -1) == SentinelOrderedValues(rows[1..][1..], [5.0, 1.0], -1);
  }

  /** With the first row recognised by position, the same rows give the
      sorted list [1, 3, 5] and the median 3. */
  lemma CollisionRowsCorrected()
    ensures OrderedValues(Numbers(CollisionRows())) == [1.0, 3.0, 5.0]
    ensures Median(OrderedValues(Numbers(CollisionRows()))) == 3.0
  {
    CollisionNumbers();
    var ns: seq<real> := [5.0, 1.0, 3.0];
    assert ns[..2] == [5.0, 1.0] && ns[..2][..1] == [5.0];
    CollisionInsertions();
    assert OrderedValues(ns[..2]) == [1.0, 5.0];
    assert OrderedValues(ns) == Inserted(OrderedValues(ns[..2]), 3.0);
  }

  lemma CollisionNumbers()
    ensures Numbers(CollisionRows()) == [5.0, 1.0, 3.0]
  {
    NumbersAt(CollisionRows());
  }

  /** The two insertions the corrected scan makes on those rows. */
  lemma CollisionInsertions()
    ensures Inserted([5.0], 1.0) == [1.0, 5.0]
    ensures Inserted([1.0, 5.0], 3.0) == [1.0, 3.0, 5.0]
  {
    assert InsertionPoint([5.0], 1.0) == 0;
    assert [5.0][..0] == [] && [5.0][0..] == [5.0];
    assert [1.0, 5.0][1..] == [5.0];
    assert InsertionPoint([1.0, 5.0], 3.0) == 1;
    assert [1.0, 5.0][..1] == [1.0];
  }

  /** The sum and count of daily increases as the source's cumulative branch
      accumulates them: a row is taken for the first one while the remembered
      first date is still -1, and every other row is compared with the row
      before it. */
  function SentinelRates(rows: seq<Row>, firstDate: int, previousDate: int, previousValue: real,
                         sum: real, count: nat): (real, nat)
  {
    if rows == [] then (sum, count)
    else
      var cur := rows[0];
      if firstDate == -1 then SentinelRates(rows[1..], cur.time, cur.time, cur.number, sum, count)
      else if cur.time != previousDate && cur.number > previousValue then
        SentinelRates(rows[1..], firstDate, cur.time, cur.number,
                      sum + Rate(previousValue, previousDate, cur.number, cur.time), count + 1)
      else SentinelRates(rows[1..], firstDate, cur.time, cur.number, sum, count)
  }

  /** The average the source stores for a cumulative gauge: sum / count in
      Java's double arithmetic. */
  function SentinelCumulativeAverage(rows: seq<Row>): Double {
    var (sum, count) := SentinelRates(rows, -1, 0, 0.0, 0.0, 0);
    Divide(sum, count as real)
  }

  /** A reading dated -1 ms followed by one a day later with a larger number. */
  function CumulativeCollisionRows(): seq<Row> {
    [Row(None, 1.0, -1), Row(None, 2.0, 86399999)]
  }

  /** On those rows the source counts no rise, since the second row also finds
      the sentinel in place, and stores NaN as the average; with the first row
      recognised by position the one rise of 1 per day is counted. */
  lemma CumulativeSentinelCollision()
    ensures SentinelCumulativeAverage(CumulativeCollisionRows()) == NaN
    ensures Average(CumulativeCollisionRows(), true) == Finite(1.0)
  {
  }
}
