/** The chart helpers of the web view: the legend's nearest-point search,
    the ISO 8601 timestamp parser, and the construction of the chart series
    (one dataset per numeric gauge, with its bounds and its difference bars). */
module WebFlotter {
  import opened Lang

  /** One point of a chart: x is a time in ms, y the reading. */
  datatype ChartPoint = ChartPoint(x: real, y: real)

  // ---------------------------------------------------------------------
  // legendLabelFormatter
  // ---------------------------------------------------------------------

  /** The legend entry of the point nearest the cursor. */
  datatype Legend = Legend(caption: string, value: real, date: real, unit: string, index: int)

  /** Below this many indexes the binary search hands over to a linear scan. */
  const ScanWidth: int := 32

  predicate XSorted(data: seq<ChartPoint>) {
    forall i, j :: 0 <= i < j < |data| ==> data[i].x <= data[j].x
  }

  /** legendLabelFormatter: no entry without a cursor position `pos` (its x);
      otherwise a binary search narrows the indexes to a window [lo, hi] of
      fewer than 32, and a scan from lo stops at the first point at or after
      the cursor, or at hi. The series must not be empty (an empty one
      makes the source index an undefined point). */
  method LegendLabel(caption: string, data: seq<ChartPoint>, unit: string, pos: Option<real>)
    returns (r: Option<Legend>, ghost lo: int, ghost hi: int)
    requires pos.Some? ==> |data| > 0
    ensures r.None? <==> pos.None?
    ensures r.Some? ==>
      var j := r.value.index;
      0 <= lo <= j <= hi < |data| && hi - lo < ScanWidth &&
      r.value == Legend(caption, data[j].y, data[j].x, unit, j) &&
      (forall k :: lo <= k < j ==> data[k].x < pos.value) &&
      (j < hi ==> data[j].x >= pos.value)
    ensures r.Some? && XSorted(data) ==>
      var j := r.value.index;
      (data[j].x >= pos.value ==> forall k :: 0 <= k < j ==> data[k].x < pos.value) &&
      (data[j].x < pos.value ==> forall k :: j < k < |data| ==> data[k].x >= pos.value)
  {
    if pos.None? {
      return None, 0, 0;
    }
    var p := pos.value;
    var imin, imax := 0, |data| - 1;
    while imax - imin >= ScanWidth
      invariant 0 <= imin <= imax < |data|
      invariant XSorted(data) ==> forall k :: 0 <= k < imin ==> data[k].x < p
      invariant XSorted(data) ==> forall k :: imax < k < |data| ==> data[k].x >= p
      decreases imax - imin
    {
      var imid := (imax - imin) / 2 + imin;
      if data[imid].x < p {
        imin := imid + 1;
      } else {
        imax := imid - 1;
      }
    }
    var j := imin;
    while j < imax && data[j].x < p
      invariant imin <= j <= imax
      invariant forall k :: imin <= k < j ==> data[k].x < p
    {
      j := j + 1;
    }
    r, lo, hi := Some(Legend(caption, data[j].y, data[j].x, unit, j)), imin, imax;
  }

  // ---------------------------------------------------------------------
  // parseDateFromISO8601
  // ---------------------------------------------------------------------

  predicate IsDigit(c: char) {
    '0' <= c <= '9'
  }

  predicate AllDigits(s: string) {
    forall i :: 0 <= i < |s| ==> IsDigit(s[i])
  }

  /** The length of the run of digits at the start of `s`. */
  function DigitPrefix(s: string): (n: nat)
    ensures n <= |s| && AllDigits(s[..n])
    ensures n < |s| ==> !IsDigit(s[n])
  {
    if s == [] || !IsDigit(s[0]) then 0
    else
      var n := DigitPrefix(s[1..]);
      assert s[..n + 1] == [s[0]] + s[1..][..n];
      n + 1
  }

  /** The matches of /\d+/g: the maximal runs of digits, in order. */
  function DigitRuns(s: string): (runs: seq<string>)
    ensures forall k :: 0 <= k < |runs| ==> |runs[k]| > 0 && AllDigits(runs[k])
    decreases |s|
  {
    if s == [] then []
    else if !IsDigit(s[0]) then DigitRuns(s[1..])
    else
      var n := DigitPrefix(s);
      [s[..n]] + DigitRuns(s[n..])
  }

  function DigitValue(c: char): real
    requires IsDigit(c)
  {
    (c as int - '0' as int) as real
  }

  /** Number() of a string of digits: its decimal value; the empty string is 0. */
  function DecimalValue(d: string): (v: real)
    requires AllDigits(d)
    ensures v >= 0.0
  {
    if d == [] then 0.0
    else DecimalValue(d[..|d| - 1]) * 10.0 + DigitValue(d[|d| - 1])
  }

  /** String.prototype.substring(start, end) for 0 <= start <= end: both
      bounds are clamped to the length. */
  function Substring(s: string, start: nat, end: nat): (t: string)
    requires start <= end
    ensures |t| <= end - start
  {
    var b := if end <= |s| then end else |s|;
    var a := if start <= b then start else b;
    s[a..b]
  }

  lemma SubstringOfDigits(d: string, start: nat, end: nat)
    requires start <= end && AllDigits(d)
    ensures AllDigits(Substring(d, start, end))
  {
  }

  /** The UTC offset written as hhmm, in ms: (hh + mm/60) hours. */
  function Offset(digits: string): (ms: real)
    requires AllDigits(digits)
    ensures ms >= 0.0
  {
    SubstringOfDigits(digits, 0, 2);
    SubstringOfDigits(digits, 2, 4);
    (DecimalValue(Substring(digits, 0, 2)) + DecimalValue(Substring(digits, 2, 4)) / 60.0) * 3600000.0
  }

  /** Four digits hhmm give hh hours and mm minutes. */
  lemma {:induction false} OffsetOfFourDigits(d: string)
    requires |d| == 4 && AllDigits(d)
    ensures Offset(d) ==
      (10.0 * DigitValue(d[0]) + DigitValue(d[1])) * 3600000.0 +
      (10.0 * DigitValue(d[2]) + DigitValue(d[3])) * 60000.0
  {
    var hh, mm := Substring(d, 0, 2), Substring(d, 2, 4);
    assert hh == [d[0], d[1]] && mm == [d[2], d[3]];
    assert hh[..1] == [d[0]] && mm[..1] == [d[2]];
    assert DecimalValue(hh) == 10.0 * DigitValue(d[0]) + DigitValue(d[1]) by {
      assert DecimalValue(hh[..1]) == DigitValue(d[0]) by {
        assert hh[..1][..0] == [];
      }
    }
    assert DecimalValue(mm) == 10.0 * DigitValue(d[2]) + DigitValue(d[3]) by {
      assert DecimalValue(mm[..1]) == DigitValue(d[2]) by {
        assert mm[..1][..0] == [];
      }
    }
  }

  /** parseDateFromISO8601: `utc` is Date.UTC applied to the first six
      digit runs (year, month, day, hours, minutes, seconds). A seventh run
      is read as the offset hhmm; the character at position 19 says which
      way it goes: "+" means the local time is ahead of UTC, so the offset
      is subtracted, "-" adds it, and anything else ignores it. */
  function ParseDate(s: string, utc: seq<string> -> real): (t: real)
    ensures |DigitRuns(s)| <= 6 ==> t == utc(DigitRuns(s))
  {
    var parts := DigitRuns(s);
    var isoTime := utc(parts);
    if |parts| > 6 then
      var offset := Offset(parts[6]);
      var sign := Substring(s, 19, 20);
      if sign == "+" then isoTime - offset
      else if sign == "-" then isoTime + offset
      else isoTime
    else isoTime
  }

  /** A text without digits has no digit runs. */
  lemma {:induction false} DigitRunsWithoutDigits(s: string)
    requires forall i :: 0 <= i < |s| ==> !IsDigit(s[i])
    ensures DigitRuns(s) == []
    decreases |s|
  {
    if s != [] {
      DigitRunsWithoutDigits(s[1..]);
    }
  }

  /** A date text without digits is handed to `utc` as an empty list of
      parts; the source's `match` returns null there and indexing it throws. */
  lemma ParseDateWithoutDigits(s: string, utc: seq<string> -> real)
    requires forall i :: 0 <= i < |s| ==> !IsDigit(s[i])
    ensures ParseDate(s, utc) == utc([])
  {
    DigitRunsWithoutDigits(s);
  }

  /** The three cases of the offset, as section 4.2.5.1 of ISO 8601 defines
      the sign of a UTC offset. */
  lemma ParseDateOffset(s: string, utc: seq<string> -> real)
    ensures var parts := DigitRuns(s);
      (|parts| <= 6 ==> ParseDate(s, utc) == utc(parts)) &&
      (|parts| > 6 && |s| > 19 && s[19] == '+' ==> ParseDate(s, utc) == utc(parts) - Offset(parts[6])) &&
      (|parts| > 6 && |s| > 19 && s[19] == '-' ==> ParseDate(s, utc) == utc(parts) + Offset(parts[6])) &&
      (|parts| > 6 && (|s| <= 19 || (s[19] != '+' && s[19] != '-')) ==> ParseDate(s, utc) == utc(parts))
  {
    if |s| > 19 {
      assert Substring(s, 19, 20) == [s[19]];
    }
  }

  // ---------------------------------------------------------------------
  // datasetBuilder and seriesBuilder
  // ---------------------------------------------------------------------

  /** One reading as the service sends it. */
  datatype ValueJson = ValueJson(updated: string, value: string)

  /** A gauge as the service sends it; the value list may be missing. */
  datatype GaugeJson = GaugeJson(name: string, unit: string, dataType: string, cumulative: bool,
                                 gaugeValues: Option<seq<ValueJson>>)

  datatype MeterJson = MeterJson(gauges: seq<GaugeJson>)

  /** How a reading becomes a point: its timestamp text by `date` and its
      value text by `number` (Number(), foreign). */
  datatype Conversions = Conversions(date: string -> real, number: string -> real)

  /** The conversions datasetBuilder uses: parseDateFromISO8601 over Date.UTC. */
  function Iso8601(utc: seq<string> -> real, number: string -> real): Conversions {
    Conversions(s => ParseDate(s, utc), number)
  }

  /** A chart dataset: the points, their bounds and the y axis they are drawn on. */
  datatype Dataset = Dataset(caption: string, unit: string, yaxis: int, data: seq<ChartPoint>,
                             minX: real, maxX: real, minY: real, maxY: real)

  /** One bar of the detailed chart: no height for the first reading. */
  datatype Bar = Bar(x: real, height: Option<Double>)

  const MillisInDay: real := 86400000.0

  function PointOf(v: ValueJson, conv: Conversions): ChartPoint {
    ChartPoint(conv.date(v.updated), conv.number(v.value))
  }

  /** With the source's conversions, a point's time is the parsed timestamp. */
  lemma PointOfIso8601(v: ValueJson, utc: seq<string> -> real, number: string -> real)
    ensures PointOf(v, Iso8601(utc, number)) == ChartPoint(ParseDate(v.updated, utc), number(v.value))
  {
  }

  function PointsOf(vs: seq<ValueJson>, conv: Conversions): (ps: seq<ChartPoint>)
    ensures |ps| == |vs| && forall k :: 0 <= k < |vs| ==> ps[k] == PointOf(vs[k], conv)
  {
    seq(|vs|, k requires 0 <= k < |vs| => PointOf(vs[k], conv))
  }

  function Xs(ps: seq<ChartPoint>): (xs: seq<real>)
    ensures |xs| == |ps| && forall k :: 0 <= k < |ps| ==> xs[k] == ps[k].x
  {
    seq(|ps|, k requires 0 <= k < |ps| => ps[k].x)
  }

  function Ys(ps: seq<ChartPoint>): (ys: seq<real>)
    ensures |ys| == |ps| && forall k :: 0 <= k < |ps| ==> ys[k] == ps[k].y
  {
    seq(|ps|, k requires 0 <= k < |ps| => ps[k].y)
  }

  /** The running minimum of a non-empty list, from the front. */
  function Least(xs: seq<real>): (m: real)
    requires |xs| > 0
    ensures forall k :: 0 <= k < |xs| ==> m <= xs[k]
    ensures exists k :: 0 <= k < |xs| && xs[k] == m
  {
    if |xs| == 1 then xs[0]
    else
      var m := Least(xs[..|xs| - 1]);
      if xs[|xs| - 1] < m then xs[|xs| - 1] else m
  }

  /** The running maximum of a non-empty list, from the front. */
  function Greatest(xs: seq<real>): (m: real)
    requires |xs| > 0
    ensures forall k :: 0 <= k < |xs| ==> xs[k] <= m
    ensures exists k :: 0 <= k < |xs| && xs[k] == m
  {
    if |xs| == 1 then xs[0]
    else
      var m := Greatest(xs[..|xs| - 1]);
      if xs[|xs| - 1] > m then xs[|xs| - 1] else m
  }

  /** The bar of the detailed chart at reading k: none for the first
      reading, then the difference from the previous reading, divided by the
      elapsed days for a cumulative gauge. */
  function BarAt(ps: seq<ChartPoint>, k: nat, cumulative: bool): Bar
    requires k < |ps|
  {
    if k == 0 then Bar(ps[0].x, None)
    else
      var diff := ps[k].y - ps[k - 1].y;
      if cumulative then Bar(ps[k].x, Some(Divide(diff, (ps[k].x - ps[k - 1].x) / MillisInDay)))
      else Bar(ps[k].x, Some(Finite(diff)))
  }

  /** The bars of the detailed chart, one per reading. */
  function BarsOf(ps: seq<ChartPoint>, cumulative: bool): (bars: seq<Bar>)
    ensures |bars| == |ps|
    ensures forall k :: 0 <= k < |ps| ==> bars[k] == BarAt(ps, k, cumulative)
  {
    seq(|ps|, k requires 0 <= k < |ps| => BarAt(ps, k, cumulative))
  }

  /** Whether datasetBuilder yields a dataset: the gauge has readings. */
  predicate HasReadings(g: GaugeJson) {
    g.gaugeValues.Some? && |g.gaugeValues.value| > 0
  }

  /** What datasetBuilder yields for a gauge: nothing without readings,
      otherwise its points in order with their bounds, on the given axis. */
  function Built(g: GaugeJson, chartIndex: int, conv: Conversions): (d: Option<Dataset>)
    ensures d.Some? <==> HasReadings(g)
    ensures d.Some? ==> |d.value.data| == |g.gaugeValues.value|
  {
    if !HasReadings(g) then None
    else
      var ps := PointsOf(g.gaugeValues.value, conv);
      Some(Dataset(g.name, g.unit, chartIndex, ps, Least(Xs(ps)), Greatest(Xs(ps)), Least(Ys(ps)), Greatest(Ys(ps))))
  }

  /** The bounds of a dataset enclose every point and each is attained. */
  lemma BuiltBounds(g: GaugeJson, chartIndex: int, conv: Conversions)
    requires HasReadings(g)
    ensures var d := Built(g, chartIndex, conv).value;
      d.yaxis == chartIndex &&
      (forall k :: 0 <= k < |d.data| ==>
        d.minX <= d.data[k].x <= d.maxX && d.minY <= d.data[k].y <= d.maxY) &&
      (exists k :: 0 <= k < |d.data| && d.data[k].x == d.minX) &&
      (exists k :: 0 <= k < |d.data| && d.data[k].x == d.maxX) &&
      (exists k :: 0 <= k < |d.data| && d.data[k].y == d.minY) &&
      (exists k :: 0 <= k < |d.data| && d.data[k].y == d.maxY)
  {
    var d := Built(g, chartIndex, conv).value;
    var xs, ys := Xs(d.data), Ys(d.data);
    var k1 :| 0 <= k1 < |xs| && xs[k1] == d.minX;
    var k2 :| 0 <= k2 < |xs| && xs[k2] == d.maxX;
    var k3 :| 0 <= k3 < |ys| && ys[k3] == d.minY;
    var k4 :| 0 <= k4 < |ys| && ys[k4] == d.maxY;
    assert d.data[k1].x == d.minX && d.data[k2].x == d.maxX;
    assert d.data[k3].y == d.minY && d.data[k4].y == d.maxY;
  }

  /** minX..maxX and minY..maxY enclose every point, and each bound is
      attained by some point. */
  ghost predicate Bounded(data: seq<ChartPoint>, minX: real, maxX: real, minY: real, maxY: real) {
    (forall k :: 0 <= k < |data| ==> minX <= data[k].x <= maxX && minY <= data[k].y <= maxY) &&
    (exists k :: 0 <= k < |data| && data[k].x == minX) &&
    (exists k :: 0 <= k < |data| && data[k].x == maxX) &&
    (exists k :: 0 <= k < |data| && data[k].y == minY) &&
    (exists k :: 0 <= k < |data| && data[k].y == maxY)
  }

  /** One more point widens the bounds as datasetBuilder's Math.min and Math.max do. */
  lemma Widen(data: seq<ChartPoint>, p: ChartPoint, minX: real, maxX: real, minY: real, maxY: real)
    requires Bounded(data, minX, maxX, minY, maxY)
    ensures Bounded(data + [p],
      if p.x < minX then p.x else minX, if p.x > maxX then p.x else maxX,
      if p.y < minY then p.y else minY, if p.y > maxY then p.y else maxY)
  {
    var all := data + [p];
    assert all[|data|] == p;
    var k1 :| 0 <= k1 < |data| && data[k1].x == minX;
    var k2 :| 0 <= k2 < |data| && data[k2].x == maxX;
    var k3 :| 0 <= k3 < |data| && data[k3].y == minY;
    var k4 :| 0 <= k4 < |data| && data[k4].y == maxY;
    assert all[k1] == data[k1] && all[k2] == data[k2] && all[k3] == data[k3] && all[k4] == data[k4];
  }

  lemma BoundedExtremes(data: seq<ChartPoint>, minX: real, maxX: real, minY: real, maxY: real)
    requires |data| > 0 && Bounded(data, minX, maxX, minY, maxY)
    ensures minX == Least(Xs(data)) && maxX == Greatest(Xs(data))
    ensures minY == Least(Ys(data)) && maxY == Greatest(Ys(data))
  {
    var xs, ys := Xs(data), Ys(data);
    var k1 :| 0 <= k1 < |data| && data[k1].x == minX;
    var k2 :| 0 <= k2 < |data| && data[k2].x == maxX;
    var k3 :| 0 <= k3 < |data| && data[k3].y == minY;
    var k4 :| 0 <= k4 < |data| && data[k4].y == maxY;
    assert xs[k1] == minX && xs[k2] == maxX && ys[k3] == minY && ys[k4] == maxY;
    BoundsAreExtremes(xs, minX, maxX);
    BoundsAreExtremes(ys, minY, maxY);
  }

  /** A lower bound that is attained is the least value, and an upper
      bound that is attained the greatest. */
  lemma BoundsAreExtremes(xs: seq<real>, lo: real, hi: real)
    requires |xs| > 0
    requires forall k :: 0 <= k < |xs| ==> lo <= xs[k] <= hi
    requires (exists k :: 0 <= k < |xs| && xs[k] == lo) && (exists k :: 0 <= k < |xs| && xs[k] == hi)
    ensures Least(xs) == lo && Greatest(xs) == hi
  {
  }

  lemma BarsAppend(ps: seq<ChartPoint>, p: ChartPoint, cumulative: bool)
    ensures BarsOf(ps + [p], cumulative) == BarsOf(ps, cumulative) + [BarAt(ps + [p], |ps|, cumulative)]
  {
    var qs := ps + [p];
    assert forall k :: 0 <= k < |ps| ==> BarAt(qs, k, cumulative) == BarAt(ps, k, cumulative) by {
      forall k | 0 <= k < |ps|
        ensures BarAt(qs, k, cumulative) == BarAt(ps, k, cumulative)
      {
        assert qs[k] == ps[k];
        if k > 0 {
          assert qs[k - 1] == ps[k - 1];
        }
      }
    }
  }

  /** datasetBuilder: the dataset of the gauge, and for a gauge that is not
      of type STRING the bars of its detailed chart, whose x range is the
      dataset's. */
  method DatasetBuilder(g: GaugeJson, chartIndex: int, conv: Conversions)
    returns (d: Option<Dataset>, bars: Option<seq<Bar>>)
    ensures d == Built(g, chartIndex, conv)
    ensures bars.Some? <==> d.Some? && g.dataType != "STRING"
    ensures bars.Some? ==> bars.value == BarsOf(d.value.data, g.cumulative)
  {
    if g.gaugeValues.None? || |g.gaugeValues.value| < 1 {
      return None, None;
    }
    var data, minX, maxX, minY, maxY, detailed :=
      ReadPoints(g.gaugeValues.value, g.dataType != "STRING", g.cumulative, conv);
    d := Some(Dataset(g.name, g.unit, chartIndex, data, minX, maxX, minY, maxY));
    bars := if g.dataType != "STRING" then Some(detailed) else None;
  }

  /** The bar of the point after `previous`: the difference of the values,
      per day for a cumulative gauge. */
  method NextBar(data: seq<ChartPoint>, i: nat, previous: ChartPoint, point: ChartPoint, cumulative: bool)
    returns (bar: Bar)
    requires 0 < i < |data| && data[i - 1] == previous && data[i] == point
    ensures bar == BarAt(data, i, cumulative)
  {
    var diff := point.y - previous.y;
    if cumulative {
      bar := Bar(point.x, Some(Divide(diff, (point.x - previous.x) / MillisInDay)));
    } else {
      bar := Bar(point.x, Some(Finite(diff)));
    }
  }

  /** The first `i` readings have been turned into the points `data`. */
  ghost predicate PointsRead(vs: seq<ValueJson>, i: nat, conv: Conversions, data: seq<ChartPoint>) {
    i <= |vs| && |data| == i && forall k :: 0 <= k < i ==> data[k] == PointOf(vs[k], conv)
  }

  /** One pass of the loop of datasetBuilder: the next reading's point is
      appended, widens the bounds and, when `numeric`, adds its bar. */
  method ReadNext(vs: seq<ValueJson>, i: nat, numeric: bool, cumulative: bool, conv: Conversions,
                  data0: seq<ChartPoint>, bounds0: (real, real, real, real), detailed0: seq<Bar>, previous: ChartPoint)
    returns (data: seq<ChartPoint>, bounds: (real, real, real, real), detailed: seq<Bar>, point: ChartPoint)
    requires 0 < i < |vs| && PointsRead(vs, i, conv, data0) && previous == data0[i - 1]
    requires Bounded(data0, bounds0.0, bounds0.1, bounds0.2, bounds0.3)
    requires numeric ==> detailed0 == BarsOf(data0, cumulative)
    ensures PointsRead(vs, i + 1, conv, data) && point == data[i]
    ensures Bounded(data, bounds.0, bounds.1, bounds.2, bounds.3)
    ensures numeric ==> detailed == BarsOf(data, cumulative)
  {
    point := PointOf(vs[i], conv);
    data := data0 + [point];
    var (minX, maxX, minY, maxY) := bounds0;
    Widen(data0, point, minX, maxX, minY, maxY);
    minX := if point.x < minX then point.x else minX;
    maxX := if point.x > maxX then point.x else maxX;
    minY := if point.y < minY then point.y else minY;
    maxY := if point.y > maxY then point.y else maxY;
    bounds := (minX, maxX, minY, maxY);
    detailed := detailed0;
    if numeric {
      var bar := NextBar(data, i, previous, point, cumulative);
      detailed := detailed + [bar];
      BarsAppend(data0, point, cumulative);
    }
  }

  /** The loop of datasetBuilder over the readings: each point is appended
      and widens the bounds, and, when `numeric` (the gauge is not of type
      STRING), adds its bar to the detailed chart. */
  method ReadPoints(vs: seq<ValueJson>, numeric: bool, cumulative: bool, conv: Conversions)
    returns (data: seq<ChartPoint>, minX: real, maxX: real, minY: real, maxY: real, detailed: seq<Bar>)
    requires |vs| > 0
    ensures data == PointsOf(vs, conv)
    ensures minX == Least(Xs(data)) && maxX == Greatest(Xs(data))
    ensures minY == Least(Ys(data)) && maxY == Greatest(Ys(data))
    ensures numeric ==> detailed == BarsOf(data, cumulative)
  {
    var first := PointOf(vs[0], conv);
    data := [first];
    var bounds := (first.x, first.x, first.y, first.y);
    assert Bounded(data, bounds.0, bounds.1, bounds.2, bounds.3) by {
      assert data[0] == first;
    }
    detailed := [Bar(first.x, None)];
    var previous := first;
    var i := 1;
    while i < |vs|
      invariant 1 <= i <= |vs|
      invariant PointsRead(vs, i, conv, data) && previous == data[i - 1]
      invariant Bounded(data, bounds.0, bounds.1, bounds.2, bounds.3)
      invariant numeric ==> detailed == BarsOf(data, cumulative)
    {
      data, bounds, detailed, previous := ReadNext(vs, i, numeric, cumulative, conv, data, bounds, detailed, previous);
      i := i + 1;
    }
    assert data == PointsOf(vs, conv);
    minX, maxX, minY, maxY := bounds.0, bounds.1, bounds.2, bounds.3;
    BoundedExtremes(data, minX, maxX, minY, maxY);
  }

  /** The gauges of the meters, in order. */
  function AllGauges(meters: seq<MeterJson>): seq<GaugeJson>
  {
    if meters == [] then [] else AllGauges(meters[..|meters| - 1]) + meters[|meters| - 1].gauges
  }

  /** seriesBuilder emits a dataset for a gauge exactly when it is not of
      type STRING and has readings. */
  predicate Emits(g: GaugeJson) {
    g.dataType != "STRING" && HasReadings(g)
  }

  /** The gauges that get a dataset, in order. */
  function Emitted(gs: seq<GaugeJson>): (es: seq<GaugeJson>)
    ensures forall k :: 0 <= k < |es| ==> Emits(es[k])
  {
    if gs == [] then []
    else Emitted(gs[..|gs| - 1]) + (if Emits(gs[|gs| - 1]) then [gs[|gs| - 1]] else [])
  }

  /** Exactly the emitting gauges are kept, in their order. */
  lemma {:induction false} EmittedMeaning(gs: seq<GaugeJson>)
    ensures forall g :: g in Emitted(gs) ==> g in gs && Emits(g)
    ensures forall g :: g in gs && Emits(g) ==> g in Emitted(gs)
    ensures |Emitted(gs)| <= |gs|
  {
    if gs != [] {
      var init := gs[..|gs| - 1];
      EmittedMeaning(init);
      assert gs == init + [gs[|gs| - 1]];
    }
  }

  /** The series holds the dataset of each gauge of `es`, in order, the
      n-th on y axis n + 1. */
  ghost predicate Numbered(series: seq<Dataset>, es: seq<GaugeJson>, conv: Conversions) {
    |series| == |es| && forall n :: 0 <= n < |series| ==> Built(es[n], n + 1, conv) == Some(series[n])
  }

  /** Appending the next emitted gauge's dataset on the next axis keeps the
      numbering. */
  lemma NumberedAppend(series: seq<Dataset>, es: seq<GaugeJson>, g: GaugeJson, conv: Conversions)
    requires Emits(g) && Numbered(series, es, conv)
    ensures Numbered(series + [Built(g, |series| + 1, conv).value], es + [g], conv)
  {
    var s, e := series + [Built(g, |series| + 1, conv).value], es + [g];
    forall n | 0 <= n < |s|
      ensures Built(e[n], n + 1, conv) == Some(s[n])
    {
      if n < |series| {
        assert s[n] == series[n] && e[n] == es[n];
      }
    }
  }

  /** The emitted gauges after one more gauge. */
  lemma EmittedStep(gs: seq<GaugeJson>, g: GaugeJson)
    ensures Emitted(gs + [g]) == Emitted(gs) + (if Emits(g) then [g] else [])
  {
    assert (gs + [g])[..|gs|] == gs;
  }

  /** seriesBuilder: one dataset per emitting gauge of the meters, in order,
      numbered on y axes 1, 2, 3, ... */
  method SeriesBuilder(meters: seq<MeterJson>, conv: Conversions) returns (series: seq<Dataset>)
    ensures |series| == |Emitted(AllGauges(meters))|
    ensures forall k :: 0 <= k < |series| ==>
      Built(Emitted(AllGauges(meters))[k], k + 1, conv) == Some(series[k])
    ensures forall k :: 0 <= k < |series| ==> series[k].yaxis == k + 1
  {
    series := [];
    var chartIndex := 1;
    var i := 0;
    while i < |meters|
      invariant 0 <= i <= |meters|
      invariant chartIndex == |series| + 1
      invariant Numbered(series, Emitted(AllGauges(meters[..i])), conv)
    {
      series, chartIndex := AddMeter(series, chartIndex, AllGauges(meters[..i]), meters[i].gauges, conv);
      assert meters[..i + 1][..i] == meters[..i];
      i := i + 1;
    }
    assert meters[..i] == meters;
  }

  /** One pass of the inner loop of seriesBuilder: the dataset of one gauge,
      appended on the next axis when the gauge emits one. */
  method AddGaugeSeries(series0: seq<Dataset>, chartIndex0: int, ghost done: seq<GaugeJson>,
                        gauge: GaugeJson, conv: Conversions)
    returns (series: seq<Dataset>, chartIndex: int)
    requires chartIndex0 == |series0| + 1 && Numbered(series0, Emitted(done), conv)
    ensures chartIndex == |series| + 1 && Numbered(series, Emitted(done + [gauge]), conv)
  {
    series, chartIndex := series0, chartIndex0;
    EmittedStep(done, gauge);
    if gauge.dataType != "STRING" {
      var dataset, _ := DatasetBuilder(gauge, chartIndex, conv);
      if dataset.Some? {
        NumberedAppend(series, Emitted(done), gauge, conv);
        series := series + [dataset.value];
        chartIndex := chartIndex + 1;
      }
    }
  }

  /** The inner loop of seriesBuilder over the gauges of one meter. */
  method AddMeter(series0: seq<Dataset>, chartIndex0: int, ghost before: seq<GaugeJson>,
                  gauges: seq<GaugeJson>, conv: Conversions)
    returns (series: seq<Dataset>, chartIndex: int)
    requires chartIndex0 == |series0| + 1 && Numbered(series0, Emitted(before), conv)
    ensures chartIndex == |series| + 1 && Numbered(series, Emitted(before + gauges), conv)
  {
    series, chartIndex := series0, chartIndex0;
    var k := 0;
    assert before + gauges[..0] == before;
    while k < |gauges|
      invariant 0 <= k <= |gauges|
      invariant chartIndex == |series| + 1
      invariant Numbered(series, Emitted(before + gauges[..k]), conv)
    {
      series, chartIndex := AddGaugeSeries(series, chartIndex, before + gauges[..k], gauges[k], conv);
      assert before + gauges[..k + 1] == before + gauges[..k] + [gauges[k]];
      k := k + 1;
    }
    assert gauges[..k] == gauges;
  }
}
