/** The cost figures of the web view: the price of a unit of consumption and
    the euro cost per day, week and month computed from a cumulative series. */
module WebStatistics {
  import opened Lang

  /** One point of a chart series: its time in ms and its value. */
  datatype Point = Point(time: int, value: real)

  /** The units that have a price, and their prices in euro per unit (sums
      of energy and transfer prices where the source writes them as such). */
  const Units: seq<string> := ["kWh", "m^3", "MWh"]
  const UnitPrices: seq<real> := [0.0449 + 0.0286, 1.17 + 1.75, 45.32]

  /** The three look-back windows in ms: a day, a week (7 days) and a month (30 days). */
  const DayMillis: int := 86400000
  const WeekMillis: int := 604800000
  const MonthMillis: int := 2592000000

  /** Array.prototype.indexOf: the first position of `x`, or -1. */
  function IndexOf(s: seq<string>, x: string): (i: int)
    ensures -1 <= i < |s|
    ensures i == -1 <==> x !in s
    ensures i >= 0 ==> s[i] == x && forall k :: 0 <= k < i ==> s[k] != x
  {
    if s == [] then -1
    else if s[0] == x then 0
    else
      var i := IndexOf(s[1..], x);
      if i == -1 then -1 else i + 1
  }

  /** getPrice: the table price of a known unit; an unknown unit indexes the
      table at -1, which is undefined (None). */
  function GetPrice(unit: string): (price: Option<real>)
    ensures price.Some? <==> unit in Units
    ensures price.Some? ==> price.value > 0.0
  {
    var i := IndexOf(Units, unit);
    if 0 <= i < |UnitPrices| then Some(UnitPrices[i]) else None
  }

  lemma GetPriceTable(unit: string)
    ensures GetPrice(unit).Some? <==> unit in Units
    ensures unit == "kWh" ==> GetPrice(unit) == Some(0.0735)
    ensures unit == "m^3" ==> GetPrice(unit) == Some(2.92)
    ensures unit == "MWh" ==> GetPrice(unit) == Some(45.32)
  {
    assert Units[0] == "kWh" && Units[1] == "m^3" && Units[2] == "MWh";
    if unit == "m^3" {
      assert Units[0] != unit;
    } else if unit == "MWh" {
      assert Units[0] != unit && Units[1] != unit;
    }
  }

  /** The reference point of the look-back: the latest point before `i` whose
      time lies at least `window` before point i's, or the first point when
      there is none. */
  predicate IsReference(data: seq<Point>, i: int, window: int, r: int)
    requires 0 < i < |data|
  {
    0 <= r < i &&
    (r == 0 || data[r].time <= data[i].time - window) &&
    (forall k :: r < k < i ==> data[k].time > data[i].time - window)
  }

  /** At most one index is the reference. */
  lemma ReferenceUnique(data: seq<Point>, i: int, window: int, r1: int, r2: int)
    requires 0 < i < |data|
    requires IsReference(data, i, window, r1) && IsReference(data, i, window, r2)
    ensures r1 == r2
  {
  }

  /** The look-back loop shared by getEuroDay, getEuroWeek and getEuroMonth:
      the index walks down from i - 1 while it is positive and its time is
      later than the cut-off. */
  method LookBack(data: seq<Point>, i: int, window: int) returns (r: int)
    requires 0 < i < |data|
    ensures IsReference(data, i, window, r)
  {
    var cutOff := data[i].time - window;
    r := i - 1;
    while r > 0 && data[r].time > cutOff
      invariant 0 <= r < i
      invariant forall k :: r < k < i ==> data[k].time > cutOff
    {
      r := r - 1;
    }
  }

  /** The cost rate over the window: the increase since the reference point
      times the price, divided by the elapsed time counted in windows; two
      points at the same time give a non-finite rate. */
  function Rate(data: seq<Point>, i: int, r: int, price: real, window: int): (q: Double)
    requires 0 <= r < |data| && 0 <= i < |data| && window > 0
    ensures data[i].time != data[r].time ==>
      q == Finite((data[i].value - data[r].value) * price * (window as real) / ((data[i].time - data[r].time) as real))
  {
    Divide((data[i].value - data[r].value) * price, (data[i].time - data[r].time) as real / window as real)
  }

  /** getEuroDay/Week/Month for the given window: undefined (None) when the
      index is not positive or the unit has no price; otherwise the rate
      against the reference point. The caller's index must name a point of
      the series when it is used. */
  method EuroRate(data: seq<Point>, seriesIndex: int, unit: string, window: int) returns (euro: Option<Double>)
    requires window > 0
    requires 0 < seriesIndex && GetPrice(unit).Some? ==> seriesIndex < |data|
    ensures euro.None? <==> seriesIndex <= 0 || GetPrice(unit).None?
    ensures euro.Some? ==>
      exists r :: IsReference(data, seriesIndex, window, r) && euro.value == Rate(data, seriesIndex, r, GetPrice(unit).value, window)
  {
    var price := GetPrice(unit);
    if seriesIndex > 0 && price.Some? {
      var r := LookBack(data, seriesIndex, window);
      return Some(Rate(data, seriesIndex, r, price.value, window));
    }
    return None;
  }

  method EuroDay(data: seq<Point>, seriesIndex: int, unit: string) returns (euro: Option<Double>)
    requires 0 < seriesIndex && GetPrice(unit).Some? ==> seriesIndex < |data|
    ensures euro.None? <==> seriesIndex <= 0 || GetPrice(unit).None?
    ensures euro.Some? ==>
      exists r :: IsReference(data, seriesIndex, DayMillis, r) && euro.value == Rate(data, seriesIndex, r, GetPrice(unit).value, DayMillis)
  {
    euro := EuroRate(data, seriesIndex, unit, DayMillis);
  }

  method EuroWeek(data: seq<Point>, seriesIndex: int, unit: string) returns (euro: Option<Double>)
    requires 0 < seriesIndex && GetPrice(unit).Some? ==> seriesIndex < |data|
    ensures euro.None? <==> seriesIndex <= 0 || GetPrice(unit).None?
    ensures euro.Some? ==>
      exists r :: IsReference(data, seriesIndex, WeekMillis, r) && euro.value == Rate(data, seriesIndex, r, GetPrice(unit).value, WeekMillis)
  {
    euro := EuroRate(data, seriesIndex, unit, WeekMillis);
  }

  method EuroMonth(data: seq<Point>, seriesIndex: int, unit: string) returns (euro: Option<Double>)
    requires 0 < seriesIndex && GetPrice(unit).Some? ==> seriesIndex < |data|
    ensures euro.None? <==> seriesIndex <= 0 || GetPrice(unit).None?
    ensures euro.Some? ==>
      exists r :: IsReference(data, seriesIndex, MonthMillis, r) && euro.value == Rate(data, seriesIndex, r, GetPrice(unit).value, MonthMillis)
  {
    euro := EuroRate(data, seriesIndex, unit, MonthMillis);
  }

  /** getEuroTotal: the increase since the first point times the price;
      undefined under the same conditions as the rates. */
  function EuroTotal(data: seq<Point>, seriesIndex: int, unit: string): (euro: Option<real>)
    requires 0 < seriesIndex && GetPrice(unit).Some? ==> seriesIndex < |data|
    ensures euro.None? <==> seriesIndex <= 0 || GetPrice(unit).None?
  {
    var price := GetPrice(unit);
    if seriesIndex > 0 && price.Some? then Some((data[seriesIndex].value - data[0].value) * price.value)
    else None
  }

  /** The total does not depend on the times of the points. */
  lemma EuroTotalIgnoresTimes(data: seq<Point>, other: seq<Point>, seriesIndex: int, unit: string)
    requires 0 < seriesIndex && GetPrice(unit).Some? ==> seriesIndex < |data|
    requires |other| == |data| && forall k :: 0 <= k < |data| ==> other[k].value == data[k].value
    ensures EuroTotal(data, seriesIndex, unit) == EuroTotal(other, seriesIndex, unit)
  {
  }

  /** With evenly spaced readings a day apart and the look-back over a day,
      the reference is the previous reading and the daily cost is the last
      increase times the price. */
  lemma {:induction false} DailyStepsGiveLastIncrease(data: seq<Point>, i: int, price: real)
    requires 0 < i < |data|
    requires forall k :: 0 <= k < |data| ==> data[k].time == k * DayMillis
    ensures IsReference(data, i, DayMillis, i - 1)
    ensures Rate(data, i, i - 1, price, DayMillis) == Finite((data[i].value - data[i - 1].value) * price)
  {
    assert data[i].time - data[i - 1].time == DayMillis;
  }
}
