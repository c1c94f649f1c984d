/** Gauge of the mobile client: a gauge definition, the readings entered for it,
    the statistics loaded for it, the alarm limits derived from those
    statistics, and the validity check run before readings are saved. */
module ClientGauge {
  import opened Lang
  import opened ClientValidity
  import opened ClientGaugeValue
  import opened GaugeKinds
  import ClientDateUtils

  // ------------------------------------------------- limits and validity

  /** The number parsers the client relies on: DecimalFormat.parse behind
      displayStringToDouble, Double.valueOf and Integer.valueOf. None stands
      for a null result or a NumberFormatException. */
  datatype NumberParsers = NumberParsers(
    display: string -> Option<real>,
    double: string -> Option<real>,
    integer: string -> Option<int>)

  /** A statistic whose text displayStringToDouble can read. */
  predicate Parses(r: Option<Reading>, display: string -> Option<real>) {
    r.Some? && r.value.value.Some? && display(r.value.value.value).Some?
  }

  function NumberOf(r: Option<Reading>, display: string -> Option<real>): real
    requires Parses(r, display)
  {
    display(r.value.value.value).value
  }

  predicate Dated(r: Option<Reading>) {
    r.Some? && r.value.updated.Some?
  }

  /** Days from the statistic's timestamp to `now` (new Date()). */
  function DaysSince(r: Option<Reading>, now: int): (days: real)
    requires Dated(r)
    ensures days >= 0.0
  {
    ClientDateUtils.DurationAsDaysOfDates(r.value.updated.value, Date(now))
  }

  /** The smaller of a computed limit and an optional fixed one. */
  function LowerOf(computed: real, fixed: Option<real>): real {
    if fixed.None? || computed < fixed.value then computed else fixed.value
  }

  /** The larger of a computed limit and an optional fixed one. */
  function HigherOf(computed: real, fixed: Option<real>): real {
    if fixed.None? || computed > fixed.value then computed else fixed.value
  }

  /** A reading that hasValidValues rejects before looking at the data type. */
  predicate FailsNullChecks(r: Reading) {
    r.updated.None? || IsNullOrEmpty(r.value)
  }

  /** The reading's text as a number of the given type (Integer.valueOf is
      compared to the limits as a double). */
  function ParsedAs(t: DataType, text: string, p: NumberParsers): Option<real>
    requires t.IsNumeric()
  {
    if t == DOUBLE then p.double(text)
    else if p.integer(text).Some? then Some(p.integer(text).value as real)
    else None
  }

  /** The verdict on one reading against the limits in force. A number is
      parsed only when some limit is set; the lower limit is tested first. */
  function ReadingValidity(r: Reading, t: Option<DataType>, min: Option<real>, max: Option<real>,
                           p: NumberParsers): (v: ValueValidity)
    requires t.Some? || FailsNullChecks(r)
    ensures v != NO_VALUES
    ensures FailsNullChecks(r) ==> v == INVALID
    ensures !FailsNullChecks(r) && (t.value == STRING || (min.None? && max.None?)) ==> v == VALID
    ensures v == LOWER_THAN_THRESHOLD <==>
      !FailsNullChecks(r) && t.value.IsNumeric() && min.Some? &&
      ParsedAs(t.value, r.value.value, p).Some? && ParsedAs(t.value, r.value.value, p).value < min.value
    ensures v == GREATER_THAN_THRESHOLD <==>
      !FailsNullChecks(r) && t.value.IsNumeric() && max.Some? &&
      ParsedAs(t.value, r.value.value, p).Some? && ParsedAs(t.value, r.value.value, p).value > max.value &&
      !(min.Some? && ParsedAs(t.value, r.value.value, p).value < min.value)
    ensures v == INVALID <==>
      FailsNullChecks(r) ||
      (t.value.IsNumeric() && (min.Some? || max.Some?) && ParsedAs(t.value, r.value.value, p).None?)
  {
    if FailsNullChecks(r) then INVALID
    else match t.value
      case STRING => VALID
      case _ =>
        if min.None? && max.None? then VALID
        else
          var n := ParsedAs(t.value, r.value.value, p);
          if n.None? then INVALID
          else if min.Some? && n.value < min.value then LOWER_THAN_THRESHOLD
          else if max.Some? && n.value > max.value then GREATER_THAN_THRESHOLD
          else VALID
  }

  /** The verdict on a non-empty list of readings: the first reading's failure, or VALID. */
  function ValuesValidity(rs: seq<Reading>, t: Option<DataType>, min: Option<real>, max: Option<real>,
                          p: NumberParsers): (v: ValueValidity)
    requires rs == [] || t.Some? || FailsNullChecks(rs[0])
    ensures v != NO_VALUES
    ensures v == VALID <==>
      forall i :: 0 <= i < |rs| ==> (t.Some? || FailsNullChecks(rs[i])) && ReadingValidity(rs[i], t, min, max, p) == VALID
  {
    if rs == [] then VALID
    else
      var first := ReadingValidity(rs[0], t, min, max, p);
      if first != VALID then first
      else
        var rest := ValuesValidity(rs[1..], t, min, max, p);
        assert forall i :: 1 <= i < |rs| ==> rs[i] == rs[1..][i - 1];
        rest
  }

  /** The checks hasValidValues makes on one reading, in its order: the
      timestamp, the text, then the lower limit before the upper one, parsing
      the text at most once. */
  method CheckReading(r: Reading, dataType: Option<DataType>, lower: Option<real>, upper: Option<real>,
                      p: NumberParsers) returns (v: ValueValidity)
    requires dataType.Some? || FailsNullChecks(r)
    ensures v == ReadingValidity(r, dataType, lower, upper, p)
  {
    if r.updated.None? {
      return INVALID;
    }
    var text := r.value;
    if text.None? || text.value == "" {
      return INVALID;
    }
    match dataType.value {
      case DOUBLE =>
        var number: Option<real> := None;
        if lower.Some? {
          number := p.double(text.value);
          if number.None? {
            return INVALID;
          }
          if number.value < lower.value {
            return LOWER_THAN_THRESHOLD;
          }
        }
        if upper.Some? {
          if number.None? {
            number := p.double(text.value);
            if number.None? {
              return INVALID;
            }
          }
          if number.value > upper.value {
            return GREATER_THAN_THRESHOLD;
          }
        }
      case INTEGER =>
        var number: Option<int> := None;
        if lower.Some? {
          number := p.integer(text.value);
          if number.None? {
            return INVALID;
          }
          if (number.value as real) < lower.value {
            return LOWER_THAN_THRESHOLD;
          }
        }
        if upper.Some? {
          if number.None? {
            number := p.integer(text.value);
            if number.None? {
              return INVALID;
            }
          }
          if (number.value as real) > upper.value {
            return GREATER_THAN_THRESHOLD;
          }
        }
      case STRING =>
    }
    return VALID;
  }

  /** A failing verdict is the verdict of one reading, and every reading before it passed. */
  lemma {:induction false} ValuesValidityIsFirstFailure(rs: seq<Reading>, t: Option<DataType>, min: Option<real>,
                                                         max: Option<real>, p: NumberParsers) returns (k: nat)
    requires rs == [] || t.Some? || FailsNullChecks(rs[0])
    requires ValuesValidity(rs, t, min, max, p) != VALID
    ensures k < |rs| && (t.Some? || FailsNullChecks(rs[k]))
    ensures ReadingValidity(rs[k], t, min, max, p) == ValuesValidity(rs, t, min, max, p)
    ensures forall j :: 0 <= j < k ==> t.Some? && ReadingValidity(rs[j], t, min, max, p) == VALID
  {
    if ReadingValidity(rs[0], t, min, max, p) != VALID {
      k := 0;
    } else {
      var k' := ValuesValidityIsFirstFailure(rs[1..], t, min, max, p);
      k := k' + 1;
      assert rs[k] == rs[1..][k'];
      forall j | 0 <= j < k
        ensures t.Some? && ReadingValidity(rs[j], t, min, max, p) == VALID
      {
        if j > 0 { assert rs[j] == rs[1..][j - 1]; }
      }
    }
  }

  /** Without limits, or for a STRING gauge, the verdict does not depend on how
      numbers would be parsed: the client parses a reading only when a limit is set. */
  lemma {:induction false} UnboundedValidityIgnoresParsers(rs: seq<Reading>, t: Option<DataType>, min: Option<real>,
                                                           max: Option<real>, p: NumberParsers, q: NumberParsers)
    requires rs == [] || t.Some? || FailsNullChecks(rs[0])
    requires (min.None? && max.None?) || t == Some(STRING)
    ensures ValuesValidity(rs, t, min, max, p) == ValuesValidity(rs, t, min, max, q)
  {
    if rs != [] && ReadingValidity(rs[0], t, min, max, p) == VALID {
      UnboundedValidityIgnoresParsers(rs[1..], t, min, max, p, q);
    }
  }

  // ------------------------------------------------------------------- Gauge

  class Gauge {
    var index: Option<int>
    var name: Option<string>
    var description: Option<string>
    var unit: Option<string>
    var min: Option<real>
    var max: Option<real>
    /** The option set in its serialised form, as the gauge stores it. */
    var options: Option<string>
    /** The readings; a null list is the empty list. */
    var values: seq<GaugeValue>
    var id: Option<string>
    var updated: Option<Date>
    var dataType: Option<DataType>
    var median: Option<Reading>
    var average: Option<Reading>
    var lastValue: Option<Reading>
    var minIncrease: Option<real>
    var maxIncrease: Option<real>
    var cumulative: Option<bool>

    /** Every field except the id holds its initial value. */
    predicate Fresh()
      reads this
    {
      index.None? && name.None? && description.None? && unit.None? && min.None? && max.None? &&
      options.None? && values == [] && updated.None? && dataType.None? && median.None? &&
      average.None? && lastValue.None? && minIncrease.None? && maxIncrease.None? && cumulative.None?
    }

    /** The no-argument constructor used by deserialisation. */
    constructor Empty()
      ensures Fresh() && id.None?
    {
      index, name, description, unit, min, max := None, None, None, None, None, None;
      options, values, id, updated, dataType := None, [], None, None, None;
      median, average, lastValue, minIncrease, maxIncrease, cumulative := None, None, None, None, None, None;
    }

    /** Gauge(String id) */
    constructor (id: Option<string>)
      ensures Fresh() && this.id == id
    {
      index, name, description, unit, min, max := None, None, None, None, None, None;
      options, values, this.id, updated, dataType := None, [], id, None, None;
      median, average, lastValue, minIncrease, maxIncrease, cumulative := None, None, None, None, None, None;
    }

    /** isCumulative: an unset flag reads as false on the client. */
    predicate IsCumulative()
      reads this
      ensures IsCumulative() <==> cumulative == Some(true)
    {
      cumulative.GetOr(false)
    }

    /** getOptions */
    function GetOptions(): Option<set<GaugeOption>>
      reads this
    {
      OptionsOf(options)
    }

    /** hasOption: false when no options are stored. */
    predicate HasOption(o: GaugeOption)
      reads this
      ensures HasOption(o) <==> options.Some? && ContainsChar(options.value, o.Code())
    {
      var opts := GetOptions();
      if opts.None? then false else o in opts.value
    }

    method SetOptions(opts: Option<set<GaugeOption>>)
      modifies this`options
      ensures options == OptionString(opts)
      ensures opts.None? || opts.value != {} ==> GetOptions() == opts
      ensures forall o :: HasOption(o) <==> opts.Some? && o in opts.value
      ensures values == old(values) && dataType == old(dataType) && id == old(id)
      ensures min == old(min) && max == old(max) && cumulative == old(cumulative)
    {
      options := ToOptionString(opts);
      OptionsRoundTrip(if opts.Some? && opts.value == {} then None else opts);
    }

    /** setDataType: null selects the default, DOUBLE. */
    method SetDataType(t: Option<DataType>)
      modifies this`dataType
      ensures dataType == Some(t.GetOr(DefaultDataType))
      ensures values == old(values) && options == old(options) && id == old(id)
      ensures min == old(min) && max == old(max) && cumulative == old(cumulative)
    {
      if t.None? {
        dataType := Some(DefaultDataType);
      } else {
        dataType := t;
      }
    }

    method AddGaugeValue(v: GaugeValue)
      modifies this`values
      ensures values == old(values) + [v]
      ensures options == old(options) && dataType == old(dataType) && id == old(id)
    {
      values := values + [v];
    }

    /** setSent: marks every reading; nothing else in the readings changes. */
    method SetSent(s: bool)
      modifies values
      ensures AllSentAs(values, s)
      ensures forall v :: v in values ==> v.value == old(v.value) && v.updated == old(v.updated) && v.rowId == old(v.rowId)
    {
      var i := 0;
      while i < |values|
        invariant 0 <= i <= |values|
        invariant forall j :: 0 <= j < i ==> values[j].sent == s
        invariant forall v :: v in values ==> v.value == old(v.value) && v.updated == old(v.updated) && v.rowId == old(v.rowId)
      {
        values[i].SetSent(s);
        i := i + 1;
      }
    }

    // The two limit computations. A statistic the parser cannot read makes the
    // source fail with a NullPointerException; the *Defined predicates rule
    // those cases out, branch by branch.

    /** The cumulative branch of getMinLimitValue applies. */
    predicate ProjectsMinFromStatistics()
      reads this
    {
      lastValue.Some? && average.Some? && dataType.Some? && dataType.value.IsNumeric() && IsCumulative()
    }

    predicate MinLimitDefined(display: string -> Option<real>)
      reads this
    {
      (ProjectsMinFromStatistics() ==> Parses(average, display) && Parses(lastValue, display) && Dated(lastValue)) &&
      (!ProjectsMinFromStatistics() && minIncrease.Some? && lastValue.Some? ==> Parses(lastValue, display))
    }

    predicate MaxLimitDefined(display: string -> Option<real>)
      reads this
    {
      IsCumulative() ==>
        (maxIncrease.None? && lastValue.Some? && average.Some? ==>
           Parses(average, display) && Parses(lastValue, display) && Dated(lastValue)) &&
        (maxIncrease.Some? && lastValue.Some? ==> Parses(lastValue, display) && Dated(lastValue))
    }

    /** The maximum a cumulative gauge can have reached by `now`: the last value
        plus the daily maximum increase per elapsed day, or, without one, plus
        twice the daily average per elapsed day. */
    function ProjectedMax(now: int, display: string -> Option<real>): Option<real>
      reads this
      requires MaxLimitDefined(display)
      requires IsCumulative()
    {
      if maxIncrease.Some? && lastValue.Some? then
        Some(NumberOf(lastValue, display) + maxIncrease.value * DaysSince(lastValue, now))
      else if maxIncrease.None? && lastValue.Some? && average.Some? then
        Some(NumberOf(lastValue, display) + NumberOf(average, display) * DaysSince(lastValue, now) * 2.0)
      else None
    }

    /** getMaxLimitValue: the fixed maximum, lowered to the projected maximum
        of a cumulative gauge when that is smaller. */
    function MaxLimitValue(now: int, display: string -> Option<real>): (r: Option<real>)
      reads this
      requires MaxLimitDefined(display)
      ensures !IsCumulative() ==> r == max
      ensures IsCumulative() && ProjectedMax(now, display).None? ==> r == max
      ensures IsCumulative() && ProjectedMax(now, display).Some? ==>
        r.Some? && r.value <= ProjectedMax(now, display).value &&
        (r == ProjectedMax(now, display) || r == max)
      ensures r.Some? && max.Some? ==> r.value <= max.value
    {
      if !IsCumulative() then max
      else
        var projected := ProjectedMax(now, display);
        if projected.None? then max else Some(LowerOf(projected.value, max))
    }

    /** getMinLimitValue: for a cumulative numeric gauge with statistics, the
        last value plus a quarter of the daily average per elapsed day;
        otherwise the fixed minimum, raised to last value + minIncrease when
        that is larger (minIncrease is not scaled by elapsed days). */
    function MinLimitValue(now: int, display: string -> Option<real>): (r: Option<real>)
      reads this
      requires MinLimitDefined(display)
      ensures ProjectsMinFromStatistics() ==>
        r == Some(NumberOf(lastValue, display) + NumberOf(average, display) / 4.0 * DaysSince(lastValue, now))
      ensures !ProjectsMinFromStatistics() && (minIncrease.None? || lastValue.None?) ==> r == min
      ensures !ProjectsMinFromStatistics() && minIncrease.Some? && lastValue.Some? ==>
        r.Some? && r.value >= NumberOf(lastValue, display) + minIncrease.value &&
        (r.value == NumberOf(lastValue, display) + minIncrease.value || r == min)
      ensures !ProjectsMinFromStatistics() && r.Some? && min.Some? ==> r.value >= min.value
    {
      if ProjectsMinFromStatistics() then
        Some(NumberOf(lastValue, display) + NumberOf(average, display) / 4.0 * DaysSince(lastValue, now))
      else if minIncrease.None? then min
      else if lastValue.None? then min
      else Some(HigherOf(NumberOf(lastValue, display) + minIncrease.value, min))
    }

    /** What hasValidValues needs to run to completion. */
    predicate ValidityDefined(p: NumberParsers)
      reads this, values
    {
      |values| > 0 ==>
        MinLimitDefined(p.display) && MaxLimitDefined(p.display) &&
        (dataType.Some? || FailsNullChecks(values[0].AsReading()))
    }

    /** The verdict hasValidValues computes: INVALID for a required gauge
        without readings, NO_VALUES for an optional one, otherwise the verdict
        on its readings against the limits in force at `now`. */
    function Validity(now: int, p: NumberParsers): (v: ValueValidity)
      reads this, values
      requires ValidityDefined(p)
      ensures v == NO_VALUES <==> |values| == 0 && !HasOption(REQUIRED)
      ensures |values| == 0 && HasOption(REQUIRED) ==> v == INVALID
    {
      if |values| == 0 then
        if HasOption(REQUIRED) then INVALID else NO_VALUES
      else
        ValuesValidity(Readings(values), dataType, MinLimitValue(now, p.display), MaxLimitValue(now, p.display), p)
    }

    /** hasValidValues, checking the readings one at a time and stopping at the first failure. */
    method HasValidValues(now: int, p: NumberParsers) returns (v: ValueValidity)
      requires ValidityDefined(p)
      ensures v == Validity(now, p)
    {
      if HasOption(REQUIRED) {
        if |values| == 0 {
          return INVALID;
        }
      } else if |values| == 0 {
        return NO_VALUES;
      }
      var lower := MinLimitValue(now, p.display);
      var upper := MaxLimitValue(now, p.display);
      ghost var rs := Readings(values);
      var i := 0;
      while i < |values|
        invariant 0 <= i <= |values|
        invariant i > 0 ==> dataType.Some?
        invariant ValuesValidity(rs, dataType, lower, upper, p) == ValuesValidity(rs[i..], dataType, lower, upper, p)
      {
        assert rs[i..][1..] == rs[i + 1..];
        var verdict := CheckReading(values[i].AsReading(), dataType, lower, upper, p);
        if verdict != VALID {
          return verdict;
        }
        i := i + 1;
      }
      return VALID;
    }
  }

  /** The reading objects of a list of gauges. */
  function ValueObjects(gs: seq<Gauge>): (s: set<GaugeValue>)
    reads gs
    ensures forall g, v :: g in gs && v in g.values ==> v in s
  {
    set g, v | g in gs && v in g.values :: v
  }

  /** Every reading in the list is marked with the given delivery state. */
  predicate AllSentAs(vs: seq<GaugeValue>, s: bool)
    reads vs
  {
    forall v :: v in vs ==> v.sent == s
  }

  /** areTheSame: the same object, or two gauges with the same non-null id. */
  predicate AreTheSame(one: Gauge?, two: Gauge?)
    reads one, two
    ensures AreTheSame(one, two) ==> one != null && two != null
    ensures one != null ==> AreTheSame(one, one)
  {
    if one == null || two == null then false
    else if one == two then true
    else if one.id.None? then false
    else two.id == one.id
  }

  /** Identity by id is an equivalence on gauges. */
  lemma AreTheSameIsEquivalence(a: Gauge?, b: Gauge?, c: Gauge?)
    ensures AreTheSame(a, b) ==> AreTheSame(b, a)
    ensures AreTheSame(a, b) && AreTheSame(b, c) ==> AreTheSame(a, c)
  {
  }

  /** isValuesEmpty: no gauge, or a gauge without readings. */
  predicate IsValuesEmpty(g: Gauge?)
    reads g
    ensures !IsValuesEmpty(g) ==> g != null && |g.values| > 0
  {
    g == null || |g.values| == 0
  }

  // ------------------------------------------------------- about the limits

  /** A cumulative numeric gauge with a non-negative daily average never
      accepts a reading below its last value (the purpose stated in
      getMinLimitValue). */
  lemma MinLimitNotBelowLastValue(g: Gauge, now: int, display: string -> Option<real>)
    requires g.MinLimitDefined(display) && g.ProjectsMinFromStatistics()
    requires NumberOf(g.average, display) >= 0.0
    ensures g.MinLimitValue(now, display).Some?
    ensures g.MinLimitValue(now, display).value >= NumberOf(g.lastValue, display)
  {
    var days := DaysSince(g.lastValue, now);
    assert NumberOf(g.average, display) / 4.0 * days >= 0.0;
  }

  /** The minIncrease branch does not depend on the time elapsed since the last value. */
  lemma MinIncreaseIgnoresElapsedTime(g: Gauge, now1: int, now2: int, display: string -> Option<real>)
    requires g.MinLimitDefined(display) && !g.ProjectsMinFromStatistics()
    ensures g.MinLimitValue(now1, display) == g.MinLimitValue(now2, display)
  {
  }

  /** With non-negative increases the projected maximum admits the last value
      itself, unless the fixed maximum is below it. */
  lemma MaxLimitAdmitsLastValue(g: Gauge, now: int, display: string -> Option<real>)
    requires g.MaxLimitDefined(display) && g.IsCumulative() && g.lastValue.Some?
    requires g.maxIncrease.Some? ==> g.maxIncrease.value >= 0.0
    requires g.maxIncrease.None? ==> g.average.Some? && NumberOf(g.average, display) >= 0.0
    requires g.max.None? || g.max.value >= NumberOf(g.lastValue, display)
    ensures g.MaxLimitValue(now, display).Some?
    ensures g.MaxLimitValue(now, display).value >= NumberOf(g.lastValue, display)
  {
    var days := DaysSince(g.lastValue, now);
    if g.maxIncrease.Some? {
      assert g.maxIncrease.value * days >= 0.0;
    } else {
      assert NumberOf(g.average, display) * days >= 0.0;
    }
  }

  /** For a cumulative gauge judged on its statistics alone (no fixed limits,
      no increases), a non-negative average leaves a non-empty window:
      the projected minimum does not exceed the projected maximum. */
  lemma StatisticsWindowNonEmpty(g: Gauge, now: int, display: string -> Option<real>)
    requires g.MinLimitDefined(display) && g.MaxLimitDefined(display)
    requires g.ProjectsMinFromStatistics() && g.maxIncrease.None? && g.max.None?
    requires NumberOf(g.average, display) >= 0.0
    ensures g.MinLimitValue(now, display).Some? && g.MaxLimitValue(now, display).Some?
    ensures g.MinLimitValue(now, display).value <= g.MaxLimitValue(now, display).value
  {
    var a := NumberOf(g.average, display);
    var days := DaysSince(g.lastValue, now);
    assert a * days >= 0.0;
    assert a / 4.0 * days <= a * days * 2.0;
  }
}
