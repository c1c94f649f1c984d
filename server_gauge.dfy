/** Gauge of the service: a gauge definition with the readings posted for it,
    and the validity check the service runs before storing them. Unlike the
    client the service checks no limits: it only insists that every reading is
    dated, non-blank and, for a numeric gauge, a well-formed number. */
module ServerGauge {
  import opened Lang
  import opened ServerValidity
  import opened ServerGaugeValue
  import opened GaugeKinds

  /** Whether Double.valueOf and Integer.valueOf accept a text (false stands
      for a NumberFormatException). */
  datatype NumberSyntax = NumberSyntax(double: string -> bool, integer: string -> bool)

  /** A reading hasValidValues rejects before looking at the data type. */
  predicate FailsNullChecks(r: Reading) {
    r.updated.None? || IsBlank(r.value)
  }

  /** Whether one reading passes: dated, non-blank and, for a numeric gauge,
      a number of the gauge's type. */
  predicate ReadingAccepted(r: Reading, t: Option<DataType>, p: NumberSyntax)
    requires t.Some? || FailsNullChecks(r)
  {
    !FailsNullChecks(r) &&
    match t.value
    case DOUBLE => p.double(r.value.value)
    case INTEGER => p.integer(r.value.value)
    case STRING => true
  }

  /** The verdict on a non-empty list of readings: INVALID at the first
      reading that does not pass, otherwise VALID. */
  function ValuesValidity(rs: seq<Reading>, t: Option<DataType>, p: NumberSyntax): (v: ValueValidity)
    requires rs == [] || t.Some? || FailsNullChecks(rs[0])
    ensures v != NO_VALUES
    ensures v == VALID <==>
      forall i :: 0 <= i < |rs| ==> (t.Some? || FailsNullChecks(rs[i])) && ReadingAccepted(rs[i], t, p)
  {
    if rs == [] then VALID
    else if !ReadingAccepted(rs[0], t, p) then INVALID
    else
      var rest := ValuesValidity(rs[1..], t, p);
      assert forall i :: 1 <= i < |rs| ==> rs[i] == rs[1..][i - 1];
      rest
  }

  class Gauge {
    var index: Option<int>
    var name: Option<string>
    var description: Option<string>
    var unit: Option<string>
    var min: Option<real>
    var max: Option<real>
    /** The option set in its serialised form, as the gauge stores it. */
    var options: Option<string>
    /** The readings; a null list is the empty list. */
    var values: seq<GaugeValue>
    var id: Option<string>
    var updated: Option<Date>
    var dataType: Option<DataType>
    var minIncrease: Option<real>
    var maxIncrease: Option<real>
    var cumulative: Option<bool>

    /** Every field except the id holds its initial value; a service gauge
        starts out cumulative. */
    predicate Fresh()
      reads this
    {
      index.None? && name.None? && description.None? && unit.None? && min.None? && max.None? &&
      options.None? && values == [] && updated.None? && dataType.None? &&
      minIncrease.None? && maxIncrease.None? && cumulative == Some(true)
    }

    /** The no-argument constructor used by deserialisation. */
    constructor Empty()
      ensures Fresh() && id.None?
    {
      index, name, description, unit, min, max := None, None, None, None, None, None;
      options, values, id, updated, dataType := None, [], None, None, None;
      minIncrease, maxIncrease, cumulative := None, None, Some(true);
    }

    /** Gauge(String id) */
    constructor (id: Option<string>)
      ensures Fresh() && this.id == id
    {
      index, name, description, unit, min, max := None, None, None, None, None, None;
      options, values, this.id, updated, dataType := None, [], id, None, None;
      minIncrease, maxIncrease, cumulative := None, None, Some(true);
    }

    /** getOptions */
    function GetOptions(): Option<set<GaugeOption>>
      reads this
    {
      ServiceOptionsOf(options)
    }

    /** hasOption: false when no options are stored. */
    predicate HasOption(o: GaugeOption)
      reads this
      ensures HasOption(o) <==> options.Some? && ContainsChar(options.value, o.Code())
    {
      ServiceOptionsAgree(options);
      var opts := GetOptions();
      if opts.None? then false else o in opts.value
    }

    method SetOptions(opts: Option<set<GaugeOption>>)
      modifies this`options
      ensures options == OptionString(opts)
      ensures opts.None? || opts.value != {} ==> GetOptions() == opts
      ensures values == old(values) && dataType == old(dataType) && id == old(id)
      ensures min == old(min) && max == old(max) && cumulative == old(cumulative)
    {
      options := ToOptionString(opts);
      OptionsRoundTrip(if opts.Some? && opts.value == {} then None else opts);
      ServiceOptionsAgree(options);
    }

    /** setDataType: null selects the default, DOUBLE. */
    method SetDataType(t: Option<DataType>)
      modifies this`dataType
      ensures dataType == Some(t.GetOr(DefaultDataType))
      ensures values == old(values) && options == old(options) && id == old(id) && unit == old(unit)
      ensures min == old(min) && max == old(max) && cumulative == old(cumulative)
    {
      if t.None? {
        dataType := Some(DefaultDataType);
      } else {
        dataType := t;
      }
    }

    method SetId(newId: Option<string>)
      modifies this`id
      ensures id == newId
      ensures values == old(values) && options == old(options) && dataType == old(dataType)
      ensures index == old(index) && name == old(name) && description == old(description)
    {
      id := newId;
    }

    method AddGaugeValue(v: GaugeValue)
      modifies this`values
      ensures values == old(values) + [v]
      ensures options == old(options) && dataType == old(dataType) && id == old(id)
      ensures unit == old(unit) && min == old(min) && max == old(max)
    {
      values := values + [v];
    }

    /** The readings reach the data-type switch of hasValidValues. */
    predicate ChecksReadings()
      reads this
    {
      |values| > 0 && (HasOption(REQUIRED) || !IsBlank(id))
    }

    /** What hasValidValues needs to run to completion: a data type, unless
        the first reading is rejected before the switch on it. */
    predicate ValidityDefined()
      reads this, values
    {
      ChecksReadings() ==> dataType.Some? || FailsNullChecks(values[0].AsReading())
    }

    /** The verdict hasValidValues computes. */
    function Validity(p: NumberSyntax): (v: ValueValidity)
      reads this, values
      requires ValidityDefined()
      ensures v == NO_VALUES <==> |values| == 0 && !HasOption(REQUIRED)
      ensures |values| == 0 && HasOption(REQUIRED) ==> v == INVALID
      ensures |values| > 0 && !HasOption(REQUIRED) && IsBlank(id) ==> v == INVALID
      ensures v == VALID <==>
        ChecksReadings() &&
        forall i :: 0 <= i < |values| ==>
          (dataType.Some? || FailsNullChecks(values[i].AsReading())) &&
          ReadingAccepted(values[i].AsReading(), dataType, p)
    {
      if HasOption(REQUIRED) && |values| == 0 then INVALID
      else if |values| == 0 then NO_VALUES
      else if !HasOption(REQUIRED) && IsBlank(id) then INVALID
      else ValuesValidity(Readings(values), dataType, p)
    }

    /** hasValidValues, checking the readings one at a time and stopping at
        the first that does not pass. */
    method HasValidValues(p: NumberSyntax) returns (v: ValueValidity)
      requires ValidityDefined()
      ensures v == Validity(p)
    {
      if HasOption(REQUIRED) {
        if |values| == 0 {
          return INVALID;
        }
      } else if |values| == 0 {
        return NO_VALUES;
      } else if IsBlank(id) {
        return INVALID;
      }
      ghost var rs := Readings(values);
      var i := 0;
      while i < |values|
        invariant 0 <= i <= |values|
        invariant i > 0 ==> dataType.Some?
        invariant ValuesValidity(rs, dataType, p) == ValuesValidity(rs[i..], dataType, p)
      {
        assert rs[i..][1..] == rs[i + 1..];
        var gv := values[i];
        if gv.updated.None? {
          return INVALID;
        }
        var text := gv.value;
        if IsBlank(text) {
          return INVALID;
        }
        match dataType.value {
          case DOUBLE =>
            if !p.double(text.value) {
              return INVALID;
            }
          case INTEGER =>
            if !p.integer(text.value) {
              return INVALID;
            }
          case STRING =>
        }
        i := i + 1;
      }
      return VALID;
    }
  }

  /** The reading objects of a list of gauges. */
  function ValueObjects(gs: seq<Gauge>): (s: set<GaugeValue>)
    reads gs
    ensures forall g, v :: g in gs && v in g.values ==> v in s
  {
    set g, v | g in gs && v in g.values :: v
  }

  /** areTheSame: the same object, or two gauges with the same non-null id. */
  predicate AreTheSame(one: Gauge?, two: Gauge?)
    reads one, two
    ensures AreTheSame(one, two) ==> one != null && two != null
    ensures one != null ==> AreTheSame(one, one)
  {
    if one == null || two == null then false
    else if one == two then true
    else if one.id.None? then false
    else two.id == one.id
  }

  /** Identity by id is an equivalence on gauges. */
  lemma AreTheSameIsEquivalence(a: Gauge?, b: Gauge?, c: Gauge?)
    ensures AreTheSame(a, b) ==> AreTheSame(b, a)
    ensures AreTheSame(a, b) && AreTheSame(b, c) ==> AreTheSame(a, c)
  {
  }

  /** isValuesEmpty: no gauge, or a gauge without readings. */
  predicate IsValuesEmpty(g: Gauge?)
    reads g
    ensures !IsValuesEmpty(g) ==> g != null && |g.values| > 0
  {
    g == null || |g.values| == 0
  }

  /** Typing a gauge's readings: once setDataType has run (with any argument),
      hasValidValues can always run to completion. */
  lemma TypedGaugeValidityDefined(g: Gauge)
    requires g.dataType.Some?
    ensures g.ValidityDefined()
  {
  }
}
