/** Meter of the mobile client: a named meter owning a list of gauges. */
module ClientMeter {
  import opened Lang
  import opened ClientValidity
  import opened ClientGaugeValue
  import opened ClientGauge

  class Meter {
    var updated: Option<Date>
    var id: Option<string>
    var name: Option<string>
    /** The gauges; a null list is the empty list. */
    var gauges: seq<Gauge>

    /** The no-argument constructor used by deserialisation. */
    constructor Empty()
      ensures updated.None? && id.None? && name.None? && gauges == []
    {
      updated, id, name, gauges := None, None, None, [];
    }

    /** Meter(String id) */
    constructor (id: Option<string>)
      ensures updated.None? && this.id == id && name.None? && gauges == []
    {
      updated, this.id, name, gauges := None, id, None, [];
    }

    method AddGauge(g: Gauge)
      modifies this
      ensures gauges == old(gauges) + [g]
      ensures id == old(id) && name == old(name) && updated == old(updated)
    {
      gauges := gauges + [g];
    }

    /** Every gauge can run its validity check. */
    predicate ValidityDefined(p: NumberParsers)
      reads this, gauges, ValueObjects(gauges)
    {
      AllValidityDefined(gauges, p)
    }

    /** The verdicts of the gauges, in list order. */
    function GaugeVerdicts(now: int, p: NumberParsers): (vs: seq<ValueValidity>)
      reads this, gauges, ValueObjects(gauges)
      requires ValidityDefined(p)
      ensures |vs| == |gauges|
    {
      VerdictsOf(gauges, now, p)
    }

    /** The verdict hasValidValues computes, read off all gauge verdicts. */
    function Validity(now: int, p: NumberParsers): ValueValidity
      reads this, gauges, ValueObjects(gauges)
      requires ValidityDefined(p)
    {
      Combined(GaugeVerdicts(now, p))
    }

    /** The meter's verdict is the first failing gauge's verdict; otherwise
        VALID exactly when some gauge has valid values, else NO_VALUES (also
        for a meter without gauges). */
    lemma ValidityMeaning(now: int, p: NumberParsers)
      requires ValidityDefined(p)
      ensures |gauges| == 0 ==> Validity(now, p) == NO_VALUES
      ensures Validity(now, p).IsFailure() ==>
        exists k :: 0 <= k < |gauges| && gauges[k].Validity(now, p) == Validity(now, p) &&
          forall j :: 0 <= j < k ==> !gauges[j].Validity(now, p).IsFailure()
      ensures Validity(now, p) == VALID <==>
        (exists i :: 0 <= i < |gauges| && gauges[i].Validity(now, p) == VALID) &&
        (forall i :: 0 <= i < |gauges| ==> !gauges[i].Validity(now, p).IsFailure())
    {
      var vs := GaugeVerdicts(now, p);
      forall i | 0 <= i < |gauges| ensures vs[i] == gauges[i].Validity(now, p) {
        VerdictAt(gauges, now, p, i);
      }
      CombinedMeaning(vs);
      if Validity(now, p).IsFailure() {
        CombinedIsFirstFailure(vs);
      }
    }

    /** hasValidValues: asks each gauge in turn and stops at the first failure. */
    method HasValidValues(now: int, p: NumberParsers) returns (v: ValueValidity)
      requires ValidityDefined(p)
      ensures v == Validity(now, p)
    {
      if |gauges| == 0 {
        assert GaugeVerdicts(now, p) == [];
        return NO_VALUES;
      }
      ghost var vs := GaugeVerdicts(now, p);
      var validity := NO_VALUES;
      var i := 0;
      while i < |gauges|
        invariant 0 <= i <= |gauges|
        invariant ValidityDefined(p) && vs == GaugeVerdicts(now, p)
        invariant validity == Combined(vs[..i]) && !validity.IsFailure()
      {
        var gv := gauges[i].Validity(now, p);
        VerdictAt(gauges, now, p, i);
        CombinedStep(vs, i, validity);
        if gv.IsFailure() {
          // INVALID, GREATER_THAN_THRESHOLD and LOWER_THAN_THRESHOLD end the scan
          assert gv == vs[i] == Combined(vs);
          return gv;
        } else if gv == VALID {
          validity := VALID;
        }
        i := i + 1;
      }
      assert vs[..i] == vs;
      assert validity == Combined(vs);
      return validity;
    }

    /** setSent: marks every reading of every gauge; nothing else in the readings changes. */
    method SetSent(s: bool)
      modifies ValueObjects(gauges)
      ensures forall v :: v in old(ValueObjects(gauges)) ==> v.sent == s
      ensures forall v :: v in old(ValueObjects(gauges)) ==>
        v.value == old(v.value) && v.updated == old(v.updated) && v.rowId == old(v.rowId)
    {
      ghost var objs := ValueObjects(gauges);
      var i := 0;
      while i < |gauges|
        invariant 0 <= i <= |gauges|
        invariant forall j, v :: 0 <= j < i && v in gauges[j].values ==> v.sent == s
        invariant forall v :: v in objs ==>
          v.value == old(v.value) && v.updated == old(v.updated) && v.rowId == old(v.rowId)
      {
        gauges[i].SetSent(s);
        i := i + 1;
      }
    }
  }

  predicate AllValidityDefined(gs: seq<Gauge>, p: NumberParsers)
    reads gs, ValueObjects(gs)
  {
    forall g :: g in gs ==> g.ValidityDefined(p)
  }

  /** The verdicts of a list of gauges, in list order. */
  function VerdictsOf(gs: seq<Gauge>, now: int, p: NumberParsers): (vs: seq<ValueValidity>)
    reads gs, ValueObjects(gs)
    requires AllValidityDefined(gs, p)
    ensures |vs| == |gs|
  {
    if gs == [] then [] else [gs[0].Validity(now, p)] + VerdictsOf(gs[1..], now, p)
  }

  lemma {:induction false} VerdictAt(gs: seq<Gauge>, now: int, p: NumberParsers, i: nat)
    requires AllValidityDefined(gs, p) && i < |gs|
    ensures VerdictsOf(gs, now, p)[i] == gs[i].Validity(now, p)
  {
    if i > 0 {
      assert gs[1..][i - 1] == gs[i];
      VerdictAt(gs[1..], now, p, i - 1);
    }
  }

  /** areTheSame: the same object, or two meters with the same non-null id. */
  predicate AreTheSame(one: Meter?, two: Meter?)
    reads one, two
    ensures AreTheSame(one, two) ==> one != null && two != null
    ensures one != null ==> AreTheSame(one, one)
  {
    if one == null || two == null then false
    else if one == two then true
    else if one.id.None? then false
    else two.id == one.id
  }

  /** Identity by id is an equivalence on meters. */
  lemma AreTheSameIsEquivalence(a: Meter?, b: Meter?, c: Meter?)
    ensures AreTheSame(a, b) ==> AreTheSame(b, a)
    ensures AreTheSame(a, b) && AreTheSame(b, c) ==> AreTheSame(a, c)
  {
  }

  /** isEmpty: no meter, or a meter without gauges. */
  predicate IsEmpty(m: Meter?)
    reads m
    ensures !IsEmpty(m) ==> m != null && |m.gauges| > 0
  {
    m == null || |m.gauges| == 0
  }
}
