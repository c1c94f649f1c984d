/** Meter of the service: a tagged meter owned by a user, optionally placed at
    a location, owning a list of gauges. */
module ServerMeter {
  import opened Lang
  import opened ServerValidity
  import opened ServerGaugeValue
  import opened ServerGauge

  class Meter {
    /** The database row id. */
    var meterId: Option<int>
    var userId: Option<int>
    /** The external tag id. */
    var id: Option<string>
    var name: Option<string>
    /** The gauges; a null list is the empty list. */
    var gauges: seq<Gauge>
    var locationId: Option<int>
    var locationX: Option<real>
    var locationY: Option<real>

    /** The no-argument constructor used by deserialisation. */
    constructor Empty()
      ensures meterId.None? && userId.None? && id.None? && name.None? && gauges == []
      ensures locationId.None? && locationX.None? && locationY.None?
    {
      meterId, userId, id, name, gauges := None, None, None, None, [];
      locationId, locationX, locationY := None, None, None;
    }

    /** Meter(String tagId) */
    constructor (id: Option<string>)
      ensures meterId.None? && userId.None? && this.id == id && name.None? && gauges == []
      ensures locationId.None? && locationX.None? && locationY.None?
    {
      meterId, userId, this.id, name, gauges := None, None, id, None, [];
      locationId, locationX, locationY := None, None, None;
    }

    method AddGauge(g: Gauge)
      modifies this
      ensures gauges == old(gauges) + [g]
      ensures id == old(id) && name == old(name) && userId == old(userId) && meterId == old(meterId)
      ensures locationId == old(locationId) && locationX == old(locationX) && locationY == old(locationY)
    {
      gauges := gauges + [g];
    }

    method SetUserId(u: Option<int>)
      modifies this`userId
      ensures userId == u
      ensures id == old(id) && name == old(name) && gauges == old(gauges) && meterId == old(meterId)
      ensures locationId == old(locationId) && locationX == old(locationX) && locationY == old(locationY)
    {
      userId := u;
    }

    /** Every gauge can run its validity check. */
    predicate ValidityDefined()
      reads this, gauges, ValueObjects(gauges)
    {
      AllValidityDefined(gauges)
    }

    /** The verdicts of the gauges, in list order. */
    function GaugeVerdicts(p: NumberSyntax): (vs: seq<ValueValidity>)
      reads this, gauges, ValueObjects(gauges)
      requires ValidityDefined()
      ensures |vs| == |gauges|
    {
      VerdictsOf(gauges, p)
    }

    /** The verdict hasValidValues computes, read off all gauge verdicts. */
    function Validity(p: NumberSyntax): ValueValidity
      reads this, gauges, ValueObjects(gauges)
      requires ValidityDefined()
    {
      MeterVerdict(GaugeVerdicts(p))
    }

    /** A meter is INVALID exactly when one of its gauges is, otherwise VALID
        exactly when one of its gauges is; a meter without gauges has no values. */
    lemma ValidityMeaning(p: NumberSyntax)
      requires ValidityDefined()
      ensures |gauges| == 0 ==> Validity(p) == NO_VALUES
      ensures Validity(p) == INVALID <==> exists i :: 0 <= i < |gauges| && gauges[i].Validity(p) == INVALID
      ensures Validity(p) == VALID <==>
        (exists i :: 0 <= i < |gauges| && gauges[i].Validity(p) == VALID) &&
        (forall i :: 0 <= i < |gauges| ==> gauges[i].Validity(p) != INVALID)
    {
      var vs := GaugeVerdicts(p);
      forall i | 0 <= i < |gauges| ensures vs[i] == gauges[i].Validity(p) {
        VerdictAt(gauges, p, i);
      }
      assert forall v :: v in vs <==> exists i :: 0 <= i < |gauges| && vs[i] == v;
    }

    /** hasValidValues: asks each gauge in turn and stops at the first invalid one. */
    method HasValidValues(p: NumberSyntax) returns (v: ValueValidity)
      requires ValidityDefined()
      ensures v == Validity(p)
    {
      if |gauges| == 0 {
        assert GaugeVerdicts(p) == [];
        return NO_VALUES;
      }
      ghost var vs := GaugeVerdicts(p);
      var validity := NO_VALUES;
      var i := 0;
      while i < |gauges|
        invariant 0 <= i <= |gauges|
        invariant ValidityDefined() && vs == GaugeVerdicts(p)
        invariant validity == Scanned(vs[..i]) && validity != INVALID
      {
        var gv := gauges[i].Validity(p);
        VerdictAt(gauges, p, i);
        ScannedStep(vs, i);
        if gv == INVALID {
          InvalidDecides(vs, i);
          return INVALID;
        } else if gv == VALID {
          validity := VALID;
        }
        i := i + 1;
      }
      assert vs[..i] == vs;
      ScannedIsMeterVerdict(vs);
      return validity;
    }
  }

  predicate AllValidityDefined(gs: seq<Gauge>)
    reads gs, ValueObjects(gs)
  {
    forall g :: g in gs ==> g.ValidityDefined()
  }

  /** The verdicts of a list of gauges, in list order. */
  function VerdictsOf(gs: seq<Gauge>, p: NumberSyntax): (vs: seq<ValueValidity>)
    reads gs, ValueObjects(gs)
    requires AllValidityDefined(gs)
    ensures |vs| == |gs|
  {
    if gs == [] then [] else [gs[0].Validity(p)] + VerdictsOf(gs[1..], p)
  }

  lemma {:induction false} VerdictAt(gs: seq<Gauge>, p: NumberSyntax, i: nat)
    requires AllValidityDefined(gs) && i < |gs|
    ensures VerdictsOf(gs, p)[i] == gs[i].Validity(p)
  {
    if i > 0 {
      assert gs[1..][i - 1] == gs[i];
      VerdictAt(gs[1..], p, i - 1);
    }
  }

  /** areTheSame: the same object, or two meters with the same non-null tag id. */
  predicate AreTheSame(one: Meter?, two: Meter?)
    reads one, two
    ensures AreTheSame(one, two) ==> one != null && two != null
    ensures one != null ==> AreTheSame(one, one)
  {
    if one == null || two == null then false
    else if one == two then true
    else if one.id.None? then false
    else two.id == one.id
  }

  /** Identity by tag id is an equivalence on meters. */
  lemma AreTheSameIsEquivalence(a: Meter?, b: Meter?, c: Meter?)
    ensures AreTheSame(a, b) ==> AreTheSame(b, a)
    ensures AreTheSame(a, b) && AreTheSame(b, c) ==> AreTheSame(a, c)
  {
  }

  /** isEmpty: no meter, or a meter without gauges. */
  predicate IsEmpty(m: Meter?)
    reads m
    ensures !IsEmpty(m) ==> m != null && |m.gauges| > 0
  {
    m == null || |m.gauges| == 0
  }
}
