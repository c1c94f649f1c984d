/** Meters of the service: the container in which meters are posted, and the
    rule that a post is acceptable only when every meter in it is. */
module ServerMeters {
  import opened ServerValidity
  import opened ServerGaugeValue
  import opened ServerGauge
  import opened ServerMeter

  /** The gauge objects of a list of meters. */
  function GaugeObjects(ms: seq<Meter>): (s: set<Gauge>)
    reads ms
    ensures forall m, g :: m in ms && g in m.gauges ==> g in s
  {
    set m, g | m in ms && g in m.gauges :: g
  }

  /** The reading objects of a list of meters. */
  function MeterValueObjects(ms: seq<Meter>): (s: set<GaugeValue>)
    reads ms, GaugeObjects(ms)
    ensures forall m, g, v :: m in ms && g in m.gauges && v in g.values ==> v in s
  {
    set m, g, v | m in ms && g in m.gauges && v in g.values :: v
  }

  class Meters {
    /** The meters; a null list is the empty list. */
    var meters: seq<Meter>

    constructor ()
      ensures meters == []
    {
      meters := [];
    }
  }

  /** isEmpty: no container, or a container without meters. */
  predicate IsEmpty(ms: Meters?)
    reads ms
    ensures !IsEmpty(ms) ==> ms != null && |ms.meters| > 0
  {
    ms == null || |ms.meters| == 0
  }

  /** getMeters: wraps a non-empty list, and answers null for an empty one. */
  method GetMeters(list: seq<Meter>) returns (ms: Meters?)
    ensures list == [] <==> ms == null
    ensures ms != null ==> fresh(ms) && ms.meters == list && !IsEmpty(ms)
  {
    if list == [] {
      return null;
    }
    ms := new Meters();
    ms.meters := list;
  }

  /** Every gauge of every meter can run its validity check. */
  predicate MetersValidityDefined(list: seq<Meter>)
    reads list, GaugeObjects(list), MeterValueObjects(list)
  {
    forall m :: m in list ==> m.ValidityDefined()
  }

  /** The scan over the meters: INVALID at the first meter that is not VALID
      (a meter without values included), VALID when there is none. */
  function ScanMeters(list: seq<Meter>, p: NumberSyntax): (v: ValueValidity)
    reads list, GaugeObjects(list), MeterValueObjects(list)
    requires MetersValidityDefined(list)
    ensures v != NO_VALUES
    ensures v == VALID <==> forall i :: 0 <= i < |list| ==> list[i].Validity(p) == VALID
  {
    if list == [] then VALID
    else if list[0].Validity(p) != VALID then INVALID
    else
      assert forall i :: 1 <= i < |list| ==> list[i] == list[1..][i - 1];
      ScanMeters(list[1..], p)
  }

  /** Meters.hasValidValues: NO_VALUES for an empty post, otherwise VALID
      exactly when every meter is VALID. */
  function HasValidValues(ms: Meters?, p: NumberSyntax): (v: ValueValidity)
    reads ms
    reads if ms == null then {} else set m | m in ms.meters
    reads if ms == null then {} else GaugeObjects(ms.meters)
    reads if ms == null then {} else MeterValueObjects(ms.meters)
    requires ms != null ==> MetersValidityDefined(ms.meters)
    ensures v == NO_VALUES <==> IsEmpty(ms)
    ensures v == VALID <==> !IsEmpty(ms) && forall i :: 0 <= i < |ms.meters| ==> ms.meters[i].Validity(p) == VALID
  {
    if IsEmpty(ms) then NO_VALUES else ScanMeters(ms.meters, p)
  }

  /** One meter without values spoils a whole post, even when the other meters are valid. */
  lemma MeterWithoutValuesSpoilsPost(ms: Meters, p: NumberSyntax, k: nat)
    requires MetersValidityDefined(ms.meters)
    requires k < |ms.meters| && ms.meters[k].Validity(p) == NO_VALUES
    ensures HasValidValues(ms, p) == INVALID
  {
  }
}
