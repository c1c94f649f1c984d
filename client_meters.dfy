/** Meters of the mobile client: the container in which meters travel to the service. */
module ClientMeters {
  import opened ClientGaugeValue
  import opened ClientGauge
  import opened ClientMeter

  /** The gauge objects of a list of meters. */
  function GaugeObjects(ms: seq<Meter>): (s: set<Gauge>)
    reads ms
    ensures forall m, g :: m in ms && g in m.gauges ==> g in s
  {
    set m, g | m in ms && g in m.gauges :: g
  }

  /** The reading objects of a list of meters. */
  function MeterValueObjects(ms: seq<Meter>): (s: set<GaugeValue>)
    reads ms, GaugeObjects(ms)
    ensures forall m, g, v :: m in ms && g in m.gauges && v in g.values ==> v in s
  {
    set m, g, v | m in ms && g in m.gauges && v in g.values :: v
  }

  class Meters {
    /** The meters; a null list is the empty list. */
    var meters: seq<Meter>

    constructor ()
      ensures meters == []
    {
      meters := [];
    }

    /** setSent: marks every reading of every gauge of every meter; nothing
        else in the readings changes. */
    method SetSent(s: bool)
      modifies MeterValueObjects(meters)
      ensures forall v :: v in old(MeterValueObjects(meters)) ==> v.sent == s
      ensures forall v :: v in old(MeterValueObjects(meters)) ==>
        v.value == old(v.value) && v.updated == old(v.updated) && v.rowId == old(v.rowId)
    {
      ghost var objs := MeterValueObjects(meters);
      ghost var marked: set<GaugeValue> := {};
      var list := meters;
      var i := 0;
      while i < |list|
        invariant 0 <= i <= |list|
        invariant forall v :: v in marked ==> v.sent == s
        invariant forall j, v :: 0 <= j < i && v in old(ValueObjects(list[j].gauges)) ==> v in marked
        invariant forall v :: v in objs ==>
          v.value == old(v.value) && v.updated == old(v.updated) && v.rowId == old(v.rowId)
      {
        ghost var these := ValueObjects(list[i].gauges);
        assert these == old(ValueObjects(list[i].gauges));
        list[i].SetSent(s);
        marked := marked + these;
        i := i + 1;
      }
      forall v | v in objs ensures v.sent == s {
        var m, g :| m in list && g in old(m.gauges) && v in old(g.values);
        var j :| 0 <= j < |list| && list[j] == m;
      }
    }
  }

  /** isEmpty: no container, or a container without meters. */
  predicate IsEmpty(ms: Meters?)
    reads ms
    ensures !IsEmpty(ms) ==> ms != null && |ms.meters| > 0
  {
    ms == null || |ms.meters| == 0
  }

  /** getMeters: wraps a non-empty list, and answers null for an empty one. */
  method GetMeters(list: seq<Meter>) returns (ms: Meters?)
    ensures list == [] <==> ms == null
    ensures ms != null ==> fresh(ms) && ms.meters == list
  {
    if list == [] {
      return null;
    }
    ms := new Meters();
    ms.meters := list;
  }
}
