/** GaugeValue of the mobile client: one reading of a gauge, its database row id
    and whether it has been delivered to the service. */
module ClientGaugeValue {
  import opened Lang

  /** What the validity and statistics code looks at in a value: its text and its timestamp. */
  datatype Reading = Reading(value: Option<string>, updated: Option<Date>)

  /** setValue's normalisation: the empty string is stored as null. */
  function NormaliseValue(v: Option<string>): (r: Option<string>)
    ensures r.None? <==> IsNullOrEmpty(v)
    ensures r.Some? ==> r == v && r.value != ""
  {
    if IsNullOrEmpty(v) then None else v
  }

  lemma NormaliseValueIdempotent(v: Option<string>)
    ensures NormaliseValue(NormaliseValue(v)) == NormaliseValue(v)
  {
  }

  class GaugeValue {
    var rowId: Option<int>
    var value: Option<string>
    var sent: bool
    var updated: Option<Date>

    /** The no-argument constructor used by deserialisation. */
    constructor Empty()
      ensures rowId.None? && value.None? && !sent && updated.None?
    {
      rowId := None;
      value := None;
      sent := false;
      updated := None;
    }

    /** GaugeValue(String, Date): stores the text as given, without normalisation. */
    constructor (value: Option<string>, updated: Option<Date>)
      ensures this.rowId.None? && this.value == value && !this.sent && this.updated == updated
    {
      rowId := None;
      this.value := value;
      sent := false;
      this.updated := updated;
    }

    /** GaugeValue(double, Date): the number in display form (`format` is
        doubleValueToDisplayString). */
    constructor FromNumber(x: Double, updated: Option<Date>, format: Double -> string)
      ensures rowId.None? && value == Some(format(x)) && !sent && this.updated == updated
    {
      rowId := None;
      value := Some(format(x));
      sent := false;
      this.updated := updated;
    }

    /** GaugeValue(Long): a value known only by its database row. */
    constructor WithRowId(id: Option<int>)
      ensures rowId == id && value.None? && !sent && updated.None?
    {
      rowId := id;
      value := None;
      sent := false;
      updated := None;
    }

    function AsReading(): (r: Reading)
      reads this
      ensures r.value == value && r.updated == updated
    {
      Reading(value, updated)
    }

    method SetValue(v: Option<string>)
      modifies this
      ensures value == NormaliseValue(v)
      ensures rowId == old(rowId) && sent == old(sent) && updated == old(updated)
    {
      value := NormaliseValue(v);
    }

    method SetSent(s: bool)
      modifies this
      ensures sent == s
      ensures rowId == old(rowId) && value == old(value) && updated == old(updated)
    {
      sent := s;
    }

    method SetRowId(id: Option<int>)
      modifies this
      ensures rowId == id
      ensures value == old(value) && sent == old(sent) && updated == old(updated)
    {
      rowId := id;
    }

    method SetUpdated(d: Option<Date>)
      modifies this
      ensures updated == d
      ensures rowId == old(rowId) && value == old(value) && sent == old(sent)
    {
      updated := d;
    }
  }

  /** The readings of a list of value objects, in list order. */
  function Readings(vs: seq<GaugeValue>): (rs: seq<Reading>)
    reads vs
    ensures |rs| == |vs|
    ensures forall i :: 0 <= i < |vs| ==> rs[i] == vs[i].AsReading()
  {
    if vs == [] then [] else [vs[0].AsReading()] + Readings(vs[1..])
  }

  /** Every value object in the list is marked as delivered. */
  predicate AllSent(vs: seq<GaugeValue>)
    reads vs
  {
    forall i :: 0 <= i < |vs| ==> vs[i].sent
  }
}
