/** GaugeValue of the service: one reading of a gauge and its database row id. */
module ServerGaugeValue {
  import opened Lang

  /** What the validity check looks at in a value: its text and its timestamp. */
  datatype Reading = Reading(value: Option<string>, updated: Option<Date>)

  /** setValue's normalisation: blank text (null, empty or whitespace only) is
      stored as null, any other text as given. */
  function NormaliseBlank(v: Option<string>): (r: Option<string>)
    ensures r.None? <==> IsBlank(v)
    ensures r.Some? ==> r == v && !IsBlank(r)
  {
    if IsBlank(v) then None else v
  }

  /** Normalised text is never blank, so normalising twice changes nothing. */
  lemma NormaliseBlankIdempotent(v: Option<string>)
    ensures NormaliseBlank(NormaliseBlank(v)) == NormaliseBlank(v)
  {
  }

  class GaugeValue {
    var rowId: Option<int>
    var value: Option<string>
    var updated: Option<Date>

    /** The no-argument constructor used by deserialisation. */
    constructor Empty()
      ensures rowId.None? && value.None? && updated.None?
    {
      rowId, value, updated := None, None, None;
    }

    /** GaugeValue(String, Date): stores its arguments without normalisation. */
    constructor (value: Option<string>, updated: Option<Date>)
      ensures rowId.None? && this.value == value && this.updated == updated
    {
      rowId, this.value, this.updated := None, value, updated;
    }

    /** GaugeValue(Long): a value known only by its database row. */
    constructor WithRowId(id: Option<int>)
      ensures rowId == id && value.None? && updated.None?
    {
      rowId, value, updated := id, None, None;
    }

    function AsReading(): (r: Reading)
      reads this
      ensures r.value == value && r.updated == updated
    {
      Reading(value, updated)
    }

    method SetValue(v: Option<string>)
      modifies this
      ensures value == NormaliseBlank(v)
      ensures rowId == old(rowId) && updated == old(updated)
    {
      if IsBlank(v) {
        value := None;
      } else {
        value := v;
      }
    }

    method SetRowId(id: Option<int>)
      modifies this
      ensures rowId == id
      ensures value == old(value) && updated == old(updated)
    {
      rowId := id;
    }

    method SetUpdated(d: Option<Date>)
      modifies this
      ensures updated == d
      ensures rowId == old(rowId) && value == old(value)
    {
      updated := d;
    }
  }

  /** The readings of a list of value objects, in list order. */
  function Readings(vs: seq<GaugeValue>): (rs: seq<Reading>)
    reads vs
    ensures |rs| == |vs|
    ensures forall i :: 0 <= i < |vs| ==> rs[i] == vs[i].AsReading()
  {
    if vs == [] then [] else [vs[0].AsReading()] + Readings(vs[1..])
  }
}
