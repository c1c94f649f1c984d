/** The service's three-valued validity verdict (declared in the service's
    Meters) and the rule by which a meter combines the verdicts of its gauges. */
module ServerValidity {

  datatype ValueValidity = VALID | INVALID | NO_VALUES

  /** Reference definition of a service meter's verdict, read off the whole
      list of gauge verdicts: INVALID if any gauge is invalid, otherwise VALID
      if any gauge is valid, otherwise NO_VALUES. */
  function MeterVerdict(vs: seq<ValueValidity>): ValueValidity {
    if INVALID in vs then INVALID
    else if VALID in vs then VALID
    else NO_VALUES
  }

  /** The verdict of the scan in Meter.hasValidValues after the gauges `vs`:
      the running verdict starts at NO_VALUES, becomes VALID at a valid gauge
      and the scan stops at the first invalid one. */
  function Scanned(vs: seq<ValueValidity>): ValueValidity
  {
    if vs == [] then NO_VALUES
    else
      var before := Scanned(vs[..|vs| - 1]);
      var v := vs[|vs| - 1];
      if before == INVALID || v == INVALID then INVALID
      else if v == VALID then VALID
      else before
  }

  /** The scan computes the reference verdict, whatever the order of the gauges. */
  lemma {:induction false} ScannedIsMeterVerdict(vs: seq<ValueValidity>)
    ensures Scanned(vs) == MeterVerdict(vs)
  {
    if vs != [] {
      var init := vs[..|vs| - 1];
      var last := vs[|vs| - 1];
      ScannedIsMeterVerdict(init);
      assert vs == init + [last];
      assert INVALID in vs <==> INVALID in init || last == INVALID;
      assert VALID in vs <==> VALID in init || last == VALID;
    }
  }

  /** The scan after one more gauge. */
  lemma ScannedStep(vs: seq<ValueValidity>, i: nat)
    requires i < |vs|
    ensures Scanned(vs[..i + 1]) ==
      if Scanned(vs[..i]) == INVALID || vs[i] == INVALID then INVALID
      else if vs[i] == VALID then VALID
      else Scanned(vs[..i])
  {
    assert vs[..i + 1][..i] == vs[..i];
  }

  /** One invalid gauge makes the meter invalid. */
  lemma InvalidDecides(vs: seq<ValueValidity>, i: nat)
    requires i < |vs| && vs[i] == INVALID
    ensures MeterVerdict(vs) == INVALID
  {
    assert vs[i] in vs;
  }

  /** The meter's verdict does not depend on the order of its gauges. */
  lemma MeterVerdictOrderIndependent(vs: seq<ValueValidity>, ws: seq<ValueValidity>)
    requires multiset(vs) == multiset(ws)
    ensures MeterVerdict(vs) == MeterVerdict(ws)
  {
    assert forall v :: v in vs <==> v in multiset(vs);
    assert forall v :: v in ws <==> v in multiset(ws);
  }
}
