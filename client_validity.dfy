/** The client's five-valued validity verdict (declared in the client's Meter)
    and the rule by which a meter combines the verdicts of its gauges. */
module ClientValidity {

  datatype ValueValidity = VALID | INVALID | NO_VALUES | GREATER_THAN_THRESHOLD | LOWER_THAN_THRESHOLD {
    /** The verdicts on which Meter.hasValidValues stops at once. */
    predicate IsFailure() {
      this == INVALID || this == GREATER_THAN_THRESHOLD || this == LOWER_THAN_THRESHOLD
    }
  }

  /** Reference definition of a meter's verdict, read off the whole list of
      gauge verdicts: the first failure if there is one, otherwise VALID when
      some gauge has valid values, otherwise NO_VALUES. */
  function Combined(vs: seq<ValueValidity>): ValueValidity {
    if vs == [] then NO_VALUES
    else if vs[0].IsFailure() then vs[0]
    else
      var rest := Combined(vs[1..]);
      if rest.IsFailure() then rest
      else if vs[0] == VALID || rest == VALID then VALID
      else NO_VALUES
  }

  /** What the combined verdict means for the list of gauge verdicts. */
  lemma {:induction false} CombinedMeaning(vs: seq<ValueValidity>)
    ensures Combined(vs).IsFailure() ==> Combined(vs) in vs
    ensures !Combined(vs).IsFailure() ==> forall i :: 0 <= i < |vs| ==> !vs[i].IsFailure()
    ensures Combined(vs) == VALID <==> (VALID in vs && forall i :: 0 <= i < |vs| ==> !vs[i].IsFailure())
    ensures Combined(vs) == NO_VALUES <==> forall i :: 0 <= i < |vs| ==> vs[i] == NO_VALUES
  {
    if vs != [] {
      CombinedMeaning(vs[1..]);
      assert vs == [vs[0]] + vs[1..];
      assert forall i :: 1 <= i < |vs| ==> vs[i] == vs[1..][i - 1];
    }
  }

  /** The verdict is the first failing gauge's verdict: every gauge before it passed. */
  lemma {:induction false} CombinedIsFirstFailure(vs: seq<ValueValidity>)
    requires Combined(vs).IsFailure()
    ensures exists k :: 0 <= k < |vs| && vs[k] == Combined(vs) &&
                        forall j :: 0 <= j < k ==> !vs[j].IsFailure()
  {
    if vs[0].IsFailure() {
      assert vs[0] == Combined(vs);
    } else {
      CombinedIsFirstFailure(vs[1..]);
      var k :| 0 <= k < |vs[1..]| && vs[1..][k] == Combined(vs[1..]) &&
               forall j :: 0 <= j < k ==> !vs[1..][j].IsFailure();
      assert vs[k + 1] == Combined(vs);
      assert forall j :: 0 <= j < k + 1 ==> !vs[j].IsFailure() by {
        forall j | 0 <= j < k + 1 ensures !vs[j].IsFailure() {
          if j > 0 { assert vs[j] == vs[1..][j - 1]; }
        }
      }
    }
  }

  /** Appending a gauge only matters when no earlier gauge failed. */
  lemma {:induction false} CombinedAppend(vs: seq<ValueValidity>, v: ValueValidity)
    ensures Combined(vs).IsFailure() ==> Combined(vs + [v]) == Combined(vs)
    ensures !Combined(vs).IsFailure() && v.IsFailure() ==> Combined(vs + [v]) == v
    ensures !Combined(vs).IsFailure() && !v.IsFailure() ==>
      Combined(vs + [v]) == (if v == VALID then VALID else Combined(vs))
  {
    if vs == [] {
      assert [v][1..] == [];
    } else {
      assert (vs + [v])[1..] == vs[1..] + [v];
      CombinedAppend(vs[1..], v);
    }
  }

  /** Once a prefix of the gauges has failed, the gauges after it do not matter. */
  lemma {:induction false} CombinedFailedPrefix(vs: seq<ValueValidity>, ws: seq<ValueValidity>)
    requires Combined(vs).IsFailure()
    ensures Combined(vs + ws) == Combined(vs)
  {
    assert (vs + ws)[0] == vs[0];
    if !vs[0].IsFailure() {
      assert (vs + ws)[1..] == vs[1..] + ws;
      CombinedFailedPrefix(vs[1..], ws);
    }
  }

  /** One step of the scan in Meter.hasValidValues: a failing gauge decides
      the whole meter, any other verdict extends the running one. */
  lemma CombinedStep(vs: seq<ValueValidity>, i: nat, running: ValueValidity)
    requires i < |vs| && running == Combined(vs[..i]) && !running.IsFailure()
    ensures vs[i].IsFailure() ==> Combined(vs) == vs[i]
    ensures !vs[i].IsFailure() ==>
      Combined(vs[..i + 1]) == (if vs[i] == VALID then VALID else running)
  {
    assert vs[..i + 1] == vs[..i] + [vs[i]];
    CombinedAppend(vs[..i], vs[i]);
    if vs[i].IsFailure() {
      CombinedFailedPrefix(vs[..i + 1], vs[i + 1..]);
      assert vs[..i + 1] + vs[i + 1..] == vs;
    }
  }
}
