/** Alert of the service: a reading of a meter's gauge that crossed one of the
    gauge's limits, with its confirmation status and its kind, and the integer
    and text codes under which both are stored and requested. */
module ServerAlert {
  import opened Lang
  import opened ServerGaugeValue

  // ------------------------------------------------------------- AlertStatus

  datatype AlertStatus = NEW | CHECKED {
    /** toInt */
    function Code(): int {
      match this
      case NEW => 0
      case CHECKED => 1
    }

    /** name() */
    function Name(): string {
      match this
      case NEW => "NEW"
      case CHECKED => "CHECKED"
    }
  }

  /** AlertStatus.values(), in declaration (EnumSet iteration) order. */
  const AllStatuses: seq<AlertStatus> := [NEW, CHECKED]

  lemma AllStatusesListed(s: AlertStatus)
    ensures s in AllStatuses
  {
    if s == NEW { assert AllStatuses[0] == s; } else { assert AllStatuses[1] == s; }
  }

  /** Reference definition of AlertStatus.fromInt: the status with the code,
      or None where the source throws IllegalArgumentException. */
  function StatusOfCode(v: int): (r: Option<AlertStatus>)
    ensures r.Some? ==> r.value.Code() == v
    ensures r.None? ==> forall s: AlertStatus :: s.Code() != v
  {
    if v == 0 then Some(NEW) else if v == 1 then Some(CHECKED) else None
  }

  /** Every status is recovered from its code. */
  lemma StatusCodeRoundTrip(s: AlertStatus)
    ensures StatusOfCode(s.Code()) == Some(s)
  {
  }

  /** AlertStatus.fromInt, as the loop over values() it is. */
  method StatusFromInt(v: int) returns (r: Option<AlertStatus>)
    ensures r == StatusOfCode(v)
  {
    var i := 0;
    while i < |AllStatuses|
      invariant 0 <= i <= |AllStatuses|
      invariant forall j :: 0 <= j < i ==> AllStatuses[j].Code() != v
    {
      if AllStatuses[i].Code() == v {
        return Some(AllStatuses[i]);
      }
      i := i + 1;
    }
    forall s: AlertStatus ensures s.Code() != v {
      AllStatusesListed(s);
    }
    return None;
  }

  /** The status a text names, ignoring case. */
  function StatusNamed(text: string): (r: Option<AlertStatus>)
    ensures r.Some? ==> EqualsIgnoreCase(r.value.Name(), text)
    ensures r.None? ==> forall s: AlertStatus :: !EqualsIgnoreCase(s.Name(), text)
  {
    if EqualsIgnoreCase(NEW.Name(), text) then Some(NEW)
    else if EqualsIgnoreCase(CHECKED.Name(), text) then Some(CHECKED)
    else None
  }

  /** What fromString makes of a collection of texts. */
  datatype StatusesParsed =
    | NoStatuses                      // null, for a null or empty collection
    | Statuses(statuses: set<AlertStatus>)
    | InvalidValue(text: string)      // IllegalArgumentException naming the text

  /** The position of the first text that names no status, or the length of
      the list when every text names one. */
  function FirstUnnamed(texts: seq<string>): (k: nat)
    ensures k <= |texts|
    ensures forall j :: 0 <= j < k ==> StatusNamed(texts[j]).Some?
    ensures k < |texts| ==> StatusNamed(texts[k]).None?
  {
    if texts == [] then 0
    else if StatusNamed(texts[0]).None? then 0
    else
      var k := FirstUnnamed(texts[1..]);
      assert forall j :: 1 <= j < k + 1 ==> texts[j] == texts[1..][j - 1];
      k + 1
  }

  /** Reference definition of fromString over a non-empty list: the statuses
      the texts name, or the first text that names none. */
  function StatusesOf(texts: seq<string>): (r: StatusesParsed)
    ensures !r.NoStatuses?
    ensures r.Statuses? <==> forall i :: 0 <= i < |texts| ==> StatusNamed(texts[i]).Some?
    ensures r.Statuses? ==> forall s :: s in r.statuses <==> exists i :: 0 <= i < |texts| && StatusNamed(texts[i]) == Some(s)
    ensures r.InvalidValue? ==>
      exists k :: 0 <= k < |texts| && texts[k] == r.text && StatusNamed(texts[k]).None? &&
        forall j :: 0 <= j < k ==> StatusNamed(texts[j]).Some?
  {
    var k := FirstUnnamed(texts);
    if k < |texts| then InvalidValue(texts[k])
    else Statuses(set i | 0 <= i < |texts| :: StatusNamed(texts[i]).value)
  }

  /** The first text that names no status is the one after a run of texts
      that all name one. */
  lemma FirstUnnamedAt(texts: seq<string>, i: nat)
    requires i < |texts| && StatusNamed(texts[i]).None?
    requires forall j :: 0 <= j < i ==> StatusNamed(texts[j]).Some?
    ensures StatusesOf(texts) == InvalidValue(texts[i])
  {
    assert FirstUnnamed(texts) == i;
  }

  /** The statuses named by one more text. */
  lemma NamedStep(texts: seq<string>, i: nat)
    requires i < |texts| && StatusNamed(texts[i]).Some?
    requires forall j :: 0 <= j < i ==> StatusNamed(texts[j]).Some?
    ensures (set j | 0 <= j < i + 1 :: StatusNamed(texts[j]).value)
      == (set j | 0 <= j < i :: StatusNamed(texts[j]).value) + {StatusNamed(texts[i]).value}
  {
  }

  /** The inner loop of fromString: the status among values() whose name the
      text equals, ignoring case. */
  method MatchStatus(text: string) returns (matched: Option<AlertStatus>)
    ensures matched == StatusNamed(text)
  {
    matched := None;
    var k := 0;
    while k < |AllStatuses|
      invariant 0 <= k <= |AllStatuses|
      invariant forall j :: 0 <= j < k ==> !EqualsIgnoreCase(AllStatuses[j].Name(), text)
    {
      if EqualsIgnoreCase(AllStatuses[k].Name(), text) {
        return Some(AllStatuses[k]);
      }
      k := k + 1;
    }
    assert AllStatuses[0] == NEW && AllStatuses[1] == CHECKED;
  }

  /** AlertStatus.fromString(Collection). */
  method StatusesFromStrings(texts: Option<seq<string>>) returns (r: StatusesParsed)
    ensures texts.None? || texts.value == [] ==> r == NoStatuses
    ensures texts.Some? && texts.value != [] ==> r == StatusesOf(texts.value)
  {
    if texts.None? || texts.value == [] {
      return NoStatuses;
    }
    var values := texts.value;
    var found: set<AlertStatus> := {};
    var i := 0;
    while i < |values|
      invariant 0 <= i <= |values|
      invariant forall j :: 0 <= j < i ==> StatusNamed(values[j]).Some?
      invariant found == set j | 0 <= j < i :: StatusNamed(values[j]).value
    {
      var matched := MatchStatus(values[i]);
      if matched.None? {
        FirstUnnamedAt(values, i);
        return InvalidValue(values[i]);
      }
      NamedStep(values, i);
      found := found + {matched.value};
      i := i + 1;
    }
    assert FirstUnnamed(values) == |values|;
    return Statuses(found);
  }

  /** The codes of the statuses in `order` that belong to `statuses`. */
  function CodesInOrder(statuses: set<AlertStatus>, order: seq<AlertStatus>): seq<int> {
    if order == [] then []
    else (if order[0] in statuses then [order[0].Code()] else []) + CodesInOrder(statuses, order[1..])
  }

  /** The codes toInt(EnumSet) produces: one per member of the set, in
      declaration order. */
  lemma StatusCodesMeaning(statuses: set<AlertStatus>)
    ensures |CodesInOrder(statuses, AllStatuses)| == |statuses|
    ensures forall s: AlertStatus :: s in statuses <==> s.Code() in CodesInOrder(statuses, AllStatuses)
  {
    var codes := CodesInOrder(statuses, AllStatuses);
    assert AllStatuses[1..] == [CHECKED] && [CHECKED][1..] == [];
    assert CodesInOrder(statuses, [CHECKED]) == (if CHECKED in statuses then [1] else []) + CodesInOrder(statuses, []);
    assert codes == (if NEW in statuses then [0] else []) + CodesInOrder(statuses, [CHECKED]);
    assert codes == (if NEW in statuses then [0] else []) + (if CHECKED in statuses then [1] else []);
    assert forall s :: s in statuses ==> s == NEW || s == CHECKED;
    if NEW in statuses && CHECKED in statuses {
      assert statuses == {NEW, CHECKED};
    } else if NEW in statuses {
      assert statuses == {NEW};
    } else if CHECKED in statuses {
      assert statuses == {CHECKED};
    } else {
      assert statuses == {};
    }
  }

  /** AlertStatus.toInt(EnumSet): an array holding the members' codes, filled
      index by index while iterating the set in declaration order. */
  method StatusCodes(statuses: set<AlertStatus>) returns (a: array<int>)
    ensures fresh(a)
    ensures a[..] == CodesInOrder(statuses, AllStatuses)
    ensures a.Length == |statuses|
  {
    StatusCodesMeaning(statuses);
    a := new int[|statuses|];
    var index := -1;
    var i := 0;
    while i < |AllStatuses|
      invariant 0 <= i <= |AllStatuses|
      invariant index + 1 + |CodesInOrder(statuses, AllStatuses[i..])| == a.Length
      invariant a[..index + 1] + CodesInOrder(statuses, AllStatuses[i..]) == CodesInOrder(statuses, AllStatuses)
    {
      var status := AllStatuses[i];
      assert AllStatuses[i..][1..] == AllStatuses[i + 1..];
      if status in statuses {
        index := index + 1;
        a[index] := status.Code();
        assert a[..index + 1] == a[..index] + [status.Code()];
      }
      i := i + 1;
    }
    assert a[..index + 1] == a[..];
  }

  // --------------------------------------------------------------- AlertType

  datatype AlertType = HIGH_TEMPERATURE | LOW_TEMPERATURE | HIGH_HUMIDITY | LOW_HUMIDITY {
    /** toInt */
    function Code(): int {
      match this
      case HIGH_TEMPERATURE => 0
      case LOW_TEMPERATURE => 1
      case HIGH_HUMIDITY => 2
      case LOW_HUMIDITY => 3
    }
  }

  /** AlertType.values(), in declaration order. */
  const AllTypes: seq<AlertType> := [HIGH_TEMPERATURE, LOW_TEMPERATURE, HIGH_HUMIDITY, LOW_HUMIDITY]

  lemma AllTypesListed(t: AlertType)
    ensures t in AllTypes
  {
    match t
    case HIGH_TEMPERATURE => assert AllTypes[0] == t;
    case LOW_TEMPERATURE => assert AllTypes[1] == t;
    case HIGH_HUMIDITY => assert AllTypes[2] == t;
    case LOW_HUMIDITY => assert AllTypes[3] == t;
  }

  /** Reference definition of AlertType.fromInt: the type with the code, or
      None where the source throws IllegalArgumentException. */
  function TypeOfCode(v: int): (r: Option<AlertType>)
    ensures r.Some? ==> r.value.Code() == v
    ensures r.None? ==> forall t: AlertType :: t.Code() != v
  {
    if v == 0 then Some(HIGH_TEMPERATURE)
    else if v == 1 then Some(LOW_TEMPERATURE)
    else if v == 2 then Some(HIGH_HUMIDITY)
    else if v == 3 then Some(LOW_HUMIDITY)
    else None
  }

  /** Every type is recovered from its code, and the codes are 0 to 3. */
  lemma TypeCodeRoundTrip(t: AlertType)
    ensures TypeOfCode(t.Code()) == Some(t)
    ensures 0 <= t.Code() <= 3
  {
  }

  /** AlertType.fromInt, as the loop over values() it is. */
  method TypeFromInt(v: int) returns (r: Option<AlertType>)
    ensures r == TypeOfCode(v)
  {
    var i := 0;
    while i < |AllTypes|
      invariant 0 <= i <= |AllTypes|
      invariant forall j :: 0 <= j < i ==> AllTypes[j].Code() != v
    {
      if AllTypes[i].Code() == v {
        return Some(AllTypes[i]);
      }
      i := i + 1;
    }
    forall t: AlertType ensures t.Code() != v {
      AllTypesListed(t);
    }
    return None;
  }

  // ------------------------------------------------------------------- Alert

  class Alert {
    /** The reading that caused the alert. */
    var value: GaugeValue?
    var status: Option<AlertStatus>
    var alertType: Option<AlertType>
    /** The tag id of the meter. */
    var tagId: Option<string>
    var gaugeId: Option<string>

    /** The no-argument constructor; the parser fills the fields with setters. */
    constructor ()
      ensures value == null && status.None? && alertType.None? && tagId.None? && gaugeId.None?
    {
      value, status, alertType, tagId, gaugeId := null, None, None, None, None;
    }
  }
}
