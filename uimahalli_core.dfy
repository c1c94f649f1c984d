/** The core operations of the service behind the REST interface: the
    argument checks of adding a meter or a gauge, the decision flow of
    posting measurements, and the defaults of the statistics and alert
    queries. The database access object is represented by its answers,
    passed in as parameters. */
module UimahalliCore {
  import opened Lang
  import opened GaugeKinds
  import opened ServerValidity
  import opened ServerGaugeValue
  import opened ServerGauge
  import opened ServerMeter
  import opened ServerMeters
  import opened ServerAlert

  /** The IllegalArgumentExceptions the core operations throw. */
  datatype Failure =
    | InvalidMeter        // "Invalid meter."
    | InvalidLocation     // "Invalid location."
    | BadTagId(tagId: Option<string>)
    | InvalidGauge        // "Invalid gauge."
    | PermissionDenied    // "Permission denied for the given tag Id."
    | BadIds              // "Bad meter or gauge ids."
    | BadGauges           // "Bad Gauges."
    | BadMeters           // "Bad Meters."

  datatype Outcome<T> = Done(value: T) | Threw(failure: Failure)

  // ------------------------------------------------------------- addMeter

  /** The location check of addMeter, in its own order: a locationX needs a
      locationY and a locationId; without a locationX, a locationY is refused. */
  predicate LocationAccepted(x: Option<real>, y: Option<real>, locationId: Option<int>) {
    if x.Some? then y.Some? && locationId.Some?
    else !(y.Some? && (locationId.None? || x.None?))
  }

  /** A location is accepted exactly when both coordinates are absent, or
      both are present together with a location id. */
  lemma LocationAcceptedMeaning(x: Option<real>, y: Option<real>, locationId: Option<int>)
    ensures LocationAccepted(x, y, locationId) <==>
      (x.None? && y.None?) || (x.Some? && y.Some? && locationId.Some?)
  {
  }

  /** addMeter: `stored` is what the database's addMeter answers. The user
      id is overwritten before the location is checked, so a meter refused
      for its location already carries the authenticated user's id. */
  method AddMeter(userId: int, m: Meter, stored: bool) returns (r: Outcome<()>)
    modifies m`userId
    ensures IsBlank(old(m.id)) || IsBlank(old(m.name)) ==> r == Threw(InvalidMeter) && unchanged(m)
    ensures !IsBlank(old(m.id)) && !IsBlank(old(m.name)) ==>
      m.userId == Some(userId) &&
      (!LocationAccepted(m.locationX, m.locationY, m.locationId) ==> r == Threw(InvalidLocation)) &&
      (LocationAccepted(m.locationX, m.locationY, m.locationId) && !stored ==> r == Threw(BadTagId(m.id))) &&
      (LocationAccepted(m.locationX, m.locationY, m.locationId) && stored ==> r == Done(()))
    ensures m.id == old(m.id) && m.name == old(m.name) && m.gauges == old(m.gauges)
    ensures m.locationX == old(m.locationX) && m.locationY == old(m.locationY) && m.locationId == old(m.locationId)
  {
    if IsBlank(m.id) || IsBlank(m.name) {
      return Threw(InvalidMeter);
    }
    if m.userId != Some(userId) {
      m.SetUserId(Some(userId));
    }
    if m.locationX.Some? {
      if m.locationY.None? || m.locationId.None? {
        return Threw(InvalidLocation);
      }
    } else if m.locationY.Some? && (m.locationId.None? || m.locationX.None?) {
      return Threw(InvalidLocation);
    }
    if !stored {
      return Threw(BadTagId(m.id));
    }
    return Done(());
  }

  // ------------------------------------------------------------- addGauge

  /** The argument check of addGauge: an index, a non-blank name and
      description, a data type, and options that parse to a set. */
  predicate GaugeAccepted(g: Gauge)
    reads g
  {
    !(g.index.None? || IsBlank(g.name) || IsBlank(g.description) || g.dataType.None? || g.GetOptions().None?)
  }

  /** A blank options string is refused like a missing one. */
  lemma BlankOptionsRefused(g: Gauge)
    requires IsBlank(g.options)
    ensures !GaugeAccepted(g)
  {
    ServiceOptionsAgree(g.options);
  }

  /** addGauge: `meterIdOf` is the database's lookup of the tag's meter among
      the user's meters, `uuid` the id generated for a gauge without one;
      the result is the meter id the gauge is stored under. */
  method AddGauge(g: Gauge, tagId: Option<string>, meterIdOf: Option<string> -> Option<int>, uuid: string)
    returns (r: Outcome<int>)
    requires !IsBlank(Some(uuid))
    modifies g`id
    ensures !old(GaugeAccepted(g)) ==> r == Threw(InvalidGauge) && unchanged(g)
    ensures old(GaugeAccepted(g)) && meterIdOf(tagId).None? ==> r == Threw(PermissionDenied) && unchanged(g)
    ensures old(GaugeAccepted(g)) && meterIdOf(tagId).Some? ==>
      r == Done(meterIdOf(tagId).value) && !IsBlank(g.id) &&
      (IsBlank(old(g.id)) ==> g.id == Some(uuid)) && (!IsBlank(old(g.id)) ==> g.id == old(g.id))
    ensures g.values == old(g.values) && g.options == old(g.options) && g.dataType == old(g.dataType)
    ensures g.index == old(g.index) && g.name == old(g.name) && g.description == old(g.description)
  {
    if g.index.None? || IsBlank(g.name) || IsBlank(g.description) || g.dataType.None? || g.GetOptions().None? {
      return Threw(InvalidGauge);
    }
    var meterId := meterIdOf(tagId);
    if meterId.None? {
      return Threw(PermissionDenied);
    }
    if IsBlank(g.id) {
      g.SetId(Some(uuid));
    }
    return Done(meterId.value);
  }

  // ----------------------------------------------------- postMeasurements

  /** The gauges of the meters, meter by meter in list order; an empty
      meter contributes none. */
  function GaugesOf(list: seq<Meter>): (gs: seq<Gauge>)
    reads list
  {
    if list == [] then [] else GaugesOf(list[..|list| - 1]) + list[|list| - 1].gauges
  }

  /** The collected gauges are exactly the gauges of the meters. */
  lemma {:induction false} GaugesOfMembers(list: seq<Meter>)
    ensures forall g :: g in GaugesOf(list) <==> exists m :: m in list && g in m.gauges
  {
    if list != [] {
      var init := list[..|list| - 1];
      GaugesOfMembers(init);
      assert forall m :: m in list <==> m in init || m == list[|list| - 1];
    }
  }

  /** Every gauge of every meter is in the collected list, and the list holds
      exactly the gauge objects of the meters. */
  lemma MeterGaugesListed(list: seq<Meter>)
    ensures forall i, j :: 0 <= i < |list| && 0 <= j < |list[i].gauges| ==> list[i].gauges[j] in GaugesOf(list)
    ensures forall g :: g in GaugesOf(list) <==> g in GaugeObjects(list)
  {
    GaugesOfMembers(list);
    forall i, j | 0 <= i < |list| && 0 <= j < |list[i].gauges|
      ensures list[i].gauges[j] in GaugesOf(list)
    {
      assert list[i] in list;
    }
  }

  /** The gauge ids of a post, a missing id included. */
  function IdsOf(gs: seq<Gauge>): (ids: set<Option<string>>)
    reads gs`id
    ensures ids == {} <==> gs == []
  {
    var ids := set g | g in gs :: g.id;
    assert gs != [] ==> gs[0].id in ids;
    ids
  }

  /** The loop of postMeasurements over the meters: the gauges of every
      non-empty meter, in order, and their ids. */
  method CollectGauges(ms: Meters) returns (gauges: seq<Gauge>, ids: set<Option<string>>)
    ensures gauges == GaugesOf(ms.meters) && ids == IdsOf(gauges)
    ensures forall g :: g in gauges ==> old(allocated(g))
  {
    gauges, ids := [], {};
    var i := 0;
    while i < |ms.meters|
      invariant 0 <= i <= |ms.meters|
      invariant gauges == GaugesOf(ms.meters[..i]) && ids == IdsOf(gauges)
    {
      assert ms.meters[..i + 1][..i] == ms.meters[..i];
      var m := ms.meters[i];
      if !ServerMeter.IsEmpty(m) {
        var j := 0;
        ghost var before := gauges;
        while j < |m.gauges|
          invariant 0 <= j <= |m.gauges|
          invariant gauges == before + m.gauges[..j] && ids == IdsOf(gauges)
        {
          assert m.gauges[..j + 1] == m.gauges[..j] + [m.gauges[j]];
          gauges := gauges + [m.gauges[j]];
          ids := ids + {m.gauges[j].id};
          j := j + 1;
        }
        assert m.gauges[..j] == m.gauges;
      } else {
        assert gauges + m.gauges == gauges;
      }
      i := i + 1;
    }
    assert ms.meters[..i] == ms.meters;
  }

  /** The data type resolveDataTypes leaves on a gauge with the given id when
      no id in the list is missing: the stored type of a known id, the old
      type otherwise. An unknown type name becomes the default type. */
  function ResolvedType(id: Option<string>, old_: Option<DataType>, stored: map<string, Option<DataType>>): (t: Option<DataType>)
    ensures id.Some? && id.value in stored ==> t.Some?
    ensures !(id.Some? && id.value in stored) ==> t == old_
  {
    if id.Some? && id.value in stored then Some(stored[id.value].GetOr(DefaultDataType)) else old_
  }

  /** Every gauge of the list has an id. */
  predicate IdsPresent(gauges: seq<Gauge>)
    reads gauges`id
  {
    forall g :: g in gauges ==> g.id.Some?
  }

  /** Every gauge of the list has an id known to the database. */
  predicate AllKnown(gauges: seq<Gauge>, stored: map<string, Option<DataType>>)
    reads gauges`id
  {
    forall g :: g in gauges ==> g.id.Some? && g.id.value in stored
  }

  /** resolveDataTypes of the database: `stored` maps the stored gauge ids to
      their parsed data types. An empty list or a missing id fails before any
      change; otherwise every gauge with a stored id gets its type, and the
      answer says whether every id was stored. */
  method ResolveDataTypes(gauges: seq<Gauge>, stored: map<string, Option<DataType>>) returns (ok: bool)
    modifies gauges`dataType
    ensures ok <==> gauges != [] && AllKnown(gauges, stored)
    ensures gauges == [] || (exists g :: g in gauges && old(g.id).None?) ==>
      forall g :: g in gauges ==> g.dataType == old(g.dataType)
    ensures gauges != [] && (forall g :: g in gauges ==> old(g.id).Some?) ==>
      forall g :: g in gauges ==> g.dataType == ResolvedType(g.id, old(g.dataType), stored)
    ensures forall g :: g in gauges ==> g.id == old(g.id) && g.values == old(g.values) && g.options == old(g.options)
  {
    if gauges == [] {
      return false;
    }
    var i := 0;
    while i < |gauges|
      invariant 0 <= i <= |gauges|
      invariant forall j :: 0 <= j < i ==> gauges[j].id.Some?
    {
      if gauges[i].id.None? {
        return false;
      }
      i := i + 1;
    }
    i := 0;
    while i < |gauges|
      invariant 0 <= i <= |gauges|
      invariant forall g :: g in gauges ==> g.id == old(g.id) && g.id.Some? && g.values == old(g.values) && g.options == old(g.options)
      invariant forall g :: g in gauges[..i] ==> g.dataType == ResolvedType(g.id, old(g.dataType), stored)
      invariant forall g :: g in gauges && g !in gauges[..i] ==> g.dataType == old(g.dataType)
    {
      var g := gauges[i];
      assert gauges[..i + 1] == gauges[..i] + [g];
      if g.id.value in stored {
        g.SetDataType(stored[g.id.value]);
      }
      i := i + 1;
    }
    assert gauges[..i] == gauges;
    ok := AllKnown(gauges, stored);
  }

  /** Whether postMeasurements reaches resolveDataTypes with a list whose ids
      are all present, so that the stored types are written to the gauges. */
  predicate TypesResolvedFor(gs: seq<Gauge>, permitted: set<Option<string>> -> bool)
    reads gs`id
  {
    gs != [] && permitted(IdsOf(gs)) && IdsPresent(gs)
  }

  /** What postMeasurements decided: nothing to do, or the gauges whose
      values are handed to the database. */
  datatype Posted = Ignored | Stored(gauges: seq<Gauge>)

  /** postMeasurements: `permitted` is the database's permission check on a
      set of gauge ids. A post without meters or without gauges is ignored;
      otherwise the values are stored only when the ids are permitted, every
      id is known and every meter is VALID, and each failure throws before
      anything is stored. */
  method PostMeasurements(ms: Meters?, permitted: set<Option<string>> -> bool, stored: map<string, Option<DataType>>,
                          p: NumberSyntax)
    returns (r: Outcome<Posted>)
    modifies (if ms == null then {} else GaugeObjects(ms.meters))`dataType
    ensures ServerMeters.IsEmpty(ms) ==> r == Done(Ignored)
    ensures !ServerMeters.IsEmpty(ms) ==>
      var gs := GaugesOf(ms.meters);
      (gs == [] ==> r == Done(Ignored)) &&
      (gs != [] && !permitted(IdsOf(gs)) ==> r == Threw(BadIds)) &&
      (gs != [] && permitted(IdsOf(gs)) && !AllKnown(gs, stored) ==> r == Threw(BadGauges)) &&
      (gs != [] && permitted(IdsOf(gs)) && AllKnown(gs, stored) ==>
         MetersValidityDefined(ms.meters) &&
         (ServerMeters.HasValidValues(ms, p) != VALID ==> r == Threw(BadMeters)) &&
         (ServerMeters.HasValidValues(ms, p) == VALID ==> r == Done(Stored(gs))))
    ensures r.Done? && r.value.Stored? ==>
      !ServerMeters.IsEmpty(ms) && forall i :: 0 <= i < |ms.meters| ==> ms.meters[i].Validity(p) == VALID
    ensures !ServerMeters.IsEmpty(ms) ==>
      forall i, j :: 0 <= i < |ms.meters| && 0 <= j < |ms.meters[i].gauges| ==>
        var g := ms.meters[i].gauges[j];
        g.id == old(g.id) && g.values == old(g.values) && g.options == old(g.options)
    ensures !ServerMeters.IsEmpty(ms) && TypesResolvedFor(GaugesOf(ms.meters), permitted) ==>
      forall i, j :: 0 <= i < |ms.meters| && 0 <= j < |ms.meters[i].gauges| ==>
        var g := ms.meters[i].gauges[j];
        g.dataType == ResolvedType(g.id, old(g.dataType), stored)
    ensures !ServerMeters.IsEmpty(ms) && !TypesResolvedFor(GaugesOf(ms.meters), permitted) ==>
      forall i, j :: 0 <= i < |ms.meters| && 0 <= j < |ms.meters[i].gauges| ==>
        var g := ms.meters[i].gauges[j];
        g.dataType == old(g.dataType)
  {
    if ServerMeters.IsEmpty(ms) {
      return Done(Ignored);
    }
    var gauges, ids := CollectGauges(ms);
    MeterGaugesListed(ms.meters);
    forall i, j | 0 <= i < |ms.meters| && 0 <= j < |ms.meters[i].gauges|
      ensures var g := ms.meters[i].gauges[j];
        g.id == old(g.id) && g.values == old(g.values) && g.options == old(g.options) && g.dataType == old(g.dataType)
    {
      assert ms.meters[i].gauges[j] in gauges;
    }
    r := PostCollected(ms, gauges, ids, permitted, stored, p);
  }

  /** postMeasurements once the gauges of a non-empty post are collected:
      an empty list is ignored, ids that are not permitted throw, and the
      rest is typed, judged and stored. */
  method PostCollected(ms: Meters, gauges: seq<Gauge>, ids: set<Option<string>>,
                       permitted: set<Option<string>> -> bool, stored: map<string, Option<DataType>>, p: NumberSyntax)
    returns (r: Outcome<Posted>)
    requires !ServerMeters.IsEmpty(ms)
    requires gauges == GaugesOf(ms.meters) && ids == IdsOf(gauges)
    modifies GaugeObjects(ms.meters)`dataType
    ensures var gs := GaugesOf(ms.meters);
      (gs == [] ==> r == Done(Ignored)) &&
      (gs != [] && !permitted(IdsOf(gs)) ==> r == Threw(BadIds)) &&
      (gs != [] && permitted(IdsOf(gs)) && !AllKnown(gs, stored) ==> r == Threw(BadGauges)) &&
      (gs != [] && permitted(IdsOf(gs)) && AllKnown(gs, stored) ==>
         MetersValidityDefined(ms.meters) &&
         (ServerMeters.HasValidValues(ms, p) != VALID ==> r == Threw(BadMeters)) &&
         (ServerMeters.HasValidValues(ms, p) == VALID ==> r == Done(Stored(gs))))
    ensures r.Done? && r.value.Stored? ==>
      forall i :: 0 <= i < |ms.meters| ==> ms.meters[i].Validity(p) == VALID
    ensures forall i, j :: 0 <= i < |ms.meters| && 0 <= j < |ms.meters[i].gauges| ==>
      var g := ms.meters[i].gauges[j];
      g.id == old(g.id) && g.values == old(g.values) && g.options == old(g.options)
    ensures TypesResolvedFor(GaugesOf(ms.meters), permitted) ==>
      forall i, j :: 0 <= i < |ms.meters| && 0 <= j < |ms.meters[i].gauges| ==>
        var g := ms.meters[i].gauges[j];
        g.dataType == ResolvedType(g.id, old(g.dataType), stored)
    ensures !TypesResolvedFor(GaugesOf(ms.meters), permitted) ==>
      forall i, j :: 0 <= i < |ms.meters| && 0 <= j < |ms.meters[i].gauges| ==>
        var g := ms.meters[i].gauges[j];
        g.dataType == old(g.dataType)
  {
    if ids == {} {
      return Done(Ignored);
    }
    if !permitted(ids) {
      return Threw(BadIds);
    }
    r := StoreTyped(ms, gauges, stored, p);
    assert gauges == GaugesOf(ms.meters) && IdsOf(gauges) == ids;
    assert TypesResolvedFor(GaugesOf(ms.meters), permitted) <==> IdsPresent(gauges);
  }

  /** The gauges of a post typed from the database: resolveDataTypes on the
      collected list, with its effect stated gauge by gauge through the
      meters that hold them. */
  method TypeGauges(ms: Meters, gauges: seq<Gauge>, stored: map<string, Option<DataType>>) returns (ok: bool)
    requires gauges == GaugesOf(ms.meters) && gauges != []
    modifies GaugeObjects(ms.meters)`dataType
    ensures ok <==> AllKnown(gauges, stored)
    ensures ok ==> forall g :: g in GaugeObjects(ms.meters) ==> g.dataType.Some?
    ensures forall i, j :: 0 <= i < |ms.meters| && 0 <= j < |ms.meters[i].gauges| ==>
      var g := ms.meters[i].gauges[j];
      g.id == old(g.id) && g.values == old(g.values) && g.options == old(g.options)
    ensures IdsPresent(gauges) ==>
      forall i, j :: 0 <= i < |ms.meters| && 0 <= j < |ms.meters[i].gauges| ==>
        var g := ms.meters[i].gauges[j];
        g.dataType == ResolvedType(g.id, old(g.dataType), stored)
    ensures !IdsPresent(gauges) ==>
      forall i, j :: 0 <= i < |ms.meters| && 0 <= j < |ms.meters[i].gauges| ==>
        var g := ms.meters[i].gauges[j];
        g.dataType == old(g.dataType)
  {
    MeterGaugesListed(ms.meters);
    ok := ResolveDataTypes(gauges, stored);
  }

  /** The second half of postMeasurements, once the ids are permitted: the
      data types are resolved from the database, then the meters are judged
      with those types and the values are stored only when all are VALID. */
  method StoreTyped(ms: Meters, gauges: seq<Gauge>, stored: map<string, Option<DataType>>, p: NumberSyntax)
    returns (r: Outcome<Posted>)
    requires gauges == GaugesOf(ms.meters) && gauges != []
    modifies GaugeObjects(ms.meters)`dataType
    ensures !AllKnown(gauges, stored) ==> r == Threw(BadGauges)
    ensures AllKnown(gauges, stored) ==>
      MetersValidityDefined(ms.meters) &&
      (ServerMeters.HasValidValues(ms, p) != VALID ==> r == Threw(BadMeters)) &&
      (ServerMeters.HasValidValues(ms, p) == VALID ==> r == Done(Stored(gauges)))
    ensures r.Done? ==> r.value.Stored? && forall i :: 0 <= i < |ms.meters| ==> ms.meters[i].Validity(p) == VALID
    ensures forall i, j :: 0 <= i < |ms.meters| && 0 <= j < |ms.meters[i].gauges| ==>
      var g := ms.meters[i].gauges[j];
      g.id == old(g.id) && g.values == old(g.values) && g.options == old(g.options)
    ensures IdsPresent(gauges) ==>
      forall i, j :: 0 <= i < |ms.meters| && 0 <= j < |ms.meters[i].gauges| ==>
        var g := ms.meters[i].gauges[j];
        g.dataType == ResolvedType(g.id, old(g.dataType), stored)
    ensures !IdsPresent(gauges) ==>
      forall i, j :: 0 <= i < |ms.meters| && 0 <= j < |ms.meters[i].gauges| ==>
        var g := ms.meters[i].gauges[j];
        g.dataType == old(g.dataType)
  {
    var ok := TypeGauges(ms, gauges, stored);
    if !ok {
      return Threw(BadGauges);
    }
    forall g | g in GaugeObjects(ms.meters)
      ensures g.ValidityDefined()
    {
      TypedGaugeValidityDefined(g);
    }
    if ServerMeters.HasValidValues(ms, p) != VALID {
      return Threw(BadMeters);
    }
    return Done(Stored(gauges));
  }

  // ---------------------------------------------------------------- queries

  /** The status filter getAlerts passes on: NEW only when none is given. */
  function AlertFilter(statusFilter: Option<set<AlertStatus>>): (f: set<AlertStatus>)
    ensures statusFilter.Some? ==> f == statusFilter.value
    ensures statusFilter.None? ==> NEW in f && CHECKED !in f
  {
    statusFilter.GetOr({NEW})
  }

  /** The end date getStatistics passes on: the current time `now` when none
      is given. */
  function StatisticsEnd(endDate: Option<Date>, now: Date): (d: Date)
    ensures endDate.Some? ==> d == endDate.value
    ensures endDate.None? ==> d == now
  {
    endDate.GetOr(now)
  }
}
