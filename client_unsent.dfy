/** MeterDBHelper.getUnsentValues: the undelivered readings, grouped into
    gauges and meters that carry only their ids. */
module ClientUnsent {
  import opened Lang
  import opened ClientCommonUtils
  import opened ClientGaugeValue
  import opened ClientGauge
  import opened ClientMeter
  import opened ClientMeters

  /** One row of the query joining stored readings with their gauges: the
      reading's row id, text, sent flag (0 or 1) and timestamp, the id of its
      gauge and the id of that gauge's meter. */
  datatype UnsentRow = UnsentRow(valueId: int, value: Option<string>, sent: int, updated: int,
                                 gaugeId: string, meterId: string)

  /** Everything a value object records. */
  datatype StoredValue = StoredValue(rowId: Option<int>, value: Option<string>, sent: bool, updated: Option<Date>)

  function Stored(v: GaugeValue): StoredValue
    reads v
  {
    StoredValue(v.rowId, v.value, v.sent, v.updated)
  }

  /** The value object a row becomes: its text normalised by setValue, its
      sent column read by intToBoolean. */
  function RowValue(r: UnsentRow): StoredValue {
    StoredValue(Some(r.valueId), NormaliseValue(r.value), IntToBoolean(Some(r.sent)), Some(Date(r.updated)))
  }

  // ------------------------------------------------- the grouping, on values
  // Each function describes the grouping of the first n rows.

  /** The gauge ids, in the order of their first row. */
  function GaugeOrder(rows: seq<UnsentRow>, n: nat): seq<string>
    requires n <= |rows|
  {
    if n == 0 then []
    else
      var init := GaugeOrder(rows, n - 1);
      if rows[n - 1].gaugeId in init then init else init + [rows[n - 1].gaugeId]
  }

  /** The readings of one gauge, in row order. */
  function ValuesOfGauge(rows: seq<UnsentRow>, n: nat, gid: string): seq<StoredValue>
    requires n <= |rows|
  {
    if n == 0 then []
    else ValuesOfGauge(rows, n - 1, gid) + (if rows[n - 1].gaugeId == gid then [RowValue(rows[n - 1])] else [])
  }

  /** The meter ids, in the order in which the first row of one of their
      gauges appears; the meter id of any later row of a gauge is not read. */
  function MeterOrder(rows: seq<UnsentRow>, n: nat): seq<string>
    requires n <= |rows|
  {
    if n == 0 then []
    else
      var r := rows[n - 1];
      if r.gaugeId in GaugeOrder(rows, n - 1) || r.meterId in MeterOrder(rows, n - 1) then MeterOrder(rows, n - 1)
      else MeterOrder(rows, n - 1) + [r.meterId]
  }

  /** The gauge ids a meter receives, in order: each gauge goes to the meter
      named on its first row. */
  function GaugesOfMeter(rows: seq<UnsentRow>, n: nat, mid: string): seq<string>
    requires n <= |rows|
  {
    if n == 0 then []
    else
      var r := rows[n - 1];
      GaugesOfMeter(rows, n - 1, mid) + (if r.gaugeId !in GaugeOrder(rows, n - 1) && r.meterId == mid then [r.gaugeId] else [])
  }

  /** The meter named on the first row of a gauge. */
  function MeterOfGauge(rows: seq<UnsentRow>, n: nat, gid: string): string
    requires n <= |rows|
  {
    if n == 0 then ""
    else if gid in GaugeOrder(rows, n - 1) then MeterOfGauge(rows, n - 1, gid)
    else rows[n - 1].meterId
  }

  predicate Distinct<T(==)>(s: seq<T>) {
    forall a, b :: 0 <= a < b < |s| ==> s[a] != s[b]
  }

  /** Each gauge id and each meter id is listed once. */
  lemma {:induction false} OrdersDistinct(rows: seq<UnsentRow>, n: nat)
    requires n <= |rows|
    ensures Distinct(GaugeOrder(rows, n)) && Distinct(MeterOrder(rows, n))
  {
    if n > 0 {
      OrdersDistinct(rows, n - 1);
    }
  }

  /** Every row's gauge is listed. */
  lemma {:induction false} GaugeOrderComplete(rows: seq<UnsentRow>, n: nat)
    requires n <= |rows|
    ensures forall i :: 0 <= i < n ==> rows[i].gaugeId in GaugeOrder(rows, n)
  {
    if n > 0 {
      GaugeOrderComplete(rows, n - 1);
      assert GaugeOrder(rows, n - 1) <= GaugeOrder(rows, n);
    }
  }

  /** A gauge is listed exactly when it has readings among the rows. */
  lemma {:induction false} GaugeOrderHasValues(rows: seq<UnsentRow>, n: nat, gid: string)
    requires n <= |rows|
    ensures gid in GaugeOrder(rows, n) <==> |ValuesOfGauge(rows, n, gid)| > 0
  {
    if n > 0 {
      GaugeOrderHasValues(rows, n - 1, gid);
    }
  }

  /** Each listed gauge goes to exactly one meter, the one named on its first
      row; every listed meter receives at least one gauge and only listed
      meters receive gauges. */
  lemma {:induction false} GaugesPartitioned(rows: seq<UnsentRow>, n: nat)
    requires n <= |rows|
    ensures forall mid, gid :: gid in GaugesOfMeter(rows, n, mid) <==> gid in GaugeOrder(rows, n) && mid == MeterOfGauge(rows, n, gid)
    ensures forall mid :: mid in MeterOrder(rows, n) <==> |GaugesOfMeter(rows, n, mid)| > 0
  {
    if n > 0 {
      GaugesPartitioned(rows, n - 1);
      var r := rows[n - 1];
      if r.gaugeId !in GaugeOrder(rows, n - 1) {
        assert r.gaugeId in GaugesOfMeter(rows, n, r.meterId);
      }
    }
  }

  // ----------------------------------------------------------- the scan

  /** The first loop of the scan: the first gauge in the list with the id. */
  method FindGauge(gaugeList: seq<Gauge>, gid: string) returns (gauge: Gauge?)
    ensures gauge == null <==> forall a :: 0 <= a < |gaugeList| ==> gaugeList[a].id != Some(gid)
    ensures gauge != null ==> gauge in gaugeList && gauge.id == Some(gid)
  {
    gauge := null;
    var g := 0;
    while g < |gaugeList|
      invariant 0 <= g <= |gaugeList|
      invariant forall a :: 0 <= a < g ==> gaugeList[a].id != Some(gid)
    {
      if gaugeList[g].id == Some(gid) {
        gauge := gaugeList[g];
        return;
      }
      g := g + 1;
    }
  }

  /** The second loop of the scan: the first meter in the list with the id. */
  method FindMeter(meterList: seq<Meter>, mid: string) returns (meter: Meter?)
    ensures meter == null <==> forall k :: 0 <= k < |meterList| ==> meterList[k].id != Some(mid)
    ensures meter != null ==> meter in meterList && meter.id == Some(mid)
  {
    meter := null;
    var m := 0;
    while m < |meterList|
      invariant 0 <= m <= |meterList|
      invariant forall k :: 0 <= k < m ==> meterList[k].id != Some(mid)
    {
      if meterList[m].id == Some(mid) {
        meter := meterList[m];
        return;
      }
      m := m + 1;
    }
  }

  /** The value objects record exactly the expected values, in order. */
  predicate Records(vs: seq<GaugeValue>, expected: seq<StoredValue>)
    reads vs
  {
    |vs| == |expected| && forall k :: 0 <= k < |vs| ==> Stored(vs[k]) == expected[k]
  }

  /** The position of an id in a list that holds it. */
  function IndexOf(s: seq<string>, x: string): (k: nat)
    requires x in s
    ensures k < |s| && s[k] == x
  {
    if s[0] == x then 0 else 1 + IndexOf(s[1..], x)
  }

  lemma {:induction false} IndexOfAppend(s: seq<string>, x: string, y: string)
    requires x in s
    ensures IndexOf(s + [y], x) == IndexOf(s, x)
  {
    if s[0] != x {
      assert (s + [y])[1..] == s[1..] + [y];
      IndexOfAppend(s[1..], x, y);
    }
  }

  /** The gauge objects carry the listed ids, in order, and each records the
      readings of its gauge among the first n rows. */
  predicate GaugesAgree(gaugeList: seq<Gauge>, order: seq<string>, rows: seq<UnsentRow>, n: nat)
    requires n <= |rows|
    reads gaugeList, ValueObjects(gaugeList)
  {
    |gaugeList| == |order| &&
    forall a :: 0 <= a < |gaugeList| ==>
      gaugeList[a].id == Some(order[a]) && Records(gaugeList[a].values, ValuesOfGauge(rows, n, order[a]))
  }

  /** A meter's gauge list holds, in order, the gauge objects of the gauge ids
      the meter receives from the first n rows. */
  predicate GaugesHold(gs: seq<Gauge>, mid: string, gaugeList: seq<Gauge>, rows: seq<UnsentRow>, n: nat)
    requires n <= |rows|
  {
    var gids := GaugesOfMeter(rows, n, mid);
    |gs| == |gids| && |gaugeList| == |GaugeOrder(rows, n)| &&
    forall j :: 0 <= j < |gids| ==>
      gids[j] in GaugeOrder(rows, n) && gs[j] == gaugeList[IndexOf(GaugeOrder(rows, n), gids[j])]
  }

  /** The meter objects carry the listed meter ids, in order, and each holds
      the gauge objects of its gauge ids, in order. */
  predicate MetersAgree(meterList: seq<Meter>, gaugeList: seq<Gauge>, rows: seq<UnsentRow>, n: nat)
    requires n <= |rows|
    reads meterList
  {
    |meterList| == |MeterOrder(rows, n)| &&
    forall k :: 0 <= k < |meterList| ==>
      meterList[k].id == Some(MeterOrder(rows, n)[k]) &&
      GaugesHold(meterList[k].gauges, MeterOrder(rows, n)[k], gaugeList, rows, n)
  }

  /** How the grouping grows with a row whose gauge is new. */
  lemma NewGaugeRow(rows: seq<UnsentRow>, i: nat)
    requires i < |rows| && rows[i].gaugeId !in GaugeOrder(rows, i)
    ensures GaugeOrder(rows, i + 1) == GaugeOrder(rows, i) + [rows[i].gaugeId]
    ensures MeterOrder(rows, i + 1) ==
      MeterOrder(rows, i) + (if rows[i].meterId in MeterOrder(rows, i) then [] else [rows[i].meterId])
    ensures forall mid ::
      GaugesOfMeter(rows, i + 1, mid) == GaugesOfMeter(rows, i, mid) + (if mid == rows[i].meterId then [rows[i].gaugeId] else [])
  {
  }

  /** A meter not named on the row keeps its gauges when the row's gauge is new. */
  lemma GaugesHoldOther(gs: seq<Gauge>, mid: string, gaugeList: seq<Gauge>, g: Gauge, rows: seq<UnsentRow>, i: nat)
    requires i < |rows| && rows[i].gaugeId !in GaugeOrder(rows, i) && mid != rows[i].meterId
    requires GaugesHold(gs, mid, gaugeList, rows, i)
    ensures GaugesHold(gs, mid, gaugeList + [g], rows, i + 1)
  {
    NewGaugeRow(rows, i);
    var gids := GaugesOfMeter(rows, i, mid);
    forall j | 0 <= j < |gids|
      ensures gs[j] == (gaugeList + [g])[IndexOf(GaugeOrder(rows, i + 1), gids[j])]
    {
      IndexOfAppend(GaugeOrder(rows, i), gids[j], rows[i].gaugeId);
    }
  }

  /** The meter named on the row receives the row's new gauge last. */
  lemma GaugesHoldAppend(gs: seq<Gauge>, mid: string, gaugeList: seq<Gauge>, g: Gauge, rows: seq<UnsentRow>, i: nat)
    requires i < |rows| && rows[i].gaugeId !in GaugeOrder(rows, i) && mid == rows[i].meterId
    requires GaugesHold(gs, mid, gaugeList, rows, i)
    ensures GaugesHold(gs + [g], mid, gaugeList + [g], rows, i + 1)
  {
    NewGaugeRow(rows, i);
    var order := GaugeOrder(rows, i);
    var gids := GaugesOfMeter(rows, i + 1, mid);
    forall j | 0 <= j < |gids|
      ensures (gs + [g])[j] == (gaugeList + [g])[IndexOf(GaugeOrder(rows, i + 1), gids[j])]
    {
      if j < |gs| {
        IndexOfAppend(order, gids[j], rows[i].gaugeId);
      } else {
        OrdersDistinct(rows, i + 1);
        assert IndexOf(order + [rows[i].gaugeId], rows[i].gaugeId) == |order|;
      }
    }
  }

  /** A new gauge without readings extends the agreement to the row's gauge id. */
  lemma GaugesAgreeExtend(gaugeList: seq<Gauge>, gauge: Gauge, rows: seq<UnsentRow>, i: nat)
    requires i < |rows| && rows[i].gaugeId !in GaugeOrder(rows, i)
    requires GaugesAgree(gaugeList, GaugeOrder(rows, i), rows, i)
    requires gauge.id == Some(rows[i].gaugeId) && gauge.values == []
    ensures GaugesAgree(gaugeList + [gauge], GaugeOrder(rows, i + 1), rows, i)
  {
    NewGaugeRow(rows, i);
    assert ValuesOfGauge(rows, i, rows[i].gaugeId) == [] by { GaugeOrderHasValues(rows, i, rows[i].gaugeId); }
  }

  /** A row of a gauge already listed changes no meter. */
  lemma MetersAgreeKnownGauge(meterList: seq<Meter>, gaugeList: seq<Gauge>, rows: seq<UnsentRow>, i: nat)
    requires i < |rows| && rows[i].gaugeId in GaugeOrder(rows, i)
    requires MetersAgree(meterList, gaugeList, rows, i)
    ensures MetersAgree(meterList, gaugeList, rows, i + 1)
  {
    assert GaugeOrder(rows, i + 1) == GaugeOrder(rows, i);
    assert MeterOrder(rows, i + 1) == MeterOrder(rows, i);
    assert forall mid :: GaugesOfMeter(rows, i + 1, mid) == GaugesOfMeter(rows, i, mid);
  }

  /** A row whose gauge is already in the list adds no gauge and no meter. */
  lemma KnownGauge(meterList: seq<Meter>, gaugeList: seq<Gauge>, rows: seq<UnsentRow>, i: nat, gauge: Gauge)
    requires i < |rows| && gauge in gaugeList && gauge.id == Some(rows[i].gaugeId)
    requires GaugesAgree(gaugeList, GaugeOrder(rows, i), rows, i)
    requires MetersAgree(meterList, gaugeList, rows, i)
    ensures GaugeOrder(rows, i + 1) == GaugeOrder(rows, i)
    ensures MetersAgree(meterList, gaugeList, rows, i + 1)
  {
    var a :| 0 <= a < |gaugeList| && gaugeList[a] == gauge;
    assert GaugeOrder(rows, i)[a] == rows[i].gaugeId;
    MetersAgreeKnownGauge(meterList, gaugeList, rows, i);
  }

  /** The value object the scan builds from a row. */
  method NewValue(r: UnsentRow) returns (value: GaugeValue)
    ensures fresh(value) && Stored(value) == RowValue(r)
  {
    value := new GaugeValue.WithRowId(Some(r.valueId));
    value.SetValue(r.value);
    value.SetSent(IntToBoolean(Some(r.sent)));
    value.SetUpdated(Some(Date(r.updated)));
  }

  /** The value object of row i, added with gauge.addGaugeValue to the gauge
      of the row: that gauge now records the first i + 1 rows' readings of its
      id, and every other gauge is as it was. */
  method AddRowValue(meterList: seq<Meter>, gaugeList: seq<Gauge>, gauge: Gauge,
                     order: seq<string>, rows: seq<UnsentRow>, i: nat)
    requires i < |rows| && Distinct(order)
    requires GaugesAgree(gaugeList, order, rows, i) && MetersAgree(meterList, gaugeList, rows, i + 1)
    requires gauge in gaugeList && gauge.id == Some(rows[i].gaugeId)
    modifies gauge
    ensures GaugesAgree(gaugeList, order, rows, i + 1) && MetersAgree(meterList, gaugeList, rows, i + 1)
  {
    ghost var gi :| 0 <= gi < |gaugeList| && gaugeList[gi] == gauge;
    ghost var before := gauge.values;
    var value := NewValue(rows[i]);
    gauge.AddGaugeValue(value);
    forall a | 0 <= a < |gaugeList|
      ensures Records(gaugeList[a].values, ValuesOfGauge(rows, i + 1, order[a]))
    {
      if a == gi {
        RecordsAppend(before, ValuesOfGauge(rows, i, order[a]), value);
      } else {
        assert order[a] != order[gi];
        assert gaugeList[a] != gauge;
      }
    }
  }

  /** A value object recording the next expected value extends the record. */
  lemma RecordsAppend(vs: seq<GaugeValue>, expected: seq<StoredValue>, v: GaugeValue)
    requires Records(vs, expected)
    ensures Records(vs + [v], expected + [Stored(v)])
  {
  }

  /** The meter a new gauge goes to: the meter in the list with the row's
      meter id, or a new meter with that id appended to the list. */
  method MeterFor(meterList: seq<Meter>, gaugeList: seq<Gauge>, rows: seq<UnsentRow>, i: nat)
    returns (meter: Meter, meters: seq<Meter>, ghost pos: nat)
    requires i < |rows| && rows[i].gaugeId !in GaugeOrder(rows, i)
    requires MetersAgree(meterList, gaugeList, rows, i) && |gaugeList| == |GaugeOrder(rows, i)|
    ensures |meters| == |MeterOrder(rows, i + 1)| && pos < |meters| && meters[pos] == meter
    ensures meter.id == Some(rows[i].meterId) && MeterOrder(rows, i + 1)[pos] == rows[i].meterId
    ensures GaugesHold(meter.gauges, rows[i].meterId, gaugeList, rows, i)
    ensures forall k :: 0 <= k < |meters| && k != pos ==>
      meters[k] in meterList && meters[k] != meter && MeterOrder(rows, i + 1)[k] != rows[i].meterId &&
      meters[k].id == Some(MeterOrder(rows, i + 1)[k]) &&
      GaugesHold(meters[k].gauges, MeterOrder(rows, i + 1)[k], gaugeList, rows, i)
    ensures forall k :: 0 <= k < |meters| ==> meters[k] in meterList || fresh(meters[k])
  {
    var r := rows[i];
    ghost var mo := MeterOrder(rows, i);
    OrdersDistinct(rows, i);
    NewGaugeRow(rows, i);
    var found := FindMeter(meterList, r.meterId);
    if found == null {
      assert r.meterId !in mo;
      assert GaugesOfMeter(rows, i, r.meterId) == [] by { GaugesPartitioned(rows, i); }
      meter := new Meter(Some(r.meterId));
      meters := meterList + [meter];
      pos := |meterList|;
    } else {
      meter, meters := found, meterList;
      pos := IndexOf(mo, r.meterId);
    }
  }

  /** The meter part of the scan for a gauge seen for the first time: the
      meter named on the row receives the gauge. */
  method PlaceGauge(meterList: seq<Meter>, gaugeList: seq<Gauge>, gauge: Gauge, rows: seq<UnsentRow>, i: nat)
    returns (meters: seq<Meter>)
    requires i < |rows| && rows[i].gaugeId !in GaugeOrder(rows, i)
    requires MetersAgree(meterList, gaugeList, rows, i) && |gaugeList| == |GaugeOrder(rows, i)|
    modifies set k | 0 <= k < |meterList| :: meterList[k]
    ensures MetersAgree(meters, gaugeList + [gauge], rows, i + 1)
    ensures forall k :: 0 <= k < |meters| ==> meters[k] in meterList || fresh(meters[k])
  {
    var meter;
    ghost var pos;
    meter, meters, pos := MeterFor(meterList, gaugeList, rows, i);
    ghost var before := meter.gauges;
    meter.AddGauge(gauge);
    GaugesHoldAppend(before, rows[i].meterId, gaugeList, gauge, rows, i);
    forall k | 0 <= k < |meters| && k != pos
      ensures GaugesHold(meters[k].gauges, MeterOrder(rows, i + 1)[k], gaugeList + [gauge], rows, i + 1)
    {
      GaugesHoldOther(meters[k].gauges, MeterOrder(rows, i + 1)[k], gaugeList, gauge, rows, i);
    }
  }

  /** The scan's step for a row whose gauge is not in the list yet: a new gauge
      with the row's gauge id, placed in its meter and appended to the list. */
  method NewGauge(meterList: seq<Meter>, gaugeList: seq<Gauge>, rows: seq<UnsentRow>, i: nat)
    returns (gauge: Gauge, meters: seq<Meter>, gauges: seq<Gauge>)
    requires i < |rows| && rows[i].gaugeId !in GaugeOrder(rows, i)
    requires GaugesAgree(gaugeList, GaugeOrder(rows, i), rows, i)
    requires MetersAgree(meterList, gaugeList, rows, i)
    modifies meterList
    ensures fresh(gauge) && gauges == gaugeList + [gauge] && gauge.id == Some(rows[i].gaugeId)
    ensures GaugesAgree(gauges, GaugeOrder(rows, i + 1), rows, i)
    ensures MetersAgree(meters, gauges, rows, i + 1)
    ensures forall k :: 0 <= k < |meters| ==> meters[k] in meterList || fresh(meters[k])
  {
    gauge := new Gauge(Some(rows[i].gaugeId));
    meters := PlaceGauge(meterList, gaugeList, gauge, rows, i);
    forall a | 0 <= a < |gaugeList|
      ensures gaugeList[a].id == Some(GaugeOrder(rows, i)[a])
      ensures Records(gaugeList[a].values, ValuesOfGauge(rows, i, GaugeOrder(rows, i)[a]))
    {
      assert old(Records(gaugeList[a].values, ValuesOfGauge(rows, i, GaugeOrder(rows, i)[a])));
    }
    gauges := gaugeList + [gauge];
    GaugesAgreeExtend(gaugeList, gauge, rows, i);
  }

  /** The gauge a row belongs to: the gauge in the list with the row's gauge
      id, or a new one (placed in its meter) when the list does not hold it. */
  method LocateGauge(meterList: seq<Meter>, gaugeList: seq<Gauge>, rows: seq<UnsentRow>, i: nat)
    returns (gauge: Gauge, meters: seq<Meter>, gauges: seq<Gauge>)
    requires i < |rows|
    requires GaugesAgree(gaugeList, GaugeOrder(rows, i), rows, i)
    requires MetersAgree(meterList, gaugeList, rows, i)
    modifies meterList
    ensures gauge in gauges && gauge.id == Some(rows[i].gaugeId)
    ensures GaugesAgree(gauges, GaugeOrder(rows, i + 1), rows, i)
    ensures MetersAgree(meters, gauges, rows, i + 1)
    ensures forall a :: 0 <= a < |gauges| ==> gauges[a] in gaugeList || fresh(gauges[a])
    ensures forall k :: 0 <= k < |meters| ==> meters[k] in meterList || fresh(meters[k])
  {
    var found := FindGauge(gaugeList, rows[i].gaugeId);
    if found == null {
      assert rows[i].gaugeId !in GaugeOrder(rows, i);
      gauge, meters, gauges := NewGauge(meterList, gaugeList, rows, i);
    } else {
      gauge, meters, gauges := found, meterList, gaugeList;
      KnownGauge(meterList, gaugeList, rows, i, found);
    }
  }

  /** One pass of the scan's loop: the row's value object goes to the gauge
      with the row's gauge id, which is created (and placed in its meter)
      when the list does not hold it yet. */
  method ScanRow(meterList: seq<Meter>, gaugeList: seq<Gauge>, rows: seq<UnsentRow>, i: nat)
    returns (meters: seq<Meter>, gauges: seq<Gauge>)
    requires i < |rows|
    requires GaugesAgree(gaugeList, GaugeOrder(rows, i), rows, i)
    requires MetersAgree(meterList, gaugeList, rows, i)
    modifies gaugeList, meterList
    ensures GaugesAgree(gauges, GaugeOrder(rows, i + 1), rows, i + 1)
    ensures MetersAgree(meters, gauges, rows, i + 1)
    ensures forall a :: 0 <= a < |gauges| ==> gauges[a] in gaugeList || fresh(gauges[a])
    ensures forall k :: 0 <= k < |meters| ==> meters[k] in meterList || fresh(meters[k])
  {
    var gauge;
    gauge, meters, gauges := LocateGauge(meterList, gaugeList, rows, i);
    OrdersDistinct(rows, i + 1);
    AddRowValue(meters, gauges, gauge, GaugeOrder(rows, i + 1), rows, i);
  }

  /** What the agreement of the lists with the grouping of all rows says about
      each meter's gauges. */
  lemma AgreementMeans(meterList: seq<Meter>, gaugeList: seq<Gauge>, rows: seq<UnsentRow>)
    requires GaugesAgree(gaugeList, GaugeOrder(rows, |rows|), rows, |rows|)
    requires MetersAgree(meterList, gaugeList, rows, |rows|)
    ensures forall k, j :: 0 <= k < |meterList| && 0 <= j < |GaugesOfMeter(rows, |rows|, MeterOrder(rows, |rows|)[k])| ==>
      var gid := GaugesOfMeter(rows, |rows|, MeterOrder(rows, |rows|)[k])[j];
      meterList[k].gauges[j] in gaugeList && meterList[k].gauges[j].id == Some(gid) &&
      Records(meterList[k].gauges[j].values, ValuesOfGauge(rows, |rows|, gid))
  {
  }

  /** The loop of getUnsentValues: the lists of new meters and new gauges
      it builds from all the rows. */
  method GroupRows(rows: seq<UnsentRow>) returns (meterList: seq<Meter>, gaugeList: seq<Gauge>)
    ensures forall a :: 0 <= a < |gaugeList| ==> fresh(gaugeList[a])
    ensures forall k :: 0 <= k < |meterList| ==> fresh(meterList[k])
    ensures GaugesAgree(gaugeList, GaugeOrder(rows, |rows|), rows, |rows|)
    ensures MetersAgree(meterList, gaugeList, rows, |rows|)
  {
    meterList, gaugeList := [], [];
    var i := 0;
    while i < |rows|
      invariant 0 <= i <= |rows|
      invariant forall a :: 0 <= a < |gaugeList| ==> fresh(gaugeList[a])
      invariant forall k :: 0 <= k < |meterList| ==> fresh(meterList[k])
      invariant GaugesAgree(gaugeList, GaugeOrder(rows, i), rows, i)
      invariant MetersAgree(meterList, gaugeList, rows, i)
    {
      meterList, gaugeList := ScanRow(meterList, gaugeList, rows, i);
      i := i + 1;
    }
  }

  /** getUnsentValues, given the rows of the query: null when there are no
      rows, otherwise new meters in the order of the grouping, each holding
      new gauges with exactly the readings of their rows, in row order. */
  method GetUnsentValues(rows: seq<UnsentRow>) returns (ms: Meters?)
    ensures ms == null <==> rows == []
    ensures ms != null ==>
      fresh(ms) && |ms.meters| == |MeterOrder(rows, |rows|)| &&
      forall k :: 0 <= k < |ms.meters| ==>
        var gids := GaugesOfMeter(rows, |rows|, MeterOrder(rows, |rows|)[k]);
        fresh(ms.meters[k]) && ms.meters[k].id == Some(MeterOrder(rows, |rows|)[k]) &&
        |ms.meters[k].gauges| == |gids| &&
        forall j :: 0 <= j < |gids| ==>
          fresh(ms.meters[k].gauges[j]) && ms.meters[k].gauges[j].id == Some(gids[j]) &&
          Records(ms.meters[k].gauges[j].values, ValuesOfGauge(rows, |rows|, gids[j]))
  {
    if rows == [] {
      return null;
    }
    var meterList, gaugeList := GroupRows(rows);
    AgreementMeans(meterList, gaugeList, rows);
    assert meterList != [] by {
      GaugeOrderComplete(rows, |rows|);
      GaugesPartitioned(rows, |rows|);
      assert |GaugesOfMeter(rows, |rows|, MeterOfGauge(rows, |rows|, rows[0].gaugeId))| > 0;
    }
    ms := GetMeters(meterList);
  }
}
