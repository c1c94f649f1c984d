/** The parser for WatchLogger log files: a first line naming the logger's tag
    id, then one "SD" (sample data) line per sample with a timestamp, a
    temperature and a relative humidity. The samples become readings of the
    meter's temperature ("C") and humidity ("RH") gauges, and the most extreme
    samples beyond the gauges' limits become alerts. */
module WatchLoggerParser {
  import opened Lang
  import opened ServerGaugeValue
  import opened ServerGauge
  import opened ServerMeter
  import opened ServerAlert

  const TemperatureUnit: string := "C"
  const HumidityUnit: string := "RH"
  /** The first field of a sample line, quotes included. */
  const SampleDataRow: string := "\"SD\""
  /** A timestamp some log files carry on rubbish lines, quotes included. */
  const InvalidDate: string := "\"2000.01.01 00:00:00\""

  // ------------------------------------------------------------ tokenising

  /** Length of the token at the start of `s`: the run of characters before
      the first separator. */
  function TokenEnd(s: string, sep: char): (n: nat)
    requires s != [] && s[0] != sep
    ensures 1 <= n <= |s| && sep !in s[..n]
    ensures n < |s| ==> s[n] == sep
  {
    if |s| == 1 || s[1] == sep then 1
    else
      var n := 1 + TokenEnd(s[1..], sep);
      assert s[..n] == [s[0]] + s[1..][..n - 1];
      n
  }

  /** StringUtils.split(s, sep): the maximal runs of non-separator characters;
      adjacent separators produce no empty tokens. */
  function Split(s: string, sep: char): (r: seq<string>)
    decreases |s|
    ensures forall i :: 0 <= i < |r| ==> r[i] != [] && sep !in r[i]
  {
    if s == [] then []
    else if s[0] == sep then Split(s[1..], sep)
    else
      var n := TokenEnd(s, sep);
      [s[..n]] + Split(s[n..], sep)
  }

  /** Tokens joined with one separator between neighbours. */
  function Join(tokens: seq<string>, sep: char): string {
    if tokens == [] then []
    else if |tokens| == 1 then tokens[0]
    else tokens[0] + [sep] + Join(tokens[1..], sep)
  }

  lemma {:induction false} TokenEndOfJoined(t: string, rest: string, sep: char)
    requires t != [] && sep !in t
    requires rest == [] || rest[0] == sep
    ensures TokenEnd(t + rest, sep) == |t|
  {
    if |t| > 1 {
      assert (t + rest)[1..] == t[1..] + rest;
      TokenEndOfJoined(t[1..], rest, sep);
    }
  }

  /** Splitting undoes joining: a list of non-empty separator-free tokens is
      recovered from its joined text. */
  lemma {:induction false} SplitJoin(tokens: seq<string>, sep: char)
    requires forall i :: 0 <= i < |tokens| ==> tokens[i] != [] && sep !in tokens[i]
    ensures Split(Join(tokens, sep), sep) == tokens
  {
    if tokens == [] {
    } else if |tokens| == 1 {
      var t := tokens[0];
      TokenEndOfJoined(t, [], sep);
      assert t + [] == t && t[|t|..] == [];
    } else {
      var t := tokens[0];
      var rest := [sep] + Join(tokens[1..], sep);
      var s := Join(tokens, sep);
      assert s == t + rest;
      TokenEndOfJoined(t, rest, sep);
      assert s[..|t|] == t && s[|t|..] == rest;
      assert rest[1..] == Join(tokens[1..], sep);
      SplitJoin(tokens[1..], sep);
      assert tokens == [t] + tokens[1..];
    }
  }

  /** StringUtils.replace(s, "\"", ""): the text with every double quote removed. */
  function RemoveQuotes(s: string): (r: string)
    ensures '"' !in r && |r| <= |s|
    ensures '"' !in s ==> r == s
  {
    if s == [] then []
    else (if s[0] == '"' then [] else [s[0]]) + RemoveQuotes(s[1..])
  }

  /** The tag id: the fifth comma-separated field of the first line, without
      its quotes; None where the line has fewer fields (an index out of bounds). */
  function TagIdOf(firstRow: string): (r: Option<string>)
    ensures r.Some? <==> |Split(firstRow, ',')| >= 5
    ensures r.Some? ==> r.value == RemoveQuotes(Split(firstRow, ',')[4]) && '"' !in r.value
  {
    var fields := Split(firstRow, ',');
    if |fields| < 5 then None else Some(RemoveQuotes(fields[4]))
  }

  // -------------------------------------------------------------- the rows

  /** Why parse throws. */
  datatype ParseFailure =
    | TooFewRows                 // fewer than two lines (IllegalArgumentException)
    | MissingField               // a line with too few fields (index out of bounds)
    | BadDate(text: string)      // an unparsable timestamp (IllegalArgumentException)
    | BadNumber(text: string)    // an unparsable reading (NumberFormatException)
    | NoValues                   // no sample line accepted (IllegalArgumentException)
    | MissingGaugeOrLimit        // no "C" or "RH" gauge, or one without min or max (NullPointerException)

  /** The foreign parsers: FastDateFormat.parse for the quoted timestamp
      pattern and Double.parseDouble, None standing for their exceptions. */
  datatype RowParsers = RowParsers(date: string -> Option<Date>, number: string -> Option<real>)

  /** One accepted sample line. */
  datatype Sample = Sample(date: Date, temperature: string, temperatureValue: real,
                           humidity: string, humidityValue: real)

  datatype RowOutcome = Stop | Skip | Accept(sample: Sample) | Fail(failure: ParseFailure)

  /** What the loop of parse does with one line, in the order it reads the
      fields: stop at a line that is not sample data, skip the rubbish
      timestamp, otherwise read timestamp, temperature and humidity. */
  function ClassifyRow(row: string, p: RowParsers): RowOutcome
  {
    var fields := Split(row, ',');
    if |fields| < 1 then Fail(MissingField)
    else if fields[0] != SampleDataRow then Stop
    else if |fields| < 2 then Fail(MissingField)
    else if fields[1] == InvalidDate then Skip
    else if p.date(fields[1]).None? then Fail(BadDate(fields[1]))
    else if |fields| < 3 then Fail(MissingField)
    else if p.number(fields[2]).None? then Fail(BadNumber(fields[2]))
    else if |fields| < 4 then Fail(MissingField)
    else if p.number(fields[3]).None? then Fail(BadNumber(fields[3]))
    else Accept(Sample(p.date(fields[1]).value, fields[2], p.number(fields[2]).value,
                       fields[3], p.number(fields[3]).value))
  }

  /** An accepted line is sample data with a valid timestamp and two numbers;
      parsing stops at the first line that is not sample data, and skips the
      lines stamped with the placeholder date. */
  lemma ClassifyRowMeaning(row: string, p: RowParsers)
    ensures var r := ClassifyRow(row, p);
      r.Accept? ==>
      var fields := Split(row, ',');
      |fields| >= 4 && fields[0] == SampleDataRow && fields[1] != InvalidDate &&
      p.date(fields[1]) == Some(r.sample.date) &&
      r.sample.temperature == fields[2] && p.number(fields[2]) == Some(r.sample.temperatureValue) &&
      r.sample.humidity == fields[3] && p.number(fields[3]) == Some(r.sample.humidityValue)
    ensures ClassifyRow(row, p).Stop? <==> |Split(row, ',')| >= 1 && Split(row, ',')[0] != SampleDataRow
    ensures ClassifyRow(row, p).Skip? <==>
      |Split(row, ',')| >= 2 && Split(row, ',')[0] == SampleDataRow && Split(row, ',')[1] == InvalidDate
  {
  }

  datatype Scan = Samples(samples: seq<Sample>) | Failed(failure: ParseFailure)

  /** The samples of the lines from index i on, up to the first line that is
      not sample data, or the first failure among them. */
  function RowsFrom(rows: seq<string>, i: nat, p: RowParsers): Scan
    decreases |rows| - i
  {
    if i >= |rows| then Samples([])
    else match ClassifyRow(rows[i], p)
      case Stop => Samples([])
      case Skip => RowsFrom(rows, i + 1, p)
      case Fail(e) => Failed(e)
      case Accept(s) =>
        var rest := RowsFrom(rows, i + 1, p);
        if rest.Failed? then rest else Samples([s] + rest.samples)
  }

  /** The samples read so far followed by those still to come. */
  function Continue(acc: seq<Sample>, rest: Scan): Scan {
    if rest.Failed? then rest else Samples(acc + rest.samples)
  }

  /** Every accepted sample comes from a sample-data line with a valid
      timestamp, and every line before it is sample data. */
  lemma {:induction false} SamplesComeFromSampleRows(rows: seq<string>, i: nat, p: RowParsers, k: nat)
    requires RowsFrom(rows, i, p).Samples? && k < |RowsFrom(rows, i, p).samples|
    ensures exists j :: i <= j < |rows| && ClassifyRow(rows[j], p) == Accept(RowsFrom(rows, i, p).samples[k]) &&
                        forall m :: i <= m < j ==> !ClassifyRow(rows[m], p).Stop?
    decreases |rows| - i
  {
    var c := ClassifyRow(rows[i], p);
    if c.Skip? {
      SamplesComeFromSampleRows(rows, i + 1, p, k);
    } else if k == 0 {
      assert ClassifyRow(rows[i], p) == Accept(RowsFrom(rows, i, p).samples[k]);
    } else {
      SamplesComeFromSampleRows(rows, i + 1, p, k - 1);
    }
  }

  /** The two quantities a sample line carries, one per gauge. */
  datatype Quantity = Temperature | Humidity

  /** The text of the sample's field for q, as the value object stores it. */
  function TextOf(s: Sample, q: Quantity): string {
    if q == Temperature then s.temperature else s.humidity
  }

  /** The parsed number of the sample's field for q. */
  function ValueOf(s: Sample, q: Quantity): real {
    if q == Temperature then s.temperatureValue else s.humidityValue
  }

  /** The numbers of q in the samples, in order. */
  function ValuesOf(ss: seq<Sample>, q: Quantity): (xs: seq<real>)
    ensures |xs| == |ss|
  {
    if ss == [] then [] else ValuesOf(ss[..|ss| - 1], q) + [ValueOf(ss[|ss| - 1], q)]
  }

  /** Position by position, the numbers are those of the samples. */
  lemma {:induction false} ValuesOfAt(ss: seq<Sample>, q: Quantity, k: nat)
    requires k < |ss|
    ensures ValuesOf(ss, q)[k] == ValueOf(ss[k], q)
  {
    if k < |ss| - 1 {
      ValuesOfAt(ss[..|ss| - 1], q, k);
    }
  }

  /** One more sample is one more observation of the extremes. */
  lemma TrackSample(ss: seq<Sample>, s: Sample, q: Quantity, min: real, max: real)
    ensures Track(ValuesOf(ss + [s], q), min, max) == Observe(Track(ValuesOf(ss, q), min, max), ValueOf(s, q), |ss|)
  {
    assert (ss + [s])[..|ss|] == ss;
    TrackStep(ValuesOf(ss, q), ValueOf(s, q), min, max);
  }

  // -------------------------------------------------------------- extremes

  /** The running extremes of parse: the lowest value so far (starting at the
      gauge's min) with the index of the sample that set it, and likewise the
      highest (starting at the gauge's max). */
  datatype Extreme = Extreme(lowest: real, lowAt: Option<nat>, highest: real, highAt: Option<nat>)

  /** One sample: a value below the lowest so far becomes the lowest, else a
      value above the highest so far becomes the highest. */
  function Observe(e: Extreme, x: real, k: nat): Extreme {
    if x < e.lowest then e.(lowest := x, lowAt := Some(k))
    else if x > e.highest then e.(highest := x, highAt := Some(k))
    else e
  }

  /** The extremes after the values xs, in order. */
  function Track(xs: seq<real>, min: real, max: real): Extreme {
    if xs == [] then Extreme(min, None, max, None)
    else Observe(Track(xs[..|xs| - 1], min, max), xs[|xs| - 1], |xs| - 1)
  }

  lemma TrackStep(xs: seq<real>, x: real, min: real, max: real)
    ensures Track(xs + [x], min, max) == Observe(Track(xs, min, max), x, |xs|)
  {
    assert (xs + [x])[..|xs|] == xs;
  }

  /** With min <= max, the low extreme exists exactly when some value is
      below min, and it is the smallest value, at its earliest position. */
  lemma {:induction false} TrackLow(xs: seq<real>, min: real, max: real)
    requires min <= max
    ensures Track(xs, min, max).lowest <= min && Track(xs, min, max).highest >= max
    ensures Track(xs, min, max).lowAt.None? <==> forall i :: 0 <= i < |xs| ==> xs[i] >= min
    ensures Track(xs, min, max).lowAt.None? ==> Track(xs, min, max).lowest == min
    ensures Track(xs, min, max).lowAt.Some? ==>
      var k := Track(xs, min, max).lowAt.value;
      k < |xs| && xs[k] == Track(xs, min, max).lowest && xs[k] < min &&
      (forall i :: 0 <= i < |xs| ==> xs[i] >= xs[k]) &&
      (forall j :: 0 <= j < k ==> xs[j] > xs[k])
  {
    if xs != [] {
      var init := xs[..|xs| - 1];
      TrackLow(init, min, max);
      assert forall i :: 0 <= i < |init| ==> xs[i] == init[i];
    }
  }

  /** With min <= max, the high extreme exists exactly when some value is
      above max, and it is the largest value, at its earliest position. */
  lemma {:induction false} TrackHigh(xs: seq<real>, min: real, max: real)
    requires min <= max
    ensures Track(xs, min, max).lowest <= min && Track(xs, min, max).highest >= max
    ensures forall i :: 0 <= i < |xs| ==> Track(xs, min, max).lowest <= xs[i]
    ensures Track(xs, min, max).highAt.None? <==> forall i :: 0 <= i < |xs| ==> xs[i] <= max
    ensures Track(xs, min, max).highAt.None? ==> Track(xs, min, max).highest == max
    ensures Track(xs, min, max).highAt.Some? ==>
      var k := Track(xs, min, max).highAt.value;
      k < |xs| && xs[k] == Track(xs, min, max).highest && xs[k] > max &&
      (forall i :: 0 <= i < |xs| ==> xs[i] <= xs[k]) &&
      (forall j :: 0 <= j < k ==> xs[j] < xs[k])
  {
    if xs != [] {
      var init := xs[..|xs| - 1];
      TrackHigh(init, min, max);
      assert forall i :: 0 <= i < |init| ==> xs[i] == init[i];
    }
  }
  // ---------------------------------------------------------------- parse

  /** The last gauge in the list with exactly the given unit, or null. */
  function LastWithUnit(gs: seq<Gauge>, u: string): (r: Gauge?)
    reads gs
    ensures r != null ==> r in gs && r.unit == Some(u)
    ensures r == null <==> forall g :: g in gs ==> g.unit != Some(u)
  {
    if gs == [] then null
    else if gs[|gs| - 1].unit == Some(u) then gs[|gs| - 1]
    else
      var r := LastWithUnit(gs[..|gs| - 1], u);
      assert forall g :: g in gs ==> g in gs[..|gs| - 1] || g == gs[|gs| - 1];
      r
  }

  /** The loop of parse that picks the temperature and humidity gauges: the
      last gauge of each unit wins. */
  method FindGauges(gs: seq<Gauge>) returns (t: Gauge?, h: Gauge?)
    ensures t == LastWithUnit(gs, TemperatureUnit) && h == LastWithUnit(gs, HumidityUnit)
  {
    t, h := null, null;
    var i := 0;
    while i < |gs|
      invariant 0 <= i <= |gs|
      invariant t == LastWithUnit(gs[..i], TemperatureUnit) && h == LastWithUnit(gs[..i], HumidityUnit)
    {
      assert gs[..i + 1][..i] == gs[..i];
      if gs[i].unit == Some(TemperatureUnit) {
        t := gs[i];
      } else if gs[i].unit == Some(HumidityUnit) {
        h := gs[i];
      }
      i := i + 1;
    }
    assert gs[..i] == gs;
  }

  /** The value object at the extreme's position among the new values, or null. */
  function ValueAt(added: seq<GaugeValue>, at: Option<nat>): GaugeValue? {
    if at.Some? && at.value < |added| then added[at.value] else null
  }

  /** A line accepted at index i moves its sample from the lines still to
      come to the samples read. */
  lemma AcceptStep(rows: seq<string>, i: nat, p: RowParsers, samples: seq<Sample>, s: Sample)
    requires i < |rows| && ClassifyRow(rows[i], p) == Accept(s)
    ensures Continue(samples, RowsFrom(rows, i, p)) == Continue(samples + [s], RowsFrom(rows, i + 1, p))
  {
    var rest := RowsFrom(rows, i + 1, p);
    if rest.Samples? {
      assert samples + ([s] + rest.samples) == (samples + [s]) + rest.samples;
    }
  }

  /** The state the loop of parse keeps for one gauge: one value object
      appended per sample, carrying the text of q and the sample's timestamp,
      and the running extremes and the value objects that set them as `Track`
      gives them. */
  ghost predicate ReadSoFar(values: seq<GaugeValue>, before: seq<GaugeValue>, added: seq<GaugeValue>,
                            ss: seq<Sample>, q: Quantity, e: Extreme,
                            lowest: real, highest: real, low: GaugeValue?, high: GaugeValue?)
    reads added
  {
    values == before + added && |added| == |ss| &&
    (forall k :: 0 <= k < |added| ==> added[k].value == Some(TextOf(ss[k], q)) && added[k].updated == Some(ss[k].date)) &&
    lowest == e.lowest && highest == e.highest &&
    (e.lowAt.Some? ==> e.lowAt.value < |added|) && (e.highAt.Some? ==> e.highAt.value < |added|) &&
    low == ValueAt(added, e.lowAt) && high == ValueAt(added, e.highAt)
  }

  /** One reading of an accepted line: a new value object appended to the
      gauge of q, and the running extremes updated as the loop of parse does. */
  method Record(g: Gauge, q: Quantity, s: Sample, lowest: real, highest: real, low: GaugeValue?, high: GaugeValue?,
                ghost samples: seq<Sample>, ghost before: seq<GaugeValue>, ghost added: seq<GaugeValue>, ghost e: Extreme)
    returns (v: GaugeValue, lowest': real, highest': real, low': GaugeValue?, high': GaugeValue?)
    requires ReadSoFar(g.values, before, added, samples, q, e, lowest, highest, low, high)
    modifies g`values
    ensures fresh(v)
    ensures ReadSoFar(g.values, before, added + [v], samples + [s], q, Observe(e, ValueOf(s, q), |added|),
                      lowest', highest', low', high')
    ensures g.id == old(g.id) && g.unit == old(g.unit) && g.min == old(g.min) && g.max == old(g.max)
  {
    v := new GaugeValue(Some(TextOf(s, q)), Some(s.date));
    g.AddGaugeValue(v);
    lowest', highest', low', high' := lowest, highest, low, high;
    if ValueOf(s, q) < lowest {
      lowest', low' := ValueOf(s, q), v;
    } else if ValueOf(s, q) > highest {
      highest', high' := ValueOf(s, q), v;
    }
  }

  /** The state of the loop of parse for both gauges after the samples read. */
  ghost predicate BothReadSoFar(t: Gauge, h: Gauge, samples: seq<Sample>,
                                tBefore: seq<GaugeValue>, tAdded: seq<GaugeValue>, tMin: real, tMax: real,
                                lowestTemp: real, highestTemp: real, lowT: GaugeValue?, highT: GaugeValue?,
                                hBefore: seq<GaugeValue>, hAdded: seq<GaugeValue>, hMin: real, hMax: real,
                                lowestHum: real, highestHum: real, lowH: GaugeValue?, highH: GaugeValue?)
    reads t, h, tAdded, hAdded
  {
    ReadSoFar(t.values, tBefore, tAdded, samples, Temperature, Track(ValuesOf(samples, Temperature), tMin, tMax),
              lowestTemp, highestTemp, lowT, highT) &&
    ReadSoFar(h.values, hBefore, hAdded, samples, Humidity, Track(ValuesOf(samples, Humidity), hMin, hMax),
              lowestHum, highestHum, lowH, highH)
  }

  /** One reading of an accepted line for the gauge of q, with the extremes
      stated over all the samples read so far. */
  method RecordSample(g: Gauge, q: Quantity, s: Sample, lowest: real, highest: real, low: GaugeValue?, high: GaugeValue?,
                      ghost samples: seq<Sample>, ghost before: seq<GaugeValue>, ghost added: seq<GaugeValue>,
                      ghost min: real, ghost max: real)
    returns (v: GaugeValue, lowest': real, highest': real, low': GaugeValue?, high': GaugeValue?)
    requires ReadSoFar(g.values, before, added, samples, q, Track(ValuesOf(samples, q), min, max), lowest, highest, low, high)
    modifies g`values
    ensures fresh(v)
    ensures ReadSoFar(g.values, before, added + [v], samples + [s], q, Track(ValuesOf(samples + [s], q), min, max),
                      lowest', highest', low', high')
    ensures g.id == old(g.id) && g.unit == old(g.unit) && g.min == old(g.min) && g.max == old(g.max)
  {
    TrackSample(samples, s, q, min, max);
    v, lowest', highest', low', high' :=
      Record(g, q, s, lowest, highest, low, high, samples, before, added, Track(ValuesOf(samples, q), min, max));
  }

  /** The body of the loop of parse for an accepted line: one temperature and
      one humidity reading appended, and both extremes updated. */
  method AcceptSample(t: Gauge, h: Gauge, s: Sample, ghost samples: seq<Sample>,
                      ghost tBefore: seq<GaugeValue>, ghost tAdded: seq<GaugeValue>, ghost tMin: real, ghost tMax: real,
                      lowestTemp: real, highestTemp: real, lowT: GaugeValue?, highT: GaugeValue?,
                      ghost hBefore: seq<GaugeValue>, ghost hAdded: seq<GaugeValue>, ghost hMin: real, ghost hMax: real,
                      lowestHum: real, highestHum: real, lowH: GaugeValue?, highH: GaugeValue?)
    returns (lowestTemp': real, highestTemp': real, lowT': GaugeValue?, highT': GaugeValue?,
             lowestHum': real, highestHum': real, lowH': GaugeValue?, highH': GaugeValue?,
             ghost tv: GaugeValue, ghost hv: GaugeValue)
    requires t != h
    requires BothReadSoFar(t, h, samples, tBefore, tAdded, tMin, tMax, lowestTemp, highestTemp, lowT, highT,
                           hBefore, hAdded, hMin, hMax, lowestHum, highestHum, lowH, highH)
    modifies t`values, h`values
    ensures t.id == old(t.id) && t.unit == old(t.unit) && t.min == old(t.min) && t.max == old(t.max)
    ensures h.id == old(h.id) && h.unit == old(h.unit) && h.min == old(h.min) && h.max == old(h.max)
    ensures BothReadSoFar(t, h, samples + [s], tBefore, tAdded + [tv], tMin, tMax, lowestTemp', highestTemp', lowT', highT',
                          hBefore, hAdded + [hv], hMin, hMax, lowestHum', highestHum', lowH', highH')
  {
    ghost var hValues := h.values;
    tv, lowestTemp', highestTemp', lowT', highT' :=
      RecordSample(t, Temperature, s, lowestTemp, highestTemp, lowT, highT, samples, tBefore, tAdded, tMin, tMax);
    assert h.values == hValues;
    ghost var tValues := t.values;
    hv, lowestHum', highestHum', lowH', highH' :=
      RecordSample(h, Humidity, s, lowestHum, highestHum, lowH, highH, samples, hBefore, hAdded, hMin, hMax);
    assert t.values == tValues;
  }

  /** The loop of parse over the lines after the first: appends a temperature
      and a humidity reading per accepted line and tracks the extremes. */
  method ScanRows(rows: seq<string>, t: Gauge, h: Gauge, p: RowParsers)
    returns (failure: Option<ParseFailure>, count: nat, lowT: GaugeValue?, highT: GaugeValue?,
             lowH: GaugeValue?, highH: GaugeValue?, ghost samples: seq<Sample>,
             ghost tAdded: seq<GaugeValue>, ghost hAdded: seq<GaugeValue>)
    requires t != h && t.min.Some? && t.max.Some? && h.min.Some? && h.max.Some?
    modifies t`values, h`values
    ensures t.id == old(t.id) && t.unit == old(t.unit) && t.min == old(t.min) && t.max == old(t.max)
    ensures h.id == old(h.id) && h.unit == old(h.unit) && h.min == old(h.min) && h.max == old(h.max)
    ensures failure.Some? <==> RowsFrom(rows, 1, p).Failed?
    ensures failure.Some? ==> failure.value == RowsFrom(rows, 1, p).failure
    ensures failure.None? ==>
      RowsFrom(rows, 1, p) == Samples(samples) && count == |samples| &&
      ReadSoFar(t.values, old(t.values), tAdded, samples, Temperature,
                Track(ValuesOf(samples, Temperature), t.min.value, t.max.value),
                Track(ValuesOf(samples, Temperature), t.min.value, t.max.value).lowest,
                Track(ValuesOf(samples, Temperature), t.min.value, t.max.value).highest, lowT, highT) &&
      ReadSoFar(h.values, old(h.values), hAdded, samples, Humidity,
                Track(ValuesOf(samples, Humidity), h.min.value, h.max.value),
                Track(ValuesOf(samples, Humidity), h.min.value, h.max.value).lowest,
                Track(ValuesOf(samples, Humidity), h.min.value, h.max.value).highest, lowH, highH)
  {
    ghost var tMin, tMax, hMin, hMax := t.min.value, t.max.value, h.min.value, h.max.value;
    ghost var tBefore, hBefore := t.values, h.values;
    var lowestTemp, highestTemp := t.min.value, t.max.value;
    var lowestHum, highestHum := h.min.value, h.max.value;
    lowT, highT, lowH, highH := null, null, null, null;
    count := 0;
    samples, tAdded, hAdded := [], [], [];
    failure := None;
    var i, done := 1, false;
    while i < |rows| && !done
      invariant 1 <= i
      invariant failure.None? ==> Continue(samples, RowsFrom(rows, i, p)) == RowsFrom(rows, 1, p)
      invariant failure.None? && done ==> RowsFrom(rows, i, p) == Samples([])
      invariant failure.Some? ==> done && RowsFrom(rows, 1, p) == Failed(failure.value)
      invariant t.id == old(t.id) && t.unit == old(t.unit) && t.min == Some(tMin) && t.max == Some(tMax)
      invariant h.id == old(h.id) && h.unit == old(h.unit) && h.min == Some(hMin) && h.max == Some(hMax)
      invariant count == |samples|
      invariant BothReadSoFar(t, h, samples, tBefore, tAdded, tMin, tMax, lowestTemp, highestTemp, lowT, highT,
                              hBefore, hAdded, hMin, hMax, lowestHum, highestHum, lowH, highH)
      decreases |rows| - i, if done then 0 else 1
    {
      var row := ClassifyRow(rows[i], p);
      if row.Stop? {
        done := true;
      } else if row.Fail? {
        failure, done := Some(row.failure), true;
      } else {
        if row.Accept? {
          AcceptStep(rows, i, p, samples, row.sample);
          ghost var tv, hv;
          lowestTemp, highestTemp, lowT, highT, lowestHum, highestHum, lowH, highH, tv, hv :=
            AcceptSample(t, h, row.sample, samples, tBefore, tAdded, tMin, tMax, lowestTemp, highestTemp, lowT, highT,
                         hBefore, hAdded, hMin, hMax, lowestHum, highestHum, lowH, highH);
          tAdded, hAdded := tAdded + [tv], hAdded + [hv];
          samples := samples + [row.sample];
          count := count + 1;
        }
        i := i + 1;
      }
    }
    if i >= |rows| {
      assert RowsFrom(rows, i, p) == Samples([]);
    }
    assert samples + [] == samples;
  }

  // --------------------------------------------------------------- alerts

  /** What parse returns: the meter whose gauges received the readings, null
      when the tag is not accessible to the user, or the exception it throws. */
  datatype ParseOutcome = Parsed(meter: Meter) | NotAuthorized | Rejected(failure: ParseFailure)

  /** The gauges of the meters the user can access. */
  function GaugesOf(accessible: map<string, Meter>): set<Gauge>
    reads accessible.Values
  {
    set m, g | m in accessible.Values && g in m.gauges :: g
  }

  /** What parse finds before it reads the sample lines: the lines, the
      meter and its temperature and humidity gauges, or the outcome it stops
      with. */
  datatype Prepared = Ready(lines: seq<string>, meter: Meter, t: Gauge, h: Gauge) | Stopped(outcome: ParseOutcome)

  /** Parse goes on to the sample lines only with at least two lines, an
      accessible tag, and a temperature and a humidity gauge that both have
      both limits; the two gauges are distinct gauges of the tag's meter. */
  function Prepare(input: Option<string>, accessible: map<string, Meter>): (r: Prepared)
    reads accessible.Values, GaugesOf(accessible)
    ensures r.Ready? <==>
        input.Some? && |Split(input.value, '\n')| >= 2 && TagIdOf(Split(input.value, '\n')[0]).Some? &&
        TagIdOf(Split(input.value, '\n')[0]).value in accessible &&
        var m := accessible[TagIdOf(Split(input.value, '\n')[0]).value];
        (exists g :: g in m.gauges && g.unit == Some(TemperatureUnit)) &&
        (exists g :: g in m.gauges && g.unit == Some(HumidityUnit)) &&
        LastWithUnit(m.gauges, TemperatureUnit).min.Some? && LastWithUnit(m.gauges, TemperatureUnit).max.Some? &&
        LastWithUnit(m.gauges, HumidityUnit).min.Some? && LastWithUnit(m.gauges, HumidityUnit).max.Some?
    ensures r.Ready? ==>
      r.meter in accessible.Values && r.t in r.meter.gauges && r.h in r.meter.gauges && r.t != r.h &&
      r.t.unit == Some(TemperatureUnit) && r.h.unit == Some(HumidityUnit) && |r.lines| >= 2 &&
      r.t.min.Some? && r.t.max.Some? && r.h.min.Some? && r.h.max.Some?
    ensures r == Stopped(NotAuthorized) <==>
      input.Some? && |Split(input.value, '\n')| >= 2 && TagIdOf(Split(input.value, '\n')[0]).Some? &&
      TagIdOf(Split(input.value, '\n')[0]).value !in accessible
    ensures r.Stopped? ==> !r.outcome.Parsed?
  {
    if input.None? || |Split(input.value, '\n')| < 2 then Stopped(Rejected(TooFewRows))
    else
      var lines := Split(input.value, '\n');
      var tag := TagIdOf(lines[0]);
      if tag.None? then Stopped(Rejected(MissingField))
      else if tag.value !in accessible then Stopped(NotAuthorized)
      else
        var m := accessible[tag.value];
        assert forall g :: g in m.gauges ==> g in GaugesOf(accessible);
        var t := LastWithUnit(m.gauges, TemperatureUnit);
        var h := LastWithUnit(m.gauges, HumidityUnit);
        if t == null || h == null || t.min.None? || t.max.None? || h.min.None? || h.max.None? then
          Stopped(Rejected(MissingGaugeOrLimit))
        else Ready(lines, m, t, h)
  }

  /** The alert parse raises: NEW, of the given type, for the gauge id and the
      meter's tag id, pointing at the value object of the extreme reading. */
  ghost predicate RaisedAlert(a: Alert?, alertType: AlertType, gaugeId: Option<string>, tagId: Option<string>, v: GaugeValue)
    reads a
  {
    a != null && a.status == Some(NEW) && a.alertType == Some(alertType) &&
    a.gaugeId == gaugeId && a.tagId == tagId && a.value == v
  }

  /** The values appended to a gauge: one per sample, carrying the text of q
      and the sample's timestamp. */
  ghost predicate AppendedSamples(values: seq<GaugeValue>, before: seq<GaugeValue>, ss: seq<Sample>, q: Quantity)
    reads values
  {
    |values| == |before| + |ss| && values[..|before|] == before &&
    forall k :: 0 <= k < |ss| ==> values[|before| + k].value == Some(TextOf(ss[k], q)) && values[|before| + k].updated == Some(ss[k].date)
  }

  /** A new alert with the fields parse sets. */
  method NewAlert(alertType: AlertType, gaugeId: Option<string>, tagId: Option<string>, v: GaugeValue) returns (a: Alert)
    ensures fresh(a) && RaisedAlert(a, alertType, gaugeId, tagId, v)
  {
    a := new Alert();
    a.gaugeId := gaugeId;
    a.tagId := tagId;
    a.status := Some(NEW);
    a.alertType := Some(alertType);
    a.value := v;
  }

  /** With min <= max, parse raises a low alert for q exactly when some sample
      is below min, for the earliest sample with the lowest value; and a high
      alert exactly when some sample is above max, for the earliest sample
      with the highest value. */
  lemma ExtremeSamples(ss: seq<Sample>, q: Quantity, min: real, max: real)
    requires min <= max
    ensures var e := Track(ValuesOf(ss, q), min, max);
      (e.lowAt.Some? <==> exists k :: 0 <= k < |ss| && ValueOf(ss[k], q) < min) &&
      (e.lowAt.Some? ==>
        e.lowAt.value < |ss| && ValueOf(ss[e.lowAt.value], q) < min &&
        (forall k :: 0 <= k < |ss| ==> ValueOf(ss[e.lowAt.value], q) <= ValueOf(ss[k], q)) &&
        (forall k :: 0 <= k < e.lowAt.value ==> ValueOf(ss[e.lowAt.value], q) < ValueOf(ss[k], q)))
    ensures var e := Track(ValuesOf(ss, q), min, max);
      (e.highAt.Some? <==> exists k :: 0 <= k < |ss| && ValueOf(ss[k], q) > max) &&
      (e.highAt.Some? ==>
        e.highAt.value < |ss| && ValueOf(ss[e.highAt.value], q) > max &&
        (forall k :: 0 <= k < |ss| ==> ValueOf(ss[k], q) <= ValueOf(ss[e.highAt.value], q)) &&
        (forall k :: 0 <= k < e.highAt.value ==> ValueOf(ss[k], q) < ValueOf(ss[e.highAt.value], q)))
  {
    var xs := ValuesOf(ss, q);
    forall k | 0 <= k < |ss|
      ensures xs[k] == ValueOf(ss[k], q)
    {
      ValuesOfAt(ss, q, k);
    }
    TrackLow(xs, min, max);
    TrackHigh(xs, min, max);
  }

  /** The value object at an extreme's position among the values appended
      after the first `before` ones, or null. */
  ghost function AppendedAt(values: seq<GaugeValue>, before: nat, at: Option<nat>): GaugeValue? {
    if before <= |values| then ValueAt(values[before..], at) else null
  }

  /** An alert field after parse: a new alert for the extreme value object,
      or the earlier alert when there is no extreme. */
  ghost predicate AlertAfter(a: Alert?, earlier: Alert?, alertType: AlertType, gaugeId: Option<string>,
                             tagId: Option<string>, v: GaugeValue?)
    reads a
  {
    if v == null then a == earlier else RaisedAlert(a, alertType, gaugeId, tagId, v)
  }

  /** The loop state of a gauge at the end of parse, restated over the
      gauge's whole list of values. */
  lemma ReadSoFarAppended(values: seq<GaugeValue>, before: seq<GaugeValue>, added: seq<GaugeValue>,
                          ss: seq<Sample>, q: Quantity, e: Extreme,
                          lowest: real, highest: real, low: GaugeValue?, high: GaugeValue?)
    requires ReadSoFar(values, before, added, ss, q, e, lowest, highest, low, high)
    ensures AppendedSamples(values, before, ss, q)
    ensures low == AppendedAt(values, |before|, e.lowAt) && high == AppendedAt(values, |before|, e.highAt)
  {
    assert values[|before|..] == added;
    forall k | 0 <= k < |ss|
      ensures values[|before| + k] == added[k]
    {
    }
  }

  /** The checks of parse before the sample lines, in its order, with the
      loop that picks the gauges. */
  method Locate(input: Option<string>, accessible: map<string, Meter>) returns (r: Prepared)
    ensures r == Prepare(input, accessible)
  {
    if input.None? {
      return Stopped(Rejected(TooFewRows));
    }
    var lines := Split(input.value, '\n');
    if |lines| < 2 {
      return Stopped(Rejected(TooFewRows));
    }
    var tag := TagIdOf(lines[0]);
    if tag.None? {
      return Stopped(Rejected(MissingField));
    }
    if tag.value !in accessible {
      return Stopped(NotAuthorized);
    }
    var meter := accessible[tag.value];
    var t, h := FindGauges(meter.gauges);
    if t == null || h == null || t.min.None? || t.max.None? || h.min.None? || h.max.None? {
      return Stopped(Rejected(MissingGaugeOrLimit));
    }
    return Ready(lines, meter, t, h);
  }

  /** WatchLoggerParser: parses one log file into a meter's readings and keeps
      the alerts of the last parse that found extreme values. */
  class Parser {
    var lastLowTemperatureAlert: Alert?
    var lastHighTemperatureAlert: Alert?
    var lastLowHumidityAlert: Alert?
    var lastHighHumidityAlert: Alert?

    constructor ()
      ensures lastLowTemperatureAlert == null && lastHighTemperatureAlert == null
      ensures lastLowHumidityAlert == null && lastHighHumidityAlert == null
    {
      lastLowTemperatureAlert, lastHighTemperatureAlert := null, null;
      lastLowHumidityAlert, lastHighHumidityAlert := null, null;
    }

    /** The alerts after a successful parse: each one whose extreme exists is
        replaced by a new alert, the others keep their earlier value. Every
        alert carries the temperature gauge's id, the humidity ones included. */
    method RaiseAlerts(meter: Meter, t: Gauge, lowT: GaugeValue?, highT: GaugeValue?, lowH: GaugeValue?, highH: GaugeValue?)
      modifies this
      ensures lowT != null ==>
        fresh(lastLowTemperatureAlert) && RaisedAlert(lastLowTemperatureAlert, LOW_TEMPERATURE, t.id, meter.id, lowT)
      ensures lowT == null ==> lastLowTemperatureAlert == old(lastLowTemperatureAlert)
      ensures highT != null ==>
        fresh(lastHighTemperatureAlert) && RaisedAlert(lastHighTemperatureAlert, HIGH_TEMPERATURE, t.id, meter.id, highT)
      ensures highT == null ==> lastHighTemperatureAlert == old(lastHighTemperatureAlert)
      ensures lowH != null ==>
        fresh(lastLowHumidityAlert) && RaisedAlert(lastLowHumidityAlert, LOW_HUMIDITY, t.id, meter.id, lowH)
      ensures lowH == null ==> lastLowHumidityAlert == old(lastLowHumidityAlert)
      ensures highH != null ==>
        fresh(lastHighHumidityAlert) && RaisedAlert(lastHighHumidityAlert, HIGH_HUMIDITY, t.id, meter.id, highH)
      ensures highH == null ==> lastHighHumidityAlert == old(lastHighHumidityAlert)
    {
      if lowT != null {
        lastLowTemperatureAlert := NewAlert(LOW_TEMPERATURE, t.id, meter.id, lowT);
      }
      if highT != null {
        lastHighTemperatureAlert := NewAlert(HIGH_TEMPERATURE, t.id, meter.id, highT);
      }
      if lowH != null {
        lastLowHumidityAlert := NewAlert(LOW_HUMIDITY, t.id, meter.id, lowH);
      }
      if highH != null {
        lastHighHumidityAlert := NewAlert(HIGH_HUMIDITY, t.id, meter.id, highH);
      }
    }

    /** The end of a successful parse: the loop state of both gauges restated
        over their whole lists of values, and the alerts raised. */
    method Finish(meter: Meter, t: Gauge, h: Gauge, ghost samples: seq<Sample>,
                  ghost tBefore: seq<GaugeValue>, ghost tAdded: seq<GaugeValue>, ghost tMin: real, ghost tMax: real,
                  lowT: GaugeValue?, highT: GaugeValue?,
                  ghost hBefore: seq<GaugeValue>, ghost hAdded: seq<GaugeValue>, ghost hMin: real, ghost hMax: real,
                  lowH: GaugeValue?, highH: GaugeValue?)
      requires ReadSoFar(t.values, tBefore, tAdded, samples, Temperature, Track(ValuesOf(samples, Temperature), tMin, tMax),
                         Track(ValuesOf(samples, Temperature), tMin, tMax).lowest,
                         Track(ValuesOf(samples, Temperature), tMin, tMax).highest, lowT, highT)
      requires ReadSoFar(h.values, hBefore, hAdded, samples, Humidity, Track(ValuesOf(samples, Humidity), hMin, hMax),
                         Track(ValuesOf(samples, Humidity), hMin, hMax).lowest,
                         Track(ValuesOf(samples, Humidity), hMin, hMax).highest, lowH, highH)
      modifies this
      ensures AppendedSamples(t.values, tBefore, samples, Temperature)
      ensures AppendedSamples(h.values, hBefore, samples, Humidity)
      ensures AlertAfter(lastLowTemperatureAlert, old(lastLowTemperatureAlert), LOW_TEMPERATURE, t.id, meter.id,
                         AppendedAt(t.values, |tBefore|, Track(ValuesOf(samples, Temperature), tMin, tMax).lowAt))
      ensures AlertAfter(lastHighTemperatureAlert, old(lastHighTemperatureAlert), HIGH_TEMPERATURE, t.id, meter.id,
                         AppendedAt(t.values, |tBefore|, Track(ValuesOf(samples, Temperature), tMin, tMax).highAt))
      ensures AlertAfter(lastLowHumidityAlert, old(lastLowHumidityAlert), LOW_HUMIDITY, t.id, meter.id,
                         AppendedAt(h.values, |hBefore|, Track(ValuesOf(samples, Humidity), hMin, hMax).lowAt))
      ensures AlertAfter(lastHighHumidityAlert, old(lastHighHumidityAlert), HIGH_HUMIDITY, t.id, meter.id,
                         AppendedAt(h.values, |hBefore|, Track(ValuesOf(samples, Humidity), hMin, hMax).highAt))
    {
      ghost var te, he := Track(ValuesOf(samples, Temperature), tMin, tMax), Track(ValuesOf(samples, Humidity), hMin, hMax);
      ReadSoFarAppended(t.values, tBefore, tAdded, samples, Temperature, te, te.lowest, te.highest, lowT, highT);
      ReadSoFarAppended(h.values, hBefore, hAdded, samples, Humidity, he, he.lowest, he.highest, lowH, highH);
      ghost var tValues, hValues := t.values, h.values;
      label Alerts:
      RaiseAlerts(meter, t, lowT, highT, lowH, highH);
      assert unchanged@Alerts(tValues, hValues);
    }

    /** What parse promises once the gauges are found: the two gauges keep
        their id, options and data type; a line that does not parse rejects
        the input, a file without sample lines is rejected with the gauges
        untouched, and otherwise every sample is appended to both gauges and
        an alert is raised for each extreme beyond the limits. */
    twostate predicate RowsParsed(pr: Prepared, p: RowParsers, new outcome: ParseOutcome)
      requires pr.Ready? && old(pr.t.min.Some? && pr.t.max.Some? && pr.h.min.Some? && pr.h.max.Some?)
      reads this, pr.meter, pr.t, pr.h, pr.t.values, pr.h.values
      reads lastLowTemperatureAlert, lastHighTemperatureAlert, lastLowHumidityAlert, lastHighHumidityAlert
    {
      pr.t.id == old(pr.t.id) && pr.t.options == old(pr.t.options) && pr.t.dataType == old(pr.t.dataType) &&
      pr.h.id == old(pr.h.id) && pr.h.options == old(pr.h.options) && pr.h.dataType == old(pr.h.dataType) &&
      (RowsFrom(pr.lines, 1, p).Failed? ==>
        outcome == Rejected(RowsFrom(pr.lines, 1, p).failure) && unchanged(this)) &&
      (RowsFrom(pr.lines, 1, p) == Samples([]) ==>
        outcome == Rejected(NoValues) && unchanged(this) && pr.t.values == old(pr.t.values) && pr.h.values == old(pr.h.values)) &&
      (RowsFrom(pr.lines, 1, p).Samples? && RowsFrom(pr.lines, 1, p).samples != [] ==>
        var ss := RowsFrom(pr.lines, 1, p).samples;
        var te := Track(ValuesOf(ss, Temperature), old(pr.t.min.value), old(pr.t.max.value));
        var he := Track(ValuesOf(ss, Humidity), old(pr.h.min.value), old(pr.h.max.value));
        var tn, hn := |old(pr.t.values)|, |old(pr.h.values)|;
        outcome == Parsed(pr.meter) &&
        AppendedSamples(pr.t.values, old(pr.t.values), ss, Temperature) &&
        AppendedSamples(pr.h.values, old(pr.h.values), ss, Humidity) &&
        AlertAfter(lastLowTemperatureAlert, old(lastLowTemperatureAlert), LOW_TEMPERATURE, pr.t.id, pr.meter.id,
                   AppendedAt(pr.t.values, tn, te.lowAt)) &&
        AlertAfter(lastHighTemperatureAlert, old(lastHighTemperatureAlert), HIGH_TEMPERATURE, pr.t.id, pr.meter.id,
                   AppendedAt(pr.t.values, tn, te.highAt)) &&
        AlertAfter(lastLowHumidityAlert, old(lastLowHumidityAlert), LOW_HUMIDITY, pr.t.id, pr.meter.id,
                   AppendedAt(pr.h.values, hn, he.lowAt)) &&
        AlertAfter(lastHighHumidityAlert, old(lastHighHumidityAlert), HIGH_HUMIDITY, pr.t.id, pr.meter.id,
                   AppendedAt(pr.h.values, hn, he.highAt)))
    }

    /** The part of parse after the gauges are found: the loop over the
        sample lines, then the alerts. Only the two gauges' values and the
        alerts change. */
    method ParseRows(pr: Prepared, p: RowParsers) returns (outcome: ParseOutcome)
      requires pr.Ready? && pr.t != pr.h
      requires pr.t.min.Some? && pr.t.max.Some? && pr.h.min.Some? && pr.h.max.Some?
      modifies this, pr.t`values, pr.h`values
      ensures RowsParsed(pr, p, outcome)
    {
      var meter, t, h := pr.meter, pr.t, pr.h;
      ghost var tBefore, hBefore := t.values, h.values;
      ghost var tMin, tMax, hMin, hMax := t.min.value, t.max.value, h.min.value, h.max.value;
      var failure, count, lowT, highT, lowH, highH, samples, tAdded, hAdded := ScanRows(pr.lines, t, h, p);
      if failure.Some? {
        return Rejected(failure.value);
      }
      if count < 1 {
        return Rejected(NoValues);
      }
      Finish(meter, t, h, samples, tBefore, tAdded, tMin, tMax, lowT, highT, hBefore, hAdded, hMin, hMax, lowH, highH);
      return Parsed(meter);
    }

    /** parse(authenticatedUser, input): the meter of the log file's tag id
        with the samples appended to its temperature and humidity gauges, and
        an alert for each extreme beyond the gauges' limits. `accessible` maps
        the tag ids to the meters the user may see (the meter lookup). */
    method Parse(input: Option<string>, accessible: map<string, Meter>, p: RowParsers) returns (outcome: ParseOutcome)
      modifies this, GaugesOf(accessible)`values
      ensures old(Prepare(input, accessible)).Stopped? ==>
        outcome == old(Prepare(input, accessible)).outcome && unchanged(this) && unchanged(GaugesOf(accessible))
      ensures var pr := old(Prepare(input, accessible));
        pr.Ready? ==> unchanged(old(GaugesOf(accessible)) - {pr.t, pr.h})
      ensures old(Prepare(input, accessible)).Ready? ==> RowsParsed(old(Prepare(input, accessible)), p, outcome)
    {
      var pr := Locate(input, accessible);
      assert pr == old(Prepare(input, accessible));
      if pr.Stopped? {
        return pr.outcome;
      }
      assert pr.t in GaugesOf(accessible) && pr.h in GaugesOf(accessible);
      outcome := ParseRows(pr, p);
    }
  }
}
