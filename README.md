# kiiaudata telemetry: a verified model of the measurement core

The kiiaudata system collects meter readings. Each meter ("tag") has gauges
such as a temperature gauge, a humidity gauge or a cumulative energy counter.
A gauge holds timestamped values and may carry limits.

- An Android client stores readings in a local database, checks them against
  fixed and projected limits, computes statistics, and sends the unsent values
  to the service from a background thread.
- The service validates posted measurements and stores them. It also parses
  WatchLogger log files into readings and alerts.
- A web view draws the series and prices the consumption.

This project models the core of all three parts in Dafny and proves what each
operation promises. One module models one source file.

- `lang.dfy` (Lang): Option; `Double` (a finite real, NaN or an infinity), with
  the IEEE division that Java and JavaScript perform; ASCII case folding and
  blank tests.
- `gauge_kinds.dfy` (GaugeKinds): the DataType and Option enums of the two
  Gauge classes, and their text codecs.
- `client_*.dfy`: the client's GaugeValue, Gauge, Meter (ClientValidity holds
  the meter verdict), Meters, DateUtils, CommonUtils and Settings. They also
  cover the statistics and the unsent-value grouping of MeterDBHelper, and the
  send loop of ValueService.
- `server_*.dfy`: the service's GaugeValue, Gauge, Meter (ServerValidity holds
  the meter verdict), Meters and Alert.
- `watch_logger_parser.dfy` (WatchLoggerParser) and `uimahalli_core.dfy`
  (UimahalliCore): the log parser and the service's entry points.
- `web_statistics.dfy` (WebStatistics) and `web_flotter.dfy` (WebFlotter): the
  price figures and the chart data of the web view.

Objects that the source updates in place are classes with `modifies` frames:
gauges, gauge values, meters, settings, the send thread and the parser's alert
slots. Pure logic is written as functions with lemmas.

Several things outside the core become parameters:

- the number parsers and formatters (`Double.valueOf`, `Integer.valueOf`,
  `DecimalFormat`, `Number()`);
- the date parsers and `Date.UTC`;
- `URLUtil.isValidUrl` and `UUID`;
- the current time;
- the database's answers: the rows of a query, the permission check, the
  stored gauge ids and types, the meters the user may access.

Nullable Java references are `Option`s or nullable class types. Where the
source throws, the model returns an error value (`Threw`, `Rejected`, `None`).
The exceptions are listed under "Left out", each with what the model does
instead (usually a precondition that excludes the input).

## Model

| member | source | states |
|---|---|---|
| Lang.IsBlank | uimahalliService/src/service/tut/pori/kiiau/UimahalliCore.java:129 | StringUtils.isBlank: null, empty, or only whitespace characters |
| Lang.EqualsIgnoreCase | mittausClientv2/app/src/main/java/com/otula/datatypes/Gauge.java:80 | String.equalsIgnoreCase: same length and equal letters after ASCII upper-casing |
| GaugeKinds.DataTypeNamed | mittausClientv2/app/src/main/java/com/otula/datatypes/Gauge.java:77-86 | fromDataTypeString: the data type whose name equals the text ignoring case, and null exactly when no name matches |
| GaugeKinds.NamesDiffer | mittausClientv2/app/src/main/java/com/otula/datatypes/Gauge.java:71-91 | the data type names stay distinct even when case is ignored, so at most one type matches a text |
| GaugeKinds.DataTypeNameRoundTrip | mittausClientv2/app/src/main/java/com/otula/datatypes/Gauge.java:77-90 | fromDataTypeString(t.toDataTypeString()) is t for every data type |
| GaugeKinds.FromDataTypeString | mittausClientv2/app/src/main/java/com/otula/datatypes/Gauge.java:77-86 | the loop over DataType.values() computes the reference definition |
| GaugeKinds.OptionsOf | mittausClientv2/app/src/main/java/com/otula/datatypes/Gauge.java:112-127 | fromOptionString: null for null or empty text and when no code occurs; otherwise exactly the options whose code occurs in the text |
| GaugeKinds.CodesInOrder | mittausClientv2/app/src/main/java/com/otula/datatypes/Gauge.java:129-138 | the text holds a code exactly when some option of the set has that code |
| GaugeKinds.OptionString | mittausClientv2/app/src/main/java/com/otula/datatypes/Gauge.java:129-138 | toOptionString(EnumSet): null exactly for a null or empty set; otherwise the text contains an option's code iff the option is in the set |
| GaugeKinds.OptionsRoundTrip | mittausClientv2/app/src/main/java/com/otula/datatypes/Gauge.java:101-138 | fromOptionString(toOptionString(s)) is s for a non-empty set, and null stays null (REQUIRED is "M", OPTIONAL is "O") |
| GaugeKinds.OptionStringCanonical | mittausClientv2/app/src/main/java/com/otula/datatypes/Gauge.java:112-138 | re-encoding a stored option string through its option set gives back the same options |
| GaugeKinds.FromOptionString | mittausClientv2/app/src/main/java/com/otula/datatypes/Gauge.java:112-127 | the loop over Option.values() computes fromOptionString's reference definition |
| GaugeKinds.ToOptionString | mittausClientv2/app/src/main/java/com/otula/datatypes/Gauge.java:129-138 | the loop appending codes computes toOptionString's reference definition |
| GaugeKinds.ServiceOptionsOf | uimahalliService/src/service/tut/pori/kiiau/datatypes/Gauge.java:134-149 | the service's fromOptionString: null for blank text (whitespace included), otherwise as on the client |
| GaugeKinds.ServiceOptionsAgree | uimahalliService/src/service/tut/pori/kiiau/datatypes/Gauge.java:134-149 | the stricter blank test changes no answer, because no option code is whitespace |
| GaugeKinds.ServiceFromOptionString | uimahalliService/src/service/tut/pori/kiiau/datatypes/Gauge.java:134-149 | the service's loop computes its reference definition |
| ClientCommonUtils.BooleanToInt | mittausClientv2/app/src/main/java/com/otula/utils/CommonUtils.java:88-94 | the result is 0 or 1, and it is 1 exactly for true (null and false give 0) |
| ClientCommonUtils.IntToBoolean | mittausClientv2/app/src/main/java/com/otula/utils/CommonUtils.java:101-107 | true exactly for a non-null, non-zero integer |
| ClientCommonUtils.BooleanRoundTrip | mittausClientv2/app/src/main/java/com/otula/utils/CommonUtils.java:88-107 | intToBoolean(booleanToInt(b)) is b, with null read back as false |
| ClientCommonUtils.IntRoundTrip | mittausClientv2/app/src/main/java/com/otula/utils/CommonUtils.java:88-107 | a stored 0 or 1 survives a read and a write |
| ClientCommonUtils.IsValidUrl | mittausClientv2/app/src/main/java/com/otula/utils/CommonUtils.java:114-120 | non-null, non-empty and accepted by the platform check |
| ClientCommonUtils.IsValidUrlRejectsEmpty | mittausClientv2/app/src/main/java/com/otula/utils/CommonUtils.java:114-120 | isValidUrl is false for null and for empty text, whatever the platform check says |
| ClientCommonUtils.CreateMinMaxString | mittausClientv2/app/src/main/java/com/otula/utils/CommonUtils.java:127-149 | empty exactly when both limits are absent; otherwise the whole text is, position by position, the min text (empty without a min), the separator " – ", the max text (empty without a max) and " (unit)" exactly when there is a unit |
| ClientCommonUtils.LimitText | mittausClientv2/app/src/main/java/com/otula/utils/CommonUtils.java:136-142 | a set limit is shown as its formatted number, an absent one as nothing |
| ClientCommonUtils.UnitSuffix | mittausClientv2/app/src/main/java/com/otula/utils/CommonUtils.java:143-147 | a unit is shown as a space and the unit in parentheses; no unit as nothing |
| ClientCommonUtils.CreateMinMaxStringOneLimit | mittausClientv2/app/src/main/java/com/otula/utils/CommonUtils.java:127-149 | with only a min the label is the min, the separator and the unit part; with only a max it is the separator, the max and the unit part |
| ClientDateUtils.DurationAsDays | mittausClientv2/app/src/main/java/com/otula/utils/DateUtils.java:103-105 | non-negative; days × 86400000 is abs(start − end); 0 exactly when start = end |
| ClientDateUtils.DurationAsDaysSymmetric | mittausClientv2/app/src/main/java/com/otula/utils/DateUtils.java:103-105 | the duration is symmetric in its arguments |
| ClientDateUtils.DurationOfOneDay | mittausClientv2/app/src/main/java/com/otula/utils/DateUtils.java:103-105 | instants 86400000 ms apart are one day apart |
| ClientDateUtils.DurationAsDaysOfDates | mittausClientv2/app/src/main/java/com/otula/utils/DateUtils.java:113-115 | the Date overload is the long version applied to getTime() |
| ClientDateUtils.RewriteUtcDesignator | mittausClientv2/app/src/main/java/com/otula/utils/DateUtils.java:83-95 | a trailing "Z" becomes "+0000"; other strings are unchanged; no trailing "Z" remains |
| ClientDateUtils.RewriteUtcDesignatorIdempotent | mittausClientv2/app/src/main/java/com/otula/utils/DateUtils.java:83-95 | rewriting twice is rewriting once |
| ClientDateUtils.StringToDate | mittausClientv2/app/src/main/java/com/otula/utils/DateUtils.java:83-95 | the parser sees the rewritten text, and a parse failure gives null |
| ClientGaugeValue.NormaliseValue | mittausClientv2/app/src/main/java/com/otula/datatypes/GaugeValue.java:81-87 | null or empty text is stored as absent; any other text, whitespace included, is stored unchanged |
| ClientGaugeValue.NormaliseValueIdempotent | mittausClientv2/app/src/main/java/com/otula/datatypes/GaugeValue.java:81-87 | setting a stored value again changes nothing |
| ClientGaugeValue.GaugeValue.Empty | mittausClientv2/app/src/main/java/com/otula/datatypes/GaugeValue.java:38-40 | a new value has no row id, no text, no timestamp, and is unsent |
| ClientGaugeValue.GaugeValue.constructor | mittausClientv2/app/src/main/java/com/otula/datatypes/GaugeValue.java:47-50 | stores value and timestamp as given, without normalisation; unsent |
| ClientGaugeValue.GaugeValue.FromNumber | mittausClientv2/app/src/main/java/com/otula/datatypes/GaugeValue.java:57-59 | stores the number in display form, with the timestamp |
| ClientGaugeValue.GaugeValue.WithRowId | mittausClientv2/app/src/main/java/com/otula/datatypes/GaugeValue.java:65-67 | sets only the row id |
| ClientGaugeValue.GaugeValue.SetValue | mittausClientv2/app/src/main/java/com/otula/datatypes/GaugeValue.java:81-87 | the text becomes its normalised form; the other fields are unchanged |
| ClientGaugeValue.GaugeValue.SetSent | mittausClientv2/app/src/main/java/com/otula/datatypes/GaugeValue.java:93-95 | changes only the sent flag |
| ClientGaugeValue.GaugeValue.SetRowId | mittausClientv2/app/src/main/java/com/otula/datatypes/GaugeValue.java:73-75 | changes only the row id |
| ClientGaugeValue.GaugeValue.SetUpdated | mittausClientv2/app/src/main/java/com/otula/datatypes/GaugeValue.java:101-103 | changes only the timestamp |
| ClientGauge.DaysSince | mittausClientv2/app/src/main/java/com/otula/datatypes/Gauge.java:225 | the days elapsed since a statistic's timestamp are never negative |
| ClientGauge.ReadingValidity | mittausClientv2/app/src/main/java/com/otula/datatypes/Gauge.java:470-525 | missing timestamp or empty text gives INVALID; STRING or no limit gives VALID; LOWER_THAN_THRESHOLD iff the parsed number is below the min (tested first); GREATER_THAN_THRESHOLD iff it is not below the min and is above the max; INVALID iff the null checks fail or some limit is set and the number does not parse |
| ClientGauge.ValuesValidity | mittausClientv2/app/src/main/java/com/otula/datatypes/Gauge.java:467-525 | VALID exactly when every reading passes; never NO_VALUES |
| ClientGauge.CheckReading | mittausClientv2/app/src/main/java/com/otula/datatypes/Gauge.java:470-524 | the per-value checks compute the reference verdict |
| ClientGauge.ValuesValidityIsFirstFailure | mittausClientv2/app/src/main/java/com/otula/datatypes/Gauge.java:467-525 | a failing verdict is the verdict of one reading, and every earlier reading passed |
| ClientGauge.UnboundedValidityIgnoresParsers | mittausClientv2/app/src/main/java/com/otula/datatypes/Gauge.java:480-524 | without limits, or for STRING, the verdict does not depend on the number parsers: any non-empty text passes |
| ClientGauge.Gauge.Empty | mittausClientv2/app/src/main/java/com/otula/datatypes/Gauge.java:144-146 | a new gauge has no id, no values and no statistics |
| ClientGauge.Gauge.constructor | mittausClientv2/app/src/main/java/com/otula/datatypes/Gauge.java:152-154 | a new gauge with the given id |
| ClientGauge.Gauge.IsCumulative | mittausClientv2/app/src/main/java/com/otula/datatypes/Gauge.java:440-446 | an unset flag reads as false |
| ClientGauge.Gauge.HasOption | mittausClientv2/app/src/main/java/com/otula/datatypes/Gauge.java:308-315 | true iff options are stored and contain the option's code |
| ClientGauge.Gauge.SetOptions | mittausClientv2/app/src/main/java/com/otula/datatypes/Gauge.java:299-301 | stores the encoded set; hasOption then answers membership in the set, and getOptions gives the set back; the options are the only field written |
| ClientGauge.Gauge.SetDataType | mittausClientv2/app/src/main/java/com/otula/datatypes/Gauge.java:351-357 | null selects DOUBLE; the data type is the only field written |
| ClientGauge.Gauge.AddGaugeValue | mittausClientv2/app/src/main/java/com/otula/datatypes/Gauge.java:401-406 | appends at the end, creating the list if absent; the list is the only field written |
| ClientGauge.Gauge.SetSent | mittausClientv2/app/src/main/java/com/otula/datatypes/Gauge.java:566-572 | every value is marked; text, timestamp and row id are unchanged |
| ClientGauge.Gauge.MaxLimitValue | mittausClientv2/app/src/main/java/com/otula/datatypes/Gauge.java:219-256 | the static max for a non-cumulative gauge or when nothing can be projected; otherwise the projection (last + 2·average·days, or last + maxIncrease·days) when it is below the static max; never above a set static max |
| ClientGauge.Gauge.MinLimitValue | mittausClientv2/app/src/main/java/com/otula/datatypes/Gauge.java:265-289 | last + average/4·days for a cumulative numeric gauge with statistics (static min ignored); else the static min without minIncrease or lastValue; else max(static min, last + minIncrease) |
| ClientGauge.Gauge.Validity | mittausClientv2/app/src/main/java/com/otula/datatypes/Gauge.java:459-526 | NO_VALUES iff there are no values and the gauge is not REQUIRED; a REQUIRED gauge without values is INVALID; otherwise the verdict on the values against the effective limits |
| ClientGauge.Gauge.HasValidValues | mittausClientv2/app/src/main/java/com/otula/datatypes/Gauge.java:459-526 | the loop stopping at the first failure computes the verdict |
| ClientGauge.ValueObjects | mittausClientv2/app/src/main/java/com/otula/datatypes/Gauge.java:566-572 | every value of every listed gauge is in the set |
| ClientGauge.AreTheSame | mittausClientv2/app/src/main/java/com/otula/datatypes/Gauge.java:534-547 | false when either gauge is null; true for the same object |
| ClientGauge.AreTheSameIsEquivalence | mittausClientv2/app/src/main/java/com/otula/datatypes/Gauge.java:534-547 | symmetric and transitive |
| ClientGauge.IsValuesEmpty | mittausClientv2/app/src/main/java/com/otula/datatypes/Gauge.java:554-560 | a gauge that is not values-empty exists and has values |
| ClientGauge.MinLimitNotBelowLastValue | mittausClientv2/app/src/main/java/com/otula/datatypes/Gauge.java:266-270 | with a non-negative average, the projected min of a cumulative gauge is at least its last value |
| ClientGauge.MinIncreaseIgnoresElapsedTime | mittausClientv2/app/src/main/java/com/otula/datatypes/Gauge.java:271-288 | the minIncrease branch does not scale with elapsed days |
| ClientGauge.MaxLimitAdmitsLastValue | mittausClientv2/app/src/main/java/com/otula/datatypes/Gauge.java:219-256 | with non-negative increases the projected max admits the last value, unless the static max is below it |
| ClientGauge.StatisticsWindowNonEmpty | mittausClientv2/app/src/main/java/com/otula/datatypes/Gauge.java:219-270 | from statistics alone, the projected min does not exceed the projected max |
| ClientValidity.Combined | mittausClientv2/app/src/main/java/com/otula/datatypes/Meter.java:108-130 | reference definition of the client meter verdict: the first failing gauge verdict, else VALID when one gauge is VALID, else NO_VALUES (CombinedMeaning and CombinedIsFirstFailure prove this reading) |
| ClientValidity.CombinedMeaning | mittausClientv2/app/src/main/java/com/otula/datatypes/Meter.java:108-130 | a failing meter verdict is one of the gauge verdicts; VALID iff no gauge fails and one is VALID; NO_VALUES iff every gauge has no values |
| ClientValidity.CombinedIsFirstFailure | mittausClientv2/app/src/main/java/com/otula/datatypes/Meter.java:113-123 | a failing meter verdict is the first failing gauge's, and every gauge before it passed |
| ClientValidity.CombinedAppend | mittausClientv2/app/src/main/java/com/otula/datatypes/Meter.java:112-128 | a gauge after a failure does not matter; a failing gauge after passes decides the meter |
| ClientValidity.CombinedFailedPrefix | mittausClientv2/app/src/main/java/com/otula/datatypes/Meter.java:113-123 | once a prefix fails, the gauges after it do not matter |
| ClientValidity.CombinedStep | mittausClientv2/app/src/main/java/com/otula/datatypes/Meter.java:112-128 | one step of the gauge loop extends the running verdict |
| ClientMeter.Meter.Empty | mittausClientv2/app/src/main/java/com/otula/datatypes/Meter.java:53-55 | a new meter has no id and no gauges |
| ClientMeter.Meter.constructor | mittausClientv2/app/src/main/java/com/otula/datatypes/Meter.java:61-63 | a new meter with the given id |
| ClientMeter.Meter.AddGauge | mittausClientv2/app/src/main/java/com/otula/datatypes/Meter.java:97-102 | appends at the end, creating the list if absent |
| ClientMeter.Meter.GaugeVerdicts | mittausClientv2/app/src/main/java/com/otula/datatypes/Meter.java:112-128 | one verdict per gauge |
| ClientMeter.Meter.Validity | mittausClientv2/app/src/main/java/com/otula/datatypes/Meter.java:108-130 | the meter verdict is the reference verdict Combined of the gauge verdicts in list order (ValidityMeaning spells it out) |
| ClientMeter.Meter.ValidityMeaning | mittausClientv2/app/src/main/java/com/otula/datatypes/Meter.java:108-130 | no gauges gives NO_VALUES; a failure is the first failing gauge's verdict; VALID iff no gauge fails and some gauge is VALID |
| ClientMeter.Meter.HasValidValues | mittausClientv2/app/src/main/java/com/otula/datatypes/Meter.java:108-130 | the loop that returns at the first failure computes the meter verdict |
| ClientMeter.Meter.SetSent | mittausClientv2/app/src/main/java/com/otula/datatypes/Meter.java:166-172 | every value of every gauge is marked; nothing else in them changes |
| ClientMeter.VerdictAt | mittausClientv2/app/src/main/java/com/otula/datatypes/Meter.java:112-128 | the i-th verdict is the i-th gauge's |
| ClientMeter.AreTheSame | mittausClientv2/app/src/main/java/com/otula/datatypes/Meter.java:138-151 | false when either meter is null; true for the same object |
| ClientMeter.AreTheSameIsEquivalence | mittausClientv2/app/src/main/java/com/otula/datatypes/Meter.java:138-151 | symmetric and transitive |
| ClientMeter.IsEmpty | mittausClientv2/app/src/main/java/com/otula/datatypes/Meter.java:158-160 | a meter that is not empty exists and has gauges |
| ClientMeters.Meters.constructor | mittausClientv2/app/src/main/java/com/otula/datatypes/Meters.java:33-35 | a new container holds no meters |
| ClientMeters.Meters.SetSent | mittausClientv2/app/src/main/java/com/otula/datatypes/Meters.java:85-91 | every reachable value is marked; nothing else in them changes |
| ClientMeters.IsEmpty | mittausClientv2/app/src/main/java/com/otula/datatypes/Meters.java:58-64 | a container that is not empty exists and has meters |
| ClientMeters.GetMeters | mittausClientv2/app/src/main/java/com/otula/datatypes/Meters.java:71-79 | null exactly for an empty list; otherwise a new wrapper holding that list |
| ClientStatistics.InsertionPoint | mittausClientv2/app/src/main/java/com/otula/utils/MeterDBHelper.java:572-581 | the first position whose element is not smaller than the new value |
| ClientStatistics.InsertedSortedPermutation | mittausClientv2/app/src/main/java/com/otula/utils/MeterDBHelper.java:572-586 | insertion keeps the list sorted and adds exactly the new value |
| ClientStatistics.InsertOrdered | mittausClientv2/app/src/main/java/com/otula/utils/MeterDBHelper.java:572-586 | the insertion loop, with its biggerThanIndex fallback, computes the ordered insertion |
| ClientStatistics.OrderedValues | mittausClientv2/app/src/main/java/com/otula/utils/MeterDBHelper.java:556-586 | the median list: one entry per row; OrderedValuesSortedPermutation proves it is the rows' numbers sorted |
| ClientStatistics.OrderedValuesSortedPermutation | mittausClientv2/app/src/main/java/com/otula/utils/MeterDBHelper.java:556-586 | the median list of a non-cumulative gauge is sorted and a permutation of the row values |
| ClientStatistics.SortedPermutationUnique | mittausClientv2/app/src/main/java/com/otula/utils/MeterDBHelper.java:556-586 | two sorted lists of the same numbers are equal |
| ClientStatistics.Median | mittausClientv2/app/src/main/java/com/otula/utils/MeterDBHelper.java:615-627 | the middle element, or the mean of the two middle ones, lies between the smallest and the largest element |
| ClientStatistics.MedianOrderIndependent | mittausClientv2/app/src/main/java/com/otula/utils/MeterDBHelper.java:556-627 | the median depends only on which numbers were stored, not on row order |
| ClientStatistics.Rises | mittausClientv2/app/src/main/java/com/otula/utils/MeterDBHelper.java:567 | a row counts towards the cumulative average when its date differs from the previous row's and its number is larger |
| ClientStatistics.RatePositive | mittausClientv2/app/src/main/java/com/otula/utils/MeterDBHelper.java:563-570 | a rise over a non-zero time is a positive daily rate |
| ClientStatistics.RateSumSign | mittausClientv2/app/src/main/java/com/otula/utils/MeterDBHelper.java:563-571 | the sum of counted rates is non-negative, and zero exactly when no pair was counted |
| ClientStatistics.Average | mittausClientv2/app/src/main/java/com/otula/utils/MeterDBHelper.java:598-603 | the stored average: mean daily increase (cumulative) or mean number (otherwise), with Java's NaN for 0/0; CumulativeAverageDefinedness and AverageWithinRange state its range |
| ClientStatistics.CumulativeAverageDefinedness | mittausClientv2/app/src/main/java/com/otula/utils/MeterDBHelper.java:598-599 | with no rising pair the cumulative average is NaN (0/0, no zero guard); with one it is finite and positive |
| ClientStatistics.AverageWithinRange | mittausClientv2/app/src/main/java/com/otula/utils/MeterDBHelper.java:560-562 | the non-cumulative average, sum/rowCount, lies between the smallest and the largest row value |
| ClientStatistics.Scan | mittausClientv2/app/src/main/java/com/otula/utils/MeterDBHelper.java:547-590 | the row loop yields the row count; for a cumulative gauge the values, the rate sum and the count of rising pairs; otherwise the sorted values and their total (first row recognised by position; see Left out) |
| ClientStatistics.GetGaugeStatistics | mittausClientv2/app/src/main/java/com/otula/utils/MeterDBHelper.java:520-608 | nothing changes without a gauge, without the GAUGE_STATISTICS filter, for a non-numeric gauge or without rows; otherwise the statistics are stored; lastValue, average and median are the only fields written |
| ClientStatistics.StoreStatistics | mittausClientv2/app/src/main/java/com/otula/utils/MeterDBHelper.java:536-607 | one row sets only lastValue; more rows set lastValue (the last row), the average and, for a non-cumulative gauge, the median |
| ClientStatistics.Summarise | mittausClientv2/app/src/main/java/com/otula/utils/MeterDBHelper.java:591-604 | lastValue is the final row; the average is sum/recordCount (cumulative) or sum/rowCount; a median exactly for a non-cumulative gauge, that of the sorted numbers |
| ClientStatistics.SentinelRates | mittausClientv2/app/src/main/java/com/otula/utils/MeterDBHelper.java:556-571 | as written: the rate sum and count of the cumulative branch, taking a row as first while the remembered first date is still -1 |
| ClientStatistics.SentinelCumulativeAverage | mittausClientv2/app/src/main/java/com/otula/utils/MeterDBHelper.java:556-599 | as written: sum / count of SentinelRates in Java double division |
| ClientStatistics.CumulativeSentinelCollision | mittausClientv2/app/src/main/java/com/otula/utils/MeterDBHelper.java:544-572 | as written, a cumulative gauge with rows (−1 ms, 1) and (86399999 ms, 2) counts no rise and stores NaN; recognising the first row by position gives the average 1 |
| ClientStatistics.SentinelOrderedValues | mittausClientv2/app/src/main/java/com/otula/utils/MeterDBHelper.java:556-586 | as written: the median list built with the -1 first-date test, so every row dated -1 ms is appended unsorted |
| ClientStatistics.SentinelCollision | mittausClientv2/app/src/main/java/com/otula/utils/MeterDBHelper.java:544-560 | as written, rows dated −1 ms leave the median list unsorted ([5, 1, 3]) and report the median 1 |
| ClientStatistics.CollisionRowsCorrected | mittausClientv2/app/src/main/java/com/otula/utils/MeterDBHelper.java:556-586 | with the first row recognised by position, the same rows give [1, 3, 5] and the median 3 |
| ClientUnsent.OrdersDistinct | mittausClientv2/app/src/main/java/com/otula/utils/MeterDBHelper.java:244-278 | each gauge id and each meter id is created once |
| ClientUnsent.GaugeOrderComplete | mittausClientv2/app/src/main/java/com/otula/utils/MeterDBHelper.java:250-261 | every row's gauge is created |
| ClientUnsent.GaugeOrderHasValues | mittausClientv2/app/src/main/java/com/otula/utils/MeterDBHelper.java:250-277 | a gauge is created exactly when some row names it |
| ClientUnsent.GaugesPartitioned | mittausClientv2/app/src/main/java/com/otula/utils/MeterDBHelper.java:259-276 | each gauge belongs to the meter of its first row; a meter exists exactly when it has a gauge |
| ClientUnsent.FindGauge | mittausClientv2/app/src/main/java/com/otula/utils/MeterDBHelper.java:251-258 | the first gauge of the list with the id, or null exactly when none has it |
| ClientUnsent.FindMeter | mittausClientv2/app/src/main/java/com/otula/utils/MeterDBHelper.java:263-270 | the first meter of the list with the id, or null exactly when none has it |
| ClientUnsent.NewValue | mittausClientv2/app/src/main/java/com/otula/utils/MeterDBHelper.java:245-248 | a new value object carries the row's id, text, sent flag and timestamp |
| ClientUnsent.MeterFor | mittausClientv2/app/src/main/java/com/otula/utils/MeterDBHelper.java:262-274 | the meter with the row's meter id, created and appended when absent; other meters keep their gauges |
| ClientUnsent.NewGauge | mittausClientv2/app/src/main/java/com/otula/utils/MeterDBHelper.java:259-276 | a new gauge with the row's gauge id is appended and placed last in its meter |
| ClientUnsent.LocateGauge | mittausClientv2/app/src/main/java/com/otula/utils/MeterDBHelper.java:250-276 | the row's gauge, found or created, keeps the grouping in agreement with the rows read |
| ClientUnsent.ScanRow | mittausClientv2/app/src/main/java/com/otula/utils/MeterDBHelper.java:244-277 | one row's value goes to its gauge; the grouping agrees with one more row |
| ClientUnsent.GroupRows | mittausClientv2/app/src/main/java/com/otula/utils/MeterDBHelper.java:240-278 | the meter and gauge lists agree with the grouping of all rows |
| ClientUnsent.AgreementMeans | mittausClientv2/app/src/main/java/com/otula/utils/MeterDBHelper.java:250-277 | the grouping built from all rows gives each meter exactly the gauges first seen under its meter id, in row order |
| ClientUnsent.GetUnsentValues | mittausClientv2/app/src/main/java/com/otula/utils/MeterDBHelper.java:237-283 | null exactly without rows; otherwise one meter per meter id and one gauge per gauge id, each gauge holding exactly its rows' values in row order |
| ClientSettings.Loaded | mittausClientv2/app/src/main/java/com/otula/datatypes/Settings.java:81-92 | a load always yields a username and a password (defaults "user" and ""), and the result is valid exactly when the file holds a service address |
| ClientSettings.Saved | mittausClientv2/app/src/main/java/com/otula/datatypes/Settings.java:109-130 | the file after saveSettings: the four strings only when present, the other five always; SaveThenLoad proves the round trip |
| ClientSettings.SaveThenLoad | mittausClientv2/app/src/main/java/com/otula/datatypes/Settings.java:81-130 | loading what was saved gives the saved settings back (account strings defaulted when absent) |
| ClientSettings.LoadedValid | mittausClientv2/app/src/main/java/com/otula/datatypes/Settings.java:81-104 | after a load the settings are valid exactly when the file holds a service address |
| ClientSettings.NullIfEmpty | mittausClientv2/app/src/main/java/com/otula/datatypes/Settings.java:136-142 | null or empty gives absent; any other text is stored |
| ClientSettings.KeepIfEmptyDiffers | mittausClientv2/app/src/main/java/com/otula/datatypes/Settings.java:148-154 | as written, an empty entry keeps the stored value where the clearing update would remove it; the two agree on non-empty input |
| ClientSettings.EmptyPasswordIsIgnored | mittausClientv2/app/src/main/java/com/otula/datatypes/Settings.java:148-154 | a stored password survives an empty entry |
| ClientSettings.NormalisedUri | mittausClientv2/app/src/main/java/com/otula/datatypes/Settings.java:160-168 | absent exactly for an invalid URL; a valid one ends in "/", unchanged if it already did, else with one "/" appended |
| ClientSettings.NormalisedUriIdempotent | mittausClientv2/app/src/main/java/com/otula/datatypes/Settings.java:160-168 | setting a stored address again changes nothing |
| ClientSettings.Settings.constructor | mittausClientv2/app/src/main/java/com/otula/datatypes/Settings.java:36-54 | the field initialisers, then loadSettings |
| ClientSettings.Settings.LoadSettings | mittausClientv2/app/src/main/java/com/otula/datatypes/Settings.java:81-92 | username and password default to "user" and ""; address and point id come from the file; the other settings keep their values when the file lacks them |
| ClientSettings.Settings.SaveSettings | mittausClientv2/app/src/main/java/com/otula/datatypes/Settings.java:109-130 | the file holds the current settings, and valid settings load back valid |
| ClientSettings.Settings.IsValid | mittausClientv2/app/src/main/java/com/otula/datatypes/Settings.java:98-104 | isValid: username, password and service address are all present (the setters' contracts say which calls make it false) |
| ClientSettings.Settings.SetUsername | mittausClientv2/app/src/main/java/com/otula/datatypes/Settings.java:136-142 | null or empty clears the username and makes the settings invalid |
| ClientSettings.Settings.SetPassword | mittausClientv2/app/src/main/java/com/otula/datatypes/Settings.java:148-154 | as written: an empty entry leaves the password as it was |
| ClientSettings.Settings.ClearPassword | mittausClientv2/app/src/main/java/com/otula/datatypes/Settings.java:148-154 | as intended: an empty entry removes the password and makes the settings invalid |
| ClientSettings.Settings.SetServiceUri | mittausClientv2/app/src/main/java/com/otula/datatypes/Settings.java:160-168 | stores the normalised address; an invalid URL makes the settings invalid |
| ClientSettings.Settings.SetPointId | mittausClientv2/app/src/main/java/com/otula/datatypes/Settings.java:174-180 | as written: an empty entry leaves the point id as it was |
| ClientSettings.Settings.ClearPointId | mittausClientv2/app/src/main/java/com/otula/datatypes/Settings.java:174-180 | as intended: an empty entry removes the point id |
| ClientSettings.Settings.SetValueSendInterval | mittausClientv2/app/src/main/java/com/otula/datatypes/Settings.java:186-188 | changes only the send interval |
| ClientSettings.Settings.IsShowGraphLimits | mittausClientv2/app/src/main/java/com/otula/datatypes/Settings.java:190-192 | the negation of the stored flag, as the source returns it (SetShowGraphLimits and DefaultsAreInvalid state the consequences) |
| ClientSettings.Settings.SetShowGraphLimits | mittausClientv2/app/src/main/java/com/otula/datatypes/Settings.java:190-196 | changes only the flag; isShowGraphLimits then reads back its negation |
| ClientSettings.Settings.SetMaxGraphPoints | mittausClientv2/app/src/main/java/com/otula/datatypes/Settings.java:202-204 | changes only the point count |
| ClientSettings.Settings.SetReplaceStoredDataOnSync | mittausClientv2/app/src/main/java/com/otula/datatypes/Settings.java:210-212 | changes only that flag |
| ClientSettings.Settings.SetForceValidValues | mittausClientv2/app/src/main/java/com/otula/datatypes/Settings.java:224-226 | changes only that flag |
| ClientSettings.DefaultsAreInvalid | mittausClientv2/app/src/main/java/com/otula/datatypes/Settings.java:36-104 | settings loaded from an empty file are not valid, and the graph-limit getter reports false |
| ClientSettings.GetSettings | mittausClientv2/app/src/main/java/com/otula/datatypes/Settings.java:61-76 | null for null; otherwise a new object agreeing with the original on all nine settings |
| ClientValueService.OperationType.ToInt | mittausClientv2/app/src/main/java/com/otula/utils/ValueService.java:46-60 | the codes are 0 to 3 |
| ClientValueService.ToIntInjective | mittausClientv2/app/src/main/java/com/otula/utils/ValueService.java:46-60 | distinct operation types have distinct codes |
| ClientValueService.Find | mittausClientv2/app/src/main/java/com/otula/utils/ValueService.java:62-71 | the type found has the code; none is found only when no type has it |
| ClientValueService.FromInt | mittausClientv2/app/src/main/java/com/otula/utils/ValueService.java:62-71 | null gives UNKNOWN; any other type returned has the given code |
| ClientValueService.FromIntToInt | mittausClientv2/app/src/main/java/com/otula/utils/ValueService.java:46-71 | fromInt(t.toInt()) is t for every type |
| ClientValueService.FromIntUnknown | mittausClientv2/app/src/main/java/com/otula/utils/ValueService.java:62-71 | null or a code outside 0..3 gives UNKNOWN; a code in range gives the type with that code |
| ClientValueService.Decide | mittausClientv2/app/src/main/java/com/otula/utils/ValueService.java:159-179 | continueLoop never changes the send flag, the stop request or the error count, and the loop ends only on a stop request while no send is in progress |
| ClientValueService.DecideWhileSending | mittausClientv2/app/src/main/java/com/otula/utils/ValueService.java:160-162 | while a send is in progress the loop goes on and nothing changes |
| ClientValueService.DecideReloads | mittausClientv2/app/src/main/java/com/otula/utils/ValueService.java:163-166 | a values-changed flag is cleared and the pending meters reloaded; nothing else changes |
| ClientValueService.DecideEnds | mittausClientv2/app/src/main/java/com/otula/utils/ValueService.java:167-178 | without a stop request the loop goes on; with one it ends iff the error count exceeds 5 or no meters are pending |
| ClientValueService.Step | mittausClientv2/app/src/main/java/com/otula/utils/ValueService.java:191-201 | the pending meters, error count and stop request stay; a send that starts was not in progress and has meters; otherwise nothing changes |
| ClientValueService.StepStarts | mittausClientv2/app/src/main/java/com/otula/utils/ValueService.java:191-201 | a send starts exactly when meters are pending and none is in progress |
| ClientValueService.AfterSend | mittausClientv2/app/src/main/java/com/otula/utils/ValueService.java:247-260 | the send is over; OK clears the pending meters and the error count, a failure keeps the meters and adds one error; the flags stay |
| ClientValueService.AfterSendMeaning | mittausClientv2/app/src/main/java/com/otula/utils/ValueService.java:247-260 | OK clears the meters and the error count; a failure keeps the meters and counts one more error; both clear sendInProgress |
| ClientValueService.ConsistentPreserved | mittausClientv2/app/src/main/java/com/otula/utils/ValueService.java:159-260 | every operation keeps "a send in progress has pending meters, and the error count is non-negative" |
| ClientValueService.AfterFailuresCount | mittausClientv2/app/src/main/java/com/otula/utils/ValueService.java:247-260 | n failures in a row add n to the error count and keep the meters |
| ClientValueService.StopAfterRepeatedFailures | mittausClientv2/app/src/main/java/com/otula/utils/ValueService.java:167-178 | after a stop request, six failures in a row end the loop even though the meters are still pending |
| ClientValueService.SendThread.constructor | mittausClientv2/app/src/main/java/com/otula/utils/ValueService.java:36-39 | a new thread has no meters, no flags set and no errors |
| ClientValueService.SendThread.Start | mittausClientv2/app/src/main/java/com/otula/utils/ValueService.java:182-188 | run clears the stop request and the error count and marks the service running |
| ClientValueService.SendThread.Stop | mittausClientv2/app/src/main/java/com/otula/utils/ValueService.java:216 | the end of run clears the running flag only |
| ClientValueService.SendThread.ContinueLoop | mittausClientv2/app/src/main/java/com/otula/utils/ValueService.java:159-179 | the new state and the answer are those of the decision function |
| ClientValueService.SendThread.LoopBody | mittausClientv2/app/src/main/java/com/otula/utils/ValueService.java:191-201 | the new state and whether a send started are those of the step function |
| ClientValueService.SendThread.ValuesChanged | mittausClientv2/app/src/main/java/com/otula/utils/ValueService.java:222-225 | cancels a pending stop request and flags new values |
| ClientValueService.SendThread.RequestStop | mittausClientv2/app/src/main/java/com/otula/utils/ValueService.java:230-232 | sets the stop request only |
| ClientValueService.SendThread.MetersSent | mittausClientv2/app/src/main/java/com/otula/utils/ValueService.java:247-260 | the state after the send; on OK the pending meters are marked sent and hasPendingErrors is false |
| ClientValueService.OnStartCommand | mittausClientv2/app/src/main/java/com/otula/utils/ValueService.java:82-100 | the operation is fromInt of the code; CHECK_VALUES notifies the thread, other codes leave it unchanged |
| ServerGaugeValue.NormaliseBlank | uimahalliService/src/service/tut/pori/kiiau/datatypes/GaugeValue.java:90-96 | blank text (null, empty or whitespace) gives absent; other text is stored unchanged, surrounding whitespace included |
| ServerGaugeValue.NormaliseBlankIdempotent | uimahalliService/src/service/tut/pori/kiiau/datatypes/GaugeValue.java:90-96 | setting a stored value again changes nothing |
| ServerGaugeValue.GaugeValue.Empty | uimahalliService/src/service/tut/pori/kiiau/datatypes/GaugeValue.java:40-42 | a new value has no fields set |
| ServerGaugeValue.GaugeValue.constructor | uimahalliService/src/service/tut/pori/kiiau/datatypes/GaugeValue.java:49-52 | stores its arguments without normalisation |
| ServerGaugeValue.GaugeValue.WithRowId | uimahalliService/src/service/tut/pori/kiiau/datatypes/GaugeValue.java:58-60 | sets only the row id; value and timestamp stay absent |
| ServerGaugeValue.GaugeValue.SetValue | uimahalliService/src/service/tut/pori/kiiau/datatypes/GaugeValue.java:90-96 | stores the normalised text; nothing else changes |
| ServerGaugeValue.GaugeValue.SetRowId | uimahalliService/src/service/tut/pori/kiiau/datatypes/GaugeValue.java:74-76 | changes only the row id |
| ServerGaugeValue.GaugeValue.SetUpdated | uimahalliService/src/service/tut/pori/kiiau/datatypes/GaugeValue.java:110-112 | changes only the timestamp |
| ServerGauge.ValuesValidity | uimahalliService/src/service/tut/pori/kiiau/datatypes/Gauge.java:463-488 | VALID exactly when every value has a timestamp and non-blank text, and DOUBLE/INTEGER text parses; never NO_VALUES; no min/max comparison |
| ServerGauge.Gauge.Empty | uimahalliService/src/service/tut/pori/kiiau/datatypes/Gauge.java:171-173 | a new gauge, cumulative by default |
| ServerGauge.Gauge.constructor | uimahalliService/src/service/tut/pori/kiiau/datatypes/Gauge.java:179-181 | a new gauge with the given id |
| ServerGauge.Gauge.HasOption | uimahalliService/src/service/tut/pori/kiiau/datatypes/Gauge.java:316-323 | true iff options are stored and contain the option's code |
| ServerGauge.Gauge.SetOptions | uimahalliService/src/service/tut/pori/kiiau/datatypes/Gauge.java:291-293 | stores the encoded set; getOptions gives a non-empty set back; the options are the only field written |
| ServerGauge.Gauge.SetDataType | uimahalliService/src/service/tut/pori/kiiau/datatypes/Gauge.java:383-389 | null selects DOUBLE; the data type is the only field written |
| ServerGauge.Gauge.SetId | uimahalliService/src/service/tut/pori/kiiau/datatypes/Gauge.java:195-197 | the id is the only field written |
| ServerGauge.Gauge.AddGaugeValue | uimahalliService/src/service/tut/pori/kiiau/datatypes/Gauge.java:395-400 | appends at the end, creating the list if absent; the list is the only field written |
| ServerGauge.Gauge.Validity | uimahalliService/src/service/tut/pori/kiiau/datatypes/Gauge.java:449-489 | REQUIRED without values is INVALID, any other gauge without values NO_VALUES; a blank id is INVALID only for a non-REQUIRED gauge with values; otherwise the value verdict |
| ServerGauge.Gauge.HasValidValues | uimahalliService/src/service/tut/pori/kiiau/datatypes/Gauge.java:449-489 | the loop stopping at the first failure computes the verdict |
| ServerGauge.AreTheSame | uimahalliService/src/service/tut/pori/kiiau/datatypes/Gauge.java:497-510 | false when either gauge is null; true for the same object |
| ServerGauge.AreTheSameIsEquivalence | uimahalliService/src/service/tut/pori/kiiau/datatypes/Gauge.java:497-510 | symmetric and transitive |
| ServerGauge.IsValuesEmpty | uimahalliService/src/service/tut/pori/kiiau/datatypes/Gauge.java:517-523 | a gauge that is not values-empty exists and has values |
| ServerGauge.TypedGaugeValidityDefined | uimahalliService/src/service/tut/pori/kiiau/datatypes/Gauge.java:383-389 | after setDataType the verdict can always be computed |
| ServerValidity.MeterVerdict | uimahalliService/src/service/tut/pori/kiiau/datatypes/Meter.java:197-215 | reference definition of the service meter verdict: INVALID if any gauge is, else VALID if any gauge is, else NO_VALUES; the loop computes it (ScannedIsMeterVerdict) |
| ServerValidity.ScannedIsMeterVerdict | uimahalliService/src/service/tut/pori/kiiau/datatypes/Meter.java:197-215 | the loop's verdict is the reference verdict: INVALID if any gauge is, else VALID if any is, else NO_VALUES |
| ServerValidity.MeterVerdictOrderIndependent | uimahalliService/src/service/tut/pori/kiiau/datatypes/Meter.java:197-215 | the meter verdict does not depend on gauge order |
| ServerMeter.Meter.Empty | uimahalliService/src/service/tut/pori/kiiau/datatypes/Meter.java:50-52 | a new meter has no ids, no gauges and no location |
| ServerMeter.Meter.constructor | uimahalliService/src/service/tut/pori/kiiau/datatypes/Meter.java:58-60 | a new meter with the given tag id |
| ServerMeter.Meter.AddGauge | uimahalliService/src/service/tut/pori/kiiau/datatypes/Meter.java:158-163 | appends at the end, creating the list if absent |
| ServerMeter.Meter.SetUserId | uimahalliService/src/service/tut/pori/kiiau/datatypes/Meter.java:150-152 | the user id is the only field written |
| ServerMeter.Meter.GaugeVerdicts | uimahalliService/src/service/tut/pori/kiiau/datatypes/Meter.java:201-213 | one verdict per gauge |
| ServerMeter.Meter.Validity | uimahalliService/src/service/tut/pori/kiiau/datatypes/Meter.java:197-215 | the meter verdict is the reference verdict MeterVerdict of the gauge verdicts (ValidityMeaning spells it out) |
| ServerMeter.Meter.ValidityMeaning | uimahalliService/src/service/tut/pori/kiiau/datatypes/Meter.java:197-215 | no gauges gives NO_VALUES; INVALID iff some gauge is INVALID; otherwise VALID iff some gauge is VALID |
| ServerMeter.Meter.HasValidValues | uimahalliService/src/service/tut/pori/kiiau/datatypes/Meter.java:197-215 | the loop returning at the first INVALID gauge computes the verdict |
| ServerMeter.VerdictAt | uimahalliService/src/service/tut/pori/kiiau/datatypes/Meter.java:201-213 | the i-th verdict is the i-th gauge's |
| ServerMeter.AreTheSame | uimahalliService/src/service/tut/pori/kiiau/datatypes/Meter.java:223-236 | false when either meter is null; true for the same object |
| ServerMeter.AreTheSameIsEquivalence | uimahalliService/src/service/tut/pori/kiiau/datatypes/Meter.java:223-236 | symmetric and transitive |
| ServerMeter.IsEmpty | uimahalliService/src/service/tut/pori/kiiau/datatypes/Meter.java:243-245 | a meter that is not empty exists and has gauges |
| ServerMeters.Meters.constructor | uimahalliService/src/service/tut/pori/kiiau/datatypes/Meters.java:48-50 | a new container holds no meters |
| ServerMeters.IsEmpty | uimahalliService/src/service/tut/pori/kiiau/datatypes/Meters.java:73-79 | a container that is not empty exists and has meters |
| ServerMeters.GetMeters | uimahalliService/src/service/tut/pori/kiiau/datatypes/Meters.java:86-94 | null exactly for an empty list; otherwise a new wrapper of that list, which is not empty |
| ServerMeters.ScanMeters | uimahalliService/src/service/tut/pori/kiiau/datatypes/Meters.java:105-110 | VALID iff every meter is VALID, otherwise INVALID; never NO_VALUES |
| ServerMeters.HasValidValues | uimahalliService/src/service/tut/pori/kiiau/datatypes/Meters.java:101-111 | NO_VALUES exactly for an empty collection; VALID iff it is non-empty and every meter is VALID |
| ServerMeters.MeterWithoutValuesSpoilsPost | uimahalliService/src/service/tut/pori/kiiau/datatypes/Meters.java:105-110 | one meter with NO_VALUES makes the whole collection INVALID |
| ServerAlert.StatusOfCode | uimahalliService/src/service/tut/pori/kiiau/datatypes/Alert.java:114-121 | the status with the code; none (the exception) when no status has it |
| ServerAlert.StatusCodeRoundTrip | uimahalliService/src/service/tut/pori/kiiau/datatypes/Alert.java:44-47 | fromInt(s.toInt()) is s (NEW is 0, CHECKED is 1) |
| ServerAlert.StatusFromInt | uimahalliService/src/service/tut/pori/kiiau/datatypes/Alert.java:114-121 | the loop over values() computes the reference definition |
| ServerAlert.StatusNamed | uimahalliService/src/service/tut/pori/kiiau/datatypes/Alert.java:72-79 | the status whose name equals the text ignoring case; none when no name matches |
| ServerAlert.StatusesOf | uimahalliService/src/service/tut/pori/kiiau/datatypes/Alert.java:68-83 | exactly the statuses named, duplicates collapsed, when every text names one; otherwise the first unmatched text (the exception) |
| ServerAlert.StatusesFromStrings | uimahalliService/src/service/tut/pori/kiiau/datatypes/Alert.java:64-84 | null for a null or empty collection, otherwise the reference parse |
| ServerAlert.StatusCodesMeaning | uimahalliService/src/service/tut/pori/kiiau/datatypes/Alert.java:91-98 | one code per member of the set, and a status is in the set iff its code is listed |
| ServerAlert.StatusCodes | uimahalliService/src/service/tut/pori/kiiau/datatypes/Alert.java:91-98 | a new array of length \|set\| holding the members' codes |
| ServerAlert.TypeOfCode | uimahalliService/src/service/tut/pori/kiiau/datatypes/Alert.java:161-168 | the type with the code; none (the exception) when no type has it |
| ServerAlert.TypeCodeRoundTrip | uimahalliService/src/service/tut/pori/kiiau/datatypes/Alert.java:129-168 | fromInt(t.toInt()) is t, and the codes are 0 to 3 |
| ServerAlert.TypeFromInt | uimahalliService/src/service/tut/pori/kiiau/datatypes/Alert.java:161-168 | the loop over values() computes the reference definition |
| ServerAlert.Alert.constructor | uimahalliService/src/service/tut/pori/kiiau/datatypes/Alert.java:27-37 | a new alert has no fields set |
| WatchLoggerParser.Split | uimahalliService/src/service/tut/pori/kiiau/parser/WatchLoggerParser.java:74 | StringUtils.split: the tokens are non-empty and contain no separator |
| WatchLoggerParser.SplitJoin | uimahalliService/src/service/tut/pori/kiiau/parser/WatchLoggerParser.java:74 | splitting recovers the non-empty tokens that were joined |
| WatchLoggerParser.RemoveQuotes | uimahalliService/src/service/tut/pori/kiiau/parser/WatchLoggerParser.java:81 | no double quote is left, and text without quotes is unchanged |
| WatchLoggerParser.TagIdOf | uimahalliService/src/service/tut/pori/kiiau/parser/WatchLoggerParser.java:79-81 | the fifth comma-separated field of the first line without quotes; none when the line has fewer than five fields |
| WatchLoggerParser.ClassifyRow | uimahalliService/src/service/tut/pori/kiiau/parser/WatchLoggerParser.java:111-140 | what the loop does with one line, in the source's order of checks; ClassifyRowMeaning states the reading |
| WatchLoggerParser.ClassifyRowMeaning | uimahalliService/src/service/tut/pori/kiiau/parser/WatchLoggerParser.java:110-125 | a line stops the scan iff its first field is not "SD"; it is skipped iff it carries the placeholder date; otherwise it yields a sample or fails |
| WatchLoggerParser.RowsFrom | uimahalliService/src/service/tut/pori/kiiau/parser/WatchLoggerParser.java:110-150 | the samples of the lines from an index on, up to the first non-sample line, or the first failure (SamplesComeFromSampleRows) |
| WatchLoggerParser.SamplesComeFromSampleRows | uimahalliService/src/service/tut/pori/kiiau/parser/WatchLoggerParser.java:110-150 | every accepted sample comes from a sample line with a valid date, and every line before it is sample data |
| WatchLoggerParser.Observe | uimahalliService/src/service/tut/pori/kiiau/parser/WatchLoggerParser.java:130-136 | one value: below the lowest so far it becomes the lowest, else above the highest so far it becomes the highest |
| WatchLoggerParser.Track | uimahalliService/src/service/tut/pori/kiiau/parser/WatchLoggerParser.java:101-147 | the extremes after a list of values, starting from the gauge's min and max; TrackLow and TrackHigh state what they are |
| WatchLoggerParser.TrackLow | uimahalliService/src/service/tut/pori/kiiau/parser/WatchLoggerParser.java:101-136 | with min ≤ max, a low extreme exists iff some value is below min, and it is the smallest value at its earliest position |
| WatchLoggerParser.TrackHigh | uimahalliService/src/service/tut/pori/kiiau/parser/WatchLoggerParser.java:101-136 | with min ≤ max, a high extreme exists iff some value is above max, and it is the largest value at its earliest position |
| WatchLoggerParser.ExtremeSamples | uimahalliService/src/service/tut/pori/kiiau/parser/WatchLoggerParser.java:127-147 | the extremes of temperature and humidity are those of the samples' values |
| WatchLoggerParser.LastWithUnit | uimahalliService/src/service/tut/pori/kiiau/parser/WatchLoggerParser.java:93-99 | the gauge found has the unit; null exactly when none has it |
| WatchLoggerParser.FindGauges | uimahalliService/src/service/tut/pori/kiiau/parser/WatchLoggerParser.java:91-99 | the last temperature gauge and the last humidity gauge of the meter |
| WatchLoggerParser.Record | uimahalliService/src/service/tut/pori/kiiau/parser/WatchLoggerParser.java:127-147 | one new value appended to the gauge, and the running extremes updated; the gauge's list of values is the only field written |
| WatchLoggerParser.AcceptSample | uimahalliService/src/service/tut/pori/kiiau/parser/WatchLoggerParser.java:127-149 | one temperature and one humidity value appended, both extremes updated; the two lists of values are the only gauge fields written |
| WatchLoggerParser.ScanRows | uimahalliService/src/service/tut/pori/kiiau/parser/WatchLoggerParser.java:110-150 | a failure exactly when a line fails; otherwise each accepted line appends its two values, and the alert candidates are the extremes; the two lists of values are the only gauge fields written |
| WatchLoggerParser.Prepare | uimahalliService/src/service/tut/pori/kiiau/parser/WatchLoggerParser.java:74-104 | fewer than two lines is a rejection; an inaccessible tag gives null; parsing goes on only with distinct temperature and humidity gauges that both have limits |
| WatchLoggerParser.Locate | uimahalliService/src/service/tut/pori/kiiau/parser/WatchLoggerParser.java:74-104 | the checks before the samples compute the reference outcome |
| WatchLoggerParser.NewAlert | uimahalliService/src/service/tut/pori/kiiau/parser/WatchLoggerParser.java:159-164 | a new NEW alert with the given type, gauge id, tag id and value |
| WatchLoggerParser.Parser.constructor | uimahalliService/src/service/tut/pori/kiiau/parser/WatchLoggerParser.java:62-64 | no alerts yet |
| WatchLoggerParser.Parser.RaiseAlerts | uimahalliService/src/service/tut/pori/kiiau/parser/WatchLoggerParser.java:157-195 | an alert per extreme found, NEW, with the meter's tag id and the temperature gauge's id (humidity alerts included); other slots unchanged |
| WatchLoggerParser.Parser.Finish | uimahalliService/src/service/tut/pori/kiiau/parser/WatchLoggerParser.java:152-197 | the values appended are one per sample, and the alerts carry the extreme samples |
| WatchLoggerParser.Parser.ParseRows | uimahalliService/src/service/tut/pori/kiiau/parser/WatchLoggerParser.java:100-198 | a bad line is a rejection with the alerts untouched; zero accepted lines is a rejection with both gauges untouched; otherwise one value per sample is appended to each gauge and an alert is raised for each extreme beyond the limits, all carrying the temperature gauge's id |
| WatchLoggerParser.Parser.Parse | uimahalliService/src/service/tut/pori/kiiau/parser/WatchLoggerParser.java:73-198 | stops as the checks say with nothing changed; otherwise only the value lists of the chosen temperature and humidity gauges and the alert slots can change, both gauges keep id, options and data type, and the outcome is the one ParseRows states for the prepared lines |
| UimahalliCore.LocationAccepted | uimahalliService/src/service/tut/pori/kiiau/UimahalliCore.java:139-145 | the location check in the source's order; LocationAcceptedMeaning gives its meaning |
| UimahalliCore.LocationAcceptedMeaning | uimahalliService/src/service/tut/pori/kiiau/UimahalliCore.java:139-145 | a location is accepted iff both coordinates are absent, or both are present with a location id |
| UimahalliCore.AddMeter | uimahalliService/src/service/tut/pori/kiiau/UimahalliCore.java:127-150 | blank tag id or name throws with the meter unchanged; otherwise the user id is set, then a bad location or a refused insert throws; the user id is the only field written |
| UimahalliCore.GaugeAccepted | uimahalliService/src/service/tut/pori/kiiau/UimahalliCore.java:177-179 | the argument check of addGauge: an index, a non-blank name and description, a data type and parseable options |
| UimahalliCore.BlankOptionsRefused | uimahalliService/src/service/tut/pori/kiiau/UimahalliCore.java:177-179 | a blank options string is refused like a missing one |
| UimahalliCore.AddGauge | uimahalliService/src/service/tut/pori/kiiau/UimahalliCore.java:176-194 | an incomplete gauge throws; an unknown tag throws permission denied; otherwise a blank id is replaced by the generated one and the gauge is stored under the tag's meter id; the id is the only field written |
| UimahalliCore.GaugesOfMembers | uimahalliService/src/service/tut/pori/kiiau/UimahalliCore.java:86-97 | the collected gauges are exactly those of the meters |
| UimahalliCore.IdsOf | uimahalliService/src/service/tut/pori/kiiau/UimahalliCore.java:94 | the set of ids is empty exactly when there are no gauges |
| UimahalliCore.CollectGauges | uimahalliService/src/service/tut/pori/kiiau/UimahalliCore.java:86-97 | the loop collects the gauges of every non-empty meter in order, with their ids |
| UimahalliCore.ResolvedType | uimahalliService/src/service/tut/pori/kiiau/UimahalliDAO.java:529-568 | a stored id gets a data type; other gauges keep theirs |
| UimahalliCore.ResolveDataTypes | uimahalliService/src/service/tut/pori/kiiau/UimahalliDAO.java:529-568 | true iff the list is non-empty and every id is stored; an empty list or a missing id changes nothing; otherwise each gauge whose id is stored gets the stored type, even when another id is unknown; the data types are the only fields written |
| UimahalliCore.PostMeasurements | uimahalliService/src/service/tut/pori/kiiau/UimahalliCore.java:80-119 | an empty post or one without gauges is ignored; otherwise it throws for bad ids, then unknown gauges, then a meter that is not VALID; the values are stored only when all meters are VALID; when the ids are permitted and all present, every gauge of the post has the type resolved from the database, otherwise no type changes; ids, values and options never change |
| UimahalliCore.PostCollected | uimahalliService/src/service/tut/pori/kiiau/UimahalliCore.java:98-118 | the decisions of postMeasurements after the gauges are collected, with the same effect on the data types |
| UimahalliCore.StoreTyped | uimahalliService/src/service/tut/pori/kiiau/UimahalliCore.java:108-118 | unknown gauges throw; otherwise the meters are judged with the resolved types and stored only when all are VALID |
| UimahalliCore.TypeGauges | uimahalliService/src/service/tut/pori/kiiau/UimahalliDAO.java:529-568 | resolveDataTypes stated gauge by gauge through the meters that hold them: success iff every id is stored, and then every gauge has a type |
| UimahalliCore.MeterGaugesListed | uimahalliService/src/service/tut/pori/kiiau/UimahalliCore.java:86-97 | every gauge of every meter is in the collected list, and the list holds exactly the meters' gauge objects |
| UimahalliCore.AlertFilter | uimahalliService/src/service/tut/pori/kiiau/UimahalliCore.java:266-272 | without a filter only NEW alerts are asked for |
| UimahalliCore.StatisticsEnd | uimahalliService/src/service/tut/pori/kiiau/UimahalliCore.java:251-258 | without an end date the current time is used |
| WebStatistics.IndexOf | uimahalliService/web/MittariWeb/scripts/app/statistics.js:25 | indexOf: −1 exactly when absent; otherwise the first position of the element |
| WebStatistics.GetPrice | uimahalliService/web/MittariWeb/scripts/app/statistics.js:24-26 | a price exactly for a unit of the table, and every price is positive; an unknown unit gives undefined |
| WebStatistics.GetPriceTable | uimahalliService/web/MittariWeb/scripts/app/statistics.js:21-26 | a price exactly for the three units: kWh 0.0735, m^3 2.92, MWh 45.32 |
| WebStatistics.ReferenceUnique | uimahalliService/web/MittariWeb/scripts/app/statistics.js:34-39 | the look-back point is unique |
| WebStatistics.LookBack | uimahalliService/web/MittariWeb/scripts/app/statistics.js:34-39 | the latest earlier point at least a window before, or the first point |
| WebStatistics.Rate | uimahalliService/web/MittariWeb/scripts/app/statistics.js:40-42 | increase × price per elapsed window, finite when the times differ |
| WebStatistics.EuroRate | uimahalliService/web/MittariWeb/scripts/app/statistics.js:28-84 | undefined exactly for a non-positive index or a unit without a price; otherwise the rate against the look-back point |
| WebStatistics.EuroDay | uimahalliService/web/MittariWeb/scripts/app/statistics.js:28-46 | the rate over a day (86400000 ms) |
| WebStatistics.EuroWeek | uimahalliService/web/MittariWeb/scripts/app/statistics.js:48-65 | the rate over a week (604800000 ms) |
| WebStatistics.EuroMonth | uimahalliService/web/MittariWeb/scripts/app/statistics.js:67-84 | the rate over 30 days (2592000000 ms) |
| WebStatistics.EuroTotal | uimahalliService/web/MittariWeb/scripts/app/statistics.js:86-94 | undefined under the same conditions as the rates |
| WebStatistics.EuroTotalIgnoresTimes | uimahalliService/web/MittariWeb/scripts/app/statistics.js:86-94 | the total depends only on the values, not the times |
| WebStatistics.DailyStepsGiveLastIncrease | uimahalliService/web/MittariWeb/scripts/app/statistics.js:28-46 | for daily readings the daily cost is the last increase times the price |
| WebFlotter.LegendLabel | uimahalliService/web/MittariWeb/scripts/app/flotter.js:437-472 | null exactly without a position; otherwise, for sorted data, the first point at or after the position within the 32-point scan window, or else the last point before it |
| WebFlotter.DigitRuns | uimahalliService/web/MittariWeb/scripts/app/flotter.js:480 | the matches of /\d+/g are non-empty runs of digits |
| WebFlotter.Substring | uimahalliService/web/MittariWeb/scripts/app/flotter.js:483-486 | substring clamps to the length |
| WebFlotter.Offset | uimahalliService/web/MittariWeb/scripts/app/flotter.js:483-485 | the offset run read as hours plus minutes/60, in milliseconds; never negative |
| WebFlotter.OffsetOfFourDigits | uimahalliService/web/MittariWeb/scripts/app/flotter.js:483-485 | "hhmm" gives hh hours and mm minutes in milliseconds |
| WebFlotter.ParseDate | uimahalliService/web/MittariWeb/scripts/app/flotter.js:479-493 | Date.UTC of the digit runs; with at most six runs (no offset) exactly that time, the offset cases are stated by ParseDateOffset |
| WebFlotter.ParseDateOffset | uimahalliService/web/MittariWeb/scripts/app/flotter.js:479-493 | "+" at position 19 subtracts the offset, "-" adds it, anything else ignores it |
| WebFlotter.ParseDateWithoutDigits | uimahalliService/web/MittariWeb/scripts/app/flotter.js:480-481 | a text without digits reaches `utc` with no parts (where the source throws; see Left out) |
| WebFlotter.PointOfIso8601 | uimahalliService/web/MittariWeb/scripts/app/flotter.js:289-300 | a point is the parsed time and Number() of the value |
| WebFlotter.PointsOf | uimahalliService/web/MittariWeb/scripts/app/flotter.js:288-301 | one point per value, in order |
| WebFlotter.Least | uimahalliService/web/MittariWeb/scripts/app/flotter.js:290-306 | Math.min over the list is a lower bound that is attained |
| WebFlotter.Greatest | uimahalliService/web/MittariWeb/scripts/app/flotter.js:290-307 | Math.max over the list is an upper bound that is attained |
| WebFlotter.BarsOf | uimahalliService/web/MittariWeb/scripts/app/flotter.js:295-317 | one bar per point: none for the first, then the difference, or for a cumulative gauge the difference per day |
| WebFlotter.Built | uimahalliService/web/MittariWeb/scripts/app/flotter.js:268-327 | null exactly without values; otherwise one point per value |
| WebFlotter.BuiltBounds | uimahalliService/web/MittariWeb/scripts/app/flotter.js:290-307 | the dataset's bounds enclose every point and each is attained |
| WebFlotter.DatasetBuilder | uimahalliService/web/MittariWeb/scripts/app/flotter.js:268-327 | the dataset is the reference one; a detailed chart is drawn exactly for a non-STRING gauge with values, with its bars |
| WebFlotter.ReadPoints | uimahalliService/web/MittariWeb/scripts/app/flotter.js:288-319 | the loop yields the points, their extremes and the bars |
| WebFlotter.Emitted | uimahalliService/web/MittariWeb/scripts/app/flotter.js:245-257 | only non-STRING gauges with values get a dataset |
| WebFlotter.EmittedMeaning | uimahalliService/web/MittariWeb/scripts/app/flotter.js:245-257 | exactly the emitting gauges are kept, in order |
| WebFlotter.SeriesBuilder | uimahalliService/web/MittariWeb/scripts/app/flotter.js:242-260 | one dataset per emitting gauge, in order, on y axes 1, 2, 3, … |
| WebFlotter.AddMeter | uimahalliService/web/MittariWeb/scripts/app/flotter.js:246-257 | the inner loop keeps the numbering over one more meter's gauges |

## Left out

- Databases, SQL, the DAO and its caching are left out. The model receives rows, id maps and permission answers as parameters.
- Android UI and activities, NFC, logging and the HTTP client are left out. So are the REST service and Gson serialisation.
- Threads, Looper, sleeping, the service lifecycle, `settingsChanged` and `stopSelf` are left out. ValueService's static `ERROR_COUNT` and `RUNNING` are kept as fields of the send thread.
- The SharedPreferences file I/O is left out. The file's contents are a `Preferences` value.
- IEEE doubles are reals. Only NaN and the infinities of a division by zero are kept (`Double`). Rounding, overflow and `toFixed(2)` formatting are not modelled.
- The number and date parsers and formatters are parameters: `DecimalFormat`, `Double.valueOf`, `Integer.valueOf`, `SimpleDateFormat`, `FastDateFormat`, `Number()` and `Date.UTC`. So are `URLUtil.isValidUrl` and `UUID`.
- `equalsIgnoreCase` and `StringUtils.isBlank` are modelled for ASCII only.
- ClientGauge.Gauge.MaxLimitValue: requires the stored statistics to parse and to carry a timestamp. In the source a null from `displayStringToDouble` or a null timestamp is an uncaught NullPointerException.
- ClientGauge.Gauge.MinLimitValue: same requirement, for the same reason.
- ClientGauge.Gauge.Validity: requires ValidityDefined, which asks for a data type whenever the first reading reaches the switch on the type. In the source that switch (client Gauge.java:479) throws a NullPointerException on a null type, and the field starts out null (Gauge.java:56). The model does not describe that throw. ValidityDefined also carries the limit requirement of MinLimitValue and MaxLimitValue below.
- ClientGauge.Gauge.HasValidValues: same requirement, for the same reason.
- ServerGauge.Gauge.Validity: requires ValidityDefined, a data type whenever the first reading reaches the switch on the type; the service's switch (Gauge.java:470) throws a NullPointerException on a null type, and the model does not describe that throw. postMeasurements never reaches it: it types every gauge from the database first, so the requirement always holds there (ServerGauge.TypedGaugeValidityDefined, UimahalliCore.StoreTyped).
- ServerGauge.Gauge.HasValidValues: same requirement, for the same reason.
- ClientMeter.Meter.Validity: requires the gauge requirement above of every gauge (AllValidityDefined), while the source stops at the first failing gauge (Meter.java:113-123). A meter whose failing gauge comes before an untyped one returns a verdict in the source and is outside the model.
- ClientMeter.Meter.HasValidValues: same requirement, for the same reason.
- ServerMeter.Meter.Validity: requires the gauge requirement of every gauge, while the source stops at the first INVALID gauge (Meter.java:201-213); within postMeasurements every gauge is typed, so nothing is lost there.
- ServerMeter.Meter.HasValidValues: same requirement, for the same reason.
- ServerMeters.HasValidValues: requires the gauge requirement of every gauge of every meter, while the source stops at the first meter that is not VALID (Meters.java:105-109); within postMeasurements every gauge is typed, so nothing is lost there.
- ClientStatistics.GetGaugeStatistics: requires a data type when statistics are requested. The source's switch on a null type throws a NullPointerException.
- ClientStatistics.GetGaugeStatistics: the median is computed on the corrected list, in which the first row is recognised by position (see Findings).
- ClientStatistics.Scan: recognises the first row by position, not by the source's `firstDate == -1` test. For rows dated −1 ms this changes both the median list and the cumulative average. The source's behaviour is kept in ClientStatistics.SentinelOrderedValues and ClientStatistics.SentinelCumulativeAverage (see Findings).
- WebFlotter.ParseDate: a date text without digits is passed to `utc` as an empty list of parts (WebFlotter.ParseDateWithoutDigits). In the source `match` returns null there and `parts[0]` throws a TypeError. The model returns a number instead of modelling the throw.
- WebStatistics.EuroRate: requires the index to name a point when a result is computed. An index past the end throws a TypeError in the source.
- WebStatistics.EuroDay, WebStatistics.EuroWeek, WebStatistics.EuroMonth and WebStatistics.EuroTotal: same requirement, same reason.
- WebFlotter.LegendLabel: requires a non-empty series when a position is given. An empty series throws in the source. Its contract locates the point within the scan window and does not claim the globally nearest point.
- WebFlotter.SeriesBuilder: null or undefined gauges and value lists are not modelled (a missing list is `None`). `drawChart` is left out; the bars it would draw are returned.
- WatchLoggerParser.Parser.Parse: a NullPointerException becomes the rejection `MissingGaugeOrLimit`. This covers a missing temperature or humidity gauge and a gauge limit that is null. When a line fails after earlier lines were accepted, the values already appended stay on the gauges; the contract does not describe them. The model reads both numbers of a line before it appends anything, while the source appends the temperature value before parsing it (WatchLoggerParser.java:127-129), so on a bad number the gauges differ from the source's by that one value.
- UimahalliCore: `parseData`, `modifyMeter`, `getMeasurements` and `getLocations` only pass data to and from the database and are left out. `getStatistics` and `getAlerts` are modelled only for the defaults they fill in.
- Lemmas that Dafny proves without help (the equivalence and round-trip lemmas on enums, among others) still state source properties, and they are listed in the table.
- The source defines `isShowGraphLimits` as the negation of the stored flag. With the default `true`, graph limits are reported as hidden. The model keeps this behaviour (ClientSettings.Settings.SetShowGraphLimits, ClientSettings.DefaultsAreInvalid).
- Where the documentation says a cumulative average with no rising pair is "left unset", the code divides 0 by 0 and stores NaN. The model follows the code (ClientStatistics.CumulativeAverageDefinedness).

## Findings

| source | as written | input that shows it | evidently intended | confidence | as-written member | corrected member |
|---|---|---|---|---|---|---|
| mittausClientv2/app/src/main/java/com/otula/datatypes/Settings.java:148-154 | setPassword with null or empty text clears only the parameter, so the stored password stays | a stored password "secret", then setPassword("") | clear the password as setUsername clears the username, making the settings invalid | not executed | ClientSettings.EmptyPasswordIsIgnored | ClientSettings.Settings.ClearPassword |
| mittausClientv2/app/src/main/java/com/otula/datatypes/Settings.java:174-180 | setPointId with null or empty text clears only the parameter, so the stored point id stays | a stored point id, then setPointId("") | clear the point id | not executed | ClientSettings.KeepIfEmptyDiffers | ClientSettings.Settings.ClearPointId |
| mittausClientv2/app/src/main/java/com/otula/utils/MeterDBHelper.java:544-560 | the first row is recognised by `firstDate == -1`, so rows dated −1 ms are all treated as first and appended unsorted | three readings dated −1 ms with values 5, 1, 3: the list stays [5, 1, 3] and the median is 1 | recognise the first row by position: list [1, 3, 5], median 3 | not executed | ClientStatistics.SentinelCollision | ClientStatistics.CollisionRowsCorrected |
| mittausClientv2/app/src/main/java/com/otula/utils/MeterDBHelper.java:544-572 | the same sentinel test in the cumulative branch treats a second row as first when the first row is dated −1 ms | a cumulative gauge with rows (−1 ms, 1) and (86399999 ms, 2): no rise is counted and the average is 0/0 = NaN | recognise the first row by position: one rise of 1 per day, average 1 | not executed | ClientStatistics.CumulativeSentinelCollision | ClientStatistics.CumulativeAverageDefinedness |
