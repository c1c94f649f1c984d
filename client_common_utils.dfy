/** CommonUtils of the mobile client: the boolean/integer conversion used for
    SQLite columns, the URL check and the "min – max (unit)" label. */
module ClientCommonUtils {
  import opened Lang

  /** booleanToInt: null and false are stored as 0, true as 1. */
  function BooleanToInt(b: Option<bool>): (i: int)
    ensures i == 0 || i == 1
    ensures i == 1 <==> b == Some(true)
  {
    if b.None? || !b.value then 0 else 1
  }

  /** intToBoolean: null and 0 read back as false, every other integer as true. */
  function IntToBoolean(i: Option<int>): (b: bool)
    ensures b <==> (i.Some? && i.value != 0)
  {
    if i.None? || i.value == 0 then false else true
  }

  /** A boolean written to the database reads back unchanged (null reads back as false). */
  lemma BooleanRoundTrip(b: Option<bool>)
    ensures IntToBoolean(Some(BooleanToInt(b))) == b.GetOr(false)
  {
  }

  /** A stored flag 0 or 1 survives a read followed by a write. */
  lemma IntRoundTrip(i: int)
    requires i == 0 || i == 1
    ensures BooleanToInt(Some(IntToBoolean(Some(i)))) == i
  {
  }

  /** isValidUrl: non-null, non-empty and accepted by the platform's URL check
      (URLUtil.isValidUrl, passed in as `platformAccepts`). */
  predicate IsValidUrl(url: Option<string>, platformAccepts: string -> bool) {
    url.Some? && url.value != "" && platformAccepts(url.value)
  }

  lemma IsValidUrlRejectsEmpty(platformAccepts: string -> bool)
    ensures !IsValidUrl(None, platformAccepts) && !IsValidUrl(Some(""), platformAccepts)
  {
  }

  /** The separator " – " between the two limits. */
  const RangeSeparator: string := " \U{2013} "

  /** The text shown for one limit: the formatted number, or nothing when the
      limit is not set. */
  function LimitText(limit: Option<real>, format: Double -> string): (t: string)
    ensures limit.None? ==> t == ""
    ensures limit.Some? ==> t == format(Finite(limit.value))
  {
    if limit.Some? then format(Finite(limit.value)) else ""
  }

  /** The unit in parentheses after a space, or nothing when there is no unit. */
  function UnitSuffix(unit: Option<string>): (t: string)
    ensures unit.None? ==> t == ""
    ensures unit.Some? ==> |t| == |unit.value| + 3 && t[..2] == " (" && t[2..|t| - 1] == unit.value && t[|t| - 1] == ')'
  {
    if unit.Some? then " (" + unit.value + ")" else ""
  }

  /** createMinMaxString, given the limits the gauge computes and its unit;
      `format` is doubleValueToDisplayString (a DecimalFormat, not modelled).
      A non-empty label is laid out in four consecutive parts: the lower limit
      (if any), the separator, the upper limit (if any) and the unit in
      parentheses (if any). */
  function CreateMinMaxString(min: Option<real>, max: Option<real>, unit: Option<string>,
                              format: Double -> string): (r: string)
    ensures r == "" <==> min.None? && max.None?
    ensures r != "" ==>
      var a := |LimitText(min, format)|;
      var b := a + |RangeSeparator|;
      var c := b + |LimitText(max, format)|;
      |r| == c + |UnitSuffix(unit)| &&
      r[..a] == LimitText(min, format) && r[a..b] == RangeSeparator &&
      r[b..c] == LimitText(max, format) && r[c..] == UnitSuffix(unit)
    ensures min.Some? ==> StartsWith(r, format(Finite(min.value)))
    ensures min.None? && max.Some? ==> StartsWith(r, RangeSeparator)
    ensures r != "" && unit.Some? ==> EndsWith(r, " (" + unit.value + ")")
    ensures r != "" && unit.None? && max.Some? ==> EndsWith(r, format(Finite(max.value)))
    ensures r != "" && unit.None? && max.None? ==> EndsWith(r, RangeSeparator)
  {
    if min.None? && max.None? then ""
    else
      var minText := LimitText(min, format);
      var maxText := LimitText(max, format);
      var unitText := UnitSuffix(unit);
      var r := minText + RangeSeparator + maxText + unitText;
      var a := |minText|;
      var b := a + |RangeSeparator|;
      var c := b + |maxText|;
      assert r[..a] == minText;
      assert r[a..b] == RangeSeparator;
      assert r[b..c] == maxText;
      assert r[c..] == unitText;
      assert minText == "" ==> r[..|RangeSeparator|] == RangeSeparator;
      assert unitText == "" ==> r[|r| - |maxText|..] == maxText;
      r
  }

  /** The label never loses a limit or the unit: when only the lower limit is
      set the label is that limit followed by the separator and the unit, and
      when only the upper limit is set it is the separator, that limit and the
      unit. */
  lemma CreateMinMaxStringOneLimit(x: real, unit: Option<string>, format: Double -> string)
    ensures CreateMinMaxString(Some(x), None, unit, format) == format(Finite(x)) + RangeSeparator + UnitSuffix(unit)
    ensures CreateMinMaxString(None, Some(x), unit, format) == RangeSeparator + format(Finite(x)) + UnitSuffix(unit)
  {
  }
}
