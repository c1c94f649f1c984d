/** DateUtils of the mobile client: the day count between two instants and the
    time-zone rewrite applied before parsing an ISO date. */
module ClientDateUtils {
  import opened Lang

  /** 1000 * 60 * 60 * 24 */
  const MillisPerDay: int := 86400000

  /** durationAsDays(long, long): the absolute distance of two instants in
      fractional days. */
  function DurationAsDays(start: int, end: int): (days: real)
    ensures days >= 0.0
    ensures days * MillisPerDay as real == Abs(start - end) as real
    ensures days == 0.0 <==> start == end
  {
    Abs(start - end) as real / MillisPerDay as real
  }

  lemma DurationAsDaysSymmetric(a: int, b: int)
    ensures DurationAsDays(a, b) == DurationAsDays(b, a)
  {
  }

  /** Exactly one day between two instants 86400000 ms apart. */
  lemma DurationOfOneDay(t: int)
    ensures DurationAsDays(t, t + MillisPerDay) == 1.0
  {
  }

  /** durationAsDays(Date, Date): the same measure on the instants' getTime(). */
  function DurationAsDaysOfDates(start: Date, end: Date): (days: real)
    ensures days == DurationAsDays(start.GetTime(), end.GetTime())
    ensures days == 0.0 <==> start == end
  {
    DurationAsDays(start.GetTime(), end.GetTime())
  }

  /** The rewrite stringToDate applies before parsing: a trailing "Z" becomes
      the numeric zone "+0000"; any other string is left alone. */
  function RewriteUtcDesignator(s: string): (r: string)
    ensures EndsWith(s, "Z") ==> r == s[..|s| - 1] + "+0000"
    ensures !EndsWith(s, "Z") ==> r == s
    ensures !EndsWith(r, "Z")
  {
    if EndsWith(s, "Z") then
      var r := s[..|s| - 1] + "+0000";
      assert r[|r| - 1] == '0';
      r
    else s
  }

  /** Rewriting twice is rewriting once: after the rewrite no "Z" is left to replace. */
  lemma RewriteUtcDesignatorIdempotent(s: string)
    ensures RewriteUtcDesignator(RewriteUtcDesignator(s)) == RewriteUtcDesignator(s)
  {
  }

  /** stringToDate: the pattern "yyyy-MM-dd'T'HH:mm:ssZ" parser (SimpleDateFormat,
      passed in as `parse`) applied to the rewritten text; None stands for the
      null returned on a ParseException. */
  function StringToDate(s: string, parse: string -> Option<Date>): (d: Option<Date>)
    ensures EndsWith(s, "Z") ==> d == parse(s[..|s| - 1] + "+0000")
    ensures !EndsWith(s, "Z") ==> d == parse(s)
  {
    parse(RewriteUtcDesignator(s))
  }
}
