/** Stand-ins for the few Java and JavaScript library types the core relies on:
    nullable values, java.util.Date, IEEE doubles that may be NaN or infinite,
    and the string predicates of java.lang.String and commons-lang StringUtils. */
module Lang {

  /** A Java reference that may be null, or a JavaScript value that may be undefined. */
  datatype Option<+T> = None | Some(value: T) {
    function GetOr(default: T): T {
      match this
      case Some(v) => v
      case None => default
    }
  }

  /** java.util.Date: an instant in milliseconds since the epoch. */
  datatype Date = Date(time: int) {
    /** Date.getTime() */
    function GetTime(): int { time }
  }

  /** A Java or JavaScript double as far as the core can observe it: a finite
      value, or one of the special results of a division by zero. */
  datatype Double = Finite(x: real) | NaN | PositiveInfinity | NegativeInfinity

  /** IEEE division of a finite numerator by a finite denominator, as Java's
      double division and JavaScript's `/` perform it. */
  function Divide(numerator: real, denominator: real): (q: Double)
    ensures denominator != 0.0 ==> q == Finite(numerator / denominator)
    ensures denominator == 0.0 ==> (q == NaN <==> numerator == 0.0)
    ensures denominator == 0.0 ==> !q.Finite?
  {
    if denominator != 0.0 then Finite(numerator / denominator)
    else if numerator > 0.0 then PositiveInfinity
    else if numerator < 0.0 then NegativeInfinity
    else NaN
  }

  function Abs(x: int): (a: nat)
    ensures a == x || a == -x
  {
    if x < 0 then -x else x
  }

  /** String.startsWith */
  predicate StartsWith(s: string, prefix: string) {
    |prefix| <= |s| && s[..|prefix|] == prefix
  }

  /** String.endsWith */
  predicate EndsWith(s: string, suffix: string) {
    |suffix| <= |s| && s[|s| - |suffix|..] == suffix
  }

  /** String.contains for a one-character needle */
  predicate ContainsChar(s: string, c: char) {
    exists i :: 0 <= i < |s| && s[i] == c
  }

  /** Character.isWhitespace restricted to the ASCII range (tab, line feed,
      vertical tab, form feed, carriage return, the four separators 0x1C-0x1F and space). */
  predicate IsWhitespace(c: char) {
    c == ' ' || ('\t' <= c <= '\r') || ('\U{1C}' <= c <= '\U{1F}')
  }

  /** StringUtils.isBlank: null, empty or whitespace only. */
  predicate IsBlank(s: Option<string>) {
    s.None? || forall i :: 0 <= i < |s.value| ==> IsWhitespace(s.value[i])
  }

  /** Java's null-or-empty test `s == null || s.isEmpty()`. */
  predicate IsNullOrEmpty(s: Option<string>) {
    s.None? || s.value == ""
  }

  function ToUpperAscii(c: char): (u: char)
    ensures 'a' <= c <= 'z' ==> 'A' <= u <= 'Z'
    ensures !('a' <= c <= 'z') ==> u == c
  {
    if 'a' <= c <= 'z' then (c as int - 32) as char else c
  }

  /** String.equalsIgnoreCase over ASCII letters. */
  predicate EqualsIgnoreCase(a: string, b: string) {
    |a| == |b| && forall i :: 0 <= i < |a| ==> ToUpperAscii(a[i]) == ToUpperAscii(b[i])
  }

  lemma EqualsIgnoreCaseReflexive(a: string)
    ensures EqualsIgnoreCase(a, a)
  {
  }
}
