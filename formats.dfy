/**
 * String formats the schema delegates to its validation library: UUID, e-mail
 * address and calendar date. The library's own definitions are not part of
 * this model; these are explicit approximations of them (see README).
 */
module Formats {

  predicate IsDigit(c: char) { '0' <= c <= '9' }

  predicate IsHexDigit(c: char) {
    IsDigit(c) || 'a' <= c <= 'f' || 'A' <= c <= 'F'
  }

  /** Positions of the four hyphens in the 8-4-4-4-12 layout. */
  predicate IsHyphenPosition(i: int) { i == 8 || i == 13 || i == 18 || i == 23 }

  /** A UUID: 36 characters, hyphens at 8, 13, 18, 23 and hexadecimal digits elsewhere. */
  predicate IsUuid(s: string) {
    |s| == 36 &&
    forall i :: 0 <= i < 36 ==> if IsHyphenPosition(i) then s[i] == '-' else IsHexDigit(s[i])
  }

  /** Number of occurrences of `c` in `s`. */
  function Count(s: string, c: char): (n: nat)
    ensures n <= |s|
    ensures n == 0 <==> c !in s
  {
    if |s| == 0 then 0 else (if s[0] == c then 1 else 0) + Count(s[1..], c)
  }

  /** Index of the first occurrence of `c` in `s`. */
  function IndexOf(s: string, c: char): (i: nat)
    requires c in s
    ensures i < |s| && s[i] == c && c !in s[..i]
  {
    if s[0] == c then 0 else 1 + IndexOf(s[1..], c)
  }

  predicate IsSpace(c: char) { c == ' ' || c == '\t' || c == '\n' || c == '\r' }

  /**
   * An e-mail address: no white space, exactly one '@' with a non-empty local part
   * before it, and a domain after it holding a '.' that is neither its first nor its
   * last character.
   */
  predicate IsEmail(s: string) {
    (forall i :: 0 <= i < |s| ==> !IsSpace(s[i])) &&
    Count(s, '@') == 1 &&
    var at := IndexOf(s, '@');
    var domain := s[at + 1..];
    at > 0 && '.' in domain && domain[0] != '.' && domain[|domain| - 1] != '.'
  }

  function DigitValue(c: char): nat
    requires IsDigit(c)
  {
    (c as int) - ('0' as int)
  }

  /** The number written by the decimal digits s[lo..hi]. */
  function Number(s: string, lo: nat, hi: nat): nat
    requires lo <= hi <= |s|
    requires forall i :: lo <= i < hi ==> IsDigit(s[i])
    decreases hi - lo
  {
    if lo == hi then 0 else Number(s, lo, hi - 1) * 10 + DigitValue(s[hi - 1])
  }

  /** Gregorian leap years. */
  predicate IsLeapYear(y: nat) { y % 4 == 0 && (y % 100 != 0 || y % 400 == 0) }

  function DaysInMonth(y: nat, m: nat): nat
    requires 1 <= m <= 12
  {
    if m == 2 then (if IsLeapYear(y) then 29 else 28)
    else if m == 4 || m == 6 || m == 9 || m == 11 then 30
    else 31
  }

  /** A calendar date written YYYY-MM-DD: digits, two hyphens, a real month and a real day of it. */
  predicate IsDate(s: string) {
    |s| == 10 && s[4] == '-' && s[7] == '-' &&
    (forall i :: 0 <= i < 10 && i != 4 && i != 7 ==> IsDigit(s[i])) &&
    var y, m, d := Number(s, 0, 4), Number(s, 5, 7), Number(s, 8, 10);
    1 <= m <= 12 && 1 <= d <= DaysInMonth(y, m)
  }

  /** The identifier used by the repository's own tests is a UUID. */
  lemma SampleUuidAccepted()
    ensures IsUuid("123e4567-e89b-12d3-a456-426614174000")
  {
  }

  /** A plain address is an e-mail address; one without '@' is not. */
  lemma SampleEmailsJudged()
    ensures IsEmail("jo@x.io")
    ensures !IsEmail("invalid-email")
  {
    var e := "jo@x.io";
    assert e[1..][1..] == "@x.io";
    assert IndexOf(e, '@') == 2;
    assert e[3..] == "x.io";
    assert Count("x.io", '@') == 0;
    assert Count(e, '@') == 1;
    assert '@' !in "invalid-email";
  }

  /** Dates of birth: an ordinary date, a leap day, and a leap day in a common year. */
  lemma SampleDatesJudged()
    ensures IsDate("1990-01-01")
    ensures IsDate("2024-02-29") && !IsDate("2023-02-29")
  {
    OrdinaryDate();
    LeapDay();
    LeapDayOfCommonYear();
  }

  lemma OrdinaryDate()
    ensures IsDate("1990-01-01")
  {
  }

  lemma LeapDay()
    ensures IsDate("2024-02-29")
  {
    assert Number("2024-02-29", 0, 4) == 2024;
  }

  lemma LeapDayOfCommonYear()
    ensures !IsDate("2023-02-29")
  {
    var plain := "2023-02-29";
    assert Number(plain, 0, 4) == 2023 && Number(plain, 5, 7) == 2 && Number(plain, 8, 10) == 29;
  }

  /** Strings the format rules reject: the empty string is none of the three. */
  lemma EmptyStringRejected()
    ensures !IsUuid("") && !IsEmail("") && !IsDate("")
  {
  }
}
