/**
 * The three regular expressions the forms and routes test against, as predicates over strings.
 * The phone patterns follow the shape of ITU-T Recommendation E.164 (a leading '+', a non-zero
 * first digit, at most 15 digits) with a minimum of eight digits.
 */
module Patterns {
  import opened Text

  predicate IsNonZeroDigit(c: char) { '1' <= c <= '9' }

  predicate AllDigits(s: string) {
    forall i :: 0 <= i < |s| ==> IsDigit(s[i])
  }

  /** The anchored body `[1-9]\d{7,14}`: 8 to 15 digits, the first non-zero. */
  predicate IsNationalNumber(s: string) {
    8 <= |s| <= 15 && IsNonZeroDigit(s[0]) && AllDigits(s[1..])
  }

  /** `^\+[1-9]\d{7,14}$`, the booking form's check. */
  predicate IsStrictE164(s: string) {
    StartsWithPlus(s) && IsNationalNumber(s[1..])
  }

  /** `^\+?[1-9]\d{7,14}$`, the outbound-call route's check. */
  predicate IsLooseE164(s: string) {
    IsNationalNumber(s) || IsStrictE164(s)
  }

  /** `phone.startsWith("+") ? phone : "+" + phone` */
  function WithPlus(phone: string): string {
    if StartsWithPlus(phone) then phone else "+" + phone
  }

  /** Every number the booking form accepts also passes the call route. */
  lemma StrictIsLoose(s: string)
    requires IsStrictE164(s)
    ensures IsLooseE164(s)
  {
  }

  /** Prefixing '+' turns every number the call route accepts into one the form would accept. */
  lemma LooseWithPlusIsStrict(s: string)
    requires IsLooseE164(s)
    ensures IsStrictE164(WithPlus(s))
  {
    if !StartsWithPlus(s) {
      assert WithPlus(s)[1..] == s;
    }
  }

  /** A strict number has 8 to 15 digits after the '+', nothing else, and its first digit is not '0'. */
  lemma StrictDigits(s: string)
    requires IsStrictE164(s)
    ensures 9 <= |s| <= 16 && s[0] == '+' && s[1] != '0'
    ensures forall i :: 1 <= i < |s| ==> IsDigit(s[i])
  {
    assert forall i :: 2 <= i < |s| ==> s[i] == s[1..][1..][i - 2];
  }

  /** The characters `[^\s@]` admits. */
  predicate IsEmailChar(c: char) { !IsSpace(c) && c != '@' }

  predicate EmailChars(s: string) {
    forall i :: 0 <= i < |s| ==> IsEmailChar(s[i])
  }

  /**
   * Reference reading of `^[^\s@]+@[^\s@]+\.[^\s@]+$`: the string is a non-empty local part,
   * '@', a non-empty label, '.', and a non-empty tail, none of the three holding whitespace or '@'.
   */
  ghost predicate MatchesEmailRegex(s: string) {
    exists at, dot :: EmailSplitAt(s, at, dot)
  }

  /** Position of the first `c` in `s`, or `|s|` when there is none. */
  function IndexOf(s: string, c: char): (i: nat)
    ensures i <= |s|
    ensures i < |s| ==> s[i] == c
    ensures forall j :: 0 <= j < i ==> s[j] != c
  {
    if s == [] then 0
    else if s[0] == c then 0
    else 1 + IndexOf(s[1..], c)
  }

  /** The email check as a scan: one '@' after a non-empty local part, and a '.' strictly inside the domain. */
  predicate IsEmailShape(s: string) {
    var at := IndexOf(s, '@');
    && 0 < at && at + 4 <= |s|
    && EmailChars(s[..at]) && EmailChars(s[at + 1..])
    && '.' in s[at + 2..|s| - 1]
  }

  /** The index pair a regex match is made of. */
  ghost predicate EmailSplitAt(s: string, at: int, dot: int) {
    && 0 < at && at + 1 < dot && dot + 1 < |s|
    && s[at] == '@' && s[dot] == '.'
    && EmailChars(s[..at]) && EmailChars(s[at + 1..dot]) && EmailChars(s[dot + 1..])
  }

  /** Every string the scan accepts matches the regular expression. */
  lemma EmailShapeMatches(s: string)
    requires IsEmailShape(s)
    ensures MatchesEmailRegex(s)
  {
    var at := IndexOf(s, '@');
    var mid := s[at + 2..|s| - 1];
    var k :| 0 <= k < |mid| && mid[k] == '.';
    var dot := at + 2 + k;
    var domain := s[at + 1..];
    assert s[at + 1..dot] == domain[..dot - at - 1];
    assert s[dot + 1..] == domain[dot - at..];
    assert EmailSplitAt(s, at, dot);
  }

  /** Every string the regular expression matches is accepted by the scan. */
  lemma MatchesEmailShape(s: string, at: int, dot: int)
    requires EmailSplitAt(s, at, dot)
    ensures IsEmailShape(s)
  {
    var local := s[..at];
    assert forall j :: 0 <= j < at ==> s[j] == local[j] && s[j] != '@';
    assert IndexOf(s, '@') == at;
    var host, tail := s[at + 1..dot], s[dot + 1..];
    forall j | at + 1 <= j < |s| ensures IsEmailChar(s[j]) {
      if j < dot { assert s[j] == host[j - at - 1]; }
      else if j > dot { assert s[j] == tail[j - dot - 1]; }
    }
    assert s[at + 2..|s| - 1][dot - at - 2] == '.';
  }

  /** The scan accepts exactly the strings the regular expression matches. */
  lemma EmailShapeIffRegex(s: string)
    ensures IsEmailShape(s) <==> MatchesEmailRegex(s)
  {
    if IsEmailShape(s) {
      EmailShapeMatches(s);
    }
    if MatchesEmailRegex(s) {
      var at, dot :| EmailSplitAt(s, at, dot);
      MatchesEmailShape(s, at, dot);
    }
  }

  /** A matching address holds no whitespace, so surrounding spaces make it fail. */
  lemma EmailRegexHasNoSpace(s: string)
    requires MatchesEmailRegex(s)
    ensures NoSpace(s)
  {
    var a, d :| EmailSplitAt(s, a, d);
    forall j | 0 <= j < |s| ensures !IsSpace(s[j]) {
      if j < a { assert s[j] == s[..a][j]; }
      else if a < j < d { assert s[j] == s[a + 1..d][j - a - 1]; }
      else if j > d { assert s[j] == s[d + 1..][j - d - 1]; }
    }
  }
}
