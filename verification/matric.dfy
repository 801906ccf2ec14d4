/**
 * The matric-number rule for club members: a regular student number is
 * eleven digits, a foundation-year application number is one capital letter
 * followed by seven digits. The rule is the regular expression
 * `^(\d{11}|[A-Z]\d{7})$`, applied with Python's `re.search`.
 */
module Matric {

  predicate IsDigit(c: char) { '0' <= c <= '9' }

  predicate IsCapital(c: char) { 'A' <= c <= 'Z' }

  /** `\d{n}` matches at position `k`. */
  predicate DigitsAt(s: string, k: nat, n: nat) {
    k + n <= |s| && forall i :: k <= i < k + n ==> IsDigit(s[i])
  }

  /** Python's `$` outside multi-line mode: the end, or just before a final newline. */
  predicate DollarAt(s: string, k: nat) {
    k == |s| || (k + 1 == |s| && s[k] == '\n')
  }

  /** An eleven-digit regular student number. */
  predicate RegularNumber(s: string) {
    |s| == 11 && forall i :: 0 <= i < |s| ==> IsDigit(s[i])
  }

  /** A foundation-year application number: a capital letter and seven digits. */
  predicate FoundationNumber(s: string) {
    |s| == 8 && IsCapital(s[0]) && forall i :: 1 <= i < |s| ==> IsDigit(s[i])
  }

  /**
   * The validator as written: the alternation anchored at the start, with
   * `$` closing it. Besides the two documented shapes it also lets through
   * either shape followed by a single newline.
   */
  function MatchesAsWritten(s: string): (ok: bool)
    ensures ok <==> RegularNumber(s) || FoundationNumber(s)
                    || (|s| > 0 && s[|s| - 1] == '\n'
                        && (RegularNumber(s[..|s| - 1]) || FoundationNumber(s[..|s| - 1])))
  {
    (DigitsAt(s, 0, 11) && DollarAt(s, 11))
    || (|s| >= 1 && IsCapital(s[0]) && DigitsAt(s, 1, 7) && DollarAt(s, 8))
  }

  /**
   * The validator as evidently intended: the same alternation, closed by the
   * true end of input (`\Z`, or `re.fullmatch`).
   */
  function IsValidMatric(s: string): (ok: bool)
    ensures ok <==> RegularNumber(s) || FoundationNumber(s)
  {
    (DigitsAt(s, 0, 11) && |s| == 11)
    || (|s| >= 1 && IsCapital(s[0]) && DigitsAt(s, 1, 7) && |s| == 8)
  }

  /** A foundation number with a trailing newline passes the validator as written but is no matric number. */
  lemma TrailingNewlineAccepted()
    ensures MatchesAsWritten("F2301040\n")
    ensures !IsValidMatric("F2301040\n")
  {
    var s := "F2301040\n";
    assert s[..|s| - 1] == "F2301040";
    assert FoundationNumber("F2301040");
  }

  /** The two validators agree on every input that does not end in a newline. */
  lemma AgreeWithoutTrailingNewline(s: string)
    requires |s| == 0 || s[|s| - 1] != '\n'
    ensures MatchesAsWritten(s) == IsValidMatric(s)
  {
  }
}
