/**
 * The parts of the Arduino `String` class and of `snprintf` that the monitor
 * relies on, over `string` = `seq<char>`: `indexOf`, `substring` (whose
 * unsigned arguments are swapped when out of order and clamped to the
 * length), `trim` (removal of C `isspace` characters at both ends) and the
 * `%u` conversion.
 */
module ArduinoText {

  /** `String::indexOf(c)`: the first position of `c`, or -1 when absent. */
  function IndexOf(s: string, c: char): (k: int)
    ensures -1 <= k < |s|
    ensures k == -1 <==> c !in s
    ensures 0 <= k ==> s[k] == c && c !in s[..k]
  {
    if |s| == 0 then -1
    else if s[0] == c then 0
    else
      var k := IndexOf(s[1..], c);
      assert s[1..][..if k < 0 then 0 else k] == s[1..1 + if k < 0 then 0 else k];
      if k == -1 then -1 else k + 1
  }

  /**
   * `String::substring(left, right)`: the bounds are swapped when
   * `left > right`, an empty string results when `left` is at or past the
   * end, and `right` is clamped to the length.
   */
  function Substring(s: string, left: nat, right: nat): (r: string)
    ensures left <= right <= |s| ==> r == s[left..right]
    ensures right < left <= |s| ==> r == s[right..left]
    ensures |r| <= |s|
  {
    var lo := if left > right then right else left;
    var hi := if left > right then left else right;
    if lo >= |s| then "" else s[lo..if hi > |s| then |s| else hi]
  }

  /** The C `isspace` class: space, and tab through carriage return. */
  predicate IsSpace(c: char) {
    c == ' ' || '\t' <= c <= '\r'
  }

  /** The first position at or after `b` that holds no `isspace` character (`begin++`). */
  function SkipSpaces(s: string, b: nat): (r: nat)
    requires b <= |s|
    ensures b <= r <= |s|
    ensures forall k :: b <= k < r ==> IsSpace(s[k])
    ensures r < |s| ==> !IsSpace(s[r])
    decreases |s| - b
  {
    if b < |s| && IsSpace(s[b]) then SkipSpaces(s, b + 1) else b
  }

  /** The end of `s[lo..e]` once its trailing `isspace` characters are dropped (`end--`). */
  function SkipSpacesBack(s: string, lo: nat, e: nat): (r: nat)
    requires lo <= e <= |s|
    ensures lo <= r <= e
    ensures forall k :: r <= k < e ==> IsSpace(s[k])
    ensures lo < r ==> !IsSpace(s[r - 1])
  {
    if lo < e && IsSpace(s[e - 1]) then SkipSpacesBack(s, lo, e - 1) else e
  }

  /** How many whitespace characters `trim` drops at the front of `s`. */
  function LeadingSpaces(s: string): (n: nat)
    ensures n <= |s|
  {
    SkipSpaces(s, 0)
  }

  /**
   * `String::trim()`: skip the whitespace at the front, then the whitespace
   * at the back of what is left. The result is the slice of `s` starting
   * after its leading whitespace, everything dropped on either side is
   * whitespace, and the result neither starts nor ends with whitespace.
   */
  function Trim(s: string): (r: string)
    ensures r == [] || (!IsSpace(r[0]) && !IsSpace(r[|r| - 1]))
    ensures LeadingSpaces(s) + |r| <= |s| && r == s[LeadingSpaces(s)..LeadingSpaces(s) + |r|]
    ensures forall k :: 0 <= k < LeadingSpaces(s) ==> IsSpace(s[k])
    ensures forall k :: LeadingSpaces(s) + |r| <= k < |s| ==> IsSpace(s[k])
  {
    var b := SkipSpaces(s, 0);
    s[b..SkipSpacesBack(s, b, |s|)]
  }

  /** The character of a decimal digit. */
  function DigitChar(d: nat): (c: char)
    requires d < 10
    ensures '0' <= c <= '9'
  {
    ['0', '1', '2', '3', '4', '5', '6', '7', '8', '9'][d]
  }

  predicate IsDigit(c: char) {
    '0' <= c <= '9'
  }

  function DigitValue(c: char): nat
    requires IsDigit(c)
  {
    (c as int) - ('0' as int)
  }

  /** The `%u` conversion of `printf`: decimal digits, no sign, no leading zero. */
  function DecimalText(n: nat): (s: string)
    ensures s != [] && forall k :: 0 <= k < |s| ==> IsDigit(s[k])
    ensures |s| > 1 ==> s[0] != '0'
  {
    if n < 10 then [DigitChar(n)] else DecimalText(n / 10) + [DigitChar(n % 10)]
  }

  /** The number a string of decimal digits denotes. */
  function DecimalValue(s: string): nat
    requires forall k :: 0 <= k < |s| ==> IsDigit(s[k])
  {
    if s == [] then 0 else 10 * DecimalValue(s[..|s| - 1]) + DigitValue(s[|s| - 1])
  }

  /** Reading back what `%u` printed gives the number. */
  lemma {:induction false} DecimalRoundTrip(n: nat)
    ensures DecimalValue(DecimalText(n)) == n
  {
    var s := DecimalText(n);
    if n >= 10 {
      DecimalRoundTrip(n / 10);
      assert s[..|s| - 1] == DecimalText(n / 10);
    }
  }

  /** A number below 10^k, k >= 1, prints in at most k digits. */
  lemma {:induction false} DecimalTextLength(n: nat, k: nat)
    requires 1 <= k && n < Pow10(k)
    ensures |DecimalText(n)| <= k
  {
    if n >= 10 {
      assert Pow10(1) == 10;
      DecimalTextLength(n / 10, k - 1);
    }
  }

  function Pow10(k: nat): (p: nat)
    ensures p >= 1
  {
    if k == 0 then 1 else 10 * Pow10(k - 1)
  }
}
