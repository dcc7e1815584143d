/** The few Python string built-ins the generator relies on: `str.isspace`,
    `str.strip()`, `str.endswith` and the decimal rendering of a non-negative
    `int` inside an f-string. Strings are `seq<char>`. */
module Strings {

  /** Python's `str.isspace` on one character: the ASCII controls TAB..CR,
      the separators U+001C..U+001F, SPACE, NEL, NO-BREAK SPACE and the
      Unicode space separators and line/paragraph separators. */
  predicate IsSpace(c: char) {
    var x := c as int;
    (0x09 <= x <= 0x0D) || (0x1C <= x <= 0x20) || x == 0x85 || x == 0xA0 ||
    x == 0x1680 || (0x2000 <= x <= 0x200A) || x == 0x2028 || x == 0x2029 ||
    x == 0x202F || x == 0x205F || x == 0x3000
  }

  /** Every character of `s` is white space (true of the empty string). */
  predicate AllSpace(s: string) {
    forall i :: 0 <= i < |s| ==> IsSpace(s[i])
  }

  /** `s.lstrip()`. */
  function TrimStart(s: string): string {
    if |s| > 0 && IsSpace(s[0]) then TrimStart(s[1..]) else s
  }

  /** `s.rstrip()`. */
  function TrimEnd(s: string): string {
    if |s| > 0 && IsSpace(s[|s| - 1]) then TrimEnd(s[..|s| - 1]) else s
  }

  /** `s.strip()` with no argument. */
  function Strip(s: string): string {
    TrimEnd(TrimStart(s))
  }

  /** `not s.strip()`: the stripped string is empty, hence falsy. */
  predicate IsBlank(s: string) {
    |Strip(s)| == 0
  }

  /** `lstrip` drops the leading white space and nothing else: what it returns
      is a suffix of `s`, everything before that suffix is white space, and
      the suffix does not start with white space. */
  lemma {:induction false} TrimStartDropsLeadingSpace(s: string)
    ensures |TrimStart(s)| <= |s| && TrimStart(s) == s[|s| - |TrimStart(s)|..]
    ensures AllSpace(s[..|s| - |TrimStart(s)|])
    ensures TrimStart(s) == [] || !IsSpace(TrimStart(s)[0])
  {
    if |s| > 0 && IsSpace(s[0]) {
      TrimStartDropsLeadingSpace(s[1..]);
      var r := TrimStart(s);
      assert s[..|s| - |r|] == [s[0]] + s[1..][..|s[1..]| - |r|];
    }
  }

  /** `rstrip` drops the trailing white space and nothing else. */
  lemma {:induction false} TrimEndDropsTrailingSpace(s: string)
    ensures |TrimEnd(s)| <= |s| && TrimEnd(s) == s[..|TrimEnd(s)|]
    ensures AllSpace(s[|TrimEnd(s)|..])
    ensures TrimEnd(s) == [] || !IsSpace(TrimEnd(s)[|TrimEnd(s)| - 1])
  {
    if |s| > 0 && IsSpace(s[|s| - 1]) {
      var t := s[..|s| - 1];
      TrimEndDropsTrailingSpace(t);
      var r := TrimEnd(s);
      assert s[|r|..] == t[|r|..] + [s[|s| - 1]];
    }
  }

  /** A string strips to nothing exactly when it is all white space. */
  lemma BlankIffAllSpace(s: string)
    ensures IsBlank(s) <==> AllSpace(s)
  {
    var t := TrimStart(s);
    TrimStartDropsLeadingSpace(s);
    TrimEndDropsTrailingSpace(t);
    if IsBlank(s) {
      assert t == t[|TrimEnd(t)|..];
      assert s == s[..|s| - |t|] + t;
    }
  }

  /** A string that starts with a character other than white space is not blank. */
  lemma NotBlankWhenFirstIsNotSpace(s: string)
    requires |s| > 0 && !IsSpace(s[0])
    ensures !IsBlank(s)
  {
    BlankIffAllSpace(s);
  }

  /** `s.endswith(suffix)`. */
  predicate EndsWith(s: string, suffix: string) {
    |suffix| <= |s| && s[|s| - |suffix|..] == suffix
  }

  lemma EndsWithAppended(s: string, suffix: string)
    ensures EndsWith(s + suffix, suffix)
  {
    assert (s + suffix)[|s|..] == suffix;
  }

  /** The character of one decimal digit. */
  function DigitChar(d: nat): (c: char)
    requires d < 10
    ensures '0' <= c <= '9' && c as int - '0' as int == d
  {
    ('0' as int + d) as char
  }

  predicate IsDigits(s: string) {
    forall i :: 0 <= i < |s| ==> '0' <= s[i] <= '9'
  }

  /** `f"{n}"` for a non-negative `int`: its decimal digits, most significant first. */
  function DecimalString(n: nat): (s: string)
    ensures |s| >= 1 && IsDigits(s)
    ensures s[0] == '0' ==> n == 0
  {
    if n < 10 then [DigitChar(n)] else DecimalString(n / 10) + [DigitChar(n % 10)]
  }

  /** The number a string of decimal digits denotes; the inverse of `DecimalString`. */
  function DecimalValue(s: string): nat
    requires IsDigits(s)
  {
    if s == [] then 0
    else DecimalValue(s[..|s| - 1]) * 10 + (s[|s| - 1] as int - '0' as int)
  }

  lemma {:induction false} DecimalRoundTrip(n: nat)
    ensures DecimalValue(DecimalString(n)) == n
  {
    var s := DecimalString(n);
    if n >= 10 {
      DecimalRoundTrip(n / 10);
      assert s[..|s| - 1] == DecimalString(n / 10);
    }
  }

  /** Distinct numbers render as distinct strings. */
  lemma DecimalStringInjective(m: nat, n: nat)
    requires DecimalString(m) == DecimalString(n)
    ensures m == n
  {
    DecimalRoundTrip(m);
    DecimalRoundTrip(n);
  }
}
