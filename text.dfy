/**
 * Character and string helpers shared by the backend and the bot: digit filtering
 * (Python's `filter(str.isdigit, ...)` and `re.sub(r'\D', '', ...)`), `strip()`,
 * `upper()`, the two regular expressions used on client codes, and decimal
 * conversion between naturals and digit strings.
 *
 * Whitespace is Python's full `str.isspace()` set.  Digits are only the ASCII
 * digits 0-9, while Python's `str.isdigit` and `\d` also accept other Unicode
 * digits (see README).
 */
module Text {

  predicate IsDigit(c: char) { '0' <= c <= '9' }

  predicate AllDigits(s: string) { forall i :: 0 <= i < |s| ==> IsDigit(s[i]) }

  predicate IsAsciiLetter(c: char) { ('a' <= c <= 'z') || ('A' <= c <= 'Z') }

  /**
   * The characters that `str.strip()` removes: those `str.isspace()` accepts,
   * namely tab to carriage return, the four separators U+1C-U+1F, space,
   * U+85, no-break space and the Unicode space and separator characters.
   */
  predicate IsSpace(c: char)
  {
    ('\t' <= c <= '\r') || ('\U{1C}' <= c <= ' ')
    || c == '\U{85}' || c == '\U{A0}' || c == '\U{1680}'
    || ('\U{2000}' <= c <= '\U{200A}') || c == '\U{2028}' || c == '\U{2029}'
    || c == '\U{202F}' || c == '\U{205F}' || c == '\U{3000}'
  }

  /** The digits of `s`, in order: `"".join(filter(str.isdigit, s))`. */
  function Digits(s: string): (r: string)
    ensures AllDigits(r)
    ensures |r| <= |s|
    ensures AllDigits(s) ==> r == s
  {
    if s == [] then []
    else (if IsDigit(s[0]) then [s[0]] else []) + Digits(s[1..])
  }

  /** Filtering distributes over concatenation, so no digit is lost or reordered. */
  lemma {:induction false} DigitsAppend(a: string, b: string)
    ensures Digits(a + b) == Digits(a) + Digits(b)
  {
    if a == [] {
      assert a + b == b;
    } else {
      assert (a + b)[1..] == a[1..] + b;
      DigitsAppend(a[1..], b);
    }
  }

  /**
   * Every digit of `s` is kept as often as it occurs and every other
   * character is dropped; with `DigitsAppend` this is `re.sub(r'\D', '', s)`.
   */
  lemma {:induction false} DigitsCount(s: string)
    ensures forall c :: multiset(Digits(s))[c] == if IsDigit(c) then multiset(s)[c] else 0
  {
    if s != [] {
      DigitsCount(s[1..]);
      assert s == [s[0]] + s[1..];
      assert multiset(s) == multiset([s[0]]) + multiset(s[1..]);
    }
  }

  /** Digit filtering is idempotent. */
  lemma DigitsIdempotent(s: string)
    ensures Digits(Digits(s)) == Digits(s)
  {
  }

  /** The first position at or after `k` that does not hold whitespace (or `|s|`). */
  function FirstKept(s: string, k: nat): (n: nat)
    requires k <= |s|
    ensures k <= n <= |s|
    ensures forall i :: k <= i < n ==> IsSpace(s[i])
    ensures n == |s| || !IsSpace(s[n])
    decreases |s| - k
  {
    if k < |s| && IsSpace(s[k]) then FirstKept(s, k + 1) else k
  }

  /** The end of `s[lo..k]` once the whitespace at its right end is cut off. */
  function LastKept(s: string, lo: nat, k: nat): (n: nat)
    requires lo <= k <= |s|
    ensures lo <= n <= k
    ensures forall i :: n <= i < k ==> IsSpace(s[i])
    ensures n == lo || !IsSpace(s[n - 1])
  {
    if lo < k && IsSpace(s[k - 1]) then LastKept(s, lo, k - 1) else k
  }

  /** `s.strip()`: the middle part of `s` left after removing whitespace at both ends. */
  function Strip(s: string): (r: string)
    ensures |r| <= |s|
    ensures r == [] || (!IsSpace(r[0]) && !IsSpace(r[|r| - 1]))
    ensures AllDigits(s) ==> r == s
    ensures s == [] || (!IsSpace(s[0]) && !IsSpace(s[|s| - 1])) ==> r == s
    ensures exists a, b ::
      (0 <= a <= b <= |s| && r == s[a..b]
       && (forall i :: 0 <= i < a ==> IsSpace(s[i])) && (forall i :: b <= i < |s| ==> IsSpace(s[i])))
  {
    assert s != [] && AllDigits(s) ==> IsDigit(s[0]) && IsDigit(s[|s| - 1]);
    var a := FirstKept(s, 0);
    var b := LastKept(s, a, |s|);
    s[a..b]
  }

  /** Whitespace after a trimmed text, a no-break space included, is stripped away. */
  lemma StripTrailingSpace(s: string, c: char)
    requires s != [] && !IsSpace(s[0]) && !IsSpace(s[|s| - 1]) && IsSpace(c)
    ensures Strip(s + [c]) == s
  {
    var t := s + [c];
    assert FirstKept(t, 0) == 0;
    assert LastKept(t, 0, |t| - 1) == |s|;
    assert LastKept(t, 0, |t|) == |s|;
    assert t[..|s|] == s;
  }

  function UpperChar(c: char): (u: char)
    ensures 'a' <= c <= 'z' ==> 'A' <= u <= 'Z'
    ensures !('a' <= c <= 'z') ==> u == c
  {
    if 'a' <= c <= 'z' then (c as int - 'a' as int + 'A' as int) as char else c
  }

  /** `s.upper()` restricted to ASCII letters. */
  function Upper(s: string): (r: string)
    ensures |r| == |s|
    ensures forall i :: 0 <= i < |s| ==> r[i] == UpperChar(s[i])
  {
    if s == [] then [] else [UpperChar(s[0])] + Upper(s[1..])
  }

  /** The text matched by `re.match(r'^([a-zA-Z]+)', s)`, or "" when it does not match. */
  function LeadingLetters(s: string): (r: string)
    ensures r <= s
    ensures forall i :: 0 <= i < |r| ==> IsAsciiLetter(r[i])
    ensures |r| == |s| || !IsAsciiLetter(s[|r|])
  {
    if s != [] && IsAsciiLetter(s[0]) then [s[0]] + LeadingLetters(s[1..]) else []
  }

  /** The text matched by `re.search(r'(\d+)$', s)`, or "" when it does not match. */
  function TrailingDigits(s: string): (r: string)
    ensures |r| <= |s| && r == s[|s| - |r|..]
    ensures AllDigits(r)
    ensures |r| == |s| || !IsDigit(s[|s| - |r| - 1])
  {
    if s != [] && IsDigit(s[|s| - 1]) then TrailingDigits(s[..|s| - 1]) + [s[|s| - 1]] else []
  }

  function DigitValue(c: char): (d: nat)
    requires IsDigit(c)
    ensures d < 10
  {
    c as int - '0' as int
  }

  /** `int(s)` for a string of decimal digits. */
  function DecimalValue(s: string): (n: nat)
    requires AllDigits(s)
  {
    if s == [] then 0 else 10 * DecimalValue(s[..|s| - 1]) + DigitValue(s[|s| - 1])
  }

  /** `str(n)` for a natural number: its shortest decimal representation. */
  function NatToDecimal(n: nat): (s: string)
    ensures AllDigits(s) && |s| >= 1
    ensures |s| > 1 ==> s[0] != '0'
  {
    if n < 10 then [('0' as int + n) as char]
    else NatToDecimal(n / 10) + [('0' as int + n % 10) as char]
  }

  /** Printing a natural and parsing it back gives the same number. */
  lemma {:induction false} DecimalRoundTrip(n: nat)
    ensures DecimalValue(NatToDecimal(n)) == n
  {
    var s := NatToDecimal(n);
    if n >= 10 {
      DecimalRoundTrip(n / 10);
      assert s[..|s| - 1] == NatToDecimal(n / 10);
    }
  }

  /** `str(i)` for any integer. */
  function IntToDecimal(i: int): (s: string)
    ensures |s| >= 1
    ensures i < 0 <==> s[0] == '-'
  {
    if i < 0 then "-" + NatToDecimal(-i) else NatToDecimal(i)
  }
}
