/**
 * The parts of Python's `str` that the build driver relies on:
 * `str(value)` of a preset value (a string or an integer flag), and
 * `str.strip()` applied to the container id printed by `docker run`.
 */
module PyText {

  /** A preset value: the preset table mixes strings and integer flags. */
  datatype Value = Text(s: string) | Int(n: int)

  function Digit(d: nat): (c: char)
    requires d < 10
    ensures '0' <= c <= '9'
  {
    ('0' as int + d) as char
  }

  function DigitValue(c: char): int
  {
    c as int - '0' as int
  }

  /** Decimal digits of a natural number, most significant first, as `str(n)` prints them. */
  function NatDigits(n: nat): (s: string)
    ensures |s| >= 1
    ensures forall i :: 0 <= i < |s| ==> '0' <= s[i] <= '9'
    ensures |s| > 1 ==> s[0] != '0'
    decreases n
  {
    if n < 10 then [Digit(n)] else NatDigits(n / 10) + [Digit(n % 10)]
  }

  /** Reads back a string of decimal digits. */
  function ParseDigits(s: string): int
    decreases |s|
  {
    if s == [] then 0 else ParseDigits(s[..|s| - 1]) * 10 + DigitValue(s[|s| - 1])
  }

  /** `str(n)` for a Python `int`. */
  function Decimal(n: int): string
  {
    if n < 0 then "-" + NatDigits(-n) else NatDigits(n)
  }

  /** Reads back what `Decimal` prints. */
  function ParseDecimal(s: string): int
  {
    if |s| > 0 && s[0] == '-' then -ParseDigits(s[1..]) else ParseDigits(s)
  }

  lemma {:induction false} NatDigitsRoundTrip(n: nat)
    ensures ParseDigits(NatDigits(n)) == n
    decreases n
  {
    if n >= 10 {
      var s := NatDigits(n);
      assert s[..|s| - 1] == NatDigits(n / 10);
      NatDigitsRoundTrip(n / 10);
    }
  }

  /** `str` on an integer loses nothing: the printed digits read back as the same number. */
  lemma DecimalRoundTrip(n: int)
    ensures ParseDecimal(Decimal(n)) == n
  {
    var s := Decimal(n);
    if n < 0 {
      var d := NatDigits(-n);
      assert s == "-" + d;
      assert s[0] == '-' && s[1..] == d;
      NatDigitsRoundTrip(-n);
    } else {
      assert '0' <= s[0] <= '9';
      NatDigitsRoundTrip(n);
    }
  }

  /** `str(value)`: a string is itself, an integer is printed in decimal. */
  function Str(v: Value): string
  {
    match v
    case Text(s) => s
    case Int(n) => Decimal(n)
  }

  /**
   * `c.isspace()` in Python 3: the characters whose Unicode bidirectional class
   * is WS, B or S, or whose category is Zs.
   */
  predicate IsSpace(c: char)
  {
    var n := c as int;
    || n == 0x20
    || 0x09 <= n <= 0x0D
    || 0x1C <= n <= 0x1F
    || n == 0x85
    || n == 0xA0
    || n == 0x1680
    || 0x2000 <= n <= 0x200A
    || n == 0x2028
    || n == 0x2029
    || n == 0x202F
    || n == 0x205F
    || n == 0x3000
  }

  ghost predicate AllSpace(s: string)
  {
    forall i :: 0 <= i < |s| ==> IsSpace(s[i])
  }

  /** Number of whitespace characters at the start of `s`. */
  function LeadingSpaces(s: string): (n: nat)
    ensures n <= |s|
    ensures forall i :: 0 <= i < n ==> IsSpace(s[i])
    ensures n < |s| ==> !IsSpace(s[n])
    decreases |s|
  {
    if s == [] || !IsSpace(s[0]) then 0 else 1 + LeadingSpaces(s[1..])
  }

  /** Number of whitespace characters at the end of `s`. */
  function TrailingSpaces(s: string): (n: nat)
    ensures n <= |s|
    ensures forall i :: |s| - n <= i < |s| ==> IsSpace(s[i])
    ensures n < |s| ==> !IsSpace(s[|s| - 1 - n])
    decreases |s|
  {
    if s == [] || !IsSpace(s[|s| - 1]) then 0 else 1 + TrailingSpaces(s[..|s| - 1])
  }

  /** Where the text kept by `strip` ends: before the whitespace that follows the leading run. */
  function StripEnd(s: string): (e: nat)
    ensures LeadingSpaces(s) <= e <= |s|
    ensures forall i :: e <= i < |s| ==> IsSpace(s[i])
    ensures e > LeadingSpaces(s) ==> !IsSpace(s[e - 1])
  {
    var l := LeadingSpaces(s);
    var t := TrailingSpaces(s[l..]);
    assert forall i :: |s| - t <= i < |s| ==> s[i] == s[l..][i - l];
    |s| - t
  }

  /** `s.strip()`: drop leading whitespace, then trailing whitespace. */
  function Strip(s: string): (r: string)
  {
    s[LeadingSpaces(s)..StripEnd(s)]
  }

  /**
   * What `strip` removes: `s` is the stripped text between two runs of
   * whitespace, and the stripped text neither starts nor ends with whitespace.
   */
  lemma StripSplits(s: string)
    ensures s == s[..LeadingSpaces(s)] + Strip(s) + s[StripEnd(s)..]
    ensures AllSpace(s[..LeadingSpaces(s)]) && AllSpace(s[StripEnd(s)..])
    ensures Strip(s) == [] || (!IsSpace(Strip(s)[0]) && !IsSpace(Strip(s)[|Strip(s)| - 1]))
  {
    var l, e := LeadingSpaces(s), StripEnd(s);
    Slices(s, l, e);
    SpaceRun(s, 0, l);
    SpaceRun(s, e, |s|);
    StripBorders(s);
  }

  lemma StripBorders(s: string)
    ensures Strip(s) == [] || (!IsSpace(Strip(s)[0]) && !IsSpace(Strip(s)[|Strip(s)| - 1]))
  {
    Borders(s, LeadingSpaces(s), StripEnd(s));
  }

  lemma Borders(s: string, a: nat, b: nat)
    requires a <= b <= |s|
    requires a < b ==> !IsSpace(s[a]) && !IsSpace(s[b - 1])
    ensures s[a..b] == [] || (!IsSpace(s[a..b][0]) && !IsSpace(s[a..b][b - a - 1]))
  {
  }

  /** `s` is its three slices at `a` and `b` put back together. */
  lemma Slices<T>(s: seq<T>, a: nat, b: nat)
    requires a <= b <= |s|
    ensures s == s[..a] + s[a..b] + s[b..]
    ensures a < b ==> s[a..b][0] == s[a] && s[a..b][b - a - 1] == s[b - 1]
  {
    assert s[..b] == s[..a] + s[a..b];
  }

  lemma SpaceRun(s: string, a: nat, b: nat)
    requires a <= b <= |s|
    requires forall i :: a <= i < b ==> IsSpace(s[i])
    ensures AllSpace(s[a..b])
  {
    forall i | 0 <= i < b - a
      ensures IsSpace(s[a..b][i])
    {
      assert s[a..b][i] == s[a + i];
    }
  }

  /**
   * The decomposition of `StripSplits` is unique: whenever `s` is whitespace,
   * then `r`, then whitespace, and `r` has no whitespace at either end,
   * `strip` returns exactly `r`.
   */
  lemma StripUnique(s: string, pre: string, r: string, post: string)
    requires s == pre + r + post
    requires AllSpace(pre) && AllSpace(post)
    requires r == [] || (!IsSpace(r[0]) && !IsSpace(r[|r| - 1]))
    ensures Strip(s) == r
  {
    var l := LeadingSpaces(s);
    if r == [] {
      assert forall i :: 0 <= i < |s| ==> IsSpace(s[i]) by {
        forall i | 0 <= i < |s| ensures IsSpace(s[i]) {
          if i < |pre| { assert s[i] == pre[i]; } else { assert s[i] == post[i - |pre|]; }
        }
      }
      assert l == |s|;
    } else {
      assert s[|pre|] == r[0];
      assert forall i :: 0 <= i < |pre| ==> s[i] == pre[i];
      assert l == |pre|;
      var head := s[l..];
      assert head == r + post;
      var t := TrailingSpaces(head);
      assert head[|r| - 1] == r[|r| - 1];
      assert forall i :: |r| <= i < |head| ==> head[i] == post[i - |r|];
      assert t == |post|;
      assert head[..|head| - t] == r;
    }
  }

  /** Stripping twice is stripping once. */
  lemma StripIdempotent(s: string)
    ensures Strip(Strip(s)) == Strip(s)
  {
    var r := Strip(s);
    StripBorders(s);
    assert r == [] + r + [];
    StripUnique(r, [], r, []);
  }
}
