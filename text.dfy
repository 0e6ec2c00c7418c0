/**
 * The few pieces of Python's `str` behaviour the rest of the model relies on:
 * `isspace`, `strip`/`lstrip`/`rstrip`, `replace`, `join`, `startswith`,
 * ASCII `lower`/`upper`, and the decimal rendering of `f"{n}"`.
 */
module Text {

  /** Python's `str.isspace()` for a single character: the characters `str.strip()` removes. */
  predicate IsWhitespace(c: char)
  {
    || c == ' '
    || '\t' <= c <= '\r'
    || '\U{1c}' <= c <= '\U{1f}'
    || c == '\U{85}' || c == '\U{a0}' || c == '\U{1680}'
    || '\U{2000}' <= c <= '\U{200a}'
    || c == '\U{2028}' || c == '\U{2029}' || c == '\U{202f}' || c == '\U{205f}' || c == '\U{3000}'
  }

  /** `s.lstrip(chars)`, with the set of characters given as the predicate `p`. */
  function LStrip(s: string, p: char -> bool): (r: string)
    ensures |r| <= |s| && r == s[|s| - |r|..]
    ensures forall k :: 0 <= k < |s| - |r| ==> p(s[k])
    ensures r == [] || !p(r[0])
  {
    if |s| > 0 && p(s[0]) then LStrip(s[1..], p) else s
  }

  /** `s.rstrip(chars)`, with the set of characters given as the predicate `p`. */
  function RStrip(s: string, p: char -> bool): (r: string)
    ensures |r| <= |s| && r == s[..|r|]
    ensures forall k :: |r| <= k < |s| ==> p(s[k])
    ensures r == [] || !p(r[|r| - 1])
  {
    if |s| > 0 && p(s[|s| - 1]) then RStrip(s[..|s| - 1], p) else s
  }

  /** Where the result of `StripBy(s, p)` starts inside `s`: the number of leading characters satisfying `p`. */
  function StripStart(s: string, p: char -> bool): nat
  {
    |s| - |LStrip(s, p)|
  }

  /**
   * `s.strip(chars)`: the slice of `s` left after removing characters satisfying `p` at both ends.
   * Everything cut off satisfies `p` and the result neither starts nor ends with such a character.
   */
  function StripBy(s: string, p: char -> bool): (r: string)
    ensures StripStart(s, p) + |r| <= |s|
    ensures r == s[StripStart(s, p)..StripStart(s, p) + |r|]
    ensures forall k :: 0 <= k < StripStart(s, p) ==> p(s[k])
    ensures forall k :: StripStart(s, p) + |r| <= k < |s| ==> p(s[k])
    ensures r == [] || (!p(r[0]) && !p(r[|r| - 1]))
  {
    var t := LStrip(s, p);
    var r := RStrip(t, p);
    SliceOfSuffix(s, |s| - |t|, t, r, p);
    r
  }

  /**
   * Cutting a prefix and then a suffix off `s` leaves a slice of `s`, and what the
   * suffix cut removed from `t` is the tail of `s`.
   */
  lemma SliceOfSuffix(s: string, i: nat, t: string, r: string, p: char -> bool)
    requires i <= |s| && t == s[i..]
    requires |r| <= |t| && r == t[..|r|]
    requires forall k :: |r| <= k < |t| ==> p(t[k])
    ensures r == s[i..i + |r|]
    ensures forall k :: i + |r| <= k < |s| ==> p(s[k])
  {
    forall k | i + |r| <= k < |s|
      ensures p(s[k])
    {
      assert s[k] == t[k - i];
    }
  }

  /** `s.strip()`: no whitespace is left at either end. */
  function Strip(s: string): (r: string)
    ensures |r| <= |s|
    ensures r == [] || (!IsWhitespace(r[0]) && !IsWhitespace(r[|r| - 1]))
  {
    StripBy(s, IsWhitespace)
  }

  /** Stripping a text that has nothing to strip at either end leaves it as it is. */
  lemma StripByKeeps(s: string, p: char -> bool)
    requires s == [] || (!p(s[0]) && !p(s[|s| - 1]))
    ensures StripBy(s, p) == s
  {
    assert LStrip(s, p) == s;
    assert RStrip(s, p) == s;
  }

  /** `s.strip().strip() == s.strip()`. */
  lemma StripIdempotent(s: string)
    ensures Strip(Strip(s)) == Strip(s)
  {
    StripByKeeps(Strip(s), IsWhitespace);
  }

  /** `s.replace(target, replacement)`: every non-overlapping occurrence, scanning left to right. */
  function Replace(s: string, target: string, replacement: string): (r: string)
    requires target != []
    ensures |replacement| <= |target| ==> |r| <= |s|
    decreases |s|
  {
    if |s| == 0 then ""
    else if target <= s then replacement + Replace(s[|target|..], target, replacement)
    else [s[0]] + Replace(s[1..], target, replacement)
  }

  /** Replacing a one-character target with text that lacks that character leaves none of it behind. */
  lemma {:induction false} ReplaceRemovesChar(s: string, c: char, replacement: string)
    requires c !in replacement
    ensures c !in Replace(s, [c], replacement)
    decreases |s|
  {
    if |s| == 0 {
    } else if [c] <= s {
      ReplaceRemovesChar(s[1..], c, replacement);
    } else {
      ReplaceRemovesChar(s[1..], c, replacement);
    }
  }

  /** `sep.join(pieces)`. */
  function Join(pieces: seq<string>, sep: string): string
  {
    if |pieces| == 0 then ""
    else if |pieces| == 1 then pieces[0]
    else Join(pieces[..|pieces| - 1], sep) + sep + pieces[|pieces| - 1]
  }

  /** The joined text starts with the first piece, so it is non-empty when that piece is. */
  lemma {:induction false} JoinStartsWithFirst(pieces: seq<string>, sep: string)
    requires |pieces| > 0
    ensures pieces[0] <= Join(pieces, sep)
    ensures pieces[0] != [] ==> Join(pieces, sep) != []
  {
    if |pieces| > 1 {
      JoinStartsWithFirst(pieces[..|pieces| - 1], sep);
    }
  }

  /** The joined text is every piece laid end to end with one separator between neighbours. */
  function TotalLength(pieces: seq<string>): nat
  {
    if |pieces| == 0 then 0 else TotalLength(pieces[..|pieces| - 1]) + |pieces[|pieces| - 1]|
  }

  lemma {:induction false} JoinLength(pieces: seq<string>, sep: string)
    requires |pieces| > 0
    ensures |Join(pieces, sep)| == TotalLength(pieces) + (|pieces| - 1) * |sep|
  {
    if |pieces| > 1 {
      var init := pieces[..|pieces| - 1];
      JoinLength(init, sep);
      assert |Join(pieces, sep)| == |Join(init, sep)| + |sep| + |pieces[|pieces| - 1]|;
      assert TotalLength(pieces) == TotalLength(init) + |pieces[|pieces| - 1]|;
      assert |init| * |sep| == (|init| - 1) * |sep| + |sep|;
    }
  }

  /** Python's `str.lower()` restricted to ASCII letters. */
  function AsciiLower(c: char): char
  {
    if 'A' <= c <= 'Z' then (c as int + 32) as char else c
  }

  /** Python's `str.upper()` restricted to ASCII letters. */
  function AsciiUpper(c: char): char
  {
    if 'a' <= c <= 'z' then (c as int - 32) as char else c
  }

  function Lower(s: string): (r: string)
    ensures |r| == |s|
  {
    seq(|s|, k requires 0 <= k < |s| => AsciiLower(s[k]))
  }

  function Upper(s: string): (r: string)
    ensures |r| == |s|
  {
    seq(|s|, k requires 0 <= k < |s| => AsciiUpper(s[k]))
  }

  /** `s.startswith(prefix)`. */
  predicate StartsWith(s: string, prefix: string)
  {
    prefix <= s
  }

  /** `c * n`: the character c, n times. */
  function Repeat(c: char, n: nat): (r: string)
  {
    seq(n, k requires 0 <= k < n => c)
  }

  function DigitChar(d: nat): (c: char)
    requires d < 10
    ensures '0' <= c <= '9'
  {
    (48 + d) as char
  }

  predicate AllDigits(s: string)
  {
    forall k :: 0 <= k < |s| ==> '0' <= s[k] <= '9'
  }

  /** `f"{n}"` for a natural number: its decimal digits, without leading zeros. */
  function Decimal(n: nat): (r: string)
    ensures |r| > 0 && AllDigits(r)
    ensures r[0] == '0' ==> n == 0
  {
    if n < 10 then [DigitChar(n)] else Decimal(n / 10) + [DigitChar(n % 10)]
  }

  /** `int(s)` for a string of decimal digits: the inverse of `Decimal`. */
  function DecimalValue(s: string): nat
    requires AllDigits(s)
  {
    if s == [] then 0 else 10 * DecimalValue(s[..|s| - 1]) + (s[|s| - 1] as int - 48)
  }

  lemma {:induction false} DecimalRoundTrip(n: nat)
    ensures DecimalValue(Decimal(n)) == n
  {
    if n >= 10 {
      DecimalRoundTrip(n / 10);
      var r := Decimal(n);
      assert r[..|r| - 1] == Decimal(n / 10);
    }
  }

  /** Distinct numbers render differently, so renumbered blocks stay distinguishable. */
  lemma DecimalInjective(m: nat, n: nat)
    requires Decimal(m) == Decimal(n)
    ensures m == n
  {
    DecimalRoundTrip(m);
    DecimalRoundTrip(n);
  }
}
