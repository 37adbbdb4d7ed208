/**
 * String helpers the core relies on: Rust's `str::trim`, `strip_prefix`, `rfind`, ASCII case
 * folding and decimal rendering of integers. Strings are sequences of Unicode scalar values.
 */
module Text {
  import opened Wrappers

  /** Rust's `char::is_whitespace`: the Unicode White_Space property. */
  predicate IsWhitespace(c: char) {
    var u := c as int;
    (0x09 <= u <= 0x0D) || u == 0x20 || u == 0x85 || u == 0xA0 || u == 0x1680
    || (0x2000 <= u <= 0x200A) || u == 0x2028 || u == 0x2029 || u == 0x202F
    || u == 0x205F || u == 0x3000
  }

  predicate AllWhitespace(s: string) {
    forall i :: 0 <= i < |s| ==> IsWhitespace(s[i])
  }

  /** The first position at or after `b` that does not hold whitespace (or `|s|`). */
  function ContentStart(s: string, b: nat): (r: nat)
    requires b <= |s|
    ensures b <= r <= |s|
    ensures forall i :: b <= i < r ==> IsWhitespace(s[i])
    ensures r < |s| ==> !IsWhitespace(s[r])
    decreases |s| - b
  {
    if b == |s| || !IsWhitespace(s[b]) then b else ContentStart(s, b + 1)
  }

  /** The position after the last character before `e` that does not hold whitespace (or 0). */
  function ContentEnd(s: string, e: nat): (r: nat)
    requires e <= |s|
    ensures r <= e
    ensures forall i :: r <= i < e ==> IsWhitespace(s[i])
    ensures r > 0 ==> !IsWhitespace(s[r - 1])
  {
    if e == 0 || !IsWhitespace(s[e - 1]) then e else ContentEnd(s, e - 1)
  }

  /**
   * Rust's `str::trim`: the part of `s` left after removing all leading and all trailing
   * whitespace; it neither starts nor ends with whitespace.
   */
  function Trim(s: string): (r: string)
    ensures |r| <= |s|
    ensures r != [] ==> !IsWhitespace(r[0]) && !IsWhitespace(r[|r| - 1])
    ensures exists a :: 0 <= a <= |s| - |r| && r == s[a..a + |r|]
                        && AllWhitespace(s[..a]) && AllWhitespace(s[a + |r|..])
  {
    var a := ContentStart(s, 0);
    if a == |s| then
      assert AllWhitespace(s[..a]);
      assert AllWhitespace(s[|s|..]);
      ""
    else
      var e := ContentEnd(s, |s|);
      assert a < e;
      assert AllWhitespace(s[..a]);
      assert AllWhitespace(s[e..]);
      s[a..e]
  }

  /** A string that is empty or has no whitespace at either end is its own trim. */
  lemma {:induction false} TrimOfTrimmed(s: string)
    requires s == [] || (!IsWhitespace(s[0]) && !IsWhitespace(s[|s| - 1]))
    ensures Trim(s) == s
  {
    assert ContentStart(s, 0) == 0;
    if s != [] {
      assert ContentEnd(s, |s|) == |s|;
    }
  }

  /** Trimming is idempotent. */
  lemma TrimIdempotent(s: string)
    ensures Trim(Trim(s)) == Trim(s)
  {
    TrimOfTrimmed(Trim(s));
  }

  /** Surrounding whitespace is what `Trim` removes. */
  lemma TrimPadded(lead: string, m: string, trail: string)
    requires AllWhitespace(lead) && AllWhitespace(trail)
    requires m != [] && !IsWhitespace(m[0]) && !IsWhitespace(m[|m| - 1])
    ensures Trim(lead + m + trail) == m
  {
    var s := lead + m + trail;
    assert s[|lead|] == m[0];
    assert forall i :: 0 <= i < |lead| ==> s[i] == lead[i];
    assert ContentStart(s, 0) == |lead|;
    assert s[|lead| + |m| - 1] == m[|m| - 1];
    assert forall i :: |lead| + |m| <= i < |s| ==> s[i] == trail[i - |lead| - |m|];
    assert ContentEnd(s, |s|) == |lead| + |m|;
    assert s[|lead|..|lead| + |m|] == m;
  }

  /** A string of whitespace trims to nothing. */
  lemma TrimBlank(s: string)
    requires AllWhitespace(s)
    ensures Trim(s) == ""
  {
    assert ContentStart(s, 0) == |s|;
  }

  predicate StartsWith(s: string, prefix: string) {
    |prefix| <= |s| && s[..|prefix|] == prefix
  }

  /** Rust's `str::strip_prefix`. */
  function StripPrefix(s: string, prefix: string): (r: Option<string>)
    ensures r.Some? <==> StartsWith(s, prefix)
    ensures r.Some? ==> prefix + r.value == s
  {
    if StartsWith(s, prefix) then
      assert prefix + s[|prefix|..] == s[..|prefix|] + s[|prefix|..];
      Some(s[|prefix|..])
    else None
  }

  lemma StripPrefixOfConcat(prefix: string, rest: string)
    ensures StripPrefix(prefix + rest, prefix) == Some(rest)
  {
    assert (prefix + rest)[..|prefix|] == prefix;
    assert (prefix + rest)[|prefix|..] == rest;
  }

  /** Rust's `str::trim_end_matches(c)` for one character: every trailing `c` removed. */
  function TrimEndChar(s: string, c: char): (r: string)
    ensures |r| <= |s| && r == s[..|r|]
    ensures forall i :: |r| <= i < |s| ==> s[i] == c
    ensures r != [] ==> r[|r| - 1] != c
  {
    if s != [] && s[|s| - 1] == c then TrimEndChar(s[..|s| - 1], c) else s
  }

  /** Appending more copies of `c` does not change what `TrimEndChar` leaves. */
  lemma {:induction false} TrimEndCharOfPadded(s: string, c: char, n: nat)
    ensures TrimEndChar(s + seq(n, _ => c), c) == TrimEndChar(s, c)
    decreases n
  {
    if n > 0 {
      var t := s + seq(n, _ => c);
      assert t[..|t| - 1] == s + seq(n - 1, _ => c);
      TrimEndCharOfPadded(s, c, n - 1);
    } else {
      assert s + seq(n, _ => c) == s;
    }
  }

  /** `pattern` occurs in `s` starting at position `k`. */
  predicate OccursAt(s: string, pattern: string, k: int) {
    0 <= k && k + |pattern| <= |s| && s[k..k + |pattern|] == pattern
  }

  /** The last occurrence of `pattern` at or before position `k`, searching downwards. */
  function LastOccurrenceFrom(s: string, pattern: string, k: int): (r: Option<nat>)
    requires k + |pattern| <= |s|
    ensures r.Some? ==> r.value <= k && OccursAt(s, pattern, r.value)
    ensures r.Some? ==> forall j :: r.value < j <= k ==> !OccursAt(s, pattern, j)
    ensures r.None? ==> forall j :: 0 <= j <= k ==> !OccursAt(s, pattern, j)
    decreases k + 1
  {
    if k < 0 then None
    else if OccursAt(s, pattern, k) then Some(k)
    else LastOccurrenceFrom(s, pattern, k - 1)
  }

  /** Rust's `str::rfind`: the start of the last occurrence of `pattern` in `s`. */
  function RFind(s: string, pattern: string): (r: Option<nat>)
    ensures r.Some? ==> OccursAt(s, pattern, r.value)
    ensures r.Some? ==> forall j :: r.value < j ==> !OccursAt(s, pattern, j)
    ensures r.None? ==> forall j :: !OccursAt(s, pattern, j)
  {
    LastOccurrenceFrom(s, pattern, |s| - |pattern|)
  }

  /** The first occurrence of `pattern` at or after position `k`. */
  function FirstOccurrenceFrom(s: string, pattern: string, k: nat): (r: Option<nat>)
    ensures r.Some? ==> k <= r.value && OccursAt(s, pattern, r.value)
    ensures r.Some? ==> forall j :: k <= j < r.value ==> !OccursAt(s, pattern, j)
    ensures r.None? ==> forall j :: k <= j ==> !OccursAt(s, pattern, j)
    decreases |s| - k
  {
    if k + |pattern| > |s| then None
    else if OccursAt(s, pattern, k) then Some(k)
    else FirstOccurrenceFrom(s, pattern, k + 1)
  }

  /** Rust's `str::find`: the start of the first occurrence of `pattern` in `s`. */
  function Find(s: string, pattern: string): (r: Option<nat>)
    ensures r.Some? ==> OccursAt(s, pattern, r.value)
    ensures r.Some? ==> forall j :: 0 <= j < r.value ==> !OccursAt(s, pattern, j)
    ensures r.None? ==> forall j :: 0 <= j ==> !OccursAt(s, pattern, j)
  {
    FirstOccurrenceFrom(s, pattern, 0)
  }

  /** The first occurrence is the one with no occurrence before it. */
  lemma FindIsFirstOccurrence(s: string, pattern: string, k: nat)
    requires OccursAt(s, pattern, k)
    requires forall j :: 0 <= j < k ==> !OccursAt(s, pattern, j)
    ensures Find(s, pattern) == Some(k)
  {
  }

  /** An occurrence matches the pattern character by character. */
  lemma OccursAtChars(s: string, pattern: string, k: nat, j: nat)
    requires OccursAt(s, pattern, k) && j < |pattern|
    ensures s[k + j] == pattern[j]
  {
    assert s[k..k + |pattern|][j] == s[k + j];
  }

  /** ASCII lower-casing of one character; every other character is unchanged. */
  function AsciiLowerChar(c: char): (d: char)
    ensures 'A' <= c <= 'Z' ==> 'a' <= d <= 'z'
    ensures !('A' <= c <= 'Z') ==> d == c
  {
    if 'A' <= c <= 'Z' then (c as int + 32) as char else c
  }

  function AsciiLower(s: string): (r: string)
    ensures |r| == |s|
    ensures forall i :: 0 <= i < |s| ==> r[i] == AsciiLowerChar(s[i])
  {
    seq(|s|, i requires 0 <= i < |s| => AsciiLowerChar(s[i]))
  }

  /** Rust's `str::eq_ignore_ascii_case`. */
  predicate EqualsIgnoreAsciiCase(a: string, b: string) {
    AsciiLower(a) == AsciiLower(b)
  }

  predicate IsDigit(c: char) {
    '0' <= c <= '9'
  }

  function DigitChar(d: nat): (c: char)
    requires d < 10
    ensures IsDigit(c) && c as int - '0' as int == d
  {
    ('0' as int + d) as char
  }

  /** The decimal digits of `n`, most significant first, with no leading zero. */
  function NatToString(n: nat): (r: string)
    ensures |r| >= 1
    ensures forall i :: 0 <= i < |r| ==> IsDigit(r[i])
    ensures |r| > 1 ==> r[0] != '0'
    decreases n
  {
    if n < 10 then [DigitChar(n)] else NatToString(n / 10) + [DigitChar(n % 10)]
  }

  /** Rust's `Display` and Python's `str` of an integer. */
  function IntToString(i: int): (r: string)
    ensures |r| >= 1
    ensures i < 0 ==> r[0] == '-'
    ensures i >= 0 ==> IsDigit(r[0])
  {
    if i < 0 then "-" + NatToString(-i) else NatToString(i)
  }

  /** The value of a string of decimal digits. */
  function DigitsValue(s: string): (n: nat)
    requires forall i :: 0 <= i < |s| ==> IsDigit(s[i])
  {
    if s == [] then 0
    else
      assert IsDigit(s[|s| - 1]);
      10 * DigitsValue(s[..|s| - 1]) + (s[|s| - 1] as int - '0' as int)
  }

  /** Reading back the digits of `n` gives `n`. */
  lemma {:induction false} DigitsValueOfNatToString(n: nat)
    ensures DigitsValue(NatToString(n)) == n
    decreases n
  {
    if n >= 10 {
      var s := NatToString(n);
      assert s[..|s| - 1] == NatToString(n / 10);
      DigitsValueOfNatToString(n / 10);
    }
  }
}
