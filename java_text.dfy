/** The few pieces of java.lang.String and org.springframework.util.StringUtils
    that the tasklet and its options rely on, over Dafny strings. */
module JavaText {
  import opened Wrappers

  /** Character.isWhitespace, restricted to ASCII: TAB, LF, VT, FF, CR, the
      four information separators U+001C..U+001F, and SPACE. */
  predicate IsWhitespace(c: char): (r: bool) {
    c == ' ' || '\t' <= c <= '\r' || '\U{1C}' <= c <= '\U{1F}'
  }

  /** StringUtils.containsText: some character is not whitespace. */
  function ContainsText(s: string): (r: bool)
    ensures r <==> exists i :: 0 <= i < |s| && !IsWhitespace(s[i])
  {
    if s == [] then false
    else if !IsWhitespace(s[0]) then true
    else
      var rest := ContainsText(s[1..]);
      assert forall i :: 1 <= i < |s| ==> s[i] == s[1..][i - 1];
      rest
  }

  /** StringUtils.hasText: not null, and holding a non-whitespace character. */
  function HasText(s: Option<string>): (r: bool)
    ensures r <==> s.Some? && exists i :: 0 <= i < |s.value| && !IsWhitespace(s.value[i])
  {
    s.Some? && ContainsText(s.value)
  }

  /** Every whitespace character in the sense of Character.isWhitespace is one
      that String.trim removes, but not the other way round. */
  lemma WhitespaceIsTrimmed(c: char)
    ensures IsWhitespace(c) ==> c <= ' '
    ensures !IsWhitespace('\0') && '\0' <= ' '
  {
  }

  /** String.trim, first half: drop every leading character at or below U+0020. */
  function TrimLeading(s: string): (r: string) {
    if s != [] && s[0] <= ' ' then TrimLeading(s[1..]) else s
  }

  /** What TrimLeading keeps is a suffix of s that does not start with a
      character at or below U+0020, and all it drops is at or below U+0020. */
  lemma {:induction false} TrimLeadingSpec(s: string)
    ensures var r := TrimLeading(s);
      |r| <= |s| && r == s[|s| - |r|..] &&
      (r == [] || r[0] > ' ') &&
      forall k :: 0 <= k < |s| - |r| ==> s[k] <= ' '
  {
    if s != [] && s[0] <= ' ' {
      TrimLeadingSpec(s[1..]);
      assert forall k :: 1 <= k < |s| ==> s[k] == s[1..][k - 1];
    }
  }

  /** String.trim, second half: drop every trailing character at or below U+0020. */
  function TrimTrailing(s: string): (r: string) {
    if s != [] && s[|s| - 1] <= ' ' then TrimTrailing(s[..|s| - 1]) else s
  }

  /** What TrimTrailing keeps is a prefix of s that does not end with a
      character at or below U+0020, and all it drops is at or below U+0020. */
  lemma {:induction false} TrimTrailingSpec(s: string)
    ensures var r := TrimTrailing(s);
      |r| <= |s| && r == s[..|r|] &&
      (r == [] || r[|r| - 1] > ' ') &&
      forall k :: |r| <= k < |s| ==> s[k] <= ' '
  {
    if s != [] && s[|s| - 1] <= ' ' {
      TrimTrailingSpec(s[..|s| - 1]);
      assert forall k :: 0 <= k < |s| - 1 ==> s[k] == s[..|s| - 1][k];
    }
  }

  /** String.trim: leading and then trailing characters at or below U+0020 removed. */
  function Trim(s: string): (r: string) {
    TrimTrailing(TrimLeading(s))
  }

  /** Trim keeps exactly an infix s[lo..lo + |r|] that neither starts nor ends
      with a character at or below U+0020, where lo is the number of leading
      such characters, and everything it cuts off on either side is one. */
  lemma TrimSpec(s: string)
    ensures var lo, r := |s| - |TrimLeading(s)|, Trim(s);
      0 <= lo && lo + |r| <= |s| && r == s[lo..lo + |r|] &&
      (r == [] || (r[0] > ' ' && r[|r| - 1] > ' ')) &&
      (forall k :: 0 <= k < lo ==> s[k] <= ' ') &&
      (forall k :: lo + |r| <= k < |s| ==> s[k] <= ' ')
  {
    var t := TrimLeading(s);
    var r := TrimTrailing(t);
    var lo := |s| - |t|;
    TrimLeadingSpec(s);
    TrimTrailingSpec(t);
    assert t == s[lo..];
    assert r == t[..|r|];
    forall k | lo + |r| <= k < |s|
      ensures s[k] <= ' '
    {
      assert s[k] == t[k - lo];
    }
  }

  /** Trimming a string that is already trimmed changes nothing. */
  lemma TrimIdempotent(s: string)
    ensures Trim(Trim(s)) == Trim(s)
  {
    TrimSpec(s);
    var r := Trim(s);
    if r != [] {
      assert TrimLeading(r) == r;
      assert TrimTrailing(r) == r;
    }
  }

  /** Character.toUpperCase, restricted to ASCII letters. */
  function UpperChar(c: char): (u: char) {
    if 'a' <= c <= 'z' then (c as int - 32) as char else c
  }

  /** String.toUpperCase, restricted to ASCII letters: one character for one. */
  function ToUpperCase(s: string): (u: string) {
    seq(|s|, i requires 0 <= i < |s| => UpperChar(s[i]))
  }

  /** String.startsWith. */
  predicate StartsWith(s: string, prefix: string): (r: bool) {
    prefix <= s
  }

  predicate IsDigit(c: char): (r: bool) {
    '0' <= c <= '9'
  }

  function DigitChar(d: nat): (c: char)
    requires d < 10
    ensures IsDigit(c) && c as int - '0' as int == d
  {
    ('0' as int + d) as char
  }

  /** The decimal text Java's string concatenation writes for a non-negative
      int: at least one digit, and no leading zero unless the number is 0. */
  function NatToString(n: nat): (s: string)
    ensures |s| > 0 && forall i :: 0 <= i < |s| ==> IsDigit(s[i])
    ensures s[0] == '0' ==> n == 0
  {
    if n < 10 then [DigitChar(n)] else NatToString(n / 10) + [DigitChar(n % 10)]
  }

  /** The number a string of decimal digits denotes. */
  function DecimalValue(s: string): (n: nat)
    requires forall i :: 0 <= i < |s| ==> IsDigit(s[i])
  {
    if s == [] then 0
    else
      assert IsDigit(s[|s| - 1]);
      DecimalValue(s[..|s| - 1]) * 10 + (s[|s| - 1] as int - '0' as int)
  }

  /** Reading back the digits NatToString writes gives the number again. */
  lemma {:induction false} DecimalRoundTrip(n: nat)
    ensures DecimalValue(NatToString(n)) == n
  {
    var s := NatToString(n);
    if n >= 10 {
      DecimalRoundTrip(n / 10);
      assert s[..|s| - 1] == NatToString(n / 10);
    }
  }

  /** Two numbers are written alike only if they are equal. */
  lemma NatToStringInjective(m: nat, n: nat)
    requires NatToString(m) == NatToString(n)
    ensures m == n
  {
    DecimalRoundTrip(m);
    DecimalRoundTrip(n);
  }
}
