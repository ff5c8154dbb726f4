/** The C and Arduino string routines the receiver's parsers and formatters use,
    over strings of single-byte characters: `isspace`, `atoi`/`atol`, `atof`,
    `"%d"`/`"%lu"` formatting, `strtok`, `strstr`, `String::trim` and `String::startsWith`. */
module Text {

  datatype Option<T> = None | Some(value: T)

  /** C `isspace` in the "C" locale. */
  predicate IsSpace(c: char)
  {
    c == ' ' || c == '\t' || c == '\n' || c == '\U{B}' || c == '\U{C}' || c == '\r'
  }

  predicate IsDigit(c: char)
  {
    '0' <= c <= '9'
  }

  predicate AllDigits(s: seq<char>)
  {
    forall k :: 0 <= k < |s| ==> IsDigit(s[k])
  }

  function StartsWith(s: seq<char>, prefix: seq<char>): bool
  {
    |prefix| <= |s| && s[..|prefix|] == prefix
  }

  /** `pat` occurs somewhere in `s`. */
  function Contains(s: seq<char>, pat: seq<char>): bool
    decreases |s|
  {
    StartsWith(s, pat) || (s != [] && Contains(s[1..], pat))
  }

  /** C `strstr(s, pat) != NULL`, which Arduino `String::indexOf(pat) >= 0` calls
      on the string's buffer: the search ends at the first NUL byte of `s`. */
  function CContains(s: seq<char>, pat: seq<char>): bool
    decreases |s|
  {
    if s == [] || s[0] == '\0' then pat == [] else StartsWith(s, pat) || CContains(s[1..], pat)
  }

  /** For a pattern without NUL bytes, the C search finds exactly the occurrences in
      the part of `s` before its first NUL. */
  lemma {:induction false} CContainsBeforeNul(s: seq<char>, pat: seq<char>)
    requires '\0' !in pat
    ensures CContains(s, pat) == Contains(UpToNul(s), pat)
    decreases |s|
  {
    var t := UpToNul(s);
    if s != [] && s[0] != '\0' {
      CContainsBeforeNul(s[1..], pat);
      assert t[1..] == UpToNul(s[1..]);
      if StartsWith(s, pat) {
        assert t[..|pat|] == s[..|pat|];
      }
      if StartsWith(t, pat) {
        assert s[..|pat|] == t[..|pat|];
      }
    }
  }

  /** `pat` can only be found in a C string at least as long. */
  lemma {:induction false} CContainsNeedsRoom(s: seq<char>, pat: seq<char>)
    ensures CContains(s, pat) && pat != [] ==> |pat| <= |s|
    decreases |s|
  {
    if s != [] && s[0] != '\0' {
      CContainsNeedsRoom(s[1..], pat);
    }
  }

  /** What is left of `s` once its leading white space is skipped. */
  function DropSpaces(s: seq<char>): (r: seq<char>)
    ensures |r| <= |s| && r == s[|s| - |r|..]
    ensures r == [] || !IsSpace(r[0])
  {
    if s != [] && IsSpace(s[0]) then DropSpaces(s[1..]) else s
  }

  /** `s` without its trailing white space. */
  function DropTrailingSpaces(s: seq<char>): (r: seq<char>)
    ensures |r| <= |s| && r == s[..|r|]
    ensures r == [] || !IsSpace(r[|r| - 1])
  {
    if s != [] && IsSpace(s[|s| - 1]) then DropTrailingSpaces(s[..|s| - 1]) else s
  }

  /** Arduino `String::trim`: white space removed from both ends. */
  function Trim(s: seq<char>): seq<char>
  {
    DropTrailingSpaces(DropSpaces(s))
  }

  /** Trimming keeps out any character the text did not hold. */
  lemma TrimKeepsOut(s: seq<char>, c: char)
    requires c !in s
    ensures c !in Trim(s)
  {
    var d := DropSpaces(s);
    assert d == s[|s| - |d|..];
    assert c !in d;
    var t := DropTrailingSpaces(d);
    assert t == d[..|t|];
  }

  /** The number of decimal digits `s` begins with. */
  function DigitRun(s: seq<char>): (n: nat)
    ensures n <= |s| && AllDigits(s[..n])
    ensures n < |s| ==> !IsDigit(s[n])
  {
    if s != [] && IsDigit(s[0]) then 1 + DigitRun(s[1..]) else 0
  }

  /** The value of a string of decimal digits. */
  function DigitsValue(d: seq<char>): nat
    requires AllDigits(d)
  {
    if d == [] then 0 else DigitsValue(d[..|d| - 1]) * 10 + (d[|d| - 1] as int - '0' as int)
  }

  /** C `atoi`/`atol` (and so Arduino `String::toInt`): leading white space, an
      optional sign, then as many digits as follow; 0 when there are none. The
      result is unbounded: inputs outside the C type's range are undefined there. */
  function Atoi(s: seq<char>): int
  {
    var t := DropSpaces(s);
    if t != [] && (t[0] == '-' || t[0] == '+') then
      var m: int := DigitsValue(t[1..][..DigitRun(t[1..])]);
      if t[0] == '-' then -m else m
    else
      DigitsValue(t[..DigitRun(t)])
  }

  function Pow10(n: nat): (r: nat)
    ensures r >= 1
  {
    if n == 0 then 1 else 10 * Pow10(n - 1)
  }

  /** C `atof` (and Arduino `String::toFloat`) on fixed-point text: leading white
      space, an optional sign, integer digits, then optionally '.' and fraction
      digits; the value is exact (no float rounding). */
  function Atof(s: seq<char>): real
  {
    var t := DropSpaces(s);
    if t != [] && t[0] == '-' then -FixedValue(t[1..])
    else if t != [] && t[0] == '+' then FixedValue(t[1..])
    else FixedValue(t)
  }

  /** The integer digits at the head of `u` and the fraction after them. */
  function FixedValue(u: seq<char>): real
  {
    DigitsValue(u[..DigitRun(u)]) as real + FractionValue(u[DigitRun(u)..])
  }

  /** '.' and the digits following it; 0 when there is no '.'. */
  function FractionValue(rest: seq<char>): real
  {
    if rest != [] && rest[0] == '.' then
      var n := DigitRun(rest[1..]);
      DigitsValue(rest[1..][..n]) as real / Pow10(n) as real
    else 0.0
  }

  function DigitChar(d: nat): (c: char)
    requires d < 10
    ensures IsDigit(c) && c as int - '0' as int == d
  {
    ('0' as int + d) as char
  }

  /** `"%lu"`: the decimal digits of `n`, without leading zeros. */
  function NatToDecimal(n: nat): (r: seq<char>)
    ensures |r| >= 1 && AllDigits(r)
  {
    if n < 10 then [DigitChar(n)] else NatToDecimal(n / 10) + [DigitChar(n % 10)]
  }

  /** `"%d"` and Arduino `String(int)`: a minus sign for negative values, then the digits. */
  function IntToDecimal(i: int): (r: seq<char>)
    ensures |r| >= 1
  {
    if i < 0 then ['-'] + NatToDecimal(-i) else NatToDecimal(i)
  }

  lemma {:induction false} DigitsOfDecimal(n: nat)
    ensures DigitsValue(NatToDecimal(n)) == n
  {
    if n >= 10 {
      DigitsOfDecimal(n / 10);
      var d := NatToDecimal(n);
      assert d[..|d| - 1] == NatToDecimal(n / 10);
    }
  }

  lemma {:induction false} DigitRunOfDigits(s: seq<char>)
    requires AllDigits(s)
    ensures DigitRun(s) == |s|
  {
    if s != [] {
      DigitRunOfDigits(s[1..]);
    }
  }

  /** A run of digits ends where the first non-digit stands. */
  lemma {:induction false} DigitRunStops(d: seq<char>, rest: seq<char>)
    requires AllDigits(d)
    requires rest == [] || !IsDigit(rest[0])
    ensures DigitRun(d + rest) == |d|
  {
    if d != [] {
      assert (d + rest)[1..] == d[1..] + rest;
      DigitRunStops(d[1..], rest);
    }
  }

  /** `atof` on fixed-point text `<whole>.<frac>` gives its exact value. */
  lemma AtofOfFixed(whole: seq<char>, frac: seq<char>)
    requires whole != [] && AllDigits(whole) && AllDigits(frac)
    ensures Atof(whole + ['.'] + frac) == DigitsValue(whole) as real + DigitsValue(frac) as real / Pow10(|frac|) as real
  {
    var s := whole + ['.'] + frac;
    assert !IsSpace(s[0]) && s[0] != '-' && s[0] != '+';
    assert DropSpaces(s) == s;
    assert Atof(s) == FixedValue(s);
    FixedValueOf(whole, frac);
  }

  lemma FixedValueOf(whole: seq<char>, frac: seq<char>)
    requires AllDigits(whole) && AllDigits(frac)
    ensures FixedValue(whole + ['.'] + frac) == DigitsValue(whole) as real + DigitsValue(frac) as real / Pow10(|frac|) as real
  {
    var s := whole + ['.'] + frac;
    assert s == whole + (['.'] + frac);
    DigitRunStops(whole, ['.'] + frac);
    assert s[..|whole|] == whole;
    assert s[|whole|..] == ['.'] + frac;
    FractionValueOf(frac);
  }

  lemma FractionValueOf(frac: seq<char>)
    requires AllDigits(frac)
    ensures FractionValue(['.'] + frac) == DigitsValue(frac) as real / Pow10(|frac|) as real
  {
    assert (['.'] + frac)[1..] == frac;
    DigitRunOfDigits(frac);
    assert frac[..|frac|] == frac;
  }

  /** A run of digits reads back as its value, with or without a minus sign. */
  lemma AtoiOfDigits(d: seq<char>)
    requires d != [] && AllDigits(d)
    ensures Atoi(d) == DigitsValue(d)
    ensures Atoi(['-'] + d) == 0 - DigitsValue(d)
  {
    DigitRunOfDigits(d);
    assert d[..|d|] == d;
    assert !IsSpace(d[0]) && d[0] != '-' && d[0] != '+';
    assert DropSpaces(d) == d;
    var m := ['-'] + d;
    assert DropSpaces(m) == m;
    assert m[1..] == d;
  }

  /** Reading back what `"%lu"` printed gives the number printed. */
  lemma AtoiOfNatDecimal(n: nat)
    ensures Atoi(NatToDecimal(n)) == n
  {
    DigitsOfDecimal(n);
    AtoiOfDigits(NatToDecimal(n));
  }

  /** Reading back what `"%d"` printed gives the number printed. */
  lemma AtoiOfDecimal(i: int)
    ensures Atoi(IntToDecimal(i)) == i
  {
    var n: nat := if i < 0 then -i else i;
    DigitsOfDecimal(n);
    AtoiOfDigits(NatToDecimal(n));
  }

  /** The C string a `String` yields through `toCharArray` into a buffer of `size`
      bytes: at most `size - 1` characters, and nothing from an embedded NUL on. */
  function CBuffer(s: seq<char>, size: nat): (r: seq<char>)
    requires size >= 1
    ensures |r| <= size - 1 && '\0' !in r
    ensures '\0' !in s && |s| < size ==> r == s
    ensures forall n :: 0 <= n < size && n <= |s| && '\0' !in s[..n] ==> n <= |r| && r[..n] == s[..n]
  {
    UpToNul(if |s| < size then s else s[..size - 1])
  }

  function UpToNul(s: seq<char>): (r: seq<char>)
    ensures |r| <= |s| && r == s[..|r|] && '\0' !in r
    ensures |r| < |s| ==> s[|r|] == '\0'
    ensures '\0' !in s ==> r == s
  {
    if s == [] || s[0] == '\0' then [] else [s[0]] + UpToNul(s[1..])
  }

  /** How many delimiters `s` begins with. */
  function SkipCount(s: seq<char>, delims: set<char>): (n: nat)
    ensures n <= |s|
    ensures forall k :: 0 <= k < n ==> s[k] in delims
    ensures n < |s| ==> s[n] !in delims
  {
    if s != [] && s[0] in delims then 1 + SkipCount(s[1..], delims) else 0
  }

  /** How many characters of `s` come before its first delimiter. */
  function SpanUntil(s: seq<char>, delims: set<char>): (n: nat)
    ensures n <= |s|
    ensures forall k :: 0 <= k < n ==> s[k] !in delims
    ensures n < |s| ==> s[n] in delims
  {
    if s == [] || s[0] in delims then 0 else 1 + SpanUntil(s[1..], delims)
  }

  /** One call of C `strtok` on the remaining text `s`: the next token (None for
      NULL) and the text the following call continues from. Leading delimiters are
      skipped, so consecutive delimiters never produce an empty token; the
      delimiter that ends a token is consumed. */
  function Strtok(s: seq<char>, delims: set<char>): (r: (Option<seq<char>>, seq<char>))
    ensures |r.1| <= |s|
    ensures r.0.Some? ==> r.0.value != [] && forall k :: 0 <= k < |r.0.value| ==> r.0.value[k] !in delims
    ensures r.0.None? <==> forall k :: 0 <= k < |s| ==> s[k] in delims
    ensures r.0.None? ==> r.1 == []
  {
    var i := SkipCount(s, delims);
    if i == |s| then (None, [])
    else
      var n := SpanUntil(s[i..], delims);
      assert n >= 1 by {
        assert s[i..][0] == s[i];
      }
      (Some(s[i..][..n]), if i + n < |s| then s[i + n + 1..] else [])
  }

  /** A token followed by a delimiter: `strtok` returns the token and continues
      after the delimiter. */
  lemma StrtokToken(tok: seq<char>, sep: char, rest: seq<char>, delims: set<char>)
    requires tok != [] && forall k :: 0 <= k < |tok| ==> tok[k] !in delims
    requires sep in delims
    ensures Strtok(tok + [sep] + rest, delims) == (Some(tok), rest)
  {
    var s := tok + [sep] + rest;
    assert s[0] == tok[0];
    assert SkipCount(s, delims) == 0;
    assert s[0..] == s;
    SpanOf(tok, s, delims);
    assert s[..|tok|] == tok;
    assert s[|tok| + 1..] == rest;
  }

  /** The last token, running to the end of the text. */
  lemma StrtokLast(tok: seq<char>, delims: set<char>)
    requires tok != [] && forall k :: 0 <= k < |tok| ==> tok[k] !in delims
    ensures Strtok(tok, delims) == (Some(tok), [])
  {
    assert SkipCount(tok, delims) == 0;
    assert tok[0..] == tok;
    SpanOf(tok, tok, delims);
    assert tok[..|tok|] == tok;
  }

  lemma {:induction false} SpanOf(tok: seq<char>, s: seq<char>, delims: set<char>)
    requires StartsWith(s, tok)
    requires forall k :: 0 <= k < |tok| ==> tok[k] !in delims
    requires |tok| < |s| ==> s[|tok|] in delims
    ensures SpanUntil(s, delims) == |tok|
  {
    if tok != [] {
      SpanOf(tok[1..], s[1..], delims);
    }
  }
}
