/** The Python string built-ins the addon relies on, restricted to what can be
    stated without Unicode tables: ASCII casing for `str.upper()` and
    `str.title()`, the whitespace set of `str.strip()`, and decimal `str(int)`. */
module Text {
  import opened Options

  predicate IsLower(c: char) { 'a' <= c <= 'z' }
  predicate IsUpper(c: char) { 'A' <= c <= 'Z' }
  predicate IsLetter(c: char) { IsLower(c) || IsUpper(c) }

  function ToUpper(c: char): char {
    if IsLower(c) then (c as int - 32) as char else c
  }

  function ToLower(c: char): char {
    if IsUpper(c) then (c as int + 32) as char else c
  }

  /** `s.upper()`: the one string of the same length that agrees with `s` up
      to case and has no lower-case letter. */
  function Upper(s: string): (r: string)
    ensures |r| == |s|
    ensures forall i :: 0 <= i < |r| ==> !IsLower(r[i])
    ensures forall i :: 0 <= i < |r| ==> ToLower(r[i]) == ToLower(s[i])
  {
    seq(|s|, i requires 0 <= i < |s| => ToUpper(s[i]))
  }

  /** `s.title()` scanning left to right: a letter is upper-cased when the
      character before it is not a letter, lower-cased otherwise. */
  function TitleFrom(s: string, afterLetter: bool): (r: string)
    ensures |r| == |s|
    ensures forall i :: 0 <= i < |s| ==> r[i] == TitleChar(s, i, afterLetter)
    decreases |s|
  {
    if |s| == 0 then ""
    else
      var c := s[0];
      var head := if !IsLetter(c) then c else if afterLetter then ToLower(c) else ToUpper(c);
      var tail := TitleFrom(s[1..], IsLetter(c));
      assert forall i :: 1 <= i < |s| ==> TitleChar(s[1..], i - 1, IsLetter(c)) == TitleChar(s, i, afterLetter);
      [head] + tail
  }

  /** What `title()` makes of position `i`, read off the input alone. */
  function TitleChar(s: string, i: nat, afterLetter: bool): char
    requires i < |s|
  {
    var before := if i == 0 then afterLetter else IsLetter(s[i - 1]);
    if !IsLetter(s[i]) then s[i] else if before then ToLower(s[i]) else ToUpper(s[i])
  }

  function Title(s: string): (r: string)
    ensures |r| == |s|
    ensures forall i :: 0 <= i < |s| && !IsLetter(s[i]) ==> r[i] == s[i]
    ensures forall i :: 0 <= i < |s| && IsLetter(s[i]) && (i == 0 || !IsLetter(s[i - 1])) ==> r[i] == ToUpper(s[i])
    ensures forall i :: 0 < i < |s| && IsLetter(s[i]) && IsLetter(s[i - 1]) ==> r[i] == ToLower(s[i])
  {
    TitleFrom(s, false)
  }

  /** Title-casing twice changes nothing more than title-casing once. */
  lemma TitleIdempotent(s: string)
    ensures Title(Title(s)) == Title(s)
  {
    var t := Title(s);
    assert forall i :: 0 <= i < |s| ==> (IsLetter(t[i]) <==> IsLetter(s[i]));
  }

  /** The characters Python's `str.strip()` removes (`str.isspace()`). */
  predicate IsSpace(c: char) {
    || c == ' '
    || '\t' <= c <= '\r'
    || '\U{1C}' <= c <= '\U{1F}'
    || c == '\U{85}'
    || c == '\U{A0}'
    || c == '\U{1680}'
    || '\U{2000}' <= c <= '\U{200A}'
    || c == '\U{2028}' || c == '\U{2029}'
    || c == '\U{202F}' || c == '\U{205F}' || c == '\U{3000}'
  }

  predicate AllSpace(s: string) {
    forall i :: 0 <= i < |s| ==> IsSpace(s[i])
  }

  /** How many whitespace characters `s` starts with. */
  function LeadingSpaces(s: string): (n: nat)
    ensures n <= |s| && AllSpace(s[..n])
    ensures n == |s| || !IsSpace(s[n])
    decreases |s|
  {
    if |s| > 0 && IsSpace(s[0]) then
      var n := 1 + LeadingSpaces(s[1..]);
      assert s[..n] == [s[0]] + s[1..][..n - 1];
      AllSpaceConcat([s[0]], s[1..][..n - 1]);
      n
    else 0
  }

  /** How many whitespace characters `s` ends with. */
  function TrailingSpaces(s: string): (n: nat)
    ensures n <= |s| && AllSpace(s[|s| - n..])
    ensures n == |s| || !IsSpace(s[|s| - n - 1])
    decreases |s|
  {
    if |s| > 0 && IsSpace(s[|s| - 1]) then
      var t := s[..|s| - 1];
      var n := 1 + TrailingSpaces(t);
      assert s[|s| - n..] == t[|t| - (n - 1)..] + [s[|s| - 1]];
      AllSpaceConcat(t[|t| - (n - 1)..], [s[|s| - 1]]);
      n
    else 0
  }

  /** `s.strip()`: `s` without its leading and its trailing whitespace, so
      that neither end of the result is whitespace. */
  function Strip(s: string): (r: string)
    ensures r == "" <==> AllSpace(s)
    ensures r == "" || (!IsSpace(r[0]) && !IsSpace(r[|r| - 1]))
    ensures LeadingSpaces(s) + |r| <= |s| && r == s[LeadingSpaces(s)..LeadingSpaces(s) + |r|]
    ensures AllSpace(s[..LeadingSpaces(s)]) && AllSpace(s[LeadingSpaces(s) + |r|..])
  {
    var i := LeadingSpaces(s);
    var rest := s[i..];
    var j := |rest| - TrailingSpaces(rest);
    StripEnds(s, i, rest, j);
    SliceOfSuffix(s, i, j);
    rest[..j]
  }

  lemma StripEnds(s: string, i: nat, rest: string, j: nat)
    requires i == LeadingSpaces(s) && rest == s[i..] && j == |rest| - TrailingSpaces(rest)
    ensures rest[..j] == "" <==> AllSpace(s)
    ensures rest[..j] == "" || (!IsSpace(rest[0]) && !IsSpace(rest[j - 1]))
    ensures AllSpace(s[i + j..])
  {
    assert s == s[..i] + rest;
    AllSpaceConcat(s[..i], rest);
    assert s[i + j..] == rest[j..];
  }

  lemma SliceOfSuffix(s: string, i: nat, j: nat)
    requires i + j <= |s|
    ensures s[i..][..j] == s[i..i + j]
  {
  }

  lemma AllSpaceConcat(a: string, b: string)
    ensures AllSpace(a + b) <==> AllSpace(a) && AllSpace(b)
  {
    assert forall i :: 0 <= i < |a| ==> (a + b)[i] == a[i];
    assert forall i :: 0 <= i < |b| ==> (a + b)[|a| + i] == b[i];
  }

  predicate IsDigit(c: char) { '0' <= c <= '9' }

  predicate AllDigits(s: string) {
    forall i :: 0 <= i < |s| ==> IsDigit(s[i])
  }

  function DigitChar(d: nat): (c: char)
    requires d < 10
    ensures IsDigit(c) && c as int - '0' as int == d
  {
    ('0' as int + d) as char
  }

  function DigitValue(c: char): (d: nat)
    requires IsDigit(c)
    ensures d < 10 && DigitChar(d) == c
  {
    c as int - '0' as int
  }

  /** The value of a string of decimal digits, most significant first. */
  function DigitsValue(s: string): nat
    requires AllDigits(s)
  {
    if |s| == 0 then 0 else DigitsValue(s[..|s| - 1]) * 10 + DigitValue(s[|s| - 1])
  }

  /** `str(n)` for `n >= 0`: no leading zeros. */
  function NatToString(n: nat): (r: string)
    ensures |r| > 0 && AllDigits(r)
    ensures |r| > 1 ==> r[0] != '0'
    decreases n
  {
    if n < 10 then [DigitChar(n)] else NatToString(n / 10) + [DigitChar(n % 10)]
  }

  lemma {:induction false} NatToStringRoundTrip(n: nat)
    ensures DigitsValue(NatToString(n)) == n
    decreases n
  {
    if n >= 10 {
      var r := NatToString(n);
      assert r[..|r| - 1] == NatToString(n / 10);
      NatToStringRoundTrip(n / 10);
    }
  }

  /** `str(i)` for any Python int. */
  function IntToString(i: int): string {
    if i < 0 then "-" + NatToString(-i) else NatToString(i)
  }

  /** Reads back a string produced by `IntToString`; `None` for anything else
      that is not an optional minus sign followed by digits. */
  function ParseInt(s: string): Option<int> {
    if |s| > 0 && AllDigits(s) then Some(DigitsValue(s))
    else if |s| > 1 && s[0] == '-' && AllDigits(s[1..]) then Some(-(DigitsValue(s[1..]) as int))
    else None
  }

  lemma IntToStringRoundTrip(i: int)
    ensures ParseInt(IntToString(i)) == Some(i)
  {
    if i < 0 {
      NatToStringRoundTrip(-i);
      assert IntToString(i)[1..] == NatToString(-i);
    } else {
      NatToStringRoundTrip(i);
    }
  }

  /** `'%02d' % n`. */
  function TwoDigits(n: nat): (r: string)
    requires n < 100
    ensures |r| == 2 && AllDigits(r) && DigitsValue(r) == n
  {
    var r := [DigitChar(n / 10), DigitChar(n % 10)];
    assert r[..1] == [r[0]] && r[..1][..0] == [];
    assert DigitsValue(r[..1]) == n / 10;
    r
  }

  /** `'%04d' % n`. */
  function FourDigits(n: nat): (r: string)
    requires n < 10000
    ensures |r| == 4 && AllDigits(r) && DigitsValue(r) == n
  {
    var r := TwoDigits(n / 100) + TwoDigits(n % 100);
    assert r[..3] == TwoDigits(n / 100) + [r[2]];
    assert r[..2] == TwoDigits(n / 100);
    r
  }
}
