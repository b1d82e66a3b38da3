/** String helpers with PHP's semantics: trim, rtrim, decimal conversion,
    numeric prefixes, case folding, substring search. Strings are seq<char>. */
module Text {

  /** The characters PHP's trim() removes by default: " \t\n\r\0\x0B". */
  predicate IsTrimSpace(c: char) {
    c == ' ' || c == '\t' || c == '\n' || c == '\r' || c == '\0' || c == '\U{0B}'
  }

  /** The characters PCRE's \s matches: space, \t, \n, \x0B, \f, \r (not \0). */
  predicate IsRegexSpace(c: char) {
    c == ' ' || c == '\t' || c == '\n' || c == '\U{0B}' || c == '\U{0C}' || c == '\r'
  }

  /** The whitespace PHP skips in front of a numeric string. */
  predicate IsNumericLead(c: char) {
    c == ' ' || c == '\t' || c == '\n' || c == '\r' || c == '\U{0B}' || c == '\U{0C}'
  }

  predicate IsDigit(c: char) { '0' <= c <= '9' }

  function DigitValue(c: char): nat
    requires IsDigit(c)
  {
    (c as int - '0' as int) as nat
  }

  function DigitChar(d: nat): (c: char)
    requires d < 10
    ensures IsDigit(c) && DigitValue(c) == d
  {
    ('0' as int + d) as char
  }

  // ---------------------------------------------------------------- trimming

  function TrimLeft(s: string): (r: string)
    ensures |r| <= |s| && r == s[|s| - |r|..]
    ensures r == [] || !IsTrimSpace(r[0])
    ensures forall i :: 0 <= i < |s| - |r| ==> IsTrimSpace(s[i])
  {
    if s != [] && IsTrimSpace(s[0]) then TrimLeft(s[1..]) else s
  }

  function TrimRight(s: string): (r: string)
    ensures |r| <= |s| && r == s[..|r|]
    ensures r == [] || !IsTrimSpace(r[|r| - 1])
    ensures forall i :: |r| <= i < |s| ==> IsTrimSpace(s[i])
  {
    if s != [] && IsTrimSpace(s[|s| - 1]) then TrimRight(s[..|s| - 1]) else s
  }

  /** PHP trim($s): strips leading and trailing trim-spaces. */
  function Trim(s: string): string {
    TrimRight(TrimLeft(s))
  }

  predicate Trimmed(s: string) {
    s == [] || (!IsTrimSpace(s[0]) && !IsTrimSpace(s[|s| - 1]))
  }

  /** The trimmed string is a contiguous piece of the input, has no
      surrounding trim-spaces, and everything removed was a trim-space. */
  lemma TrimSpec(s: string)
    ensures var r := Trim(s);
      && Trimmed(r)
      && exists i :: 0 <= i <= |s| - |r| && OccursAt(s, r, i)
            && (forall j :: 0 <= j < i ==> IsTrimSpace(s[j]))
            && (forall j :: i + |r| <= j < |s| ==> IsTrimSpace(s[j]))
  {
    var l := TrimLeft(s);
    var r := TrimRight(l);
    var i := |s| - |l|;
    assert s[i..i + |r|] == l[..|r|] == r by {
      assert s[i..] == l;
    }
    assert OccursAt(s, r, i);
    forall j | i + |r| <= j < |s| ensures IsTrimSpace(s[j]) {
      assert s[j] == l[j - i];
    }
    if r != [] {
      assert r[0] == l[0];
    }
  }

  lemma TrimIdempotent(s: string)
    ensures Trim(Trim(s)) == Trim(s)
  {
    var r := Trim(s);
    TrimSpec(s);
    TrimOfTrimmed(r);
  }

  lemma TrimOfTrimmed(s: string)
    requires Trimmed(s)
    ensures Trim(s) == s
  {
  }

  /** PHP rtrim($s, $c) for a single character. */
  function RTrimChar(s: string, c: char): (r: string)
    ensures |r| <= |s| && r == s[..|r|]
    ensures r == [] || r[|r| - 1] != c
    ensures forall i :: |r| <= i < |s| ==> s[i] == c
  {
    if s != [] && s[|s| - 1] == c then RTrimChar(s[..|s| - 1], c) else s
  }

  /** PHP ltrim($s, $c) for a single character. */
  function LTrimChar(s: string, c: char): (r: string)
    ensures |r| <= |s| && r == s[|s| - |r|..]
    ensures r == [] || r[0] != c
    ensures forall i :: 0 <= i < |s| - |r| ==> s[i] == c
  {
    if s != [] && s[0] == c then LTrimChar(s[1..], c) else s
  }

  // ------------------------------------------------------ decimal conversion

  /** Decimal digits of n, most significant first, no leading zeros. */
  function NatToString(n: nat): (r: string)
    ensures |r| >= 1
    ensures forall i :: 0 <= i < |r| ==> IsDigit(r[i])
    ensures (r[0] == '0') <==> (n == 0)
    decreases n
  {
    if n < 10 then [DigitChar(n)] else NatToString(n / 10) + [DigitChar(n % 10)]
  }

  /** PHP (string) of an integer. */
  function IntToString(i: int): string {
    if i < 0 then "-" + NatToString(-i) else NatToString(i)
  }

  predicate AllDigits(s: string) {
    forall i :: 0 <= i < |s| ==> IsDigit(s[i])
  }

  /** Value of a string of decimal digits. */
  function DigitsValue(s: string): nat
    requires AllDigits(s)
  {
    if s == [] then 0 else DigitsValue(s[..|s| - 1]) * 10 + DigitValue(s[|s| - 1])
  }

  /** Decimal formatting is inverted by reading the digits back. */
  lemma {:induction false} NatToStringRoundTrip(n: nat)
    ensures DigitsValue(NatToString(n)) == n
    decreases n
  {
    if n >= 10 {
      NatToStringRoundTrip(n / 10);
      var s := NatToString(n);
      assert s[..|s| - 1] == NatToString(n / 10);
    }
  }

  /** Formatting is injective: distinct numbers print differently. */
  lemma NatToStringInjective(m: nat, n: nat)
    requires NatToString(m) == NatToString(n)
    ensures m == n
  {
    NatToStringRoundTrip(m);
    NatToStringRoundTrip(n);
  }

  /** Length of the leading run of digits of s. */
  function DigitRun(s: string): (k: nat)
    ensures k <= |s| && AllDigits(s[..k])
    ensures k < |s| ==> !IsDigit(s[k])
  {
    if s != [] && IsDigit(s[0]) then
      var k := 1 + DigitRun(s[1..]);
      assert s[..k] == [s[0]] + s[1..][..k - 1];
      k
    else 0
  }

  function SkipLead(s: string): (r: string)
    ensures |r| <= |s| && r == s[|s| - |r|..]
  {
    if s != [] && IsNumericLead(s[0]) then SkipLead(s[1..]) else s
  }

  /** PHP (int) of a string: optional leading whitespace, optional sign,
      the leading digits; 0 when there are none. */
  function StringToInt(s: string): int {
    var t := SkipLead(s);
    if t != [] && (t[0] == '-' || t[0] == '+') then
      var u := t[1..];
      var v: int := DigitsValue(u[..DigitRun(u)]);
      if t[0] == '-' then -v else v
    else
      DigitsValue(t[..DigitRun(t)])
  }

  /** Value of a fraction's digits: "25" is 0.25. */
  function FractionValue(s: string): real
    requires AllDigits(s)
  {
    if s == [] then 0.0 else (DigitValue(s[0]) as real + FractionValue(s[1..])) / 10.0
  }

  /** floatval of the unsigned part: digits, optionally '.' and digits. */
  function UnsignedDecimal(t: string): real {
    var k := DigitRun(t);
    var whole := DigitsValue(t[..k]) as real;
    if k < |t| && t[k] == '.' then
      var f := t[k + 1..];
      whole + FractionValue(f[..DigitRun(f)])
    else whole
  }

  /** PHP floatval of a string, as an exact rational: leading whitespace,
      sign, digits and a decimal fraction (exponents are not modelled). */
  function StringToReal(s: string): real {
    var t := SkipLead(s);
    if t != [] && (t[0] == '-' || t[0] == '+') then
      var v := UnsignedDecimal(t[1..]);
      if t[0] == '-' then -v else v
    else UnsignedDecimal(t)
  }

  /** Decimal digits of the fraction f, at most n of them, stopping once
      the remaining fraction is zero. */
  function FractionDigits(f: real, n: nat): (r: string)
    requires 0.0 <= f < 1.0
    ensures |r| <= n && AllDigits(r)
    decreases n
  {
    if n == 0 || f == 0.0 then ""
    else
      var d := (f * 10.0).Floor;
      [DigitChar(d as nat)] + FractionDigits(f * 10.0 - d as real, n - 1)
  }

  /** PHP (string) of a float, for values with a short decimal expansion:
      integral values print without a point, others with up to 17 digits. */
  function RealToString(r: real): string {
    var a := if r < 0.0 then -r else r;
    var ip := a.Floor;
    Decimal(r < 0.0, NatToString(ip), if a == ip as real then "" else "." + FractionDigits(a - ip as real, 17))
  }

  /** A decimal numeral: an optional minus sign, the integral digits, and
      the fractional tail. */
  function Decimal(negative: bool, digits: string, tail: string): string {
    if negative then "-" + (digits + tail) else digits + tail
  }

  /** PHP is_numeric for decimal notation: optional surrounding whitespace,
      optional sign, digits with an optional fraction (or a bare fraction). */
  predicate IsNumeric(s: string) {
    var t := SkipLead(s);
    var u := if t != [] && (t[0] == '-' || t[0] == '+') then t[1..] else t;
    var k := DigitRun(u);
    var rest := u[k..];
    if rest != [] && rest[0] == '.' then
      var f := rest[1..];
      var m := DigitRun(f);
      (k > 0 || m > 0) && OnlyNumericLead(f[m..])
    else
      k > 0 && OnlyNumericLead(rest)
  }

  predicate OnlyNumericLead(s: string) {
    forall i :: 0 <= i < |s| ==> IsNumericLead(s[i])
  }

  /** A numeric string converts to the integer written in it. */
  lemma NumericNatString(n: nat)
    ensures IsNumeric(NatToString(n))
    ensures StringToInt(NatToString(n)) == n
  {
    var s := NatToString(n);
    assert IsDigit(s[0]);
    assert SkipLead(s) == s;
    DigitRunAll(s);
    NatToStringRoundTrip(n);
    assert s[..|s|] == s;
    assert s[|s|..] == [];
  }

  lemma DigitRunAll(s: string)
    requires AllDigits(s)
    ensures DigitRun(s) == |s|
  {
    if s != [] {
      DigitRunAll(s[1..]);
    }
  }

  // ------------------------------------------------------------ searching

  predicate StartsWith(s: string, prefix: string) {
    |prefix| <= |s| && s[..|prefix|] == prefix
  }

  /** PHP strpos($s, $needle) !== false. */
  predicate Contains(s: string, needle: string) {
    exists i :: 0 <= i <= |s| - |needle| && OccursAt(s, needle, i)
  }

  /** needle occurs in s starting at index i. */
  predicate OccursAt(s: string, needle: string, i: int) {
    0 <= i <= |s| - |needle| && s[i..i + |needle|] == needle
  }

  lemma ContainsConcat(a: string, needle: string, b: string)
    ensures Contains(a + needle + b, needle)
  {
    var s := a + needle + b;
    assert s[|a|..|a| + |needle|] == needle;
    assert OccursAt(s, needle, |a|);
  }

  /** PHP strtolower (ASCII letters only, as in PHP 8.2 and later). */
  function ToLower(s: string): (r: string)
    ensures |r| == |s|
    ensures forall i :: 0 <= i < |s| ==> r[i] == LowerChar(s[i])
  {
    if s == [] then [] else [LowerChar(s[0])] + ToLower(s[1..])
  }

  function LowerChar(c: char): char {
    if 'A' <= c <= 'Z' then (c as int + 32) as char else c
  }

  function UpperChar(c: char): char {
    if 'a' <= c <= 'z' then (c as int - 32) as char else c
  }

  /** PHP ucfirst (ASCII letters only). */
  function Ucfirst(s: string): (r: string)
    ensures |r| == |s|
    ensures forall i :: 1 <= i < |s| ==> r[i] == s[i]
    ensures s != [] ==> r[0] == UpperChar(s[0])
  {
    if s == [] then [] else [UpperChar(s[0])] + s[1..]
  }

  /** PHP implode($sep, $parts). */
  function Join(parts: seq<string>, sep: string): string {
    if parts == [] then ""
    else if |parts| == 1 then parts[0]
    else parts[0] + sep + Join(parts[1..], sep)
  }

  /** PHP str_split: one string per character. */
  function Chars(s: string): (r: seq<string>)
    ensures |r| == |s|
    ensures forall i :: 0 <= i < |s| ==> r[i] == [s[i]]
  {
    if s == [] then [] else [[s[0]]] + Chars(s[1..])
  }

  /** preg_replace('/\s+/', ' ', $s): every maximal run of \s becomes one space. */
  function CollapseWhitespace(s: string): string
    decreases |s|
  {
    if s == [] then ""
    else if IsRegexSpace(s[0]) then " " + CollapseWhitespace(SkipRegexSpace(s))
    else [s[0]] + CollapseWhitespace(s[1..])
  }

  function SkipRegexSpace(s: string): (r: string)
    ensures |r| <= |s| && r == s[|s| - |r|..]
    ensures r == [] || !IsRegexSpace(r[0])
    ensures s != [] && IsRegexSpace(s[0]) ==> |r| < |s|
  {
    if s != [] && IsRegexSpace(s[0]) then SkipRegexSpace(s[1..]) else s
  }

  /** No two adjacent \s characters, and every \s is a plain space. */
  predicate SingleSpaced(s: string) {
    (forall i :: 0 <= i < |s| && IsRegexSpace(s[i]) ==> s[i] == ' ')
    && (forall i :: 0 <= i < |s| - 1 ==> !(s[i] == ' ' && s[i + 1] == ' '))
  }

  lemma {:induction false} CollapseWhitespaceSingleSpaced(s: string)
    ensures SingleSpaced(CollapseWhitespace(s))
    ensures CollapseWhitespace(s) != [] && CollapseWhitespace(s)[0] == ' ' ==> s != [] && IsRegexSpace(s[0])
    decreases |s|
  {
    if s == [] {
    } else if IsRegexSpace(s[0]) {
      var t := SkipRegexSpace(s);
      CollapseWhitespaceSingleSpaced(t);
      var r := CollapseWhitespace(t);
      assert CollapseWhitespace(s) == " " + r;
      assert r != [] ==> r[0] != ' ';
    } else {
      CollapseWhitespaceSingleSpaced(s[1..]);
      assert CollapseWhitespace(s) == [s[0]] + CollapseWhitespace(s[1..]);
    }
  }

  /** A piece of a single-spaced string is single-spaced. */
  lemma SingleSpacedPiece(s: string, i: int, n: int)
    requires SingleSpaced(s) && 0 <= i <= i + n <= |s|
    ensures SingleSpaced(s[i..i + n])
  {
    var t := s[i..i + n];
    assert forall k :: 0 <= k < |t| ==> t[k] == s[i + k];
  }

  /** trim keeps a string single-spaced. */
  lemma TrimSingleSpaced(s: string)
    requires SingleSpaced(s)
    ensures SingleSpaced(Trim(s))
  {
    var i := TrimOffset(s);
    SingleSpacedPiece(s, i, |Trim(s)|);
  }

  /** Where the trimmed string starts in the input. */
  lemma TrimOffset(s: string) returns (i: int)
    ensures 0 <= i <= |s| - |Trim(s)| && s[i..i + |Trim(s)|] == Trim(s)
  {
    var l := TrimLeft(s);
    var r := TrimRight(l);
    i := |s| - |l|;
    assert s[i..i + |r|] == l[..|r|] == r by {
      assert s[i..] == l;
    }
  }
}
