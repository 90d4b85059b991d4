/** The pieces of Go's `strings`, `strconv` and `fmt` packages the adapter
    relies on: suffix tests, substring search, and decimal integers. */
module Text {
  import opened Wrappers

  const Int64Min: int := -0x8000_0000_0000_0000
  const Int64Max: int := 0x7fff_ffff_ffff_ffff

  // ---------------------------------------------------------------------------
  // Suffixes and substrings
  // ---------------------------------------------------------------------------

  /** strings.HasSuffix */
  predicate HasSuffix(s: string, suffix: string) {
    |suffix| <= |s| && s[|s| - |suffix|..] == suffix
  }

  /** strings.TrimSuffix: drops one trailing `suffix` when present. */
  function TrimSuffix(s: string, suffix: string): (r: string)
    ensures HasSuffix(s, suffix) ==> r + suffix == s
    ensures !HasSuffix(s, suffix) ==> r == s
  {
    if HasSuffix(s, suffix) then s[..|s| - |suffix|] else s
  }

  lemma TrimAppended(s: string, suffix: string)
    ensures HasSuffix(s + suffix, suffix)
    ensures TrimSuffix(s + suffix, suffix) == s
  {
    assert (s + suffix)[|s|..] == suffix;
    assert (s + suffix)[..|s|] == s;
  }

  /** `t` occurs in `s` at index `i`. */
  ghost predicate OccursAt(s: string, t: string, i: int) {
    0 <= i && i + |t| <= |s| && s[i..i + |t|] == t
  }

  lemma ShiftOccurrence(s: string, t: string)
    requires s != []
    ensures (exists i :: OccursAt(s[1..], t, i)) <==> (exists i :: 1 <= i && OccursAt(s, t, i))
  {
    if i :| OccursAt(s[1..], t, i) {
      assert s[1..][i..i + |t|] == s[i + 1..i + 1 + |t|];
      assert OccursAt(s, t, i + 1);
    }
    if i :| 1 <= i && OccursAt(s, t, i) {
      assert s[1..][i - 1..i - 1 + |t|] == s[i..i + |t|];
      assert OccursAt(s[1..], t, i - 1);
    }
  }

  /** strings.Contains: `t` occurs somewhere inside `s`. */
  function Contains(s: string, t: string): (r: bool)
    ensures r <==> exists i :: OccursAt(s, t, i)
    decreases |s|
  {
    if |s| < |t| then false
    else if s[..|t|] == t then assert OccursAt(s, t, 0); true
    else
      ShiftOccurrence(s, t);
      Contains(s[1..], t)
  }

  // ---------------------------------------------------------------------------
  // Decimal numerals
  // ---------------------------------------------------------------------------

  predicate IsDigit(c: char) {
    '0' <= c <= '9'
  }

  predicate AllDigits(s: string) {
    forall i :: 0 <= i < |s| ==> IsDigit(s[i])
  }

  function DigitValue(c: char): nat
    requires IsDigit(c)
  {
    c as int - '0' as int
  }

  function DigitChar(d: nat): (c: char)
    requires d < 10
    ensures IsDigit(c) && DigitValue(c) == d
  {
    ('0' as int + d) as char
  }

  /** The number a decimal numeral denotes, most significant digit first. */
  function ValueOf(s: string): nat
    requires AllDigits(s)
    decreases |s|
  {
    if s == [] then 0 else ValueOf(s[..|s| - 1]) * 10 + DigitValue(s[|s| - 1])
  }

  /** Base-10 rendering of a natural number: a non-empty digit string without
      leading zeros that denotes `n`. */
  function FormatNat(n: nat): (r: string)
    ensures r != [] && AllDigits(r)
    ensures ValueOf(r) == n
    ensures r[0] == '0' ==> n == 0
    decreases n
  {
    if n < 10 then [DigitChar(n)]
    else
      var r := FormatNat(n / 10) + [DigitChar(n % 10)];
      assert r[..|r| - 1] == FormatNat(n / 10);
      r
  }

  /** strconv.FormatInt(n, 10) and fmt's "%d": a minus sign before negatives. */
  function FormatInt(n: int): string {
    if n < 0 then "-" + FormatNat(-n) else FormatNat(n)
  }

  /** The characters fmt's scanner treats as white space. */
  predicate IsSpace(c: char) {
    || '\t' <= c <= '\r' || c == ' ' || c == '\U{0085}' || c == '\U{00A0}' || c == '\U{1680}'
    || '\U{2000}' <= c <= '\U{200A}' || c == '\U{2028}' || c == '\U{2029}' || c == '\U{202F}'
    || c == '\U{205F}' || c == '\U{3000}'
  }

  /** White space fmt.Sscanf skips before a number: any but a newline, which
      ends the scan with an error instead. */
  predicate IsBlank(c: char) {
    IsSpace(c) && c != '\n'
  }

  /** Length of the longest prefix of `s` made of blanks. */
  function BlankRun(s: string): (n: nat)
    ensures n <= |s|
    ensures forall i :: 0 <= i < n ==> IsBlank(s[i])
    ensures n < |s| ==> !IsBlank(s[n])
    decreases |s|
  {
    if s != [] && IsBlank(s[0]) then
      var n := 1 + BlankRun(s[1..]);
      assert forall i :: 1 <= i < n ==> s[i] == s[1..][i - 1];
      n
    else 0
  }

  /** Length of the longest prefix of `s` made of decimal digits. */
  function DigitRun(s: string): (n: nat)
    ensures n <= |s|
    ensures forall i :: 0 <= i < n ==> IsDigit(s[i])
    ensures n < |s| ==> !IsDigit(s[n])
    decreases |s|
  {
    if s != [] && IsDigit(s[0]) then
      var n := 1 + DigitRun(s[1..]);
      assert forall i :: 1 <= i < n ==> s[i] == s[1..][i - 1];
      n
    else 0
  }

  /** Whether `s` starts with a sign character. */
  predicate Signed(s: string) {
    |s| > 0 && (s[0] == '+' || s[0] == '-')
  }

  /** `s` without its leading sign character, if any. */
  function Unsigned(s: string): string {
    if Signed(s) then s[1..] else s
  }

  /** The value of the digits `d` under the sign `s` starts with, if any. */
  function SignedValue(s: string, d: string): int
    requires AllDigits(d)
  {
    if Signed(s) && s[0] == '-' then -(ValueOf(d) as int) else ValueOf(d)
  }

  /** The value a sign string ("", "+" or "-") gives the digits `d`. */
  function SignOf(sign: string, d: string): int
    requires AllDigits(d)
  {
    if sign == "-" then -(ValueOf(d) as int) else ValueOf(d)
  }

  predicate InInt64(v: int) {
    Int64Min <= v <= Int64Max
  }

  /** Where fmt's "%d" scanner starts reading: `s` after its leading blanks. */
  function ScanStart(s: string): string {
    s[BlankRun(s)..]
  }

  /** The digits "%d" takes: the run that follows the optional sign at ScanStart. */
  function ScanDigits(s: string): (d: string)
    ensures AllDigits(d)
  {
    var u := Unsigned(ScanStart(s));
    u[..DigitRun(u)]
  }

  /** fmt.Sscanf(s, "%d", &v): skips blanks, takes an optional sign and then
      every decimal digit, and ignores whatever follows. None when no digit
      follows the sign (a newline before the number included) or when the
      value is outside the 64-bit range; the caller's variable then keeps its
      previous value. */
  function ScanInt(s: string): (r: Option<int>)
    ensures r.Some? <==> ScanDigits(s) != [] && InInt64(SignedValue(ScanStart(s), ScanDigits(s)))
    ensures r.Some? ==> r.value == SignedValue(ScanStart(s), ScanDigits(s))
  {
    var digits := ScanDigits(s);
    if digits == [] then None
    else
      var v := SignedValue(ScanStart(s), digits);
      if InInt64(v) then Some(v) else None
  }

  /** strconv.ParseFloat restricted to decimal integers: an optional sign and
      then nothing but digits. */
  function ParseDecimal(s: string): (r: Option<int>)
    ensures r.Some? <==> Unsigned(s) != [] && AllDigits(Unsigned(s))
    ensures r.Some? ==> r.value == SignedValue(s, Unsigned(s))
  {
    var body := Unsigned(s);
    if body == [] || !AllDigits(body) then None
    else if Signed(s) && s[0] == '-' then Some(-(ValueOf(body) as int))
    else Some(ValueOf(body) as int)
  }

  lemma {:induction false} BlankRunOfBlanks(b: string, rest: string)
    requires forall i :: 0 <= i < |b| ==> IsBlank(b[i])
    requires rest == [] || !IsBlank(rest[0])
    ensures BlankRun(b + rest) == |b|
    decreases |b|
  {
    if b != [] {
      assert (b + rest)[1..] == b[1..] + rest;
      BlankRunOfBlanks(b[1..], rest);
    } else {
      assert b + rest == rest;
    }
  }

  lemma {:induction false} DigitRunOfDigits(d: string, rest: string)
    requires AllDigits(d)
    requires rest == [] || !IsDigit(rest[0])
    ensures DigitRun(d + rest) == |d|
    decreases |d|
  {
    if d != [] {
      assert (d + rest)[1..] == d[1..] + rest;
      DigitRunOfDigits(d[1..], rest);
    } else {
      assert d + rest == rest;
    }
  }

  /** How "%d" reads any text made of blanks, an optional sign, digits and
      then anything that is not a digit: the digits' value under the sign,
      whatever the leading zeros, when it fits in 64 bits. */
  lemma ScanIntReads(blanks: string, sign: string, d: string, rest: string)
    requires forall i :: 0 <= i < |blanks| ==> IsBlank(blanks[i])
    requires sign == "" || sign == "+" || sign == "-"
    requires d != [] && AllDigits(d)
    requires rest == [] || !IsDigit(rest[0])
    ensures ScanInt(blanks + sign + d + rest) == if InInt64(SignOf(sign, d)) then Some(SignOf(sign, d)) else None
  {
    var s := blanks + sign + d + rest;
    SkipsBlanks(blanks, sign + d + rest);
    assert s == blanks + (sign + d + rest);
    ReadsSignedDigits(sign, d, rest);
  }

  /** ScanStart drops exactly the leading blanks when a sign or a digit follows them. */
  lemma SkipsBlanks(blanks: string, x: string)
    requires forall i :: 0 <= i < |blanks| ==> IsBlank(blanks[i])
    requires x != [] && (x[0] == '+' || x[0] == '-' || IsDigit(x[0]))
    ensures ScanStart(blanks + x) == x
  {
    BlankRunOfBlanks(blanks, x);
    assert (blanks + x)[|blanks|..] == x;
  }

  /** The sign and digits at ScanStart determine the digits scanned and their value. */
  lemma ReadsSignedDigits(sign: string, d: string, rest: string)
    requires sign == "" || sign == "+" || sign == "-"
    requires d != [] && AllDigits(d)
    requires rest == [] || !IsDigit(rest[0])
    ensures var x := sign + d + rest;
            x != [] && (x[0] == '+' || x[0] == '-' || IsDigit(x[0]))
            && Unsigned(x)[..DigitRun(Unsigned(x))] == d
            && SignedValue(x, d) == SignOf(sign, d)
  {
    var x := sign + d + rest;
    assert x[0] == (if sign == "" then d[0] else sign[0]);
    assert Unsigned(x) == d + rest by {
      if sign == "" {
        assert x == d + rest;
      }
    }
    DigitRunOfDigits(d, rest);
    assert (d + rest)[..|d|] == d;
  }

  /** Scanning a rendered integer gives it back, whatever non-digit text
      follows it. */
  lemma ScanFormatted(n: int, rest: string)
    requires InInt64(n)
    requires rest == [] || !IsDigit(rest[0])
    ensures ScanInt(FormatInt(n) + rest) == Some(n)
  {
    var d := FormatNat(if n < 0 then -n else n);
    var sign := if n < 0 then "-" else "";
    FormatIntParts(n);
    assert FormatInt(n) + rest == [] + sign + d + rest;
    ScanIntReads([], sign, d, rest);
  }

  /** A rendered integer is its sign followed by the digits of its magnitude. */
  lemma FormatIntParts(n: int)
    ensures var d := FormatNat(if n < 0 then -n else n);
            var sign := if n < 0 then "-" else "";
            FormatInt(n) == sign + d && SignOf(sign, d) == n
  {
  }

  /** How the restricted ParseFloat reads an optional sign followed by
      digits: their value under the sign, whatever the leading zeros. */
  lemma ParseDecimalReads(sign: string, d: string)
    requires sign == "" || sign == "+" || sign == "-"
    requires d != [] && AllDigits(d)
    ensures ParseDecimal(sign + d) == Some(SignOf(sign, d))
  {
    if sign == "" {
      assert sign + d == d;
    } else {
      assert Unsigned(sign + d) == d;
    }
  }

  /** Parsing a rendered natural number gives it back. */
  lemma ParseFormatted(n: nat)
    ensures ParseDecimal(FormatNat(n)) == Some(n)
  {
    assert FormatNat(n) == "" + FormatNat(n);
    ParseDecimalReads("", FormatNat(n));
  }
}
