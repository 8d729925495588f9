// Character and string helpers shared by every module: the subset of the C
// library (isspace, strcasecmp, atoi, strsep, strstr, "%03d") that the modules
// rely on, stated over ASCII.

module Text {

  datatype Option<T> = None | Some(value: T)

  /** An octet of audio or of a C string. */
  type byte = x: int | 0 <= x < 256

  /** The character that ends a C string. */
  const NUL: char := '\0'

  /** C `isspace` in the "C" locale: space, \t, \n, \v, \f and \r. */
  predicate IsSpace(c: char) {
    c == ' ' || (9 <= c as int <= 13)
  }

  /** The two characters that `trimstr` strips. */
  predicate IsBlank(c: char) {
    c == ' ' || c == '\t'
  }

  predicate IsDigit(c: char) {
    '0' <= c <= '9'
  }

  /** ASCII case folding, as `strcasecmp` applies it. */
  function Lower(c: char): char {
    if 'A' <= c <= 'Z' then (c as int + 32) as char else c
  }

  function ToLower(s: string): (r: string)
    ensures |r| == |s|
    ensures forall i :: 0 <= i < |s| ==> r[i] == Lower(s[i])
  {
    if s == [] then [] else [Lower(s[0])] + ToLower(s[1..])
  }

  /** `strcasecmp(a, b) == 0` */
  predicate EqualsIgnoreCase(a: string, b: string) {
    |a| == |b| && forall i :: 0 <= i < |a| ==> Lower(a[i]) == Lower(b[i])
  }

  /** `strncmp(s, p, strlen(p)) == 0`: `s` begins with `p`. */
  predicate StartsWith(s: string, p: string) {
    p <= s
  }

  /** `strstr(s, sub) != NULL` */
  predicate Contains(s: string, sub: string)
    decreases |s|
  {
    sub <= s || (|s| > 0 && Contains(s[1..], sub))
  }

  lemma {:induction false} ContainsAt(s: string, sub: string, i: nat)
    requires i + |sub| <= |s| && s[i..i + |sub|] == sub
    ensures Contains(s, sub)
  {
    if i > 0 {
      assert s[1..][i - 1..i - 1 + |sub|] == sub;
      ContainsAt(s[1..], sub, i - 1);
    } else {
      assert sub <= s;
    }
  }

  /** Number of leading characters satisfying `isspace`. */
  function SpacePrefix(s: string): (n: nat)
    ensures n <= |s|
    ensures forall i :: 0 <= i < n ==> IsSpace(s[i])
    ensures n < |s| ==> !IsSpace(s[n])
  {
    if s != [] && IsSpace(s[0]) then 1 + SpacePrefix(s[1..]) else 0
  }

  /** Number of leading decimal digits. */
  function DigitPrefix(s: string): (n: nat)
    ensures n <= |s|
    ensures forall i :: 0 <= i < n ==> IsDigit(s[i])
    ensures n < |s| ==> !IsDigit(s[n])
  {
    if s != [] && IsDigit(s[0]) then 1 + DigitPrefix(s[1..]) else 0
  }

  predicate AllDigits(s: string) {
    forall i :: 0 <= i < |s| ==> IsDigit(s[i])
  }

  /** Value of a string of decimal digits, most significant first. */
  function DigitsValue(d: string): nat
    requires AllDigits(d)
  {
    if d == [] then 0
    else DigitsValue(d[..|d| - 1]) * 10 + (d[|d| - 1] as int - '0' as int)
  }

  /**
   * C `atoi`: leading white space is skipped, one optional sign is read, then
   * as many decimal digits as follow; anything else ends the number, and no
   * digits at all give 0.
   */
  function Atoi(s: string): int {
    var t := s[SpacePrefix(s)..];
    var neg := |t| > 0 && t[0] == '-';
    var u := if |t| > 0 && (t[0] == '-' || t[0] == '+') then t[1..] else t;
    var v: int := DigitsValue(u[..DigitPrefix(u)]);
    if neg then -v else v
  }

  function DigitChar(d: nat): (c: char)
    requires d < 10
    ensures IsDigit(c) && c as int - '0' as int == d
  {
    ('0' as int + d) as char
  }

  /** `%d` of a non-negative number. */
  function Decimal(n: nat): (r: string)
    ensures |r| > 0 && AllDigits(r)
  {
    if n < 10 then [DigitChar(n)] else Decimal(n / 10) + [DigitChar(n % 10)]
  }

  /** `%03d` of a non-negative number: at least three digits, zero padded. */
  function Pad3(n: nat): (r: string)
    ensures AllDigits(r)
  {
    if n < 10 then "00" + Decimal(n)
    else if n < 100 then "0" + Decimal(n)
    else Decimal(n)
  }

  lemma {:induction false} DecimalValue(n: nat)
    ensures DigitsValue(Decimal(n)) == n
  {
    var r := Decimal(n);
    if n >= 10 {
      DecimalValue(n / 10);
      assert r[..|r| - 1] == Decimal(n / 10);
    }
  }

  lemma {:induction false} LeadingZeroValue(d: string)
    requires AllDigits(d)
    ensures AllDigits("0" + d) && DigitsValue("0" + d) == DigitsValue(d)
  {
    if d != [] {
      var z := "0" + d;
      assert z[..|z| - 1] == "0" + d[..|d| - 1];
      LeadingZeroValue(d[..|d| - 1]);
    }
  }

  lemma AllDigitsPrefix(d: string)
    requires AllDigits(d)
    ensures DigitPrefix(d) == |d|
  {
  }

  /** `atoi` reads back the number that `%d` printed. */
  lemma DecimalRoundTrip(n: nat)
    ensures Atoi(Decimal(n)) == n
  {
    var r := Decimal(n);
    assert SpacePrefix(r) == 0;
    assert r[0..] == r;
    AllDigitsPrefix(r);
    assert r[..|r|] == r;
    DecimalValue(n);
  }

  /** The digit run of a decimal followed by a non-digit is the decimal. */
  lemma DigitPrefixOfDecimal(n: nat, rest: string)
    requires rest == [] || !IsDigit(rest[0])
    ensures DigitPrefix(Decimal(n) + rest) == |Decimal(n)|
  {
    var d := Decimal(n);
    var s := d + rest;
    assert forall i :: 0 <= i < |d| ==> s[i] == d[i];
    if |rest| > 0 {
      assert s[|d|] == rest[0];
    }
  }

  /** `atoi` stops at the first character that is not a digit. */
  lemma AtoiStopsAtNonDigit(n: nat, rest: string)
    requires rest == [] || !IsDigit(rest[0])
    ensures Atoi(Decimal(n) + rest) == n
  {
    var d := Decimal(n);
    var s := d + rest;
    assert !IsSpace(s[0]);
    assert SpacePrefix(s) == 0;
    assert s[0..] == s;
    DigitPrefixOfDecimal(n, rest);
    assert s[..|d|] == d;
    DecimalValue(n);
  }

  /** A minus sign in front negates what `atoi` reads. */
  lemma AtoiNegative(n: nat, rest: string)
    requires rest == [] || !IsDigit(rest[0])
    ensures Atoi("-" + Decimal(n) + rest) == -(n as int)
  {
    var s := Decimal(n) + rest;
    assert "-" + Decimal(n) + rest == "-" + s;
    AtoiStopsAtNonDigit(n, rest);
    AtoiAfterMinus(s);
  }

  /** A minus sign in front of a digit negates what `atoi` reads. */
  lemma AtoiAfterMinus(s: string)
    requires |s| > 0 && IsDigit(s[0])
    ensures Atoi("-" + s) == -Atoi(s)
  {
    var m := "-" + s;
    assert SpacePrefix(m) == 0;
    assert m[0..] == m && m[1..] == s;
    assert SpacePrefix(s) == 0;
    assert s[0..] == s;
  }

  /** `atoi` reads back the number that `%03d` printed; the text has at least three digits. */
  lemma Pad3RoundTrip(n: nat)
    ensures Atoi(Pad3(n)) == n
    ensures |Pad3(n)| >= 3
    ensures n < 1000 ==> |Pad3(n)| == 3
  {
    var r := Pad3(n);
    assert SpacePrefix(r) == 0;
    assert r[0..] == r;
    AllDigitsPrefix(r);
    assert r[..|r|] == r;
    DecimalValue(n);
    if n < 10 {
      LeadingZeroValue(Decimal(n));
      assert "00" + Decimal(n) == "0" + ("0" + Decimal(n));
      LeadingZeroValue("0" + Decimal(n));
    } else if n < 100 {
      LeadingZeroValue(Decimal(n));
      assert Decimal(n / 10) == [DigitChar(n / 10)];
    } else {
      PadWidth(n);
    }
  }

  lemma {:induction false} PadWidth(n: nat)
    ensures n >= 100 ==> |Decimal(n)| >= 3
    ensures n < 1000 ==> |Decimal(n)| <= 3
  {
    if n >= 10 {
      PadWidth(n / 10);
    }
  }

  /**
   * `strsep(&s, delims)`: the token before the first delimiter, and what
   * follows that delimiter, or None when the string holds no delimiter.
   */
  function StrSep(s: string, delims: set<char>): (r: (string, Option<string>))
    ensures r.0 <= s
    ensures forall i :: 0 <= i < |r.0| ==> r.0[i] !in delims
    ensures r.1.None? <==> r.0 == s
    ensures r.1.Some? ==> s == r.0 + [s[|r.0|]] + r.1.value && s[|r.0|] in delims
  {
    if s == [] then ([], None)
    else if s[0] in delims then ([], Some(s[1..]))
    else
      var (t, rest) := StrSep(s[1..], delims);
      ([s[0]] + t, rest)
  }

  /** `strsep` splits at the first delimiter: a token free of delimiters comes back whole, followed by the rest. */
  lemma {:induction false} StrSepAt(t: string, c: char, delims: set<char>, rest: string)
    requires c in delims && forall i :: 0 <= i < |t| ==> t[i] !in delims
    ensures StrSep(t + [c] + rest, delims) == (t, Some(rest))
  {
    if t != [] {
      var s := t + [c] + rest;
      assert s[0] == t[0] && s[1..] == t[1..] + [c] + rest;
      StrSepAt(t[1..], c, delims, rest);
      assert [t[0]] + t[1..] == t;
    } else {
      assert (t + [c] + rest)[1..] == rest;
    }
  }

  /** A string with no delimiter is one token. */
  lemma {:induction false} StrSepNone(t: string, delims: set<char>)
    requires forall i :: 0 <= i < |t| ==> t[i] !in delims
    ensures StrSep(t, delims) == (t, None)
  {
    if t != [] {
      StrSepNone(t[1..], delims);
    }
  }

  /**
   * `apr_strtok`: the maximal runs of characters outside `delims`, in order;
   * empty runs are skipped.
   */
  function Tokens(s: string, delims: set<char>): (r: seq<string>)
    ensures forall k :: 0 <= k < |r| ==> |r[k]| > 0
    ensures forall k, i :: 0 <= k < |r| && 0 <= i < |r[k]| ==> r[k][i] !in delims
    decreases |s|
  {
    var (t, rest) := StrSep(s, delims);
    var tail := if rest.Some? then Tokens(rest.value, delims) else [];
    if t == [] then tail else [t] + tail
  }

  /** The characters of a C string literal, as a set (the `delims` argument). */
  function CharSet(s: string): set<char> {
    set i | 0 <= i < |s| :: s[i]
  }

  // ---------------------------------------------------------------------------
  // C strings

  /** The C string a character sequence holds: everything before its first NUL. */
  function CStr(s: string): (r: string)
    ensures r <= s && NUL !in r
    ensures |r| < |s| ==> s[|r|] == NUL
  {
    if s == [] || s[0] == NUL then [] else [s[0]] + CStr(s[1..])
  }

  /**
   * `ast_copy_string(buf, s, size)`: at most `size - 1` characters of the
   * C string `s`, always NUL-terminated in a buffer of `size` characters.
   */
  function CopyString(s: string, size: nat): (r: string)
    requires size > 0
    ensures r <= CStr(s) && |r| < size
    ensures |r| < |CStr(s)| ==> |r| == size - 1
  {
    var c := CStr(s);
    if |c| < size then c else c[..size - 1]
  }

  /** A C string that fits its buffer is copied whole. */
  lemma {:induction false} CopyStringWhole(s: string, size: nat)
    requires size > |s| && NUL !in s
    ensures CopyString(s, size) == s
  {
    CStrWhole(s);
  }

  lemma {:induction false} CStrWhole(s: string)
    requires NUL !in s
    ensures CStr(s) == s
  {
    if s != [] {
      assert NUL !in s[1..] by { assert forall k :: 0 <= k < |s| - 1 ==> s[1..][k] == s[k + 1]; }
      CStrWhole(s[1..]);
    }
  }
}
