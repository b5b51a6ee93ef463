/** Numbers in the journal (cogs/data.py): the tolerant decimal reader
    `_parse_decimal`, the two-decimal rounding of `_calc_euros`, the French
    display format of `_fmt_euros` / `_fmt_millions`, and the number text that
    the `/data` command writes into its machine tag.

    Python floats are modelled by exact decimals and reals: a parsed number is a
    `Dec`, rounding to cents is round-half-to-even on the exact value, and no
    binary rounding error is reproduced. */
module Decimal {
  import opened Text

  /** The finite decimal `mant / 10^scale`. */
  datatype Dec = Dec(mant: int, scale: nat)

  function Value(d: Dec): real {
    d.mant as real / Pow10(d.scale) as real
  }

  function Abs(x: real): (a: real)
    ensures a >= 0.0 && (a == x || a == -x)
  {
    if x < 0.0 then -x else x
  }

  // ---------------------------------------------------------------------------
  // _parse_decimal
  // ---------------------------------------------------------------------------

  /** The gap characters `_parse_decimal` deletes: the space and U+202F. */
  function DropGaps(s: string): string {
    RemoveChar(RemoveChar(s, ' '), '\U{202F}')
  }

  /** The text `_parse_decimal` hands to `float`: stripped, gaps deleted, the
      comma turned into a dot. */
  function Normalise(value: string): string {
    ReplaceChar(DropGaps(Strip(value)), ',', '.')
  }

  /** An exponent suffix `[eE][+-]?digits` taking the whole remaining text, or
      nothing at all (exponent 0). */
  function ParseExponent(s: string): Option<int> {
    if s == [] then Some(0)
    else if s[0] != 'e' && s[0] != 'E' then None
    else
      var t := s[1..];
      var neg := t != [] && t[0] == '-';
      var u := if t != [] && (t[0] == '-' || t[0] == '+') then t[1..] else t;
      if u != [] && AllDigits(u) then
        Some(if neg then -(DigitsValue(u) as int) else DigitsValue(u) as int)
      else None
  }

  function ScaleBy(mant: int, fracDigits: nat, exp: int): Dec {
    if exp >= fracDigits then Dec(mant * Pow10(exp - fracDigits), 0)
    else Dec(mant, fracDigits - exp)
  }

  /** Python's `float(text)` on finite decimal literals: optional surrounding
      whitespace, an optional sign, digits with an optional dot (at least one
      digit on some side of it), an optional exponent. */
  function ParseFloat(text: string): Option<Dec> {
    ParseSigned(Strip(text))
  }

  function ParseSigned(t: string): Option<Dec> {
    if t != [] && (t[0] == '-' || t[0] == '+') then ParseMagnitude(t[1..], t[0] == '-')
    else ParseMagnitude(t, false)
  }

  function ParseMagnitude(u: string, neg: bool): Option<Dec> {
    var k := LeadingDigits(u);
    LeadingDigitsSpec(u);
    ParseFraction(u[..k], u[k..], neg)
  }

  function ParseFraction(ip: string, rest: string, neg: bool): Option<Dec>
    requires AllDigits(ip)
  {
    if rest != [] && rest[0] == '.' then
      var f := LeadingDigits(rest[1..]);
      LeadingDigitsSpec(rest[1..]);
      FinishLiteral(ip, rest[1..][..f], rest[1..][f..], neg)
    else FinishLiteral(ip, [], rest, neg)
  }

  function FinishLiteral(ip: string, fp: string, tail: string, neg: bool): Option<Dec>
    requires AllDigits(ip) && AllDigits(fp)
  {
    var exp := ParseExponent(tail);
    if |ip| + |fp| == 0 || exp.None? then None
    else
      DigitsValueConcat(ip, fp);
      Some(ScaleBy(Signed(neg, DigitsValue(ip + fp)), |fp|, exp.value))
  }

  /** `_parse_decimal`: `None` stands for the `ValueError` that `float` raises. */
  function ParseDecimal(value: string): Option<Dec> {
    ParseFloat(Normalise(value))
  }

  predicate IsGap(c: char) { c == ' ' || c == '\U{202F}' }

  lemma {:induction false} DropGapsConcat(a: string, b: string)
    ensures DropGaps(a + b) == DropGaps(a) + DropGaps(b)
  {
    RemoveCharConcat(a, b, ' ');
    RemoveCharConcat(RemoveChar(a, ' '), RemoveChar(b, ' '), '\U{202F}');
  }

  lemma {:induction false} DropGapsStrip(s: string)
    ensures DropGaps(Strip(s)) == Strip(DropGaps(s))
  {
    RemoveCharStrip(s, ' ');
    RemoveCharStrip(RemoveChar(s, ' '), '\U{202F}');
  }

  lemma {:induction false} DropGapsOfGapFree(s: string)
    requires forall i :: 0 <= i < |s| ==> !IsGap(s[i])
    ensures DropGaps(s) == s
  {
    RemoveCharAbsent(s, ' ');
    RemoveCharAbsent(s, '\U{202F}');
  }

  /** `_parse_decimal` ignores spaces and U+202F wherever they stand. */
  lemma {:induction false} ParseDecimalIgnoresGap(a: string, b: string, c: char)
    requires IsGap(c)
    ensures ParseDecimal(a + [c] + b) == ParseDecimal(a + b)
  {
    DropGapsStrip(a + [c] + b);
    DropGapsStrip(a + b);
    DropGapsConcat(a + [c], b);
    DropGapsConcat(a, [c]);
    DropGapsConcat(a, b);
    assert DropGaps([c]) == [];
    assert DropGaps(a) + [] == DropGaps(a);
  }

  predicate HasDigit(s: string) { exists i :: 0 <= i < |s| && IsDigit(s[i]) }

  /** `_parse_decimal` refuses (the `ValueError` of `float`) every text
      without a digit, the empty and the blank text among them. */
  lemma {:induction false} ParseDecimalNeedsDigit(value: string)
    ensures ParseDecimal(value).Some? ==> HasDigit(value)
  {
    var t := DropGaps(Strip(value));
    ParseFloatNeedsDigit(Normalise(value));
    if HasDigit(Normalise(value)) {
      ReplaceCharAt(t, ',', '.');
      var i :| 0 <= i < |t| && IsDigit(Normalise(value)[i]);
      assert IsDigit(t[i]);
      RemoveCharHasDigit(RemoveChar(Strip(value), ' '), '\U{202F}');
      RemoveCharHasDigit(Strip(value), ' ');
      StripHasDigit(value);
    }
  }

  /** `float` refuses every text without a digit. */
  lemma {:induction false} ParseFloatNeedsDigit(text: string)
    ensures ParseFloat(text).Some? ==> HasDigit(text)
  {
    var t := Strip(text);
    if ParseFloat(text).Some? {
      var signed := t != [] && (t[0] == '-' || t[0] == '+');
      var u := if signed then t[1..] else t;
      var k := LeadingDigits(u);
      LeadingDigitsSpec(u);
      assert ParseFraction(u[..k], u[k..], signed && t[0] == '-').Some?;
      var j: nat := if k > 0 then 0 else 1;
      assert j < |u| && IsDigit(u[j]) by {
        if k > 0 {
          assert u[..k][0] == u[0];
        } else {
          var rest := u[k..];
          assert rest == u;
          assert rest != [] && rest[0] == '.';
          var f := LeadingDigits(rest[1..]);
          LeadingDigitsSpec(rest[1..]);
          assert f > 0;
          assert rest[1..][..f][0] == u[1];
        }
      }
      if signed {
        assert t[j + 1] == u[j];
      } else {
        assert t[j] == u[j];
      }
      StripHasDigit(text);
    }
  }

  lemma {:induction false} StripHasDigit(s: string)
    ensures HasDigit(Strip(s)) ==> HasDigit(s)
  {
    TrimLeftSpec(s);
    var l := TrimLeft(s);
    TrimRightSpec(l);
    if HasDigit(Strip(s)) {
      var i :| 0 <= i < |Strip(s)| && IsDigit(Strip(s)[i]);
      assert Strip(s)[i] == l[i];
      assert l[i] == s[|s| - |l| + i];
    }
  }

  lemma {:induction false} RemoveCharHasDigit(s: string, c: char)
    ensures HasDigit(RemoveChar(s, c)) ==> HasDigit(s)
  {
    if s != [] && HasDigit(RemoveChar(s, c)) {
      var p := if s[0] == c then [] else [s[0]];
      var r := RemoveChar(s[1..], c);
      assert RemoveChar(s, c) == p + r;
      var i :| 0 <= i < |p + r| && IsDigit((p + r)[i]);
      if i < |p| {
        assert IsDigit(s[0]);
      } else {
        assert IsDigit(r[i - |p|]);
        RemoveCharHasDigit(s[1..], c);
        var j :| 0 <= j < |s[1..]| && IsDigit(s[1..][j]);
        assert IsDigit(s[j + 1]);
      }
    }
  }

  /** A character `_parse_decimal` leaves alone: not whitespace, not a comma. */
  predicate Plain(c: char) { !IsSpace(c) && c != ',' }

  /** Text made only of plain characters reaches `float` unchanged. */
  lemma {:induction false} NormaliseClean(s: string)
    requires s != [] && forall i :: 0 <= i < |s| ==> Plain(s[i])
    ensures Normalise(s) == s
  {
    StripNonSpaceEnds(s);
    assert forall i :: 0 <= i < |s| ==> !IsGap(s[i]);
    DropGapsOfGapFree(s);
    ReplaceCharAbsent(s, ',', '.');
  }

  /** `_parse_decimal` reads a comma exactly as it reads a dot. */
  lemma {:induction false} ParseDecimalCommaIsDot(a: string, b: string)
    ensures ParseDecimal(a + [','] + b) == ParseDecimal(a + ['.'] + b)
  {
    NormaliseAround(a, ',', b);
    NormaliseAround(a, '.', b);
  }

  lemma {:induction false} NormaliseAround(a: string, x: char, b: string)
    requires x == ',' || x == '.'
    ensures Normalise(a + [x] + b) == ReplaceChar(TrimLeft(DropGaps(a)), ',', '.') + ['.']
                                     + ReplaceChar(TrimRight(DropGaps(b)), ',', '.')
  {
    var s := a + [x] + b;
    var A, B := DropGaps(a), DropGaps(b);
    var L, R := TrimLeft(A), TrimRight(B);
    DropGapsAround(a, x, b);
    DropGapsStrip(s);
    StripAround(A, x, B);
    assert DropGaps(Strip(s)) == (L + [x]) + R;
    ReplaceCharConcat(L + [x], R, ',', '.');
    ReplaceCharConcat(L, [x], ',', '.');
    ReplaceCharSingle(x, ',', '.');
  }

  lemma {:induction false} StripAround(A: string, x: char, B: string)
    requires !IsSpace(x)
    ensures Strip(A + ([x] + B)) == (TrimLeft(A) + [x]) + TrimRight(B)
  {
    var L := TrimLeft(A);
    TrimLeftConcat(A, [x] + B);
    assert L + ([x] + B) == (L + [x]) + B;
    TrimRightConcat(L + [x], B);
  }

  lemma {:induction false} ReplaceCharSingle(c: char, a: char, b: char)
    ensures ReplaceChar([c], a, b) == [if c == a then b else c]
  {
    assert [c][1..] == [];
  }

  lemma {:induction false} DropGapsAround(a: string, x: char, b: string)
    requires !IsGap(x)
    ensures DropGaps(a + [x] + b) == DropGaps(a) + ([x] + DropGaps(b))
  {
    DropGapsConcat(a + [x], b);
    DropGapsConcat(a, [x]);
    DropGapsOfGapFree([x]);
  }

  // ---------------------------------------------------------------------------
  // Positional literals and what they parse to
  // ---------------------------------------------------------------------------

  function SignText(neg: bool): string { if neg then "-" else "" }

  function Signed(neg: bool, n: nat): int { if neg then -(n as int) else n as int }

  lemma {:induction false} LeadingDigitsConcat(a: string, b: string)
    requires AllDigits(a)
    requires b == [] || !IsDigit(b[0])
    ensures LeadingDigits(a + b) == |a|
    decreases |a|
  {
    if a == [] {
      assert a + b == b;
    } else {
      assert (a + b)[1..] == a[1..] + b;
      LeadingDigitsConcat(a[1..], b);
    }
  }

  lemma {:induction false} LeadingDigitsAll(a: string)
    requires AllDigits(a)
    ensures LeadingDigits(a) == |a|
  {
    LeadingDigitsConcat(a, []);
    assert a + [] == a;
  }

  /** A signed positional literal `[-+]digits[.digits]` parses, under `float`,
      to the decimal its digits spell. */
  lemma {:induction false} ParseFloatPositional(sign: string, ip: string, fp: string, dot: bool)
    requires sign == "" || sign == "-" || sign == "+"
    requires ip != [] && AllDigits(ip) && AllDigits(fp)
    requires !dot ==> fp == []
    ensures AllDigits(ip + fp)
    ensures ParseFloat(sign + ip + (if dot then "." + fp else ""))
            == Some(Dec(Signed(sign == "-", DigitsValue(ip + fp)), |fp|))
  {
    DigitsValueConcat(ip, fp);
    var neg := sign == "-";
    var rest := if dot then "." + fp else "";
    var u := ip + rest;
    assert sign + ip + rest == sign + u;
    assert u[0] == ip[0];
    assert u[|u| - 1] == if dot then (if fp == [] then '.' else fp[|fp| - 1]) else ip[|ip| - 1];
    ParseFloatSigned(sign, u);
    ParseMagnitudeOf(ip, rest, neg);
    if dot {
      ParseFractionDot(ip, fp, neg);
    } else {
      assert ip + [] == ip;
    }
    FinishPositional(ip, fp, neg);
  }

  lemma {:induction false} ParseFloatSigned(sign: string, u: string)
    requires sign == "" || sign == "-" || sign == "+"
    requires u != [] && IsDigit(u[0]) && !IsSpace(u[|u| - 1])
    ensures ParseFloat(sign + u) == ParseMagnitude(u, sign == "-")
  {
    var text := sign + u;
    assert text[0] == if sign == "" then u[0] else sign[0];
    assert text[|text| - 1] == u[|u| - 1];
    assert !IsSpace(text[0]);
    StripNonSpaceEnds(text);
    assert ParseFloat(text) == ParseSigned(text);
    if sign == "" {
      assert text == u;
      assert !(u[0] == '-' || u[0] == '+');
    } else {
      assert text[1..] == u && text[0] == sign[0];
    }
  }

  lemma {:induction false} FinishPositional(ip: string, fp: string, neg: bool)
    requires ip != [] && AllDigits(ip) && AllDigits(fp)
    ensures AllDigits(ip + fp)
    ensures FinishLiteral(ip, fp, [], neg) == Some(Dec(Signed(neg, DigitsValue(ip + fp)), |fp|))
  {
    DigitsValueConcat(ip, fp);
    assert ParseExponent([]) == Some(0);
    assert Pow10(0) == 1;
  }

  lemma {:induction false} ParseMagnitudeOf(ip: string, rest: string, neg: bool)
    requires AllDigits(ip)
    requires rest == [] || !IsDigit(rest[0])
    ensures ParseMagnitude(ip + rest, neg) == ParseFraction(ip, rest, neg)
  {
    LeadingDigitsConcat(ip, rest);
    assert (ip + rest)[..|ip|] == ip;
    assert (ip + rest)[|ip|..] == rest;
  }

  lemma {:induction false} ParseFractionDot(ip: string, fp: string, neg: bool)
    requires AllDigits(ip) && AllDigits(fp)
    ensures ParseFraction(ip, "." + fp, neg) == FinishLiteral(ip, fp, [], neg)
  {
    var rest := "." + fp;
    assert rest[1..] == fp;
    LeadingDigitsAll(fp);
    assert fp[..|fp|] == fp;
    assert fp[|fp|..] == [];
  }

  /** Python's `float` on a literal without sign, dot or exponent is its
      integer value; used for the all-digit texts a tag or a total contains. */
  lemma {:induction false} ParseFloatDigits(ip: string)
    requires ip != [] && AllDigits(ip)
    ensures ParseFloat(ip) == Some(Dec(DigitsValue(ip), 0))
  {
    ParseFloatPositional("", ip, "", false);
    assert "" + ip + "" == ip && ip + "" == ip;
  }

  // ---------------------------------------------------------------------------
  // Rounding: round(x, 2)
  // ---------------------------------------------------------------------------

  /** Round half to even, the rule of Python's `round` and of its `.2f`
      format on the exact value. */
  function RoundHalfEven(x: real): (n: int)
    ensures -0.5 <= n as real - x <= 0.5
    ensures n as real - x == 0.5 || x - n as real == 0.5 ==> n % 2 == 0
    ensures x == x.Floor as real ==> n == x.Floor
  {
    var f := x.Floor;
    var d := x - f as real;
    if d < 0.5 then f
    else if d > 0.5 then f + 1
    else if f % 2 == 0 then f else f + 1
  }

  /** The rounded value is a nearest integer. */
  lemma {:induction false} RoundIsNearest(x: real, m: int)
    ensures Abs(RoundHalfEven(x) as real - x) <= Abs(m as real - x)
  {
    var n := RoundHalfEven(x);
    if m < n { assert m as real <= n as real - 1.0; }
    else if m > n { assert m as real >= n as real + 1.0; }
  }

  /** `round(x, 2)` as a whole number of hundredths. */
  function Cents(x: real): (c: int)
    ensures -0.5 <= c as real - 100.0 * x <= 0.5
  {
    RoundHalfEven(100.0 * x)
  }

  /** `_calc_euros`: the euro value of `m` millions at `rate` euros per million,
      rounded to the cent. */
  function CalcEuros(m: real, rate: real): (cents: int)
    ensures Abs(cents as real / 100.0 - m * rate) <= 0.005
  {
    var x := m * rate;
    var c := Cents(x);
    assert c as real / 100.0 - x == (c as real - 100.0 * x) / 100.0;
    c
  }

  // ---------------------------------------------------------------------------
  // _fmt_euros / _fmt_millions
  // ---------------------------------------------------------------------------

  /** Digits of `ds` with `sep` before every group of three counted from the
      right, as the `,` format option groups them. */
  function Group(ds: string, sep: char): (r: string)
    decreases |ds|
  {
    if |ds| <= 3 then ds else Group(ds[..|ds| - 3], sep) + [sep] + ds[|ds| - 3..]
  }

  function TwoDigits(n: nat): (s: string)
    requires n < 100
    ensures |s| == 2 && AllDigits(s) && DigitsValue(s) == n
  {
    var hi, lo := DigitChar(n / 10), DigitChar(n % 10);
    var s := [hi, lo];
    assert s[..1] == [hi] && [hi][..0] == [];
    assert DigitsValue([hi]) == DigitValue(hi);
    assert DigitsValue(s) == DigitsValue([hi]) * 10 + DigitValue(lo);
    s
  }

  /** Python's `f"{x:,.2f}"`: sign of `x`, grouped integer part, two decimals. */
  function PyFixed2(x: real): string {
    var c := Cents(Abs(x));
    assert c >= 0;
    SignText(x < 0.0) + Group(NatToDigits(c / 100), ',') + "." + TwoDigits(c % 100)
  }

  /** `_fmt_euros` and `_fmt_millions` (the two functions have the same body):
      `f"{x:,.2f}"` with `,` turned into a space and `.` into a comma. */
  function FmtAmount(x: real): string {
    ReplaceChar(ReplaceChar(PyFixed2(x), ',', ' '), '.', ',')
  }

  lemma {:induction false} GroupShape(ds: string, sep: char)
    requires ds != [] && AllDigits(ds)
    ensures Group(ds, sep) != [] && IsDigit(Group(ds, sep)[0])
    ensures IsDigit(Group(ds, sep)[|Group(ds, sep)| - 1])
    ensures forall i :: 0 <= i < |Group(ds, sep)| ==> IsDigit(Group(ds, sep)[i]) || Group(ds, sep)[i] == sep
    decreases |ds|
  {
    if |ds| > 3 {
      var hd, tl := ds[..|ds| - 3], ds[|ds| - 3..];
      assert AllDigits(hd) && AllDigits(tl);
      GroupShape(hd, sep);
      var g := Group(hd, sep);
      assert Group(ds, sep) == g + [sep] + tl;
    }
  }

  lemma {:induction false} GroupReplace(ds: string, a: char, b: char)
    requires AllDigits(ds) && !IsDigit(a)
    ensures ReplaceChar(Group(ds, a), a, b) == Group(ds, b)
    decreases |ds|
  {
    if |ds| <= 3 {
      ReplaceCharAbsent(ds, a, b);
    } else {
      var hd, tl := ds[..|ds| - 3], ds[|ds| - 3..];
      GroupReplace(hd, a, b);
      ReplaceCharConcat(Group(hd, a) + [a], tl, a, b);
      ReplaceCharConcat(Group(hd, a), [a], a, b);
      ReplaceCharAbsent(tl, a, b);
    }
  }

  lemma {:induction false} GroupReplaceOther(ds: string, sep: char, a: char, b: char)
    requires AllDigits(ds) && !IsDigit(a) && a != sep
    ensures ReplaceChar(Group(ds, sep), a, b) == Group(ds, sep)
  {
    GroupShape'(ds, sep);
    ReplaceCharAbsent(Group(ds, sep), a, b);
  }

  lemma {:induction false} GroupShape'(ds: string, sep: char)
    requires AllDigits(ds)
    ensures forall i :: 0 <= i < |Group(ds, sep)| ==> IsDigit(Group(ds, sep)[i]) || Group(ds, sep)[i] == sep
  {
    if ds != [] { GroupShape(ds, sep); }
  }

  lemma {:induction false} DropGapsGroup(ds: string)
    requires AllDigits(ds)
    ensures DropGaps(Group(ds, ' ')) == ds
    decreases |ds|
  {
    if |ds| <= 3 {
      DropGapsOfGapFree(ds);
    } else {
      var hd, tl := ds[..|ds| - 3], ds[|ds| - 3..];
      DropGapsGroup(hd);
      DropGapsConcat(Group(hd, ' ') + [' '], tl);
      DropGapsConcat(Group(hd, ' '), [' ']);
      DropGapsOfGapFree(tl);
      assert DropGaps([' ']) == [];
      assert hd + tl == ds;
    }
  }

  /** The displayed form of an amount: sign, integer part grouped by spaces,
      a comma, two decimals. */
  lemma {:induction false} FmtAmountShape(x: real)
    ensures Cents(Abs(x)) >= 0
    ensures FmtAmount(x) == SignText(x < 0.0) + Group(NatToDigits(Cents(Abs(x)) / 100), ' ') + ","
                            + TwoDigits(Cents(Abs(x)) % 100)
  {
    var c := Cents(Abs(x));
    var ds := NatToDigits(c / 100);
    var t := TwoDigits(c % 100);
    var sg := SignText(x < 0.0);
    assert PyFixed2(x) == sg + Group(ds, ',') + "." + t;
    ReplaceCharConcat(sg + Group(ds, ',') + ".", t, ',', ' ');
    ReplaceCharConcat(sg + Group(ds, ','), ".", ',', ' ');
    ReplaceCharConcat(sg, Group(ds, ','), ',', ' ');
    GroupReplace(ds, ',', ' ');
    ReplaceCharAbsent(sg, ',', ' ');
    ReplaceCharAbsent(t, ',', ' ');
    assert ReplaceChar(".", ',', ' ') == ".";
    ReplaceCharConcat(sg + Group(ds, ' ') + ".", t, '.', ',');
    ReplaceCharConcat(sg + Group(ds, ' '), ".", '.', ',');
    ReplaceCharConcat(sg, Group(ds, ' '), '.', ',');
    GroupReplaceOther(ds, ' ', '.', ',');
    ReplaceCharAbsent(sg, '.', ',');
    ReplaceCharAbsent(t, '.', ',');
    assert ReplaceChar(".", '.', ',') == ",";
  }

  /** Reading a displayed amount back with `_parse_decimal` gives the amount
      rounded to the cent: the display format and the reader agree. */
  lemma {:induction false} FmtAmountRoundTrip(x: real)
    ensures ParseDecimal(FmtAmount(x)).Some?
    ensures Value(ParseDecimal(FmtAmount(x)).value)
            == Signed(x < 0.0, Cents(Abs(x))) as real / 100.0
    ensures Abs(Value(ParseDecimal(FmtAmount(x)).value) - x) <= 0.005
  {
    FmtAmountParses(x);
    SignedCentsValue(x);
  }

  lemma {:induction false} FmtAmountParses(x: real)
    ensures Cents(Abs(x)) >= 0
    ensures ParseDecimal(FmtAmount(x)) == Some(Dec(Signed(x < 0.0, Cents(Abs(x))), 2))
  {
    var c := Cents(Abs(x));
    var ds := NatToDigits(c / 100);
    var t := TwoDigits(c % 100);
    var sg := SignText(x < 0.0);
    FmtAmountNormalised(x);
    ParseFloatPositional(sg, ds, t, true);
    NatToDigitsValue(c / 100);
    DigitsValueConcat(ds, t);
    assert Pow10(2) == 100 && |t| == 2;
    assert c == (c / 100) * 100 + c % 100;
    assert DigitsValue(ds + t) == c;
    assert (sg == "-") == (x < 0.0);
    assert sg + ds + (if true then "." + t else "") == Normalise(FmtAmount(x));
  }

  /** The signed, rounded amount is within half a cent of `x`. */
  lemma {:induction false} SignedCentsValue(x: real)
    ensures Cents(Abs(x)) >= 0
    ensures Value(Dec(Signed(x < 0.0, Cents(Abs(x))), 2)) == Signed(x < 0.0, Cents(Abs(x))) as real / 100.0
    ensures Abs(Signed(x < 0.0, Cents(Abs(x))) as real / 100.0 - x) <= 0.005
  {
    var c := Cents(Abs(x));
    assert Pow10(2) == 100;
    assert -0.5 <= c as real - 100.0 * Abs(x) <= 0.5;
  }

  /** What `_parse_decimal` hands to `float` for a displayed amount. */
  lemma {:induction false} FmtAmountNormalised(x: real)
    ensures Cents(Abs(x)) >= 0
    ensures Normalise(FmtAmount(x)) == SignText(x < 0.0) + NatToDigits(Cents(Abs(x)) / 100)
                                      + ("." + TwoDigits(Cents(Abs(x)) % 100))
  {
    var c := Cents(Abs(x));
    FmtAmountShape(x);
    NormaliseShape(SignText(x < 0.0), NatToDigits(c / 100), TwoDigits(c % 100));
  }

  /** `_parse_decimal`'s clean-up of a displayed amount: the grouping spaces
      go and the decimal comma becomes a point. */
  lemma {:induction false} NormaliseShape(sg: string, ds: string, t: string)
    requires sg == "" || sg == "-"
    requires ds != [] && AllDigits(ds) && |t| == 2 && AllDigits(t)
    ensures Normalise(sg + Group(ds, ' ') + "," + t) == sg + ds + ("." + t)
  {
    AmountUnstripped(sg, ds, t);
    DropGapsShape(sg, ds, t);
    CommaToPoint(sg, ds, t);
  }

  lemma {:induction false} AmountUnstripped(sg: string, ds: string, t: string)
    requires sg == "" || sg == "-"
    requires ds != [] && AllDigits(ds) && |t| == 2 && AllDigits(t)
    ensures Strip(sg + Group(ds, ' ') + "," + t) == sg + Group(ds, ' ') + "," + t
  {
    var g := Group(ds, ' ');
    var s := sg + g + "," + t;
    GroupShape(ds, ' ');
    assert s[0] == (if sg == "-" then '-' else g[0]);
    assert s[|s| - 1] == t[1];
    StripNonSpaceEnds(s);
  }

  lemma {:induction false} CommaToPoint(sg: string, ds: string, t: string)
    requires sg == "" || sg == "-"
    requires AllDigits(ds) && AllDigits(t)
    ensures ReplaceChar(sg + ds + "," + t, ',', '.') == sg + ds + ("." + t)
  {
    var a := sg + ds;
    assert ReplaceChar(a, ',', '.') == a by {
      ReplaceCharConcat(sg, ds, ',', '.');
      ReplaceCharAbsent(sg, ',', '.');
      ReplaceCharAbsent(ds, ',', '.');
    }
    assert ReplaceChar(t, ',', '.') == t by {
      ReplaceCharAbsent(t, ',', '.');
    }
    assert ReplaceChar(",", ',', '.') == "." by {
      ReplaceCharSingle(',', ',', '.');
    }
    calc {
      ReplaceChar(a + "," + t, ',', '.');
      { ReplaceCharConcat(a + ",", t, ',', '.'); }
      ReplaceChar(a + ",", ',', '.') + ReplaceChar(t, ',', '.');
      { ReplaceCharConcat(a, ",", ',', '.'); }
      ReplaceChar(a, ',', '.') + ReplaceChar(",", ',', '.') + t;
      a + "." + t;
    }
    assert a + "." + t == a + ("." + t);
  }

  lemma {:induction false} DropGapsShape(sg: string, ds: string, t: string)
    requires sg == "" || sg == "-"
    requires AllDigits(ds) && AllDigits(t)
    ensures DropGaps(sg + Group(ds, ' ') + "," + t) == sg + ds + "," + t
  {
    var g := Group(ds, ' ');
    var a, b := sg + g, sg + g + ",";
    DropGapsConcat(b, t);
    DropGapsConcat(a, ",");
    DropGapsConcat(sg, g);
    DropGapsGroup(ds);
    DropGapsOfGapFree(sg);
    DigitsGapFree(t);
    DropGapsOfGapFree(",");
    calc {
      DropGaps(b + t);
      DropGaps(b) + DropGaps(t);
      DropGaps(a) + DropGaps(",") + t;
      DropGaps(sg) + DropGaps(g) + "," + t;
      sg + ds + "," + t;
    }
  }

  lemma {:induction false} DigitsGapFree(t: string)
    requires AllDigits(t)
    ensures DropGaps(t) == t
  {
    forall i | 0 <= i < |t| ensures !IsGap(t[i]) { assert IsDigit(t[i]); }
    DropGapsOfGapFree(t);
  }

  // ---------------------------------------------------------------------------
  // The number text written into the machine tag
  // ---------------------------------------------------------------------------

  /** Drops trailing zero digits of the fraction. */
  function Normalize(d: Dec): (n: Dec)
    ensures n.scale <= d.scale
    ensures n.scale > 0 ==> n.mant % 10 != 0
    decreases d.scale
  {
    if d.scale > 0 && d.mant % 10 == 0 then Normalize(Dec(d.mant / 10, d.scale - 1)) else d
  }

  lemma {:induction false} NormalizeValue(d: Dec)
    ensures Value(Normalize(d)) == Value(d)
    decreases d.scale
  {
    if d.scale > 0 && d.mant % 10 == 0 {
      var e := Dec(d.mant / 10, d.scale - 1);
      NormalizeValue(e);
      assert d.mant == 10 * e.mant;
      assert Pow10(d.scale) == 10 * Pow10(e.scale);
      ScaleDown(e.mant, Pow10(e.scale));
    }
  }

  /** Ten times the numerator over ten times the denominator. */
  lemma {:induction false} ScaleDown(m: int, p: nat)
    requires p > 0
    ensures (10 * m) as real / (10 * p) as real == m as real / p as real
  {
    var q := p as real;
    assert (10 * p) as real == 10.0 * q;
    assert (10 * m) as real == 10.0 * m as real;
  }

  /** The digits of `|d.mant|`, padded with leading zeros so that there is at
      least one digit before the decimal point. */
  function PaddedDigits(d: Dec): (s: string)
    ensures |s| > d.scale && AllDigits(s)
  {
    var ds := NatToDigits(if d.mant < 0 then -d.mant else d.mant);
    if |ds| <= d.scale then Zeros(d.scale + 1 - |ds|) + ds else ds
  }

  /** Positional text of a decimal with a `.` and at least one digit after
      it (`200.0`, `3.8`, `-0.00001`): what the tag needs. */
  function TagNumber(d: Dec): string {
    var n := Normalize(d);
    SignText(n.mant < 0) + IntPart(n) + "." + FracPart(n)
  }

  /** Python's `repr` of a float whose shortest digits are those of `d`:
      positional as `TagNumber` for a decimal exponent from -4 to 15, and
      otherwise scientific, `1e-05`, `2.5e+16`, with at least two exponent
      digits. */
  function ReprFloat(d: Dec): string {
    var n := Normalize(d);
    var ds := NatToDigits(if n.mant < 0 then -n.mant else n.mant);
    var e := |ds| - 1 - n.scale;
    if n.mant == 0 || -4 <= e < 16 then TagNumber(d)
    else
      var sig := DropTrailingZeros(ds);
      SignText(n.mant < 0) + [sig[0]] + (if |sig| > 1 then "." + sig[1..] else "")
      + "e" + (if e < 0 then "-" else "+") + ExponentDigits(if e < 0 then -e else e)
  }

  function DropTrailingZeros(ds: string): (r: string)
    requires ds != []
    ensures r != [] && |r| <= |ds|
  {
    if |ds| > 1 && ds[|ds| - 1] == '0' then DropTrailingZeros(ds[..|ds| - 1]) else ds
  }

  function ExponentDigits(x: nat): string {
    if x < 10 then "0" + NatToDigits(x) else NatToDigits(x)
  }

  /** The digits before the point. */
  function IntPart(n: Dec): (s: string)
    ensures s != [] && AllDigits(s)
  {
    var p := PaddedDigits(n);
    p[..|p| - n.scale]
  }

  /** The digits after the point: `0` for a whole number. */
  function FracPart(n: Dec): (s: string)
    ensures s != [] && AllDigits(s)
    ensures |s| == if n.scale == 0 then 1 else n.scale
  {
    if n.scale == 0 then "0" else var p := PaddedDigits(n); p[|p| - n.scale..]
  }

  lemma {:induction false} PaddedDigitsValue(d: Dec)
    ensures DigitsValue(PaddedDigits(d)) == if d.mant < 0 then -d.mant else d.mant
  {
    var m := if d.mant < 0 then -d.mant else d.mant;
    NatToDigitsValue(m);
    var ds := NatToDigits(m);
    if |ds| <= d.scale { LeadingZerosValue(d.scale + 1 - |ds|, ds); }
  }

  /** The tag number is read back by `_parse_decimal` as the same value. */
  lemma {:induction false} TagNumberRoundTrip(d: Dec)
    ensures ParseDecimal(TagNumber(d)).Some?
    ensures Value(ParseDecimal(TagNumber(d)).value) == Value(d)
  {
    var n := Normalize(d);
    var ip, fp := IntPart(n), FracPart(n);
    var sg := SignText(n.mant < 0);
    var t := TagNumber(d);
    TagNumberNormalised(d);
    assert ParseDecimal(t) == ParseFloat(t);
    TagNumberShape(d);
    ParseFloatPositional(sg, ip, fp, true);
    assert (sg == "-") == (n.mant < 0);
    var r := Dec(Signed(n.mant < 0, DigitsValue(ip + fp)), |fp|);
    assert ParseDecimal(t) == Some(r);
    TagDigitsValue(n);
    NormalizeValue(d);
  }

  lemma {:induction false} TagNumberShape(d: Dec)
    ensures var n := Normalize(d);
            TagNumber(d) == SignText(n.mant < 0) + IntPart(n) + (if true then "." + FracPart(n) else "")
  {
  }

  /** The tag number is already in the form `_parse_decimal` hands to `float`. */
  lemma {:induction false} TagNumberNormalised(d: Dec)
    ensures Normalise(TagNumber(d)) == TagNumber(d)
  {
    var n := Normalize(d);
    var ip, fp := IntPart(n), FracPart(n);
    var sg := SignText(n.mant < 0);
    var s := TagNumber(d);
    assert s == sg + ip + ("." + fp);
    PlainNumber(sg, ip, fp);
    NormaliseClean(s);
  }

  /** A positional literal has only plain characters. */
  lemma {:induction false} PlainNumber(sg: string, ip: string, fp: string)
    requires sg == "" || sg == "-" || sg == "+"
    requires AllDigits(ip) && AllDigits(fp)
    ensures forall i :: 0 <= i < |sg + ip + ("." + fp)| ==> Plain((sg + ip + ("." + fp))[i])
  {
    var s := sg + ip + ("." + fp);
    forall i | 0 <= i < |s| ensures Plain(s[i]) {
      if i < |sg| { assert s[i] == sg[i]; }
      else if i < |sg| + |ip| { assert s[i] == ip[i - |sg|]; }
      else if i == |sg| + |ip| { assert s[i] == '.'; }
      else { assert s[i] == fp[i - |sg| - |ip| - 1]; }
    }
  }

  /** A signed digit string has only plain characters. */
  lemma {:induction false} PlainDigits(sg: string, ip: string)
    requires sg == "" || sg == "-" || sg == "+"
    requires AllDigits(ip)
    ensures forall i :: 0 <= i < |sg + ip| ==> Plain((sg + ip)[i])
  {
    var s := sg + ip;
    forall i | 0 <= i < |s| ensures Plain(s[i]) {
      if i < |sg| { assert s[i] == sg[i]; } else { assert s[i] == ip[i - |sg|]; }
    }
  }

  /** The digits of the tag spell the decimal. */
  lemma {:induction false} TagDigitsValue(n: Dec)
    ensures AllDigits(IntPart(n) + FracPart(n))
    ensures Value(Dec(Signed(n.mant < 0, DigitsValue(IntPart(n) + FracPart(n))), |FracPart(n)|)) == Value(n)
  {
    if n.scale == 0 {
      TagDigitsWhole(n);
    } else {
      TagDigitsFraction(n);
    }
  }

  lemma {:induction false} TagDigitsWhole(n: Dec)
    requires n.scale == 0
    ensures AllDigits(IntPart(n) + FracPart(n))
    ensures Value(Dec(Signed(n.mant < 0, DigitsValue(IntPart(n) + FracPart(n))), |FracPart(n)|)) == Value(n)
  {
    var p := PaddedDigits(n);
    var ip, fp := IntPart(n), FracPart(n);
    PaddedDigitsValue(n);
    DigitsValueConcat(ip, fp);
    assert ip == p;
    assert DigitsValue(fp) == 0 by { assert fp[..0] == []; }
    assert Pow10(1) == 10 && Pow10(0) == 1;
    var m := DigitsValue(p);
    assert DigitsValue(ip + fp) == 10 * m;
    assert Signed(n.mant < 0, 10 * m) == 10 * n.mant;
    TenthsValue(n.mant);
  }

  lemma {:induction false} TagDigitsFraction(n: Dec)
    requires n.scale > 0
    ensures AllDigits(IntPart(n) + FracPart(n))
    ensures Value(Dec(Signed(n.mant < 0, DigitsValue(IntPart(n) + FracPart(n))), |FracPart(n)|)) == Value(n)
  {
    var p := PaddedDigits(n);
    var ip, fp := IntPart(n), FracPart(n);
    PaddedDigitsValue(n);
    var k := |p| - n.scale;
    assert ip == p[..k] && fp == p[k..];
    assert p[..k] + p[k..] == p;
    assert Signed(n.mant < 0, DigitsValue(p)) == n.mant;
  }

  lemma {:induction false} TenthsValue(k: int)
    ensures Value(Dec(10 * k, 1)) == Value(Dec(k, 0))
  {
    assert Pow10(1) == 10 && Pow10(0) == 1;
    assert (10 * k) as real == 10.0 * k as real;
  }
}
