/** Character classes and string helpers shared by the journal parser, the
    number formatter and the report renderer. Strings are sequences of Unicode
    scalar values, as Python 3 `str` is, so lengths and slices agree with the
    source's `len` and `[:n]`. */
module Text {

  datatype Option<T> = None | Some(value: T) {
    predicate IsFailure() { None? }
    function PropagateFailure<U>(): Option<U> requires None? { None }
    function Extract(): T requires Some? { value }
  }

  function Coalesce<T>(preferred: Option<T>, fallback: Option<T>): (r: Option<T>)
    ensures preferred.Some? ==> r == preferred
    ensures preferred.None? ==> r == fallback
  {
    if preferred.Some? then preferred else fallback
  }

  // ---------------------------------------------------------------------------
  // Character classes
  // ---------------------------------------------------------------------------

  /** An ASCII decimal digit (the regex class `\d` restricted to ASCII). */
  predicate IsDigit(c: char) { '0' <= c <= '9' }

  function DigitValue(c: char): (d: nat)
    requires IsDigit(c)
    ensures d < 10
  {
    (c as int) - ('0' as int)
  }

  function DigitChar(d: nat): (c: char)
    requires d < 10
    ensures IsDigit(c) && DigitValue(c) == d
  {
    (('0' as int) + d) as char
  }

  /** Python's `str.isspace()`, which is also what the regex class `\s` and
      `str.strip()` use on `str` values. */
  predicate IsSpace(c: char) {
    c == ' ' || ('\t' <= c <= '\r') || ('\U{1C}' <= c <= '\U{1F}') || c == '\U{85}'
    || c == '\U{A0}' || c == '\U{1680}' || ('\U{2000}' <= c <= '\U{200A}')
    || c == '\U{2028}' || c == '\U{2029}' || c == '\U{202F}' || c == '\U{205F}'
    || c == '\U{3000}'
  }

  /** The characters at which `str.splitlines()` breaks a string. */
  predicate IsLineBreak(c: char) {
    ('\n' <= c <= '\r') || ('\U{1C}' <= c <= '\U{1E}') || c == '\U{85}'
    || c == '\U{2028}' || c == '\U{2029}'
  }

  /** The regex class `\w`: letters, digits and `_`. Letters are recognised in
      ASCII, Latin-1 and the Latin Extended-A/B blocks. */
  predicate IsWordChar(c: char) {
    IsDigit(c) || ('a' <= c <= 'z') || ('A' <= c <= 'Z') || c == '_'
    || c == '\U{AA}' || c == '\U{B5}' || c == '\U{BA}' || c == '\U{B2}' || c == '\U{B3}'
    || c == '\U{B9}' || ('\U{BC}' <= c <= '\U{BE}')
    || ('\U{C0}' <= c <= '\U{24F}' && c != '\U{D7}' && c != '\U{F7}')
  }

  /** Lower-casing of the letters that occur in the source's patterns
      (ASCII and the accented `É`). */
  function Lower(c: char): (l: char)
    ensures 'A' <= c <= 'Z' ==> 'a' <= l <= 'z'
    ensures !('A' <= c <= 'Z') && c != 'É' ==> l == c
  {
    if 'A' <= c <= 'Z' then ((c as int) + 32) as char
    else if c == 'É' then 'é'
    else c
  }

  function LowerStr(s: string): (r: string)
    ensures |r| == |s|
    ensures forall i :: 0 <= i < |s| ==> r[i] == Lower(s[i])
  {
    if s == [] then [] else [Lower(s[0])] + LowerStr(s[1..])
  }

  /** `s` starts with `pattern` when compared case-insensitively; `pattern` is
      written in lower case. */
  predicate CiPrefix(s: string, pattern: string) {
    |pattern| <= |s| && forall i :: 0 <= i < |pattern| ==> Lower(s[i]) == pattern[i]
  }

  // ---------------------------------------------------------------------------
  // Digit strings
  // ---------------------------------------------------------------------------

  predicate AllDigits(s: string) { forall i :: 0 <= i < |s| ==> IsDigit(s[i]) }

  function Pow10(n: nat): (p: nat)
    ensures p >= 1
  {
    if n == 0 then 1 else 10 * Pow10(n - 1)
  }

  /** The value of a string of decimal digits, most significant first
      (Python's `int(...)` on such a string). */
  function DigitsValue(s: string): nat
    requires AllDigits(s)
  {
    if s == [] then 0 else 10 * DigitsValue(s[..|s| - 1]) + DigitValue(s[|s| - 1])
  }

  /** Decimal text of a natural number without leading zeros (`str(n)`). */
  function NatToDigits(n: nat): (s: string)
    ensures |s| >= 1 && AllDigits(s)
    ensures |s| > 1 ==> s[0] != '0'
  {
    if n < 10 then [DigitChar(n)] else NatToDigits(n / 10) + [DigitChar(n % 10)]
  }

  lemma {:induction false} NatToDigitsValue(n: nat)
    ensures DigitsValue(NatToDigits(n)) == n
  {
    if n >= 10 {
      NatToDigitsValue(n / 10);
      var s := NatToDigits(n);
      assert s[..|s| - 1] == NatToDigits(n / 10);
    }
  }

  lemma {:induction false} DigitsValueConcat(a: string, b: string)
    requires AllDigits(a) && AllDigits(b)
    ensures AllDigits(a + b)
    ensures DigitsValue(a + b) == DigitsValue(a) * Pow10(|b|) + DigitsValue(b)
    decreases |b|
  {
    AllDigitsConcat(a, b);
    if b == [] {
      assert a + b == a;
    } else {
      var b' := b[..|b| - 1];
      assert (a + b)[..|a + b| - 1] == a + b';
      assert (a + b)[|a + b| - 1] == b[|b| - 1];
      AllDigitsConcat(a, b');
      DigitsValueConcat(a, b');
      ShiftDigit(DigitsValue(a), Pow10(|b'|), DigitsValue(b'), DigitValue(b[|b| - 1]));
    }
  }

  lemma {:induction false} AllDigitsConcat(a: string, b: string)
    requires AllDigits(a) && AllDigits(b)
    ensures AllDigits(a + b)
  {
    forall i | 0 <= i < |a + b| ensures IsDigit((a + b)[i]) {
      if i < |a| { assert (a + b)[i] == a[i]; } else { assert (a + b)[i] == b[i - |a|]; }
    }
  }

  /** Appending one digit multiplies the place value by ten. */
  lemma {:induction false} ShiftDigit(x: int, p: int, y: int, d: int)
    ensures 10 * (x * p + y) + d == x * (10 * p) + (10 * y + d)
  {
    assert 10 * (x * p) == x * (10 * p);
  }

  /** A number of at least `10^k` is written with more than `k` digits. */
  lemma {:induction false} NatToDigitsLength(n: nat, k: nat)
    requires n >= Pow10(k)
    ensures |NatToDigits(n)| > k
  {
    if k > 0 {
      assert n / 10 >= Pow10(k - 1);
      NatToDigitsLength(n / 10, k - 1);
    }
  }

  function Zeros(n: nat): (s: string)
    ensures |s| == n && AllDigits(s)
    ensures forall i :: 0 <= i < n ==> s[i] == '0'
  {
    if n == 0 then [] else ['0'] + Zeros(n - 1)
  }

  lemma {:induction false} LeadingZerosValue(n: nat, s: string)
    requires AllDigits(s)
    ensures AllDigits(Zeros(n) + s) && DigitsValue(Zeros(n) + s) == DigitsValue(s)
  {
    DigitsValueConcat(Zeros(n), s);
    ZerosValue(n);
  }

  lemma {:induction false} ZerosValue(n: nat)
    ensures DigitsValue(Zeros(n)) == 0
  {
    if n > 0 {
      ZerosValue(n - 1);
      DigitsValueConcat(Zeros(n - 1), ['0']);
      assert Zeros(n - 1) + ['0'] == Zeros(n);
    }
  }

  /** Number of leading characters of `s` that are digits. */
  function LeadingDigits(s: string): (k: nat)
    ensures k <= |s|
  {
    if s == [] || !IsDigit(s[0]) then 0 else 1 + LeadingDigits(s[1..])
  }

  /** The leading digit run is made of digits and is maximal. */
  lemma {:induction false} LeadingDigitsSpec(s: string)
    ensures AllDigits(s[..LeadingDigits(s)])
    ensures LeadingDigits(s) < |s| ==> !IsDigit(s[LeadingDigits(s)])
  {
    if s != [] && IsDigit(s[0]) {
      LeadingDigitsSpec(s[1..]);
      var k := LeadingDigits(s);
      assert s[..k] == [s[0]] + s[1..][..k - 1];
    }
  }

  // ---------------------------------------------------------------------------
  // Stripping, filtering, padding
  // ---------------------------------------------------------------------------

  function TrimLeft(s: string): (r: string)
    ensures |r| <= |s|
  {
    if s != [] && IsSpace(s[0]) then TrimLeft(s[1..]) else s
  }

  function TrimRight(s: string): (r: string)
    ensures |r| <= |s|
  {
    if s != [] && IsSpace(s[|s| - 1]) then TrimRight(s[..|s| - 1]) else s
  }

  /** `TrimLeft` removes exactly the leading run of whitespace. */
  lemma {:induction false} TrimLeftSpec(s: string)
    ensures TrimLeft(s) == s[|s| - |TrimLeft(s)|..]
    ensures TrimLeft(s) != [] ==> !IsSpace(TrimLeft(s)[0])
    ensures forall i :: 0 <= i < |s| - |TrimLeft(s)| ==> IsSpace(s[i])
  {
    if s != [] && IsSpace(s[0]) {
      TrimLeftSpec(s[1..]);
      var r := TrimLeft(s[1..]);
      assert forall i :: 1 <= i < |s| - |r| ==> s[i] == s[1..][i - 1];
    }
  }

  /** `TrimRight` removes exactly the trailing run of whitespace. */
  lemma {:induction false} TrimRightSpec(s: string)
    ensures TrimRight(s) == s[..|TrimRight(s)|]
    ensures TrimRight(s) != [] ==> !IsSpace(TrimRight(s)[|TrimRight(s)| - 1])
    ensures forall i :: |TrimRight(s)| <= i < |s| ==> IsSpace(s[i])
  {
    if s != [] && IsSpace(s[|s| - 1]) {
      TrimRightSpec(s[..|s| - 1]);
    }
  }

  /** Python's `str.strip()`. */
  function Strip(s: string): string {
    TrimRight(TrimLeft(s))
  }

  /** Python's `s.replace(a, b)` for single characters. */
  function ReplaceChar(s: string, a: char, b: char): (r: string)
    ensures |r| == |s|
  {
    if s == [] then [] else [if s[0] == a then b else s[0]] + ReplaceChar(s[1..], a, b)
  }

  lemma {:induction false} ReplaceCharAt(s: string, a: char, b: char)
    ensures forall i :: 0 <= i < |s| ==> ReplaceChar(s, a, b)[i] == (if s[i] == a then b else s[i])
  {
    if s != [] {
      ReplaceCharAt(s[1..], a, b);
      var r := ReplaceChar(s, a, b);
      assert r[1..] == ReplaceChar(s[1..], a, b);
      assert forall i :: 1 <= i < |s| ==> s[i] == s[1..][i - 1] && r[i] == r[1..][i - 1];
    }
  }

  /** Python's `s.replace(c, "")` for a single character. */
  function RemoveChar(s: string, c: char): (r: string)
    ensures |r| <= |s|
  {
    if s == [] then [] else (if s[0] == c then [] else [s[0]]) + RemoveChar(s[1..], c)
  }

  function Spaces(n: nat): (s: string)
    ensures |s| == n && forall i :: 0 <= i < n ==> s[i] == ' '
  {
    if n == 0 then [] else [' '] + Spaces(n - 1)
  }

  /** Python's `s.rjust(width)`. */
  function PadLeft(s: string, width: nat): (r: string)
    ensures |r| == if |s| >= width then |s| else width
    ensures r[|r| - |s|..] == s
    ensures forall i :: 0 <= i < |r| - |s| ==> r[i] == ' '
  {
    if |s| >= width then s else Spaces(width - |s|) + s
  }

  /** Python's `s.ljust(width)`, i.e. the format `f"{s:<width}"`. */
  function PadRight(s: string, width: nat): (r: string)
    ensures |r| == if |s| >= width then |s| else width
    ensures r[..|s|] == s
    ensures forall i :: |s| <= i < |r| ==> r[i] == ' '
  {
    if |s| >= width then s else s + Spaces(width - |s|)
  }

  /** Python's `s[:n]` for `n >= 0`. */
  function Take(s: string, n: nat): (r: string)
    ensures |r| == if |s| <= n then |s| else n
    ensures r == s[..|r|]
  {
    if |s| <= n then s else s[..n]
  }

  // ---------------------------------------------------------------------------
  // str.splitlines()
  // ---------------------------------------------------------------------------

  /** Index of the first line break in `s`, or `|s|` when there is none. */
  function FirstBreak(s: string): (i: nat)
    ensures i <= |s|
    ensures i < |s| ==> IsLineBreak(s[i])
    ensures forall j :: 0 <= j < i ==> !IsLineBreak(s[j])
  {
    if s == [] then 0
    else if IsLineBreak(s[0]) then 0
    else
      var i := 1 + FirstBreak(s[1..]);
      assert forall j :: 1 <= j < i ==> s[j] == s[1..][j - 1];
      i
  }

  /** Position of the first `c` in `s`, or `|s|` when there is none. */
  function IndexOf(s: string, c: char): (i: nat)
    ensures i <= |s|
    ensures i < |s| ==> s[i] == c
    ensures forall j :: 0 <= j < i ==> s[j] != c
  {
    if s == [] then 0
    else if s[0] == c then 0
    else
      var i := 1 + IndexOf(s[1..], c);
      assert forall j :: 1 <= j < i ==> s[j] == s[1..][j - 1];
      i
  }

  /** The index after the line break at `i`: `"\r\n"` counts as one. */
  function BreakEnd(s: string, i: nat): (j: nat)
    requires i < |s|
    ensures i < j <= |s|
  {
    if s[i] == '\r' && i + 1 < |s| && s[i + 1] == '\n' then i + 2 else i + 1
  }

  /** Python's `str.splitlines()` without kept ends: `"\r\n"` is one break and
      a final break does not start an empty last line. */
  function SplitLines(s: string): (lines: seq<string>)
    decreases |s|
  {
    if s == [] then []
    else
      var i := FirstBreak(s);
      if i == |s| then [s]
      else
        [s[..i]] + SplitLines(s[BreakEnd(s, i)..])
  }

  predicate NoLineBreak(s: string) { forall i :: 0 <= i < |s| ==> !IsLineBreak(s[i]) }

  lemma {:induction false} SplitLinesHaveNoBreaks(s: string)
    ensures forall k :: 0 <= k < |SplitLines(s)| ==> NoLineBreak(SplitLines(s)[k])
    decreases |s|
  {
    if s != [] {
      var i := FirstBreak(s);
      if i < |s| {
        var j := if s[i] == '\r' && i + 1 < |s| && s[i + 1] == '\n' then i + 2 else i + 1;
        SplitLinesHaveNoBreaks(s[j..]);
        assert NoLineBreak(s[..i]);
      }
    }
  }

  lemma {:induction false} SplitLinesOfLine(a: string, b: string)
    requires NoLineBreak(a)
    ensures SplitLines(a + "\n" + b) == [a] + SplitLines(b)
  {
    var s := a + "\n" + b;
    assert forall j :: 0 <= j < |a| ==> s[j] == a[j];
    assert s[|a|] == '\n';
    FirstBreakAt(s, |a|);
    assert s[..|a|] == a;
    assert s[|a| + 1..] == b;
  }

  /** A last line without breaks, after a text that does not end in one, is
      one more line. */
  lemma {:induction false} SplitLinesAppend(a: string, b: string)
    requires a != [] && !IsLineBreak(a[|a| - 1])
    requires b != [] && NoLineBreak(b)
    ensures SplitLines(a + "\n" + b) == SplitLines(a) + [b]
    decreases |a|
  {
    var i := FirstBreak(a);
    if i == |a| {
      SplitLinesOfLine(a, b);
      SplitLinesSingle(a);
      SplitLinesSingle(b);
    } else {
      var j := BreakEnd(a, i);
      assert j < |a|;
      assert a[j..][|a[j..]| - 1] == a[|a| - 1];
      SplitLinesAppend(a[j..], b);
      SplitLinesAppendStep(a, b, i, j);
    }
  }

  /** One step of `SplitLinesAppend`: past the first break of `a`. */
  lemma {:induction false} SplitLinesAppendStep(a: string, b: string, i: nat, j: nat)
    requires i == FirstBreak(a) && i < |a| && j == BreakEnd(a, i) && j < |a|
    requires SplitLines(a[j..] + "\n" + b) == SplitLines(a[j..]) + [b]
    ensures SplitLines(a + "\n" + b) == SplitLines(a) + [b]
  {
    var c := "\n" + b;
    assert a + "\n" + b == a + c;
    assert a[j..] + "\n" + b == a[j..] + c;
    SplitLinesStep(a, i, j);
    AppendBreakStep(a, c, i, j);
    ConsSnoc(SplitLines(a + c), SplitLines(a), SplitLines(a[j..] + c), SplitLines(a[j..]), a[..i], b);
  }

  lemma ConsSnoc<T>(s: seq<T>, t: seq<T>, s': seq<T>, t': seq<T>, x: T, y: T)
    requires s == [x] + s' && t == [x] + t' && s' == t' + [y]
    ensures s == t + [y]
  {
    assert [x] + (t' + [y]) == ([x] + t') + [y];
  }

  lemma DropAppend<T>(a: seq<T>, c: seq<T>, j: nat)
    requires j <= |a|
    ensures (a + c)[j..] == a[j..] + c
  {
    assert forall k :: 0 <= k < |a| + |c| - j ==> (a + c)[j..][k] == (a[j..] + c)[k];
  }

  lemma {:induction false} SplitLinesStep(s: string, i: nat, j: nat)
    requires i == FirstBreak(s) && i < |s| && j == BreakEnd(s, i)
    ensures SplitLines(s) == [s[..i]] + SplitLines(s[j..])
  {
  }

  /** Extending a text after an inner `\r\n` or single break changes neither
      where its first line ends nor where the next begins. */
  lemma {:induction false} AppendBreakStep(a: string, c: string, i: nat, j: nat)
    requires i == FirstBreak(a) && i < |a| && j == BreakEnd(a, i) && j < |a|
    ensures FirstBreak(a + c) == i && BreakEnd(a + c, i) == j
    ensures SplitLines(a + c) == [a[..i]] + SplitLines(a[j..] + c)
  {
    var s := a + c;
    assert forall k :: 0 <= k < |a| ==> s[k] == a[k];
    FirstBreakAt(s, i);
    assert s[..i] == a[..i];
    DropAppend(a, c, j);
    SplitLinesStep(s, i, j);
  }

  /** A text that starts with a line-break-free `p` has a first line that
      starts with `p`. */
  lemma {:induction false} SplitLinesFirst(s: string, p: string)
    requires p != [] && NoLineBreak(p) && |p| <= |s| && s[..|p|] == p
    ensures SplitLines(s) != [] && |SplitLines(s)[0]| >= |p| && SplitLines(s)[0][..|p|] == p
  {
    var i := FirstBreak(s);
    assert forall k :: 0 <= k < |p| ==> s[k] == p[k] && !IsLineBreak(s[k]);
    assert s[..i][..|p|] == p;
  }

  lemma {:induction false} FirstBreakAt(s: string, i: nat)
    requires i < |s| && IsLineBreak(s[i])
    requires forall j :: 0 <= j < i ==> !IsLineBreak(s[j])
    ensures FirstBreak(s) == i
  {
  }

  lemma {:induction false} SplitLinesSingle(a: string)
    requires a != [] && NoLineBreak(a)
    ensures SplitLines(a) == [a]
  {
    assert FirstBreak(a) == |a|;
  }

  // ---------------------------------------------------------------------------
  // Facts about the filters
  // ---------------------------------------------------------------------------

  lemma {:induction false} RemoveCharConcat(a: string, b: string, c: char)
    ensures RemoveChar(a + b, c) == RemoveChar(a, c) + RemoveChar(b, c)
  {
    if a != [] {
      assert (a + b)[1..] == a[1..] + b;
      RemoveCharConcat(a[1..], b, c);
    } else {
      assert a + b == b;
    }
  }

  lemma {:induction false} ReplaceCharConcat(a: string, b: string, x: char, y: char)
    ensures ReplaceChar(a + b, x, y) == ReplaceChar(a, x, y) + ReplaceChar(b, x, y)
  {
    if a != [] {
      assert (a + b)[1..] == a[1..] + b;
      ReplaceCharConcat(a[1..], b, x, y);
    } else {
      assert a + b == b;
    }
  }

  lemma {:induction false} RemoveCharAbsent(s: string, c: char)
    requires forall i :: 0 <= i < |s| ==> s[i] != c
    ensures RemoveChar(s, c) == s
  {
    if s != [] {
      assert forall i :: 0 <= i < |s[1..]| ==> s[1..][i] == s[i + 1];
      RemoveCharAbsent(s[1..], c);
    }
  }

  lemma {:induction false} ReplaceCharAbsent(s: string, x: char, y: char)
    requires forall i :: 0 <= i < |s| ==> s[i] != x
    ensures ReplaceChar(s, x, y) == s
  {
    if s != [] {
      assert forall i :: 0 <= i < |s[1..]| ==> s[1..][i] == s[i + 1];
      ReplaceCharAbsent(s[1..], x, y);
    }
  }

  /** Deleting a whitespace character commutes with trimming at the left. */
  lemma {:induction false} RemoveCharTrimLeft(s: string, c: char)
    requires IsSpace(c)
    ensures RemoveChar(TrimLeft(s), c) == TrimLeft(RemoveChar(s, c))
  {
    if s != [] {
      var rest := RemoveChar(s[1..], c);
      if s[0] == c {
        assert RemoveChar(s, c) == rest;
        assert TrimLeft(s) == TrimLeft(s[1..]);
        RemoveCharTrimLeft(s[1..], c);
      } else {
        var r := [s[0]] + rest;
        assert RemoveChar(s, c) == r;
        assert r[0] == s[0] && r[1..] == rest;
        if IsSpace(s[0]) {
          assert TrimLeft(s) == TrimLeft(s[1..]);
          assert TrimLeft(r) == TrimLeft(rest);
          RemoveCharTrimLeft(s[1..], c);
        } else {
          assert TrimLeft(s) == s;
          assert TrimLeft(r) == r;
        }
      }
    }
  }

  /** Deleting a whitespace character commutes with trimming at the right. */
  lemma {:induction false} RemoveCharTrimRight(s: string, c: char)
    requires IsSpace(c)
    ensures RemoveChar(TrimRight(s), c) == TrimRight(RemoveChar(s, c))
    decreases |s|
  {
    if s != [] {
      var init, last := s[..|s| - 1], s[|s| - 1];
      assert s == init + [last];
      RemoveCharConcat(init, [last], c);
      assert RemoveChar([last], c) == (if last == c then [] else [last]);
      if last == c {
        assert RemoveChar(s, c) == RemoveChar(init, c);
        assert TrimRight(s) == TrimRight(init);
        RemoveCharTrimRight(init, c);
      } else {
        var r := RemoveChar(init, c) + [last];
        assert RemoveChar(s, c) == r;
        assert r[|r| - 1] == last && r[..|r| - 1] == RemoveChar(init, c);
        if IsSpace(last) {
          assert TrimRight(s) == TrimRight(init);
          assert TrimRight(r) == TrimRight(RemoveChar(init, c));
          RemoveCharTrimRight(init, c);
        } else {
          assert TrimRight(s) == s;
          assert TrimRight(r) == r;
        }
      }
    }
  }

  lemma {:induction false} RemoveCharStrip(s: string, c: char)
    requires IsSpace(c)
    ensures RemoveChar(Strip(s), c) == Strip(RemoveChar(s, c))
  {
    RemoveCharTrimRight(TrimLeft(s), c);
    RemoveCharTrimLeft(s, c);
  }

  /** Trimming stops at the first character that is not a space. */
  lemma {:induction false} TrimLeftConcat(a: string, t: string)
    requires t != [] && !IsSpace(t[0])
    ensures TrimLeft(a + t) == TrimLeft(a) + t
  {
    if a == [] {
      assert a + t == t;
    } else if IsSpace(a[0]) {
      assert (a + t)[1..] == a[1..] + t;
      TrimLeftConcat(a[1..], t);
    } else {
      assert (a + t)[0] == a[0];
    }
  }

  lemma {:induction false} TrimRightConcat(t: string, b: string)
    requires t != [] && !IsSpace(t[|t| - 1])
    ensures TrimRight(t + b) == t + TrimRight(b)
    decreases |b|
  {
    if b == [] {
      assert t + b == t;
    } else {
      assert (t + b)[..|t + b| - 1] == t + b[..|b| - 1];
      if IsSpace(b[|b| - 1]) {
        TrimRightConcat(t, b[..|b| - 1]);
      }
    }
  }

  lemma {:induction false} StripNonSpaceEnds(s: string)
    requires s != [] && !IsSpace(s[0]) && !IsSpace(s[|s| - 1])
    ensures Strip(s) == s
  {
  }
}
