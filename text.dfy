/**
 * The parts of Python's `str` and of its `int()` and `float()` conversions
 * that the survey decoders rely on. Whitespace is Python's full set;
 * letters and digits are ASCII.
 */
module Text {
  import opened Base

  // ---------------------------------------------------------------------------
  // Whitespace and `str.strip()`
  // ---------------------------------------------------------------------------

  /**
   * `c.isspace()`: the characters `str.strip()` removes and `int()` and
   * `float()` skip around a numeral.
   */
  predicate IsSpace(c: char) {
    if c <= ' ' then '\U{0009}' <= c <= '\U{000D}' || '\U{001C}' <= c
    else if c < '\U{0085}' then false
    else IsWideSpace(c)
  }

  /** The whitespace characters above U+0084: NEL, the no-break space and the Unicode spaces and separators. */
  predicate IsWideSpace(c: char) {
    || c == '\U{0085}' || c == '\U{00A0}' || c == '\U{1680}'
    || '\U{2000}' <= c <= '\U{200A}' || c == '\U{2028}' || c == '\U{2029}'
    || c == '\U{202F}' || c == '\U{205F}' || c == '\U{3000}'
  }

  function TrimStart(s: string): (r: string)
    ensures |r| <= |s| && r == s[|s| - |r|..]
    ensures |r| > 0 ==> !IsSpace(r[0])
    ensures forall k :: 0 <= k < |s| - |r| ==> IsSpace(s[k])
    decreases |s|
  {
    if |s| > 0 && IsSpace(s[0]) then TrimStart(s[1..]) else s
  }

  function TrimEnd(s: string): (r: string)
    ensures |r| <= |s| && r == s[..|r|]
    ensures |r| > 0 ==> !IsSpace(r[|r| - 1])
    ensures forall k :: |r| <= k < |s| ==> IsSpace(s[k])
    decreases |s|
  {
    if |s| > 0 && IsSpace(s[|s| - 1]) then TrimEnd(s[..|s| - 1]) else s
  }

  /** `s.strip()`: the text without leading and trailing whitespace. */
  function Strip(s: string): (r: string)
    ensures |r| > 0 ==> !IsSpace(r[0]) && !IsSpace(r[|r| - 1])
  {
    TrimEnd(TrimStart(s))
  }

  predicate AllSpace(s: string) {
    forall k :: 0 <= k < |s| ==> IsSpace(s[k])
  }

  /**
   * `strip()` cuts exactly the surrounding whitespace: a text made of
   * blanks, a core that neither starts nor ends with whitespace, and blanks
   * again strips to that core.
   */
  lemma {:induction false} StripExact(before: string, core: string, after: string)
    requires AllSpace(before) && AllSpace(after)
    requires |core| > 0 ==> !IsSpace(core[0]) && !IsSpace(core[|core| - 1])
    ensures Strip(before + core + after) == core
  {
    if |core| > 0 {
      var rest := core + after;
      assert before + core + after == before + rest;
      TrimStartPast(before, rest);
      TrimEndPast(core, after);
    } else {
      var s := before + core + after;
      assert forall k :: 0 <= k < |s| ==> IsSpace(s[k]);
    }
  }

  /** `lstrip()` drops a blank prefix and stops at the first non-space character. */
  lemma {:induction false} TrimStartPast(blank: string, rest: string)
    requires AllSpace(blank) && |rest| > 0 && !IsSpace(rest[0])
    ensures TrimStart(blank + rest) == rest
  {
    if blank == [] {
      assert blank + rest == rest;
    } else {
      var s := blank + rest;
      assert s[0] == blank[0] && s[1..] == blank[1..] + rest;
      TrimStartPast(blank[1..], rest);
    }
  }

  /** `rstrip()` drops a blank suffix and stops at the last non-space character. */
  lemma {:induction false} TrimEndPast(rest: string, blank: string)
    requires AllSpace(blank) && |rest| > 0 && !IsSpace(rest[|rest| - 1])
    ensures TrimEnd(rest + blank) == rest
  {
    if blank == [] {
      assert rest + blank == rest;
    } else {
      var s := rest + blank;
      var shorter := blank[..|blank| - 1];
      assert s[|s| - 1] == blank[|blank| - 1] && s[..|s| - 1] == rest + shorter;
      TrimEndPast(rest, shorter);
    }
  }

  /** Text that starts and ends with a non-space character is left as it is. */
  lemma StripKeeps(s: string)
    requires |s| > 0 && !IsSpace(s[0]) && !IsSpace(s[|s| - 1])
    ensures Strip(s) == s
  {
  }

  /** One trailing blank does not change what `strip()` returns. */
  lemma {:induction false} StripTrailingBlank(s: string)
    requires |s| > 0 && !IsSpace(s[0]) && !IsSpace(s[|s| - 1])
    ensures Strip(s + " ") == s
  {
    var t := s + " ";
    assert TrimStart(t) == t;
    assert t[..|t| - 1] == s;
    assert TrimEnd(t) == TrimEnd(s);
  }

  // ---------------------------------------------------------------------------
  // `str.lower()` and substring search
  // ---------------------------------------------------------------------------

  function LowerChar(c: char): char {
    if 'A' <= c <= 'Z' then (c as int + 32) as char else c
  }

  /**
   * `s.lower()` on ASCII letters: each upper-case letter becomes its own
   * lower-case letter, and every other character is left in place.
   */
  function Lower(s: string): (r: string)
    ensures |r| == |s|
    ensures forall k :: 0 <= k < |r| ==> !('A' <= r[k] <= 'Z')
    ensures forall k :: 0 <= k < |s| && 'A' <= s[k] <= 'Z' ==> r[k] as int == s[k] as int + 32
    ensures forall k :: 0 <= k < |s| && !('A' <= s[k] <= 'Z') ==> r[k] == s[k]
  {
    seq(|s|, i requires 0 <= i < |s| => LowerChar(s[i]))
  }

  /** Lower-casing twice is lower-casing once. */
  lemma LowerIdempotent(s: string)
    ensures Lower(Lower(s)) == Lower(s)
  {
  }

  predicate OccursAt(s: string, p: string, i: int) {
    0 <= i && i + |p| <= |s| && s[i..i + |p|] == p
  }

  /** `p` occurs in `s` at position `i` or later. */
  predicate OccursFrom(s: string, p: string, i: nat)
    decreases |s| - i
  {
    i + |p| <= |s| && (s[i..i + |p|] == p || OccursFrom(s, p, i + 1))
  }

  /** Python's `p in s` for two strings. */
  predicate Contains(s: string, p: string) {
    OccursFrom(s, p, 0)
  }

  /** `OccursFrom` holds exactly when some position from `i` on is an occurrence. */
  lemma {:induction false} OccursFromSound(s: string, p: string, i: nat)
    ensures OccursFrom(s, p, i) <==> exists j | i <= j <= |s| - |p| :: OccursAt(s, p, j)
    decreases |s| - i
  {
    if i + |p| <= |s| {
      OccursFromSound(s, p, i + 1);
      if OccursFrom(s, p, i) {
        if s[i..i + |p|] == p {
          assert OccursAt(s, p, i);
        } else {
          var j :| i + 1 <= j <= |s| - |p| && OccursAt(s, p, j);
          assert i <= j;
        }
      }
      if exists j | i <= j <= |s| - |p| :: OccursAt(s, p, j) {
        var j :| i <= j <= |s| - |p| && OccursAt(s, p, j);
        if j != i {
          assert i + 1 <= j <= |s| - |p| && OccursAt(s, p, j);
        }
      }
    }
  }

  /** An occurrence at any position makes `p in s` true. */
  lemma Found(s: string, p: string, i: nat)
    requires OccursAt(s, p, i)
    ensures Contains(s, p)
  {
    OccursFromSound(s, p, 0);
  }

  /** A longer phrase that contains a shorter one is found wherever it is. */
  lemma {:induction false} ContainsTransitive(s: string, p: string, q: string)
    requires Contains(s, p) && Contains(p, q)
    ensures Contains(s, q)
  {
    OccursFromSound(s, p, 0);
    OccursFromSound(p, q, 0);
    var i :| 0 <= i <= |s| - |p| && OccursAt(s, p, i);
    var j :| 0 <= j <= |p| - |q| && OccursAt(p, q, j);
    forall k | 0 <= k < |q| ensures s[i + j..i + j + |q|][k] == q[k] {
      assert s[i + j + k] == s[i..i + |p|][j + k] == p[j + k] == p[j..j + |q|][k];
    }
    Found(s, q, i + j);
  }

  /** A phrase with a character that the text lacks does not occur in it. */
  lemma MissingChar(s: string, p: string, k: nat)
    requires k < |p| && p[k] !in s
    ensures !Contains(s, p)
  {
    forall i | 0 <= i <= |s| - |p| ensures !OccursAt(s, p, i) {
      assert s[i..i + |p|][k] == s[i + k];
    }
    OccursFromSound(s, p, 0);
  }

  /** A text that starts with a non-space character keeps that character first after `strip()`. */
  lemma StripFirst(s: string)
    requires |s| > 0 && !IsSpace(s[0])
    ensures |Strip(s)| > 0 && Strip(s)[0] == s[0]
  {
    assert TrimStart(s) == s;
  }

  // ---------------------------------------------------------------------------
  // `s.split(c)[0]`
  // ---------------------------------------------------------------------------

  /** The text before the first `c`, or all of `s` when `c` does not occur. */
  function BeforeFirst(s: string, c: char): (r: string)
    ensures |r| <= |s| && r == s[..|r|]
    ensures c !in r
    ensures |r| < |s| ==> s[|r|] == c
    ensures c !in s ==> r == s
  {
    if s == [] then []
    else if s[0] == c then []
    else [s[0]] + BeforeFirst(s[1..], c)
  }

  /** The text before the first `c` of `a + [c] + b` is `a` when `c` does not occur in `a`. */
  lemma BeforeFirstJoin(a: string, c: char, b: string)
    requires c !in a
    ensures BeforeFirst(a + [c] + b, c) == a
  {
    var s := a + [c] + b;
    assert s[|a|] == c;
    assert forall k :: 0 <= k < |a| ==> s[k] == a[k];
  }

  // ---------------------------------------------------------------------------
  // Decimal numerals: Python's `int(s)` and `str(n)`
  // ---------------------------------------------------------------------------

  predicate IsDigit(c: char) {
    '0' <= c <= '9'
  }

  predicate AllDigits(s: string) {
    forall k :: 0 <= k < |s| ==> IsDigit(s[k])
  }

  function DigitValue(c: char): nat
    requires IsDigit(c)
  {
    c as int - '0' as int
  }

  function DigitChar(d: nat): (c: char)
    requires d < 10
    ensures IsDigit(c) && DigitValue(c) == d
  {
    ('0' as int + d) as char
  }

  /** The value of a string of decimal digits, read most significant first. */
  function DigitsValue(s: string): nat
    requires AllDigits(s)
  {
    if s == [] then 0 else DigitsValue(s[..|s| - 1]) * 10 + DigitValue(s[|s| - 1])
  }

  /** `str(n)` for a natural number: no sign, no leading zeros. */
  function ShowNat(n: nat): (s: string)
    ensures |s| > 0 && AllDigits(s)
  {
    if n < 10 then [DigitChar(n)] else ShowNat(n / 10) + [DigitChar(n % 10)]
  }

  /** `str(n)` for any integer. */
  function ShowInt(n: int): (s: string)
    ensures |s| > 0 && !IsSpace(s[0]) && !IsSpace(s[|s| - 1])
    ensures '(' !in s && '.' !in s
  {
    if n < 0 then "-" + ShowNat(-n) else ShowNat(n)
  }

  /** A sign followed by digits holds no `.` and no `(`. */
  lemma SignedDigitsPlain(t: string)
    requires |t| > 1 && (t[0] == '-' || t[0] == '+') && AllDigits(t[1..])
    ensures '.' !in t && '(' !in t
  {
    forall k | 1 <= k < |t| ensures IsDigit(t[k]) {
      assert t[1..][k - 1] == t[k];
    }
  }

  /**
   * Python's `int(s)` on a string: surrounding whitespace is ignored, one
   * optional sign, then at least one decimal digit. Anything else is the
   * `ValueError` case and yields None.
   */
  function ParseInt(s: string): (r: Option<int>)
    ensures r.Some? ==> |Strip(s)| > 0 && '.' !in Strip(s) && '(' !in Strip(s)
  {
    var t := Strip(s);
    if |t| > 1 && (t[0] == '-' || t[0] == '+') && AllDigits(t[1..]) then
      SignedDigitsPlain(t);
      Some(if t[0] == '-' then -(DigitsValue(t[1..]) as int) else DigitsValue(t[1..]))
    else if |t| > 0 && AllDigits(t) then
      Some(DigitsValue(t))
    else
      None
  }

  /** `int()` rejects a text whose first non-blank character is neither a digit nor a sign. */
  lemma ParseIntLead(s: string)
    requires |Strip(s)| > 0 && !IsDigit(Strip(s)[0]) && Strip(s)[0] != '-' && Strip(s)[0] != '+'
    ensures ParseInt(s).None?
  {
  }

  lemma {:induction false} DigitsOfShowNat(n: nat)
    ensures DigitsValue(ShowNat(n)) == n
  {
    if n >= 10 {
      DigitsOfShowNat(n / 10);
      var s := ShowNat(n);
      assert s[..|s| - 1] == ShowNat(n / 10);
    }
  }

  /** `int(str(n)) == n`: every integer survives being written out and parsed back. */
  lemma ParseShowInt(n: int)
    ensures ParseInt(ShowInt(n)) == Some(n)
  {
    var s := ShowInt(n);
    StripKeeps(s);
    if n < 0 {
      DigitsOfShowNat(-n);
      assert s[1..] == ShowNat(-n);
    } else {
      DigitsOfShowNat(n);
    }
  }

  /** Parsing ignores one trailing blank, as `int("3 ")` does. */
  lemma ParseShowIntBlank(n: int)
    ensures ParseInt(ShowInt(n) + " ") == Some(n)
  {
    StripTrailingBlank(ShowInt(n));
    ParseShowInt(n);
  }

  /** Stripping the text first changes nothing `int()` reads. */
  lemma ParseIntOfStripped(s: string)
    ensures Strip(Strip(s)) == Strip(s)
    ensures ParseInt(Strip(s)) == ParseInt(s)
  {
    var t := Strip(s);
    assert Strip(t) == t by {
      if t != "" {
        StripKeeps(t);
      }
    }
  }

  /**
   * `int()` skips any whitespace around a numeral, the no-break space and
   * the other Unicode spaces included: `int("\x1c7\xa0") == 7`.
   */
  lemma ParseIntAroundBlanks(before: string, n: int, after: string)
    requires AllSpace(before) && AllSpace(after)
    ensures ParseInt(before + ShowInt(n) + after) == Some(n)
  {
    StripExact(before, ShowInt(n), after);
    ParseShowInt(n);
  }

  // ---------------------------------------------------------------------------
  // Python's `float(s)` on decimal numerals
  // ---------------------------------------------------------------------------

  function Pow10(k: nat): (p: nat)
    ensures p >= 1
  {
    if k == 0 then 1 else 10 * Pow10(k - 1)
  }

  /** Unsigned `digits[.digits]` with at least one digit; None otherwise. */
  function UnsignedDecimal(body: string): Option<real> {
    var whole := BeforeFirst(body, '.');
    var fraction := if |whole| < |body| then body[|whole| + 1..] else "";
    if AllDigits(whole) && AllDigits(fraction) && |whole| + |fraction| > 0 then
      Some(DigitsValue(whole) as real + DigitsValue(fraction) as real / Pow10(|fraction|) as real)
    else
      None
  }

  /**
   * Python's `float(s)` on a decimal numeral such as `"2"`, `"-2.5"` or
   * `" .5 "`: surrounding whitespace ignored, one optional sign.
   */
  function ParseDecimal(s: string): Option<real> {
    var t := Strip(s);
    if |t| > 0 && (t[0] == '-' || t[0] == '+') then
      match UnsignedDecimal(t[1..])
      case Some(v) => Some(if t[0] == '-' then -v else v)
      case None => None
    else
      UnsignedDecimal(t)
  }

  lemma UnsignedDecimalOfDigits(body: string)
    requires |body| > 0 && AllDigits(body)
    ensures UnsignedDecimal(body) == Some(DigitsValue(body) as real)
  {
    assert forall k :: 0 <= k < |body| ==> body[k] != '.';
  }

  /** Text that `int()` accepts is read by `float()` as the same number. */
  lemma ParseIntThenDecimal(s: string, n: int)
    requires ParseInt(s) == Some(n)
    ensures ParseDecimal(s) == Some(n as real)
  {
    var t := Strip(s);
    if |t| > 1 && (t[0] == '-' || t[0] == '+') && AllDigits(t[1..]) {
      UnsignedDecimalOfDigits(t[1..]);
    } else {
      UnsignedDecimalOfDigits(t);
    }
  }
}
