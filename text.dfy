/**
 * The string built-ins the services lean on: base-10 rendering of numbers
 * (`Number.prototype.toString`, Python `str`), `parseInt` on digit strings,
 * `String.prototype.padStart`, JavaScript `trim` and Python `str.strip`.
 * Strings are sequences of characters.
 */
module Text {

  predicate IsDigit(c: char) { '0' <= c <= '9' }

  predicate AllDigits(s: string) { forall i :: 0 <= i < |s| ==> IsDigit(s[i]) }

  predicate IsUpperAscii(c: char) { 'A' <= c <= 'Z' }

  function DigitValue(c: char): (d: nat)
    requires IsDigit(c)
    ensures d < 10
  {
    c as int - '0' as int
  }

  function DigitChar(d: nat): (c: char)
    requires d < 10
    ensures IsDigit(c) && DigitValue(c) == d
  {
    ('0' as int + d) as char
  }

  function Pow10(k: nat): (p: nat)
    ensures p >= 1
  {
    if k == 0 then 1 else 10 * Pow10(k - 1)
  }

  /** Base-10 rendering of a natural number, most significant digit first, no leading zeros. */
  function Decimal(n: nat): (s: string)
    ensures |s| >= 1 && AllDigits(s)
    ensures (|s| > 1) == (n >= 10)
    ensures |s| > 1 ==> s[0] != '0'
  {
    if n < 10 then [DigitChar(n)] else Decimal(n / 10) + [DigitChar(n % 10)]
  }

  /**
   * The value of a string of decimal digits: `parseInt(s, 10)` on such a string.
   * Leading zeros are allowed; a string of k digits denotes a number below 10^k.
   */
  function ParseDigits(s: string): (n: nat)
    requires AllDigits(s)
    ensures n < Pow10(|s|)
  {
    if s == [] then 0 else 10 * ParseDigits(s[..|s| - 1]) + DigitValue(s[|s| - 1])
  }

  /** Parsing undoes rendering. */
  lemma {:induction false} ParseDecimal(n: nat)
    ensures ParseDigits(Decimal(n)) == n
  {
    if n >= 10 {
      var s := Decimal(n);
      assert s[..|s| - 1] == Decimal(n / 10);
      ParseDecimal(n / 10);
    }
  }

  /** Rendering takes at most k digits exactly when the number is below 10^k. */
  lemma {:induction false} DecimalLength(n: nat, k: nat)
    requires k >= 1
    ensures |Decimal(n)| <= k <==> n < Pow10(k)
  {
    if n >= 10 {
      if k == 1 {
        assert Pow10(1) == 10;
      } else {
        DecimalLength(n / 10, k - 1);
        assert n / 10 < Pow10(k - 1) <==> n < 10 * Pow10(k - 1);
      }
    } else {
      assert Pow10(k) >= 10 by {
        assert Pow10(k) == 10 * Pow10(k - 1);
      }
    }
  }

  /** The value of a concatenation of digit strings. */
  lemma {:induction false} ParseAppend(a: string, b: string)
    requires AllDigits(a) && AllDigits(b)
    ensures AllDigits(a + b)
    ensures ParseDigits(a + b) == ParseDigits(a) * Pow10(|b|) + ParseDigits(b)
  {
    assert AllDigits(a + b) by {
      forall i | 0 <= i < |a + b| ensures IsDigit((a + b)[i]) {
        if i < |a| { assert (a + b)[i] == a[i]; } else { assert (a + b)[i] == b[i - |a|]; }
      }
    }
    if b == [] {
      assert a + b == a;
    } else {
      var b' := b[..|b| - 1];
      assert (a + b)[..|a + b| - 1] == a + b';
      assert (a + b)[|a + b| - 1] == b[|b| - 1];
      ParseAppend(a, b');
      var x, y, z, d := ParseDigits(a), Pow10(|b'|), ParseDigits(b'), DigitValue(b[|b| - 1]);
      assert ParseDigits(a + b) == 10 * (x * y + z) + d;
      assert ParseDigits(b) == 10 * z + d;
      assert Pow10(|b|) == 10 * y;
      ShiftDigit(x, y, z);
      assert x * Pow10(|b|) == x * (10 * y);
    }
  }

  lemma ShiftDigit(x: int, y: int, z: int)
    ensures 10 * (x * y + z) == x * (10 * y) + 10 * z
  {
  }

  /** A run of the digit 0 denotes zero. */
  lemma {:induction false} ParseZeros(n: nat)
    ensures AllDigits(seq(n, _ => '0')) && ParseDigits(seq(n, _ => '0')) == 0
  {
    if n > 0 {
      assert seq(n, _ => '0')[..n - 1] == seq(n - 1, _ => '0');
      ParseZeros(n - 1);
    }
  }

  /** Two digit strings of the same length with the same value are the same string. */
  lemma {:induction false} ParseDigitsInjective(a: string, b: string)
    requires AllDigits(a) && AllDigits(b) && |a| == |b|
    requires ParseDigits(a) == ParseDigits(b)
    ensures a == b
  {
    if a != [] {
      var a', b' := a[..|a| - 1], b[..|b| - 1];
      var x, y := DigitValue(a[|a| - 1]), DigitValue(b[|b| - 1]);
      assert 10 * ParseDigits(a') + x == 10 * ParseDigits(b') + y;
      assert x == y && ParseDigits(a') == ParseDigits(b');
      ParseDigitsInjective(a', b');
      assert a[|a| - 1] == b[|b| - 1];
      assert a == a' + [a[|a| - 1]] && b == b' + [b[|b| - 1]];
    }
  }

  /** Rendering is injective. */
  lemma DecimalInjective(m: nat, n: nat)
    requires Decimal(m) == Decimal(n)
    ensures m == n
  {
    ParseDecimal(m);
    ParseDecimal(n);
  }

  /** `String.prototype.padStart(width, fill)`: left-pads to `width` and never truncates. */
  function PadStart(s: string, width: nat, fill: char): (r: string)
    ensures |r| == if |s| >= width then |s| else width
    ensures r[|r| - |s|..] == s
    ensures forall i :: 0 <= i < |r| - |s| ==> r[i] == fill
  {
    if |s| >= width then s else seq(width - |s|, _ => fill) + s
  }

  /** Zero-padding a rendered number to four places keeps it a digit string of the same value. */
  lemma PadDecimal4(n: nat)
    ensures AllDigits(PadStart(Decimal(n), 4, '0'))
    ensures ParseDigits(PadStart(Decimal(n), 4, '0')) == n
    ensures |PadStart(Decimal(n), 4, '0')| == 4 <==> n < 10000
  {
    var d := Decimal(n);
    ParseDecimal(n);
    DecimalLength(n, 4);
    assert Pow10(4) == 10000;
    if |d| < 4 {
      var z := seq(4 - |d|, _ => '0');
      ParseZeros(4 - |d|);
      ParseAppend(z, d);
      assert ParseDigits(z) * Pow10(|d|) == 0;
      assert PadStart(d, 4, '0') == z + d;
    } else {
      assert PadStart(d, 4, '0') == d;
    }
  }

  /** `Number.prototype.toString` on an integer: a minus sign, then the digits of the magnitude. */
  function IntString(i: int): (s: string)
    ensures |s| >= 1
    ensures (s[0] == '-') == (i < 0)
  {
    if i < 0 then "-" + Decimal(-i) else Decimal(i)
  }

  lemma IntStringInjective(i: int, j: int)
    requires IntString(i) == IntString(j)
    ensures i == j
  {
    if i < 0 {
      assert IntString(i)[1..] == Decimal(-i) && IntString(j)[1..] == Decimal(-j);
      DecimalInjective(-i, -j);
    } else {
      DecimalInjective(i, j);
    }
  }

  /** A concatenation with a common prefix determines its suffix. */
  lemma CancelPrefix(a: string, x: string, y: string)
    requires a + x == a + y
    ensures x == y
  {
    assert x == (a + x)[|a|..] && y == (a + y)[|a|..];
  }

  /**
   * ECMAScript's white space and line terminators, the characters
   * `String.prototype.trim` removes.
   */
  predicate IsJsWhitespace(c: char)
  {
    c == '\t' || c == '\n' || c == '\U{B}' || c == '\U{C}' || c == '\r' || c == ' '
    || c == '\U{A0}' || c == '\U{1680}' || ('\U{2000}' <= c <= '\U{200A}')
    || c == '\U{2028}' || c == '\U{2029}' || c == '\U{202F}' || c == '\U{205F}'
    || c == '\U{3000}' || c == '\U{FEFF}'
  }

  /**
   * The characters for which Python's `str.isspace` holds, the ones `str.strip()`
   * removes. Unlike JavaScript it includes U+001C..U+001F and U+0085, and not U+FEFF.
   */
  predicate IsPyWhitespace(c: char)
  {
    ('\t' <= c <= '\r') || ('\U{1C}' <= c <= ' ')
    || c == '\U{85}' || c == '\U{A0}' || c == '\U{1680}' || ('\U{2000}' <= c <= '\U{200A}')
    || c == '\U{2028}' || c == '\U{2029}' || c == '\U{202F}' || c == '\U{205F}'
    || c == '\U{3000}'
  }

  /** Drops the leading characters satisfying `ws`. */
  function TrimStart(s: string, ws: char -> bool): (r: string)
    ensures |r| <= |s| && r == s[|s| - |r|..]
    ensures forall i :: 0 <= i < |s| - |r| ==> ws(s[i])
    ensures r == [] || !ws(r[0])
  {
    if s != [] && ws(s[0]) then
      var r := TrimStart(s[1..], ws);
      assert s[1..][|s| - 1 - |r|..] == s[|s| - |r|..];
      assert forall i :: 1 <= i < |s| - |r| ==> s[i] == s[1..][i - 1];
      r
    else s
  }

  /** Drops the trailing characters satisfying `ws`. */
  function TrimEnd(s: string, ws: char -> bool): (r: string)
    ensures |r| <= |s| && r == s[..|r|]
    ensures forall i :: |r| <= i < |s| ==> ws(s[i])
    ensures r == [] || !ws(r[|r| - 1])
  {
    if s != [] && ws(s[|s| - 1]) then TrimEnd(s[..|s| - 1], ws) else s
  }

  /** Every character of `s` satisfies `ws`. */
  predicate AllSatisfy(s: string, ws: char -> bool) { forall i :: 0 <= i < |s| ==> ws(s[i]) }

  /** `r` is the slice of `s` from `a`, with only characters satisfying `ws` before and after it. */
  predicate SliceBetweenRuns(s: string, r: string, a: int, ws: char -> bool)
  {
    0 <= a && a + |r| <= |s| && r == s[a..a + |r|] && AllSatisfy(s[..a], ws) && AllSatisfy(s[a + |r|..], ws)
  }

  /** How many characters satisfying `ws` lead `s`. */
  function LeadingRun(s: string, ws: char -> bool): nat
  {
    |s| - |TrimStart(s, ws)|
  }

  /**
   * Drops leading and trailing characters satisfying `ws`: what is left is the
   * slice of `s` after its leading run, with only such characters after it,
   * and it neither starts nor ends with one.
   */
  function Trim(s: string, ws: char -> bool): (r: string)
    ensures SliceBetweenRuns(s, r, LeadingRun(s, ws), ws)
    ensures r == [] || (!ws(r[0]) && !ws(r[|r| - 1]))
    ensures |r| <= |s|
  {
    var t := TrimStart(s, ws);
    var r := TrimEnd(t, ws);
    TrimPasses(s, t, r, ws);
    r
  }

  /** The two passes of Trim compose: a suffix cut after a leading run, then a prefix cut before a trailing run. */
  lemma TrimPasses(s: string, t: string, r: string, ws: char -> bool)
    requires |t| <= |s| && t == s[|s| - |t|..] && (forall i :: 0 <= i < |s| - |t| ==> ws(s[i]))
    requires t == [] || !ws(t[0])
    requires |r| <= |t| && r == t[..|r|] && (forall i :: |r| <= i < |t| ==> ws(t[i]))
    requires r == [] || !ws(r[|r| - 1])
    ensures SliceBetweenRuns(s, r, |s| - |t|, ws)
    ensures r == [] || (!ws(r[0]) && !ws(r[|r| - 1]))
  {
    assert r != [] ==> r[0] == t[0];
    var a := |s| - |t|;
    assert r == s[a..a + |r|];
    assert AllSatisfy(s[..a], ws);
    assert AllSatisfy(s[a + |r|..], ws) by {
      var u := s[a + |r|..];
      forall i | 0 <= i < |u| ensures ws(u[i]) {
        assert u[i] == t[|r| + i];
      }
    }
  }

  /** Trimming leaves nothing exactly when every character of `s` satisfies `ws`. */
  lemma TrimEmpty(s: string, ws: char -> bool)
    ensures Trim(s, ws) == [] <==> AllSatisfy(s, ws)
  {
    var r := Trim(s, ws);
    var a := LeadingRun(s, ws);
    if r == [] {
      forall i | 0 <= i < |s| ensures ws(s[i]) {
        assert s[i] == (s[..a] + s[a..])[i];
      }
    }
  }

  /** Trimming a string that neither starts nor ends with white space changes nothing. */
  lemma TrimUnchanged(s: string, ws: char -> bool)
    requires s == [] || (!ws(s[0]) && !ws(s[|s| - 1]))
    ensures Trim(s, ws) == s
  {
    assert TrimStart(s, ws) == s;
    assert TrimEnd(s, ws) == s;
  }

  /** Trimming twice is trimming once. */
  lemma TrimIdempotent(s: string, ws: char -> bool)
    ensures Trim(Trim(s, ws), ws) == Trim(s, ws)
  {
    TrimUnchanged(Trim(s, ws), ws);
  }

  /** JavaScript `s.trim()`: the slice of `s` between its leading and trailing white space. */
  function JsTrim(s: string): (r: string)
    ensures r == [] || (!IsJsWhitespace(r[0]) && !IsJsWhitespace(r[|r| - 1]))
  {
    Trim(s, IsJsWhitespace)
  }

  /** Python `s.strip()` with no argument: the slice of `s` between its leading and trailing white space. */
  function PyStrip(s: string): (r: string)
    ensures r == [] || (!IsPyWhitespace(r[0]) && !IsPyWhitespace(r[|r| - 1]))
  {
    Trim(s, IsPyWhitespace)
  }
}
