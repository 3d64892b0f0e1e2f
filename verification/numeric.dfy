/**
 * Numbers as the Python sources use them: decimal text for `float(...)`, fixed-point
 * rendering for `f"{x:.3f}"` and `round(x, k)`, truncation for `int(x)`, and the
 * `float("-inf")` sentinel. Floats are modelled as exact reals.
 */
module Numeric {
  import opened Wrappers
  import opened Text

  function Pow10(n: nat): (r: nat)
    ensures r >= 1
  {
    if n == 0 then 1 else 10 * Pow10(n - 1)
  }

  function DigitValue(c: char): nat
    requires IsDigit(c)
  {
    c as int - '0' as int
  }

  function DigitChar(d: nat): (c: char)
    requires d < 10
    ensures IsDigit(c) && DigitValue(c) == d
  {
    ('0' as int + d) as char
  }

  predicate AllDigits(s: string) {
    forall i :: 0 <= i < |s| ==> IsDigit(s[i])
  }

  /** The value of a run of decimal digits, most significant first. */
  function DigitsValue(s: string): nat
    requires AllDigits(s)
  {
    if s == [] then 0 else DigitsValue(s[..|s| - 1]) * 10 + DigitValue(s[|s| - 1])
  }

  /** Python's `str(n)` for a natural number. */
  function NatToString(n: nat): (s: string)
    ensures s != [] && AllDigits(s)
  {
    if n < 10 then [DigitChar(n)] else NatToString(n / 10) + [DigitChar(n % 10)]
  }

  /** Python's `str(i)` for an integer. */
  function IntToString(i: int): (s: string)
    ensures s != []
  {
    if i < 0 then "-" + NatToString(-i) else NatToString(i)
  }

  lemma {:induction false} NatToStringValue(n: nat)
    ensures DigitsValue(NatToString(n)) == n
  {
    var s := NatToString(n);
    if n >= 10 {
      NatToStringValue(n / 10);
      assert s[..|s| - 1] == NatToString(n / 10);
    }
  }

  lemma {:induction false} NatToStringLength(n: nat, k: nat)
    requires k >= 1 && n < Pow10(k)
    ensures |NatToString(n)| <= k
  {
    if n >= 10 {
      assert k >= 2;
      assert n / 10 < Pow10(k - 1);
      NatToStringLength(n / 10, k - 1);
    }
  }

  function Zeros(n: nat): (s: string)
    ensures |s| == n && AllDigits(s)
    ensures forall i :: 0 <= i < n ==> s[i] == '0'
  {
    if n == 0 then [] else "0" + Zeros(n - 1)
  }

  /** Left-pads a digit string with zeros up to width `k`. */
  function PadZeros(s: string, k: nat): (r: string)
    requires AllDigits(s)
    ensures AllDigits(r) && |r| == if |s| < k then k else |s|
  {
    if |s| < k then Zeros(k - |s|) + s else s
  }

  lemma {:induction false} LeadingZerosValue(z: nat, s: string)
    requires AllDigits(s)
    ensures DigitsValue(Zeros(z) + s) == DigitsValue(s)
    decreases |s|
  {
    if s == [] {
      ZerosValue(Zeros(z));
      assert Zeros(z) + s == Zeros(z);
    } else {
      var t := Zeros(z) + s;
      assert t[..|t| - 1] == Zeros(z) + s[..|s| - 1];
      LeadingZerosValue(z, s[..|s| - 1]);
    }
  }

  lemma {:induction false} ZerosValue(s: string)
    requires forall i :: 0 <= i < |s| ==> s[i] == '0'
    ensures AllDigits(s) && DigitsValue(s) == 0
  {
    if s != [] {
      ZerosValue(s[..|s| - 1]);
    }
  }

  /** End of the maximal run of digits starting at `i`. */
  function SpanDigits(s: string, i: nat): (j: nat)
    requires i <= |s|
    decreases |s| - i
    ensures i <= j <= |s| && (j == |s| || !IsDigit(s[j]))
    ensures forall k :: i <= k < j ==> IsDigit(s[k])
  {
    if i < |s| && IsDigit(s[i]) then SpanDigits(s, i + 1) else i
  }

  /** The index just past the run of `\s` characters starting at `i`. */
  function SkipSpace(s: string, i: nat): (j: nat)
    requires i <= |s|
    decreases |s| - i
    ensures i <= j <= |s| && (j == |s| || !IsSpace(s[j]))
    ensures forall k :: i <= k < j ==> IsSpace(s[k])
  {
    if i < |s| && IsSpace(s[i]) then SkipSpace(s, i + 1) else i
  }

  /** `y * 10^k`, one linear step at a time. */
  function ScaleUp(y: real, k: nat): (r: real)
    ensures y >= 0.0 ==> r >= 0.0
  {
    if k == 0 then y else 10.0 * ScaleUp(y, k - 1)
  }

  /** `y / 10^k`, one linear step at a time. */
  function ScaleDown(y: real, k: nat): real {
    if k == 0 then y else ScaleDown(y, k - 1) / 10.0
  }

  function Scale(m: real, e: int): real {
    if e >= 0 then ScaleUp(m, e) else ScaleDown(m, -e)
  }

  /**
   * Python's `float(s)` on ASCII decimal text: surrounding whitespace, an optional sign,
   * digits with an optional fraction (at least one digit in all), and an optional
   * exponent. `None` is the `ValueError` Python raises.
   */
  function ParseFloat(s: string): (r: Option<real>)
    ensures Strip(s) == [] ==> r.None?
  {
    ParseTrimmed(Strip(s))
  }

  /** `float` of text that has already been stripped. */
  function ParseTrimmed(t: string): Option<real> {
    if t == [] then None
    else
      var body := if t[0] == '-' || t[0] == '+' then t[1..] else t;
      match ParseUnsigned(body)
      case None => None
      case Some(v) => Some(if t[0] == '-' then -v else v)
  }

  lemma {:induction false} ParseFloatTrimmed(s: string)
    requires s != [] && !IsSpace(s[0]) && !IsSpace(s[|s| - 1])
    ensures ParseFloat(s) == ParseTrimmed(s)
  {
    StripNoop(s);
  }

  function ParseUnsigned(t: string): Option<real> {
    var a := SpanDigits(t, 0);
    var hasDot := a < |t| && t[a] == '.';
    var b := if hasDot then SpanDigits(t, a + 1) else a;
    var fracDigits := if hasDot then b - (a + 1) else 0;
    if a + fracDigits == 0 then None
    else
      var mant := DigitsValue(t[..a]) as real + ScaleDown(DigitsValue(t[b - fracDigits..b]) as real, fracDigits);
      if b == |t| then Some(mant)
      else if t[b] == 'e' || t[b] == 'E' then
        match ParseExponent(t[b + 1..])
        case None => None
        case Some(e) => Some(Scale(mant, e))
      else None
  }

  function ParseExponent(t: string): Option<int> {
    var ds := if t != [] && (t[0] == '-' || t[0] == '+') then t[1..] else t;
    if ds != [] && AllDigits(ds) then
      Some(if t[0] == '-' then -(DigitsValue(ds) as int) else DigitsValue(ds))
    else None
  }

  /** The characters decimal text may hold between its surrounding white space. */
  predicate FloatChar(c: char) {
    IsDigit(c) || c == '+' || c == '-' || c == '.' || c == 'e' || c == 'E'
  }

  lemma {:induction false} ExponentChars(t: string)
    requires ParseExponent(t).Some?
    ensures forall k :: 0 <= k < |t| ==> FloatChar(t[k])
  {
    var ds := if t != [] && (t[0] == '-' || t[0] == '+') then t[1..] else t;
    forall k | 0 <= k < |t| ensures FloatChar(t[k]) {
      if ds != t && k > 0 {
        assert t[k] == ds[k - 1];
      }
    }
  }

  /** Where the integer digits, the fraction and the exponent of accepted unsigned text lie. */
  lemma {:induction false} UnsignedParts(t: string) returns (a: nat, b: nat)
    requires ParseUnsigned(t).Some?
    ensures a <= b <= |t| && (a > 0 || a + 1 < b)
    ensures forall k :: 0 <= k < a ==> IsDigit(t[k])
    ensures a < b ==> t[a] == '.' && forall k :: a < k < b ==> IsDigit(t[k])
    ensures b < |t| ==> (t[b] == 'e' || t[b] == 'E') && ParseExponent(t[b + 1..]).Some?
  {
    a := SpanDigits(t, 0);
    var hasDot := a < |t| && t[a] == '.';
    b := if hasDot then SpanDigits(t, a + 1) else a;
  }

  lemma {:induction false} UnsignedChars(t: string, a: nat, b: nat)
    requires a <= b <= |t| && (a > 0 || a + 1 < b)
    requires forall k :: 0 <= k < a ==> IsDigit(t[k])
    requires a < b ==> t[a] == '.' && forall k :: a < k < b ==> IsDigit(t[k])
    requires b < |t| ==> (t[b] == 'e' || t[b] == 'E') && ParseExponent(t[b + 1..]).Some?
    ensures forall k :: 0 <= k < |t| ==> FloatChar(t[k])
    ensures exists k :: 0 <= k < |t| && IsDigit(t[k])
  {
    if a > 0 {
      assert IsDigit(t[0]);
    } else {
      assert IsDigit(t[a + 1]);
    }
    if b < |t| {
      ExponentChars(t[b + 1..]);
    }
    forall k | 0 <= k < |t| ensures FloatChar(t[k]) {
      if b < k {
        assert t[k] == t[b + 1..][k - (b + 1)];
      }
    }
  }

  /**
   * What `float()` accepts here: after stripping, only ASCII digits, signs, a point and an
   * exponent letter, with at least one digit.
   */
  lemma {:induction false} ParseFloatChars(s: string)
    requires ParseFloat(s).Some?
    ensures forall k :: 0 <= k < |Strip(s)| ==> FloatChar(Strip(s)[k])
    ensures exists k :: 0 <= k < |Strip(s)| && IsDigit(Strip(s)[k])
  {
    var t := Strip(s);
    var body := if t[0] == '-' || t[0] == '+' then t[1..] else t;
    var a, b := UnsignedParts(body);
    UnsignedChars(body, a, b);
    if body != t {
      SignedChars(t);
    }
  }

  /** A sign in front of accepted characters with a digit among them keeps both facts. */
  lemma SignedChars(t: string)
    requires t != [] && (t[0] == '-' || t[0] == '+')
    requires forall k :: 0 <= k < |t[1..]| ==> FloatChar(t[1..][k])
    requires exists k :: 0 <= k < |t[1..]| && IsDigit(t[1..][k])
    ensures forall k :: 0 <= k < |t| ==> FloatChar(t[k])
    ensures exists k :: 0 <= k < |t| && IsDigit(t[k])
  {
    var k0 :| 0 <= k0 < |t[1..]| && IsDigit(t[1..][k0]);
    assert IsDigit(t[k0 + 1]);
    forall k | 0 <= k < |t| ensures FloatChar(t[k]) {
      if k > 0 {
        assert t[k] == t[1..][k - 1];
      }
    }
  }

  /** Rounds a non-negative real to the nearest integer, ties to even (Python's rule). */
  function RoundHalfEven(y: real): (n: nat)
    requires y >= 0.0
    ensures (n as real) - y <= 0.5 && y - (n as real) <= 0.5
  {
    var f := y.Floor;
    var rest := y - f as real;
    if rest > 0.5 then f + 1
    else if rest < 0.5 then f
    else if f % 2 == 0 then f else f + 1
  }

  function Abs(x: real): real { if x < 0.0 then -x else x }

  /** The magnitude of `x` in units of 10^-k, rounded half to even. */
  function Units(x: real, k: nat): nat {
    RoundHalfEven(ScaleUp(Abs(x), k))
  }

  /** Python's `round(x, k)`, and the value printed by `f"{x:.kf}"`. */
  function Rounded(x: real, k: nat): real {
    Signed(x < 0.0, ScaleDown(Units(x, k) as real, k))
  }

  /**
   * Python's `f"{x:.kf}"`: the rounded magnitude written with at least `k + 1` digits,
   * a point before the last `k` of them (none when `k` is 0), and a minus sign for a
   * negative `x` (so a tiny negative value prints as `-0.000`).
   */
  function FormatFixed(x: real, k: nat): (s: string)
    ensures s != []
  {
    FormatUnits(x < 0.0, Units(x, k), k)
  }

  /** `u` units of 10^-k, written with at least `k + 1` digits and a point before the last `k`. */
  function FormatUnits(neg: bool, u: nat, k: nat): (s: string)
    ensures s != []
  {
    var t := PadZeros(NatToString(u), k + 1);
    (if neg then "-" else "") + t[..|t| - k] + (if k == 0 then "" else "." + t[|t| - k..])
  }

  lemma {:induction false} DigitsValueConcat(a: string, f: string)
    requires AllDigits(a) && AllDigits(f)
    ensures AllDigits(a + f) && DigitsValue(a + f) == DigitsValue(a) * Pow10(|f|) + DigitsValue(f)
  {
    if f == [] {
      assert a + f == a;
    } else {
      var g := f[..|f| - 1];
      var af := a + f;
      assert af[..|af| - 1] == a + g;
      assert af[|af| - 1] == f[|f| - 1];
      DigitsValueConcat(a, g);
      var d := DigitValue(f[|f| - 1]);
      assert DigitsValue(af) == DigitsValue(a + g) * 10 + d;
      assert DigitsValue(f) == DigitsValue(g) * 10 + d;
      assert Pow10(|f|) == Pow10(|g|) * 10;
      ShiftDigit(DigitsValue(a), Pow10(|g|), DigitsValue(g), d);
    }
  }

  /** Appending a digit to `x * p + y` shifts both parts by one place. */
  lemma ShiftDigit(x: int, p: int, y: int, d: int)
    ensures (x * p + y) * 10 + d == x * (p * 10) + (y * 10 + d)
  {
  }

  lemma {:induction false} ScaleDownLinear(a: real, b: real, k: nat)
    ensures ScaleDown(a, k) - ScaleDown(b, k) == ScaleDown(a - b, k)
    ensures a <= b ==> ScaleDown(a, k) <= ScaleDown(b, k)
  {
    if k > 0 { ScaleDownLinear(a, b, k - 1); }
  }

  lemma {:induction false} ScaleRoundTrip(y: real, k: nat)
    ensures ScaleDown(ScaleUp(y, k), k) == y
  {
    if k > 0 {
      ScaleDownOfTen(ScaleUp(y, k - 1), k);
      ScaleRoundTrip(y, k - 1);
    }
  }

  lemma {:induction false} ScaleDownOfTen(y: real, k: nat)
    requires k >= 1
    ensures ScaleDown(10.0 * y, k) == ScaleDown(y, k - 1)
  {
    if k > 1 { ScaleDownOfTen(y, k - 1); }
  }

  lemma {:induction false} ScaleUpNeg(y: real, k: nat)
    ensures ScaleUp(-y, k) == -ScaleUp(y, k) && ScaleDown(-y, k) == -ScaleDown(y, k)
  {
    if k > 0 { ScaleUpNeg(y, k - 1); }
  }

  lemma {:induction false} ScaleUpIsProduct(y: real, k: nat)
    ensures ScaleUp(y, k) == y * Pow10(k) as real
  {
    if k > 0 {
      ScaleUpIsProduct(y, k - 1);
      assert 10.0 * (y * Pow10(k - 1) as real) == y * (10 * Pow10(k - 1)) as real;
    }
  }

  /** `(q * 10^k + r) / 10^k` reads back as `q + r / 10^k`. */
  lemma {:induction false} ScaleDownSplit(q: nat, r: nat, k: nat)
    ensures ScaleDown((q * Pow10(k) + r) as real, k) == q as real + ScaleDown(r as real, k)
  {
    ScaleUpIsProduct(q as real, k);
    assert (q * Pow10(k) + r) as real == ScaleUp(q as real, k) + r as real;
    ScaleDownLinear(ScaleUp(q as real, k) + r as real, r as real, k);
    ScaleRoundTrip(q as real, k);
  }

  /** Rounding never moves a value by more than half a unit in the last place. */
  lemma {:induction false} RoundedError(x: real, k: nat)
    ensures Abs(Rounded(x, k) - x) <= ScaleDown(0.5, k)
  {
    var y := ScaleUp(Abs(x), k);
    var u := Units(x, k) as real;
    ScaleDownLinear(u, y, k);
    ScaleDownLinear(u - y, 0.5, k);
    ScaleDownLinear(y - u, 0.5, k);
    ScaleDownLinear(y, u, k);
    ScaleRoundTrip(Abs(x), k);
    ScaleUpNeg(u, k);
    assert ScaleDown(0.0, k) == 0.0 by { ScaleDownLinear(0.0, 0.0, k); }
  }

  /** A value already on the 10^-k grid (`x * 10^k` is the integer `n`) is rendered exactly. */
  lemma {:induction false} RoundedExact(x: real, k: nat, n: int)
    requires ScaleUp(x, k) == n as real
    ensures Rounded(x, k) == x
  {
    var m := if n < 0 then -n else n;
    ScaleUpNeg(x, k);
    assert ScaleUp(Abs(x), k) == m as real by {
      if x < 0.0 {
        ScaleUpSign(-x, k);
      } else {
        ScaleUpSign(x, k);
      }
    }
    assert (m as real).Floor == m;
    assert Units(x, k) == m;
    ScaleRoundTrip(Abs(x), k);
    ScaleUpNeg(m as real, k);
  }

  lemma {:induction false} ScaleUpSign(y: real, k: nat)
    requires y >= 0.0
    ensures ScaleUp(y, k) >= 0.0
  {
  }

  /** `d.f` with digit runs `d` and `f` parses to `d + f / 10^|f|`. */
  lemma {:induction false} ParseDotted(d: string, f: string, w: real)
    requires d != [] && f != [] && AllDigits(d) && AllDigits(f)
    requires DigitsValue(d) as real + ScaleDown(DigitsValue(f) as real, |f|) == w
    ensures ParseUnsigned(d + "." + f) == Some(w)
  {
    var body := d + "." + f;
    DottedSpans(d, f);
    var a := SpanDigits(body, 0);
    assert a == |d|;
    assert a < |body| && body[a] == '.';
    var b := SpanDigits(body, a + 1);
    assert b == |body|;
    assert body[..a] == d;
    assert body[b - (b - (a + 1))..b] == f;
    assert ParseUnsigned(body) == Some(w);
  }

  lemma {:induction false} DottedSpans(d: string, f: string)
    requires AllDigits(d) && AllDigits(f)
    ensures SpanDigits(d + "." + f, 0) == |d|
    ensures SpanDigits(d + "." + f, |d| + 1) == |d| + 1 + |f|
  {
    var body := d + "." + f;
    assert body[|d|] == '.';
  }

  /** The rendering is a sign, then digits `d`, a point and `k` digits `f`, with `d f` spelling the units. */
  lemma {:induction false} FormatFixedShape(neg: bool, u: nat, k: nat) returns (d: string, f: string)
    requires k >= 1
    ensures d != [] && |f| == k && AllDigits(d) && AllDigits(f)
    ensures FormatUnits(neg, u, k) == (if neg then "-" else "") + d + "." + f
    ensures d + f == PadZeros(NatToString(u), k + 1)
  {
    var n := NatToString(u);
    var t := PadZeros(n, k + 1);
    d := t[..|t| - k];
    f := t[|t| - k..];
    assert FormatUnits(neg, u, k) == (if neg then "-" else "") + d + ("." + f);
    assert d + f == t;
  }

  /** The digits of a padded rendering of `u`, read with `|f|` decimals, are worth `u / 10^|f|`. */
  lemma {:induction false} SplitUnitsValue(d: string, f: string, u: nat)
    requires AllDigits(d) && AllDigits(f)
    requires d + f == PadZeros(NatToString(u), |f| + 1)
    ensures DigitsValue(d) as real + ScaleDown(DigitsValue(f) as real, |f|) == ScaleDown(u as real, |f|)
  {
    PaddedValue(u, |f| + 1);
    DigitsValueConcat(d, f);
    ScaleDownSplitAt(DigitsValue(d), DigitsValue(f), u, |f|);
  }

  lemma {:induction false} PaddedValue(u: nat, w: nat)
    ensures DigitsValue(PadZeros(NatToString(u), w)) == u
  {
    var n := NatToString(u);
    NatToStringValue(u);
    if |n| < w { LeadingZerosValue(w - |n|, n); }
  }

  /** Reading back a fixed-point rendering gives exactly the rounded value. */
  lemma {:induction false} FormatFixedRoundTrip(x: real, k: nat)
    requires k >= 1
    ensures ParseFloat(FormatFixed(x, k)) == Some(Rounded(x, k))
  {
    FormatUnitsRoundTrip(x < 0.0, Units(x, k), k);
  }

  lemma {:induction false} FormatUnitsRoundTrip(neg: bool, u: nat, k: nat)
    requires k >= 1
    ensures ParseFloat(FormatUnits(neg, u, k)) == Some(Signed(neg, ScaleDown(u as real, k)))
  {
    var d, f := FormatFixedShape(neg, u, k);
    SplitUnitsValue(d, f, u);
    ParseSigned(neg, d, f, FormatUnits(neg, u, k), ScaleDown(u as real, k));
  }

  lemma {:induction false} ScaleDownSplitAt(q: nat, r: nat, u: nat, k: nat)
    requires q * Pow10(k) + r == u
    ensures q as real + ScaleDown(r as real, k) == ScaleDown(u as real, k)
  {
    ScaleDownSplit(q, r, k);
  }

  /** `v` with the sign `neg` applied. */
  function Signed(neg: bool, v: real): (r: real)
    ensures Abs(r) == Abs(v)
  {
    if neg then -v else v
  }

  /** An optionally signed `d.f` parses to the signed value `w` of its digits. */
  lemma {:induction false} ParseSigned(neg: bool, d: string, f: string, s: string, w: real)
    requires d != [] && f != [] && AllDigits(d) && AllDigits(f)
    requires s == (if neg then "-" else "") + d + "." + f
    requires DigitsValue(d) as real + ScaleDown(DigitsValue(f) as real, |f|) == w
    ensures ParseFloat(s) == Some(Signed(neg, w))
  {
    ParseDotted(d, f, w);
    if neg {
      ParseMinus(d + "." + f, s, w);
    } else {
      ParsePlain(d + "." + f, s, w);
    }
  }

  lemma {:induction false} ParseMinus(body: string, s: string, w: real)
    requires body != [] && IsDigit(body[0]) && IsDigit(body[|body| - 1])
    requires s == "-" + body
    requires ParseUnsigned(body) == Some(w)
    ensures ParseFloat(s) == Some(Signed(true, w))
  {
    assert s != [] && !IsSpace(s[0]) && !IsSpace(s[|s| - 1]) by {
      assert s[0] == '-' && s[|s| - 1] == body[|body| - 1];
    }
    StripNoop(s);
    assert s[1..] == body;
    NegatedTrimmed(s);
  }

  /** Text that starts with a minus parses as the negated rest. */
  lemma NegatedTrimmed(t: string)
    requires t != [] && t[0] == '-'
    ensures ParseTrimmed(t) == match ParseUnsigned(t[1..]) case None => None case Some(v) => Some(-v)
  {
  }

  lemma {:induction false} ParsePlain(body: string, s: string, w: real)
    requires body != [] && IsDigit(body[0]) && IsDigit(body[|body| - 1])
    requires s == body
    requires ParseUnsigned(body) == Some(w)
    ensures ParseFloat(s) == Some(Signed(false, w))
  {
    ParseFloatTrimmed(body);
  }

  /** `float("-inf")` or a finite float, as a profit sentinel. */
  datatype ExtReal = NegInf | Finite(r: real)

  predicate Greater(a: ExtReal, b: ExtReal) {
    a.Finite? && (b.NegInf? || a.r > b.r)
  }

  /**
   * The best-so-far of a run that starts at `start` and meets `xs` in order, a value
   * taking over only when strictly greater (`if curr > best: best = curr`).
   */
  function MaxFrom(start: ExtReal, xs: seq<ExtReal>): ExtReal
    decreases |xs|
  {
    if xs == [] then start
    else
      var m := MaxFrom(start, xs[..|xs| - 1]);
      if Greater(xs[|xs| - 1], m) then xs[|xs| - 1] else m
  }

  /** Where that best-so-far was last set: `None` while `start` still holds it. */
  function ArgFrom(start: ExtReal, xs: seq<ExtReal>): (r: Option<nat>)
    ensures r.Some? ==> r.value < |xs|
    decreases |xs|
  {
    if xs == [] then None
    else if Greater(xs[|xs| - 1], MaxFrom(start, xs[..|xs| - 1])) then Some(|xs| - 1)
    else ArgFrom(start, xs[..|xs| - 1])
  }

  /** One more value: the fold takes it exactly when it beats the best so far. */
  lemma MaxFromSnoc(start: ExtReal, xs: seq<ExtReal>, x: ExtReal)
    ensures MaxFrom(start, xs + [x]) == if Greater(x, MaxFrom(start, xs)) then x else MaxFrom(start, xs)
    ensures ArgFrom(start, xs + [x]) == if Greater(x, MaxFrom(start, xs)) then Some(|xs|) else ArgFrom(start, xs)
  {
    assert (xs + [x])[..|xs|] == xs;
  }

  /**
   * The best-so-far is the maximum: no value met, nor the start, is greater; it is the
   * start when `ArgFrom` is `None`, and otherwise the value at `ArgFrom`, which beats the
   * start and every value met before it (the first place the maximum is reached).
   */
  lemma {:induction false} MaxFromIsMax(start: ExtReal, xs: seq<ExtReal>)
    ensures !Greater(start, MaxFrom(start, xs))
    ensures forall k :: 0 <= k < |xs| ==> !Greater(xs[k], MaxFrom(start, xs))
    ensures ArgFrom(start, xs).None? ==> MaxFrom(start, xs) == start
    ensures ArgFrom(start, xs).Some? ==>
      var k := ArgFrom(start, xs).value;
      MaxFrom(start, xs) == xs[k] && Greater(xs[k], start)
      && forall j :: 0 <= j < k ==> Greater(xs[k], xs[j])
    decreases |xs|
  {
    if xs != [] {
      var init := xs[..|xs| - 1];
      MaxFromIsMax(start, init);
      assert forall k :: 0 <= k < |init| ==> xs[k] == init[k];
    }
  }

  /** Python's `int(x)` on a float: truncation toward zero. */
  function Trunc(x: real): (n: int)
    ensures Abs(x - n as real) < 1.0
    ensures (x >= 0.0 ==> 0 <= n) && (x <= 0.0 ==> n <= 0)
  {
    if x >= 0.0 then x.Floor else -((-x).Floor)
  }
}
