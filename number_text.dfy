/** The number handling the calculator relies on, over exact reals:
    JavaScript's `Math.round`, rounding to hundredths as
    `Math.round(x * 100) / 100`, `Number.prototype.toFixed(2)`, and a plain
    decimal reader standing in for `parseFloat`. */
module NumberText {
  import opened Wrappers

  // ---------------------------------------------------------------------------
  // Rounding

  /** `Math.round`: the integer nearest to `y`; a half goes toward +infinity. */
  function MathRound(y: real): (n: int)
    ensures n as real - 0.5 <= y < n as real + 0.5
  {
    (y + 0.5).Floor
  }

  /** `Math.round(x * 100) / 100`: `x` rounded to a whole number of hundredths. */
  function Round2(x: real): (r: real)
    ensures r - 0.005 <= x < r + 0.005
    ensures (r * 100.0).Floor as real == r * 100.0
  {
    MathRound(x * 100.0) as real / 100.0
  }

  /** Rounding to hundredths preserves order. */
  lemma Round2Monotone(x: real, y: real)
    requires x <= y
    ensures Round2(x) <= Round2(y)
  {
    var m, n := MathRound(x * 100.0), MathRound(y * 100.0);
    assert m as real < n as real + 1.0;
    assert m <= n;
  }

  /** A value that already is a whole number of hundredths is left alone. */
  lemma Round2Fixes(n: int)
    ensures Round2(n as real / 100.0) == n as real / 100.0
  {
    var x := n as real / 100.0;
    assert x * 100.0 == n as real;
    MathRoundWhole(n);
  }

  lemma MathRoundWhole(n: int)
    ensures MathRound(n as real) == n
  {
    var m := MathRound(n as real);
    assert m as real - 0.5 <= n as real < m as real + 0.5;
  }

  /** Rounding twice is rounding once. */
  lemma Round2Idempotent(x: real)
    ensures Round2(Round2(x)) == Round2(x)
  {
    Round2Fixes(MathRound(x * 100.0));
  }

  // ---------------------------------------------------------------------------
  // Digits

  predicate IsDigit(c: char) {
    '0' <= c <= '9'
  }

  predicate AllDigits(s: string) {
    forall i | 0 <= i < |s| :: IsDigit(s[i])
  }

  function DigitChar(d: nat): (c: char)
    requires d < 10
    ensures IsDigit(c) && c as int - '0' as int == d
  {
    ('0' as int + d) as char
  }

  /** The number a string of decimal digits denotes (the empty string denotes 0). */
  function DigitsValue(s: string): nat
    requires AllDigits(s)
  {
    if s == [] then 0 else 10 * DigitsValue(s[..|s| - 1]) + (s[|s| - 1] as int - '0' as int)
  }

  /** The decimal digits of `k`, without leading zeros. */
  function NatDigits(k: nat): (s: string)
    ensures 0 < |s| && AllDigits(s)
  {
    if k < 10 then [DigitChar(k)] else NatDigits(k / 10) + [DigitChar(k % 10)]
  }

  lemma {:induction false} NatDigitsValue(k: nat)
    ensures DigitsValue(NatDigits(k)) == k
  {
    if k >= 10 {
      NatDigitsValue(k / 10);
      var s := NatDigits(k);
      assert s[..|s| - 1] == NatDigits(k / 10);
    }
  }

  function Pow10(n: nat): (p: nat)
    ensures 0 < p
  {
    if n == 0 then 1 else 10 * Pow10(n - 1)
  }

  // ---------------------------------------------------------------------------
  // Number.prototype.toFixed(2)

  /** The text of `m / 100` with exactly two digits after the point. */
  function HundredthsText(m: nat): string {
    NatDigits(m / 100) + "." + [DigitChar(m % 100 / 10), DigitChar(m % 100 % 10)]
  }

  /** `x.toFixed(2)` over exact reals: the sign is taken off first, then the
      integer `n` with `n / 100` nearest to the magnitude is chosen (the larger
      one on a tie) and written with two fraction digits. */
  function ToFixed2(x: real): (s: string)
    ensures 4 <= |s| && s[|s| - 3] == '.' && IsDigit(s[|s| - 2]) && IsDigit(s[|s| - 1])
    ensures s[0] == '-' <==> x < 0.0
  {
    if x < 0.0 then "-" + HundredthsText(MathRound(-x * 100.0))
    else HundredthsText(MathRound(x * 100.0))
  }

  // ---------------------------------------------------------------------------
  // Reading a decimal number

  /** The position of the first '.' in `s`, or `|s|` when there is none. */
  function DotIndex(s: string): (k: nat)
    ensures k <= |s|
    ensures forall i | 0 <= i < k :: s[i] != '.'
    ensures k < |s| ==> s[k] == '.'
  {
    if s == [] || s[0] == '.' then 0 else 1 + DotIndex(s[1..])
  }

  /** Digits, optionally followed by '.' and more digits, at least one digit in all. */
  function ParseUnsigned(s: string): Option<real> {
    var k := DotIndex(s);
    var whole := s[..k];
    var fraction := if k < |s| then s[k + 1..] else "";
    if AllDigits(whole) && AllDigits(fraction) && 0 < |whole| + |fraction| then
      Some(DigitsValue(whole) as real + DigitsValue(fraction) as real / Pow10(|fraction|) as real)
    else
      None
  }

  /** An optional '-' followed by an unsigned decimal; `None` stands for NaN.
      This is a plain decimal reader, not JavaScript's full `parseFloat`. */
  function ParseDecimal(s: string): (v: Option<real>)
    ensures s == "" ==> v == None
    ensures v.Some? && s[0] != '-' ==> 0.0 <= v.value
  {
    if 0 < |s| && s[0] == '-' then
      match ParseUnsigned(s[1..])
      case Some(u) => Some(-u)
      case None => None
    else
      ParseUnsigned(s)
  }

  lemma DotIndexAfterDigits(w: string, t: string)
    requires AllDigits(w)
    ensures DotIndex(w + "." + t) == |w|
  {
    var s := w + "." + t;
    assert s[|w|] == '.';
    assert forall i | 0 <= i < |w| :: s[i] == w[i] && IsDigit(s[i]);
  }

  lemma TwoDigitsValue(r: nat)
    requires r < 100
    ensures DigitsValue([DigitChar(r / 10), DigitChar(r % 10)]) == r
  {
    var f := [DigitChar(r / 10), DigitChar(r % 10)];
    assert f[..1] == [f[0]] && [f[0]][..0] == [];
    assert DigitsValue([f[0]]) == r / 10;
  }

  lemma HundredthsTextValue(m: nat)
    ensures ParseUnsigned(HundredthsText(m)) == Some(m as real / 100.0)
  {
    var q, r := m / 100, m % 100;
    var w := NatDigits(q);
    var f := [DigitChar(r / 10), DigitChar(r % 10)];
    var s := HundredthsText(m);
    assert s == w + "." + f;
    DotIndexAfterDigits(w, f);
    assert s[..|w|] == w;
    assert s[|w| + 1..] == f;
    NatDigitsValue(q);
    TwoDigitsValue(r);
    assert Pow10(2) == 100;
    assert ParseUnsigned(s) == Some(q as real + r as real / 100.0);
    HundredthsArithmetic(m);
  }

  lemma HundredthsArithmetic(m: nat)
    ensures (m / 100) as real + (m % 100) as real / 100.0 == m as real / 100.0
  {
    assert m == 100 * (m / 100) + m % 100;
  }

  /** `toFixed(2)` of a whole number of hundredths writes that number of
      hundredths, after a '-' when it is negative. */
  lemma ToFixed2OfHundredths(n: int)
    ensures ToFixed2(n as real / 100.0) == if n < 0 then "-" + HundredthsText(-n) else HundredthsText(n)
  {
    var x := n as real / 100.0;
    assert x * 100.0 == n as real;
    if n < 0 {
      assert -x * 100.0 == (-n) as real;
      MathRoundWhole(-n);
    } else {
      MathRoundWhole(n);
    }
  }

  /** What `toFixed(2)` shows for a value already rounded to hundredths reads
      back as exactly that value. */
  lemma ToFixed2RoundTrip(n: int)
    ensures ParseDecimal(ToFixed2(n as real / 100.0)) == Some(n as real / 100.0)
  {
    ToFixed2OfHundredths(n);
    if n < 0 {
      NegativeRoundTrip(-n);
    } else {
      HundredthsTextValue(n);
    }
  }

  lemma NegativeRoundTrip(m: nat)
    ensures ParseDecimal("-" + HundredthsText(m)) == Some(-(m as real / 100.0))
  {
    HundredthsTextValue(m);
    ParseNegated(HundredthsText(m));
  }

  /** A '-' in front of an unsigned decimal negates its value. */
  lemma ParseNegated(t: string)
    ensures ParseDecimal("-" + t) == match ParseUnsigned(t) case Some(u) => Some(-u) case None => None
  {
    assert ("-" + t)[1..] == t;
  }

  /** The text `Math.round(x * 100) / 100` followed by `toFixed(2)` produces
      denotes the rounded value. */
  lemma DisplayedValue(x: real)
    ensures ParseDecimal(ToFixed2(Round2(x))) == Some(Round2(x))
  {
    var n := MathRound(x * 100.0);
    var r := Round2(x);
    assert r == n as real / 100.0;
    ToFixed2RoundTrip(n);
  }

  /** For a non-negative value the explicit rounding before `toFixed(2)`
      changes nothing: `toFixed(2)` alone shows the same text. */
  lemma ToFixed2AbsorbsRound2(x: real)
    requires 0.0 <= x
    ensures ToFixed2(Round2(x)) == ToFixed2(x)
  {
    var n := MathRound(x * 100.0);
    assert 0 <= n;
    assert Round2(x) == n as real / 100.0;
    ToFixed2OfHundredths(n);
    assert ToFixed2(Round2(x)) == HundredthsText(n);
    assert ToFixed2(x) == HundredthsText(n);
  }
}
