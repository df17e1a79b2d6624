/** Printing and reading amounts of the Filecoin token (filecoin/types.go).

An amount is an integer number of attoFIL, 10^18 to the FIL.  It is printed as an exact decimal
number of FIL without trailing zeros; the reader takes a decimal number of FIL or attoFIL of at most
50 characters.
 */
module FilAmount {
  import opened Arithmetic
  import opened Deal

  const FILECOIN_PRECISION: nat := 1_000_000_000_000_000_000
  const DECIMALS: nat := 18
  const MAX_LENGTH: nat := 50

  datatype ParseError = UnrecognizedSuffix | TooLong | NotDecimal | NotInteger
  datatype ParseResult = Ok(amount: int) | Err(error: ParseError)

  /** A rational number: an integer over a power of ten. */
  datatype Decimal = Decimal(mantissa: nat, scale: nat)

  // ---------- Decimal digits ----------

  function Pow10(k: nat): (p: nat)
    ensures p > 0
  {
    if k == 0 then 1 else 10 * Pow10(k - 1)
  }

  predicate IsDigit(c: char) {
    '0' <= c <= '9'
  }

  predicate AllDigits(s: string) {
    forall i | 0 <= i < |s| :: IsDigit(s[i])
  }

  function Digit(d: nat): (c: char)
    requires d < 10
    ensures IsDigit(c) && (c == '0' <==> d == 0)
  {
    '0' + d as char
  }

  /** The digits of `n`, the most significant first and without leading zeros. */
  function Digits(n: nat): (s: string)
    ensures s != [] && AllDigits(s)
  {
    if n < 10 then [Digit(n)] else Digits(n / 10) + [Digit(n % 10)]
  }

  /** The last `width` digits of `n`, with leading zeros. */
  function Padded(n: nat, width: nat): (s: string)
    ensures |s| == width && AllDigits(s)
  {
    if width == 0 then [] else Padded(n / 10, width - 1) + [Digit(n % 10)]
  }

  /** The number a sequence of digits writes. */
  function Value(s: string): nat
    requires AllDigits(s)
  {
    if s == [] then 0 else 10 * Value(s[..|s| - 1]) + (s[|s| - 1] - '0') as nat
  }

  lemma PowAdds(j: nat, k: nat)
    ensures Pow10(j + k) == Pow10(j) * Pow10(k)
  {
    if k > 0 {
      PowAdds(j, k - 1);
      assert Pow10(j) * (10 * Pow10(k - 1)) == 10 * (Pow10(j) * Pow10(k - 1));
    }
  }

  lemma ValueAppend(s: string, d: nat)
    requires AllDigits(s) && d < 10
    ensures Value(s + [Digit(d)]) == 10 * Value(s) + d
  {
    assert (s + [Digit(d)])[..|s|] == s;
  }

  lemma {:induction false} ValueOfDigits(n: nat)
    ensures Value(Digits(n)) == n
  {
    if n < 10 {
      assert Digits(n) == [] + [Digit(n)];
      ValueAppend([], n);
    } else {
      ValueOfDigits(n / 10);
      ValueAppend(Digits(n / 10), n % 10);
    }
  }

  lemma {:induction false} ValueOfPadded(n: nat, width: nat)
    requires n < Pow10(width)
    ensures Value(Padded(n, width)) == n
  {
    if width > 0 {
      ValueOfPadded(n / 10, width - 1);
      ValueAppend(Padded(n / 10, width - 1), n % 10);
    }
  }

  lemma ValueLast(s: string)
    requires AllDigits(s) && s != []
    ensures Value(s) == 10 * Value(s[..|s| - 1]) + (s[|s| - 1] - '0') as nat
  {
  }

  lemma Distributes(a: nat, p: nat, b: nat, d: nat)
    ensures 10 * (a * p + b) + d == a * (10 * p) + (10 * b + d)
  {
  }

  lemma {:induction false} ValueConcat(s: string, t: string)
    requires AllDigits(s) && AllDigits(t)
    ensures AllDigits(s + t)
    ensures Value(s + t) == Value(s) * Pow10(|t|) + Value(t)
  {
    if t == [] {
      assert s + t == s;
    } else {
      var init := t[..|t| - 1];
      ValueConcat(s, init);
      assert (s + t)[..|s + t| - 1] == s + init;
      ValueLast(s + t);
      ValueLast(t);
      Distributes(Value(s), Pow10(|init|), Value(init), (t[|t| - 1] - '0') as nat);
    }
  }

  // ---------- Printing ----------

  function TrimRight(s: string, c: char): (t: string)
    ensures t <= s && (t == [] || t[|t| - 1] != c)
    ensures forall i | |t| <= i < |s| :: s[i] == c
  {
    if s != [] && s[|s| - 1] == c then TrimRight(s[..|s| - 1], c) else s
  }

  /** The exact decimal number `n` / 10^18, with 18 digits after the point. */
  function FloatString(n: int): string {
    var m := if n < 0 then -n else n;
    (if n < 0 then "-" else "") + Digits(m / FILECOIN_PRECISION) + "." + Padded(m % FILECOIN_PRECISION, DECIMALS)
  }

  function Unitless(n: int): string {
    if n == 0 then "0" else TrimRight(TrimRight(FloatString(n), '0'), '.')
  }

  function ToString(n: int): string {
    Unitless(n) + " FIL"
  }

  // ---------- Reading ----------

  predicate IsNumberChar(c: char) {
    IsDigit(c) || c == '.'
  }

  predicate AllNumber(s: string) {
    forall i | 0 <= i < |s| :: IsNumberChar(s[i])
  }

  predicate IsSpace(c: char) {
    || c in "\t\n\U{000B}\U{000C}\r \U{0085}\U{00A0}\U{1680}\U{2028}\U{2029}\U{202F}\U{205F}\U{3000}"
    || '\U{2000}' <= c <= '\U{200A}'
  }

  /** Lower case, as far as ASCII letters come out of it. */
  function ToLower(c: char): char {
    if 'A' <= c <= 'Z' then c - 'A' + 'a'
    else if c == '\U{0130}' then 'i'
    else if c == '\U{212A}' then 'k'
    else c
  }

  /** How many characters at the front of `s` belong to its number. */
  function NumberLength(s: string): (k: nat)
    ensures k <= |s| && AllNumber(s[..k])
    ensures k < |s| ==> !IsNumberChar(s[k])
  {
    if s == [] || !IsNumberChar(s[0]) then 0 else 1 + NumberLength(s[1..])
  }

  function TrimSpaceLeft(s: string): string {
    if s != [] && IsSpace(s[0]) then TrimSpaceLeft(s[1..]) else s
  }

  function TrimSpaceRight(s: string): string {
    if s != [] && IsSpace(s[|s| - 1]) then TrimSpaceRight(s[..|s| - 1]) else s
  }

  function Normalized(suffix: string): string {
    var t := TrimSpaceRight(TrimSpaceLeft(suffix));
    seq(|t|, i requires 0 <= i < |t| => ToLower(t[i]))
  }

  /** The place of the first point, or the end. */
  function Point(s: string): (k: nat)
    ensures k <= |s| && (forall i | 0 <= i < k :: s[i] != '.') && (k < |s| ==> s[k] == '.')
  {
    if s == [] || s[0] == '.' then 0 else 1 + Point(s[1..])
  }

  /** The digits before and after the point; None if a second point follows. */
  function SplitAtPoint(s: string): (r: Option<(string, string)>)
    requires AllNumber(s)
    ensures r.Some? ==> AllDigits(r.value.0) && AllDigits(r.value.1)
    ensures r.Some? ==> s == r.value.0 || s == r.value.0 + "." + r.value.1
  {
    var k := Point(s);
    var fraction := if k < |s| then s[k + 1..] else [];
    assert AllDigits(s[..k]) by {
      assert forall i | 0 <= i < k :: s[..k][i] == s[i] && IsNumberChar(s[i]);
    }
    if AllDigits(fraction) then Some((s[..k], fraction)) else None
  }

  /** Digits and points are a decimal number if there is a digit and at most one point. */
  function ParseDecimal(s: string): Option<Decimal>
    requires AllNumber(s)
  {
    var parts := SplitAtPoint(s);
    if parts.None? || parts.value.0 + parts.value.1 == [] then None
    else Some(Decimal(Value(parts.value.0 + parts.value.1), |parts.value.1|))
  }

  /** A decimal number of `unit` attoFIL, which has to be a whole number of attoFIL. */
  function ToAmount(d: Decimal, unit: nat): ParseResult {
    var numerator := d.mantissa * unit;
    if numerator % Pow10(d.scale) == 0 then Ok(numerator / Pow10(d.scale)) else Err(NotInteger)
  }

  function ParseFIL(s: string): ParseResult {
    var k := NumberLength(s);
    var number, norm := s[..k], Normalized(s[k..]);
    if norm !in {"", "fil", "attofil", "afil"} then Err(UnrecognizedSuffix)
    else if |number| > MAX_LENGTH then Err(TooLong)
    else
      var d := ParseDecimal(number);
      var unit := if norm == "attofil" || norm == "afil" then 1 else FILECOIN_PRECISION;
      if d.None? then Err(NotDecimal) else ToAmount(d.value, unit)
  }

  // ---------- Reading what was printed ----------

  lemma PrecisionIsPower()
    ensures Pow10(DECIMALS) == FILECOIN_PRECISION
  {
    PowAdds(6, 6);
    PowAdds(12, 6);
    assert Pow10(6) == 1_000_000;
  }

  lemma NumberEnds(a: string, b: string)
    requires AllNumber(a)
    requires b != [] && !IsNumberChar(b[0])
    ensures NumberLength(a + b) == |a|
  {
    var s := a + b;
    assert forall i | 0 <= i < |a| :: IsNumberChar(s[i]);
    assert s[|a|] == b[0];
    assert forall i | 0 <= i < NumberLength(s) :: IsNumberChar(s[..NumberLength(s)][i]);
  }

  /** A suffix the printer writes. */
  lemma SuffixIsFIL()
    ensures Normalized(" FIL") == "fil"
  {
    assert " FIL"[1..] == "FIL";
    assert TrimSpaceLeft("FIL") == "FIL";
    assert TrimSpaceLeft(" FIL") == "FIL";
  }

  lemma PointOf(a: string, b: string)
    requires AllDigits(a)
    ensures Point(a) == |a| && Point(a + "." + b) == |a|
  {
    assert (a + "." + b)[|a|] == '.';
    assert forall i | 0 <= i < |a| :: (a + "." + b)[i] == a[i];
  }

  lemma {:induction false} SplitsWhole(a: string)
    requires AllDigits(a)
    ensures AllNumber(a) && SplitAtPoint(a) == Some((a, []))
  {
    PointOf(a, []);
    assert a[..|a|] == a;
  }

  lemma {:induction false} SplitsFraction(a: string, b: string)
    requires AllDigits(a) && AllDigits(b)
    ensures AllNumber(a + "." + b) && SplitAtPoint(a + "." + b) == Some((a, b))
  {
    var s := a + "." + b;
    PointOf(a, b);
    assert s[..|a|] == a && s[|a| + 1..] == b;
  }

  /** Digits are read as their number, and digits after a point divide it by a power of ten. */
  lemma {:induction false} ReadsWhole(q: nat)
    ensures AllNumber(Digits(q)) && ParseDecimal(Digits(q)) == Some(Decimal(q, 0))
  {
    SplitsWhole(Digits(q));
    assert Digits(q) + [] == Digits(q);
    ValueOfDigits(q);
  }

  lemma {:induction false} ReadsFraction(q: nat, t: string)
    requires AllDigits(t)
    ensures AllNumber(Digits(q) + "." + t)
    ensures ParseDecimal(Digits(q) + "." + t) == Some(Decimal(q * Pow10(|t|) + Value(t), |t|))
  {
    SplitsFraction(Digits(q), t);
    ValueOfDigits(q);
    ValueConcat(Digits(q), t);
  }

  /** Zeros at the end only scale a number. */
  lemma {:induction false} TrailingZeros(s: string, k: nat)
    requires AllDigits(s) && k <= |s| && (forall i | k <= i < |s| :: s[i] == '0')
    ensures Value(s) == Value(s[..k]) * Pow10(|s| - k)
  {
    if k == |s| {
      assert s[..k] == s;
    } else {
      var init := s[..|s| - 1];
      TrailingZeros(init, k);
      assert init[..k] == s[..k];
      ValueLast(s);
      Distributes(Value(s[..k]), Pow10(|init| - k), 0, 0);
    }
  }

  lemma {:induction false} TrimsBehind(a: string, b: string, c: char)
    ensures TrimRight(a + b, c) == if TrimRight(b, c) == [] then TrimRight(a, c) else a + TrimRight(b, c)
  {
    if b == [] {
      assert a + b == a;
    } else if b[|b| - 1] == c {
      assert (a + b)[..|a + b| - 1] == a + b[..|b| - 1];
      TrimsBehind(a, b[..|b| - 1], c);
    }
  }

  /** Of a whole number and a fraction, trimming leaves the whole number and the digits of the
      fraction up to the last that is not zero; the point goes with the last digit. */
  lemma {:induction false} TrimmedIs(q: string, p: string)
    requires q != [] && AllDigits(q) && AllDigits(p)
    ensures TrimRight(TrimRight(q + "." + p, '0'), '.') == Joined(q, TrimRight(p, '0'))
  {
    var t := TrimRight(p, '0');
    TrimsBehind(q + ".", p, '0');
    if t == [] {
      assert (q + ".")[|q|] == '.' && (q + ".")[..|q|] == q;
      assert TrimRight(q, '.') == q;
    } else {
      assert (q + "." + t)[|q| + |t|] == t[|t| - 1];
    }
  }

  function Joined(q: string, t: string): string {
    if t == [] then q else q + "." + t
  }

  lemma Regroup(q: nat, v: nat, up: nat, down: nat)
    ensures (q * down + v) * (up * down) == (q * (up * down) + v * up) * down
  {
    assert (q * down + v) * (up * down) == ((q * down + v) * up) * down;
    assert (q * down + v) * up == q * (up * down) + v * up;
  }

  /** Scaled down to the digits kept and up again, nothing is lost. */
  lemma {:induction false} ScalesBack(q: nat, v: nat, k: nat, width: nat)
    requires k <= width
    ensures ToAmount(Decimal(q * Pow10(k) + v, k), Pow10(width)) == Ok(q * Pow10(width) + v * Pow10(width - k))
  {
    PowAdds(width - k, k);
    Regroup(q, v, Pow10(width - k), Pow10(k));
    ExactDivision(q * Pow10(width) + v * Pow10(width - k), Pow10(k));
  }

  lemma {:induction false} ReadsJoined(q: nat, t: string)
    requires AllDigits(t)
    ensures AllNumber(Joined(Digits(q), t))
    ensures ParseDecimal(Joined(Digits(q), t)) == Some(Decimal(q * Pow10(|t|) + Value(t), |t|))
  {
    if t == [] {
      ReadsWhole(q);
    } else {
      ReadsFraction(q, t);
    }
  }

  lemma {:induction false} DroppedZeros(p: string)
    requires AllDigits(p)
    ensures var t := TrimRight(p, '0');
            AllDigits(t) && |t| <= |p| && Value(p) == Value(t) * Pow10(|p| - |t|)
  {
    var t := TrimRight(p, '0');
    TrailingZeros(p, |t|);
    assert p[..|t|] == t;
  }

  /** A number that is read as an amount. */
  predicate ReadsAs(s: string, unit: nat, n: nat) {
    AllNumber(s) && ParseDecimal(s).Some? && ToAmount(ParseDecimal(s).value, unit) == Ok(n)
  }

  lemma {:induction false} JoinedReadsBack(q: nat, f: nat, t: string, width: nat)
    requires AllDigits(t) && |t| <= width && f == Value(t) * Pow10(width - |t|)
    ensures ReadsAs(Joined(Digits(q), t), Pow10(width), q * Pow10(width) + f)
  {
    ReadsJoined(q, t);
    ScalesBack(q, Value(t), |t|, width);
  }

  lemma {:induction false} FractionReadsBack(q: nat, f: nat, t: string, width: nat)
    requires f < Pow10(width) && t == TrimRight(Padded(f, width), '0')
    ensures ReadsAs(Joined(Digits(q), t), Pow10(width), q * Pow10(width) + f)
  {
    ValueOfPadded(f, width);
    DroppedZeros(Padded(f, width));
    JoinedReadsBack(q, f, t, width);
  }

  lemma {:induction false} PrintedIs(n: nat, width: nat)
    requires n > 0 && width == DECIMALS
    ensures Unitless(n) == Joined(Digits(n / FILECOIN_PRECISION), TrimRight(Padded(n % FILECOIN_PRECISION, width), '0'))
  {
    var q, p := Digits(n / FILECOIN_PRECISION), Padded(n % FILECOIN_PRECISION, width);
    assert FloatString(n) == q + "." + p;
    TrimmedIs(q, p);
  }

  lemma ZeroReadsBack()
    ensures ReadsAs("0", FILECOIN_PRECISION, 0)
  {
    PrecisionIsPower();
    assert Digits(0) == "0";
    JoinedReadsBack(0, 0, [], DECIMALS);
  }

  lemma {:induction false} FractionReadsAs(q: nat, f: nat, width: nat, unit: nat, n: nat)
    requires unit == Pow10(width) && f < unit && n == q * unit + f
    ensures ReadsAs(Joined(Digits(q), TrimRight(Padded(f, width), '0')), unit, n)
  {
    assert n == q * Pow10(width) + f;
    FractionReadsBack(q, f, TrimRight(Padded(f, width), '0'), width);
  }

  lemma {:induction false} PositiveReadsBack(n: nat, width: nat)
    requires n > 0 && width == DECIMALS
    ensures ReadsAs(Unitless(n), FILECOIN_PRECISION, n)
  {
    PrintedIs(n, width);
    PrecisionIsPower();
    FractionReadsAs(n / FILECOIN_PRECISION, n % FILECOIN_PRECISION, width, FILECOIN_PRECISION, n);
  }

  /** The number printed for an amount that is not negative is read back as that amount. */
  lemma UnitlessReadsBack(n: nat)
    ensures ReadsAs(Unitless(n), FILECOIN_PRECISION, n)
  {
    if n == 0 {
      ZeroReadsBack();
    } else {
      PositiveReadsBack(n, DECIMALS);
    }
  }

  /** A printed amount starts with a minus sign if it is negative. */
  lemma NegativeStarts(n: int)
    requires n < 0
    ensures Unitless(n) != [] && Unitless(n)[0] == '-'
  {
    var s := FloatString(n);
    assert s[0] == '-';
    var t := TrimRight(s, '0');
  }

  lemma {:induction false} TrimKeepsFront(s: string)
    requires s != [] && !IsSpace(s[0])
    ensures TrimSpaceRight(s) != [] && TrimSpaceRight(s)[0] == s[0]
  {
    if IsSpace(s[|s| - 1]) {
      TrimKeepsFront(s[..|s| - 1]);
    }
  }

  lemma NegativeSuffix(s: string)
    requires s != [] && s[0] == '-'
    ensures NumberLength(s) == 0 && Normalized(s) != [] && Normalized(s)[0] == '-'
  {
    TrimKeepsFront(s);
  }

  lemma ReadsNegative(n: int)
    requires n < 0
    ensures ParseFIL(ToString(n)) == Err(UnrecognizedSuffix)
  {
    NegativeStarts(n);
    NegativeSuffix(ToString(n));
  }

  lemma ReadsNatural(n: nat)
    ensures ParseFIL(ToString(n)) == if |Unitless(n)| <= MAX_LENGTH then Ok(n) else Err(TooLong)
  {
    var s := ToString(n);
    UnitlessReadsBack(n);
    NumberEnds(Unitless(n), " FIL");
    SuffixIsFIL();
    assert s[..|Unitless(n)|] == Unitless(n) && s[|Unitless(n)|..] == " FIL";
  }

  /** What is read of a printed amount: the amount, unless its number is too long; the minus sign of a
      negative amount is taken for a suffix. */
  lemma ReadsPrinted(n: int)
    ensures n < 0 ==> ParseFIL(ToString(n)) == Err(UnrecognizedSuffix)
    ensures n >= 0 ==> ParseFIL(ToString(n)) == if |Unitless(n)| <= MAX_LENGTH then Ok(n) else Err(TooLong)
  {
    if n < 0 {
      ReadsNegative(n);
    } else {
      ReadsNatural(n);
    }
  }

  /** Reading a printed amount gives that amount back if and only if it is not negative and its
      number has at most 50 characters. */
  lemma RoundTrip(n: int)
    ensures ParseFIL(ToString(n)) == Ok(n) <==> n >= 0 && |Unitless(n)| <= MAX_LENGTH
  {
    ReadsPrinted(n);
  }

  lemma {:induction false} DigitsFit(n: nat, k: nat)
    requires k > 0 && n < Pow10(k)
    ensures |Digits(n)| <= k
  {
    if n >= 10 {
      DigitsFit(n / 10, k - 1);
    }
  }

  /** Every amount below 10^31 FIL is read back. */
  lemma RoundTripBelow(n: nat)
    requires n < Pow10(31) * FILECOIN_PRECISION
    ensures ParseFIL(ToString(n)) == Ok(n)
  {
    ReadsPrinted(n);
    if n > 0 {
      PrintedIs(n, DECIMALS);
      DigitsFit(n / FILECOIN_PRECISION, 31);
    }
  }
}
