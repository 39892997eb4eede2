/** Strict durations with a unit: parsing, printing and conversion to wire units. */
module Durations {
  import opened Wrappers
  import opened Text
  import opened Decimal
  import opened Units


  /** `std::time::Duration`. */
  datatype Duration = Duration(seconds: nat, nanos: nat)

  predicate Valid(d: Duration) { d.seconds < U64 && d.nanos < SECOND }

  function Nanos(d: Duration): nat { d.seconds * SECOND + d.nanos }

  datatype Error = Empty | Negative | NoUnit | BadNumber | BadUnit | Overflow | TooManyDigits | NotWholeNanos

  // ---- reading the text ---------------------------------------------------------------------------------

  /** A decimal number of a unit, as it is written. */
  datatype Number = Number(whole: string, fraction: string, unit: nat)

  predicate IsLetter(c: char) { 'a' <= c <= 'z' || 'A' <= c <= 'Z' || c == '\U{B5}' }

  /** How long the text is before its first letter; its whole length if there is none. */
  function UnitAt(s: string): (n: nat)
    ensures n <= |s|
  {
    if s == "" || IsLetter(s[0]) then 0 else 1 + UnitAt(s[1..])
  }

  function Dots(s: string): nat { if s == "" then 0 else (if s[0] == '.' then 1 else 0) + Dots(s[1..]) }

  /** The texts before and after the first dot. */
  function SplitDot(s: string): (string, string) {
    if s == "" then ("", "")
    else if s[0] == '.' then ("", s[1..])
    else
      var (whole, fraction) := SplitDot(s[1..]);
      ([s[0]] + whole, fraction)
  }

  function UnitNanos(unit: string): Option<nat> {
    if unit == "ns" then Some(1)
    else if unit == "us" || unit == "\U{B5}s" then Some(1_000)
    else if unit == "ms" then Some(1_000_000)
    else if unit == "s" then Some(SECOND)
    else if unit == "m" then Some(60 * SECOND)
    else if unit == "h" then Some(3_600 * SECOND)
    else None
  }

  function ReadTrimmed(s: string): Result<Number, Error> {
    if s == "" then Err(Empty)
    else if s[0] == '-' then Err(Negative)
    else if UnitAt(s) == |s| then Err(NoUnit)
    else
      var number, unit := s[..UnitAt(s)], s[UnitAt(s)..];
      var (whole, fraction) := SplitDot(number);
      if number == "" || Dots(number) > 1 then Err(BadNumber)
      else if (whole == "" && fraction == "") || !AllDigits(whole) || !AllDigits(fraction) then Err(BadNumber)
      else if UnitNanos(unit).None? then Err(BadUnit)
      else Ok(Number(whole, fraction, UnitNanos(unit).value))
  }

  // ---- checked arithmetic ---------------------------------------------------------------------------------

  function Pow10(n: nat): (p: nat)
    ensures p > 0
  {
    if n == 0 then 1 else 10 * Pow10(n - 1)
  }

  /** The exponent is the number of fractional digits, cast to 32 bits. */
  function Denominator(n: Number): nat { Pow10(|n.fraction| % U32) }

  predicate WellFormed(n: Number) { AllDigits(n.whole) && AllDigits(n.fraction) && n.unit > 0 }

  function FractionNanos(n: Number): Result<nat, Error>
    requires WellFormed(n)
  {
    var numerator := Value(n.fraction) * n.unit;
    if n.fraction == "" then Ok(0)
    else if Denominator(n) >= U128 then Err(TooManyDigits)
    else if Value(n.fraction) >= U128 || numerator >= U128 then Err(Overflow)
    else if numerator % Denominator(n) != 0 then Err(NotWholeNanos)
    else Ok(numerator / Denominator(n))
  }

  function Evaluate(n: Number): Result<Duration, Error>
    requires WellFormed(n)
  {
    if n.whole == "" || Value(n.whole) >= U128 || Value(n.whole) * n.unit >= U128 then Err(Overflow)
    else
      match FractionNanos(n)
      case Err(e) => Err(e)
      case Ok(fraction) =>
        var total := Value(n.whole) * n.unit + fraction;
        if total >= U128 || total / SECOND >= U64 then Err(Overflow)
        else Ok(Duration(total / SECOND, total % SECOND))
  }

  lemma UnitIsPositive(s: string)
    ensures ReadTrimmed(s).Ok? ==> WellFormed(ReadTrimmed(s).value)
  {
  }

  function Parse(input: string): Result<Duration, Error> {
    match ReadTrimmed(Trim(input))
    case Err(e) => Err(e)
    case Ok(number) =>
      UnitIsPositive(Trim(input));
      Evaluate(number)
  }

  /** What the units stand for. */
  lemma UnitLengths(unit: string)
    ensures UnitNanos("ns") == Some(1)
    ensures UnitNanos("us") == UnitNanos("\U{B5}s") == Some(1_000)
    ensures UnitNanos("ms") == Some(1_000 * 1_000)
    ensures UnitNanos("s") == Some(1_000 * 1_000 * 1_000)
    ensures UnitNanos("m") == Some(60 * 1_000 * 1_000 * 1_000)
    ensures UnitNanos("h") == Some(60 * 60 * 1_000 * 1_000 * 1_000)
    ensures UnitNanos(unit).Some? ==> unit in {"ns", "us", "\U{B5}s", "ms", "s", "m", "h"}
  {
  }

  lemma {:induction false} TrimBefore(lead: string, s: string)
    requires IsBlank(lead)
    ensures Trim(lead + s) == Trim(s)
  {
    if lead == "" {
      assert lead + s == s;
    } else {
      assert (lead + s)[1..] == lead[1..] + s && (lead + s)[0] == lead[0];
      TrimBefore(lead[1..], s);
    }
  }

  lemma {:induction false} TrimAfter(s: string, trail: string)
    requires IsBlank(trail)
    ensures Trim(s + trail) == Trim(s)
    decreases |s| + |trail|
  {
    var n := |trail|;
    if s == "" {
      assert s + trail == trail + "";
      TrimBefore(trail, "");
    } else if trail == "" {
      assert s + trail == s;
    } else if IsWhite(s[0]) {
      assert (s + trail)[1..] == s[1..] + trail;
      TrimAfter(s[1..], trail);
    } else {
      assert (s + trail)[..|s + trail| - 1] == s + trail[..n - 1];
      TrimAfter(s, trail[..n - 1]);
    }
  }

  /** White space around a duration is ignored. */
  lemma BlanksAreIgnored(lead: string, s: string, trail: string)
    requires IsBlank(lead) && IsBlank(trail)
    ensures Parse(lead + s + trail) == Parse(s)
  {
    assert lead + s + trail == lead + (s + trail);
    TrimBefore(lead, s + trail);
    TrimAfter(s, trail);
  }

  // ---- what the number means --------------------------------------------------------------------------------

  /** `total` nanoseconds are exactly the written decimal: whole and fraction times the unit,
      compared after scaling by the power of ten of the fraction's length. */
  ghost predicate IsExact(n: Number, total: nat)
    requires WellFormed(n)
  {
    total * Pow10(|n.fraction|) == Value(n.whole) * n.unit * Pow10(|n.fraction|) + Value(n.fraction) * n.unit
  }

  lemma {:induction false} PowGrows(a: nat, b: nat)
    requires a < b
    ensures Pow10(a) < Pow10(b)
  {
    if a + 1 < b { PowGrows(a, b - 1); }
  }

  /** With denominator `d`, a quotient `q` of numerator `q * d` scaled by `p` is that numerator only
      if the scales agree or there is nothing to scale. */
  lemma ScaledQuotient(q: nat, d: nat, p: nat)
    requires 0 < d < p && q * p == q * d
    ensures q == 0
  {
    assert q * (p - d) == 0;
  }

  lemma QuotientOf(numerator: nat, d: nat)
    requires d > 0 && numerator % d == 0
    ensures numerator / d * d == numerator
  {
  }

  lemma Distribute(a: nat, b: nat, p: nat)
    ensures (a + b) * p == a * p + b * p
  {
  }

  /** An accepted decimal has its exact value, unless its fraction has 2^32 digits or more and is
      not zero: then the cast of the length loses it. */
  lemma ExactIff(n: Number)
    requires WellFormed(n) && Evaluate(n).Ok?
    ensures IsExact(n, Nanos(Evaluate(n).value)) <==> |n.fraction| < U32 || Value(n.fraction) == 0
  {
    var whole, numerator, p := Value(n.whole) * n.unit, Value(n.fraction) * n.unit, Pow10(|n.fraction|);
    var q := FractionNanos(n).value;
    assert Nanos(Evaluate(n).value) == whole + q;
    Distribute(whole, q, p);
    assert numerator == 0 <==> Value(n.fraction) == 0;
    if n.fraction != "" {
      QuotientOf(numerator, Denominator(n));
      if |n.fraction| >= U32 {
        PowGrows(|n.fraction| % U32, |n.fraction|);
        if q * p == numerator { ScaledQuotient(q, Denominator(n), p); }
      }
    }
  }

  lemma MultipleIsLarge(a: nat, p: nat)
    requires a > 0
    ensures a * p >= p
  {
    assert a * p == (a - 1) * p + p;
  }

  lemma Cancel(a: nat, b: nat, p: nat)
    requires p > 0 && a * p >= b * p
    ensures a >= b
  {
    if a < b {
      assert b * p == (b - a) * p + a * p;
      MultipleIsLarge(b - a, p);
    }
  }

  lemma DivideExactly(q: nat, p: nat)
    requires p > 0
    ensures q * p % p == 0 && q * p / p == q
  {
    var k, r := q * p / p, q * p % p;
    assert q * p == k * p + r;
    Cancel(q, k, p);
    assert (q - k) * p == q * p - k * p == r;
    if q > k { MultipleIsLarge(q - k, p); }
  }

  lemma QuotientIs(t: nat, w: nat, numerator: nat, p: nat)
    requires p > 0 && t * p == w * p + numerator
    ensures w <= t && numerator % p == 0 && numerator / p == t - w
  {
    Cancel(t, w, p);
    assert (t - w) * p == t * p - w * p == numerator;
    DivideExactly(t - w, p);
  }

  lemma ExactIsAccepted(n: Number, d: Duration)
    requires WellFormed(n) && |n.fraction| < U32 && n.whole != "" && Valid(d) && IsExact(n, Nanos(d))
    requires Pow10(|n.fraction|) < U128 && Value(n.fraction) * n.unit < U128
    ensures Evaluate(n) == Ok(d)
  {
    var w, numerator, p := Value(n.whole) * n.unit, Value(n.fraction) * n.unit, Pow10(|n.fraction|);
    QuotientIs(Nanos(d), w, numerator, p);
    FactorIsSmall(Value(n.whole), n.unit);
    FactorIsSmall(Value(n.fraction), n.unit);
    assert n.fraction == "" ==> numerator == 0 && p == 1;
    assert FractionNanos(n) == Ok(Nanos(d) - w);
    TotalIsHeld(n, d, w, Nanos(d) - w);
  }

  lemma TotalIsHeld(n: Number, d: Duration, w: nat, fraction: nat)
    requires WellFormed(n) && n.whole != "" && Valid(d) && Value(n.whole) * n.unit == w && Value(n.whole) <= w
    requires FractionNanos(n) == Ok(fraction) && w + fraction == Nanos(d)
    ensures Evaluate(n) == Ok(d)
  {
    SplitNanos(d);
  }

  lemma SplitNanos(d: Duration)
    requires Valid(d)
    ensures Nanos(d) / SECOND == d.seconds && Nanos(d) % SECOND == d.nanos && Nanos(d) < U128
  {
  }

  lemma FactorIsSmall(a: nat, unit: nat)
    requires unit > 0
    ensures a <= a * unit
  {
    assert a * unit == a * (unit - 1) + a;
  }

  /** For a fraction of ordinary length, parsing succeeds exactly when the decimal is a whole number
      of nanoseconds that a duration can hold and the fraction does not overflow 128 bits. */
  lemma AcceptedIff(n: Number, d: Duration)
    requires WellFormed(n) && |n.fraction| < U32
    ensures Evaluate(n) == Ok(d)
            <==> && n.whole != "" && Valid(d) && IsExact(n, Nanos(d))
                 && Pow10(|n.fraction|) < U128 && Value(n.fraction) * n.unit < U128
  {
    if Evaluate(n) == Ok(d) {
      ExactIff(n);
      EmptyIsZero(n);
    } else if n.whole != "" && Valid(d) && Pow10(|n.fraction|) < U128 && Value(n.fraction) * n.unit < U128 {
      if IsExact(n, Nanos(d)) { ExactIsAccepted(n, d); }
    }
  }

  lemma EmptyIsZero(n: Number)
    requires WellFormed(n)
    ensures n.fraction == "" ==> Pow10(|n.fraction|) == 1 && Value(n.fraction) * n.unit == 0
  {
  }

  // ---- the cast of the length does lose a fraction ------------------------------------------------------------

  function Zeros(n: nat): (s: string)
    ensures |s| == n && forall i | 0 <= i < n :: s[i] == '0'
  {
    if n == 0 then "" else Zeros(n - 1) + "0"
  }

  lemma {:induction false} ZerosAreZero(n: nat)
    ensures AllDigits(Zeros(n)) && Value(Zeros(n)) == 0
  {
    if n > 0 {
      ZerosAreZero(n - 1);
      assert Zeros(n)[..n - 1] == Zeros(n - 1);
    }
  }

  // ---- printing ----------------------------------------------------------------------------------------------

  function FormatNanos(total: nat): string {
    if total == 0 then "0s"
    else if total % (3_600 * SECOND) == 0 then Print(total / (3_600 * SECOND)) + "h"
    else if total % (60 * SECOND) == 0 then Print(total / (60 * SECOND)) + "m"
    else if total % SECOND == 0 then Print(total / SECOND) + "s"
    else if total % 1_000_000 == 0 then Print(total / 1_000_000) + "ms"
    else if total % 1_000 == 0 then Print(total / 1_000) + "us"
    else Print(total) + "ns"
  }

  function Format(d: Duration): string { FormatNanos(Nanos(d)) }

  lemma {:induction false} UnitAtOf(digits: string, unit: string)
    requires unit != "" && IsLetter(unit[0]) && forall i | 0 <= i < |digits| :: !IsLetter(digits[i])
    ensures UnitAt(digits + unit) == |digits|
  {
    if digits == "" {
      assert digits + unit == unit;
    } else {
      assert (digits + unit)[1..] == digits[1..] + unit;
      UnitAtOf(digits[1..], unit);
    }
  }

  lemma {:induction false} NoDotInDigits(digits: string)
    requires AllDigits(digits)
    ensures Dots(digits) == 0 && SplitDot(digits) == (digits, "")
  {
    if digits != "" {
      NoDotInDigits(digits[1..]);
      assert [digits[0]] + digits[1..] == digits;
    }
  }

  lemma TrimKeeps(s: string)
    requires s != "" && !IsWhite(s[0]) && !IsWhite(s[|s| - 1])
    ensures Trim(s) == s
  {
  }

  /** A whole number and a unit are read as they are written. */
  lemma ReadPrinted(digits: string, unit: string)
    requires AllDigits(digits) && digits != "" && UnitNanos(unit).Some?
    ensures Trim(digits + unit) == digits + unit
    ensures ReadTrimmed(digits + unit) == Ok(Number(digits, "", UnitNanos(unit).value))
  {
    var s := digits + unit;
    assert s[0] == digits[0] && s[|s| - 1] == unit[|unit| - 1] && unit[|unit| - 1] in {'s', 'm', 'h'};
    TrimKeeps(s);
    UnitAtOf(digits, unit);
    assert s[..|digits|] == digits && s[|digits|..] == unit;
    NoDotInDigits(digits);
  }

  lemma {:induction false} DotSplits(whole: string, fraction: string)
    requires AllDigits(whole) && AllDigits(fraction)
    ensures Dots(whole + "." + fraction) == 1 && SplitDot(whole + "." + fraction) == (whole, fraction)
  {
    var s := whole + "." + fraction;
    if whole == "" {
      assert s[1..] == fraction;
      NoDotInDigits(fraction);
    } else {
      assert s[1..] == whole[1..] + "." + fraction;
      DotSplits(whole[1..], fraction);
      assert [whole[0]] + whole[1..] == whole;
    }
  }

  /** A decimal and a unit are read as they are written. */
  lemma ReadDecimal(whole: string, fraction: string, unit: string)
    requires AllDigits(whole) && AllDigits(fraction) && whole != "" && UnitNanos(unit).Some?
    ensures var s := whole + "." + fraction + unit;
            Trim(s) == s && ReadTrimmed(s) == Ok(Number(whole, fraction, UnitNanos(unit).value))
  {
    var number := whole + "." + fraction;
    var s := number + unit;
    assert s[0] == whole[0] && s[|s| - 1] == unit[|unit| - 1] && unit[|unit| - 1] in {'s', 'm', 'h'};
    TrimKeeps(s);
    UnitAtOf(number, unit);
    assert s[..|number|] == number && s[|number|..] == unit;
    DotSplits(whole, fraction);
  }

  lemma {:induction false} SplitDotJoins(s: string)
    ensures var (whole, fraction) := SplitDot(s);
            s == (if Dots(s) == 0 then whole else whole + "." + fraction) && (Dots(s) == 0 ==> fraction == "")
  {
    if s != "" && s[0] != '.' {
      SplitDotJoins(s[1..]);
      var (whole, fraction) := SplitDot(s[1..]);
      assert s == [s[0]] + s[1..];
      assert [s[0]] + (whole + "." + fraction) == [s[0]] + whole + "." + fraction;
    } else if s != "" {
      assert s == "" + "." + s[1..];
    }
  }

  /** Nothing else is read: a text that is accepted is digits, perhaps a dot and more digits, and the
      name of a unit. */
  lemma OnlyDecimalsAreRead(s: string) returns (unit: string)
    requires ReadTrimmed(s).Ok?
    ensures var n := ReadTrimmed(s).value;
            && AllDigits(n.whole) && AllDigits(n.fraction) && n.whole + n.fraction != ""
            && UnitNanos(unit) == Some(n.unit)
            && (s == n.whole + "." + n.fraction + unit || (s == n.whole + unit && n.fraction == ""))
  {
    unit := s[UnitAt(s)..];
    var number := s[..UnitAt(s)];
    SplitDotJoins(number);
    assert s == number + unit;
  }

  /** A duration is printed as a whole number of the largest unit that divides it. */
  lemma FormatUsesLargestUnit(d: Duration) returns (k: nat, unit: string)
    ensures UnitNanos(unit).Some? && Format(d) == Print(k) + unit && k * UnitNanos(unit).value == Nanos(d)
    ensures Nanos(d) == 0 ==> unit == "s"
    ensures Nanos(d) > 0 ==>
              forall u | UnitNanos(u).Some? && UnitNanos(u).value > UnitNanos(unit).value ::
                Nanos(d) % UnitNanos(u).value != 0
  {
    var total := Nanos(d);
    unit := if total == 0 then "s" else if total % (3_600 * SECOND) == 0 then "h"
            else if total % (60 * SECOND) == 0 then "m" else if total % SECOND == 0 then "s"
            else if total % 1_000_000 == 0 then "ms" else if total % 1_000 == 0 then "us" else "ns";
    k := total / UnitNanos(unit).value;
    if total == 0 { assert Print(0) == "0" && "0" + "s" == "0s"; }
    QuotientOf(total, UnitNanos(unit).value);
    assert forall u | UnitNanos(u).Some? ::
        UnitNanos(u).value in {1, 1_000, 1_000_000, SECOND, 60 * SECOND, 3_600 * SECOND};
  }

  lemma ParsePrinted(d: Duration, k: nat, unit: string, nanos: nat)
    requires Valid(d) && UnitNanos(unit) == Some(nanos) && k * nanos == Nanos(d)
    ensures Parse(Print(k) + unit) == Ok(d)
  {
    ReadPrinted(Print(k), unit);
    var n := Number(Print(k), "", nanos);
    assert Pow10(0) == 1 && Value("") == 0;
    AcceptedIff(n, d);
  }

  /** Parsing gives every printed duration back. */
  lemma ParseInvertsFormat(d: Duration)
    requires Valid(d)
    ensures Parse(Format(d)) == Ok(d)
  {
    var total := Nanos(d);
    if total == 0 {
      assert Print(0) == "0";
      ParsePrinted(d, 0, "s", SECOND);
    } else if total % (3_600 * SECOND) == 0 {
      ParsePrinted(d, total / (3_600 * SECOND), "h", 3_600 * SECOND);
    } else if total % (60 * SECOND) == 0 {
      ParsePrinted(d, total / (60 * SECOND), "m", 60 * SECOND);
    } else if total % SECOND == 0 {
      ParsePrinted(d, total / SECOND, "s", SECOND);
    } else if total % 1_000_000 == 0 {
      ParsePrinted(d, total / 1_000_000, "ms", 1_000_000);
    } else if total % 1_000 == 0 {
      ParsePrinted(d, total / 1_000, "us", 1_000);
    } else {
      ParsePrinted(d, total, "ns", 1);
    }
  }

  /** `0.00…01s` with 2^32 fractional digits is read as one second. */
  lemma LongFractionIsMisread()
    ensures var fraction := Zeros(U32 - 1) + "1";
            Parse("0" + "." + fraction + "s") == Ok(Duration(1, 0))
    ensures var n := Number("0", Zeros(U32 - 1) + "1", SECOND);
            WellFormed(n) && !IsExact(n, Nanos(Duration(1, 0)))
  {
    var zeros := Zeros(U32 - 1);
    var n := Number("0", zeros + "1", SECOND);
    ZerosAreZero(U32 - 1);
    assert n.fraction[..U32 - 1] == zeros && Value(n.fraction) == 1;
    assert n.whole[..0] == "" && Value(n.whole) == 0;
    assert Denominator(n) == Pow10(0) == 1;
    assert Evaluate(n) == Ok(Duration(1, 0));
    ExactIff(n);
    ReadDecimal("0", n.fraction, "s");
  }

  // ---- wire units ----------------------------------------------------------------------------------------------

  datatype WireError = NotWhole | TooLarge

  function ToWireUnit(d: Duration, unit: nat): Result<nat, WireError>
    requires unit > 0
  {
    if Nanos(d) % unit != 0 then Err(NotWhole)
    else if Nanos(d) / unit >= U64 then Err(TooLarge)
    else Ok(Nanos(d) / unit)
  }

  /** Conversion succeeds exactly on whole counts in range, and is then exact. */
  lemma WireIff(d: Duration, unit: nat, count: nat)
    requires unit > 0
    ensures ToWireUnit(d, unit) == Ok(count) <==> count < U64 && count * unit == Nanos(d)
  {
    if count * unit == Nanos(d) { DivideExactly(count, unit); }
    if Nanos(d) % unit == 0 { QuotientOf(Nanos(d), unit); }
  }
}
