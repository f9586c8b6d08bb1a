/** Sizes in error messages: driver/controller.go, formatBytes. */
module ByteFormat {
  import opened Outcomes
  import opened GoStrings
  import opened Capacity
  import opened BlockSize

  const EXACT_FLOATS := 0x20_0000_0000_0000

  // ---------- float64 and its decimal form ----------

  /** The nearest integer, halves to the even neighbour. */
  function RoundHalfEven(x: real): (r: int)
    ensures -0.5 <= r as real - x <= 0.5
    ensures x == x.Floor as real ==> r as real == x
  {
    var below := x.Floor;
    var rest := x - below as real;
    if rest > 0.5 || (rest == 0.5 && below % 2 == 1) then below + 1 else below
  }

  /** The spacing of the float64 values at a magnitude: 1 up to 2^53, then doubling. */
  function Spacing(n: nat): (u: nat)
    ensures u > 0
    ensures n < EXACT_FLOATS ==> u == 1
  {
    if n < EXACT_FLOATS then 1 else 2 * Spacing(n / 2)
  }

  /** float64(n) */
  function Float64(n: int): (f: real)
    ensures -EXACT_FLOATS < n < EXACT_FLOATS ==> f == n as real
  {
    var u := Spacing(if n < 0 then -n else n);
    var q := n as real / u as real;
    assert u == 1 ==> q == n as real && q.Floor == n;
    RoundHalfEven(q) as real * u as real
  }

  /** strconv.FormatFloat(x, 'f', 1, 64) */
  function FormatFixed(x: real): string {
    if x < 0.0 then "-" + Tenths(RoundHalfEven(-x * 10.0)) else Tenths(RoundHalfEven(x * 10.0))
  }

  function Tenths(t: int): string
    requires t >= 0
  {
    Itoa(t / 10) + "." + [DigitChar(t % 10)]
  }

  // ---------- formatBytes ----------

  datatype Unit = Unit(bytes: nat, suffix: string)

  function UnitOf(n: int): (u: Unit)
    ensures u.bytes > 0
  {
    if n >= TIB then Unit(TIB, "Ti")
    else if n >= GIB then Unit(GIB, "Gi")
    else if n >= MIB then Unit(MIB, "Mi")
    else if n >= KIB then Unit(KIB, "Ki")
    else Unit(1, "")
  }

  function InUnits(x: real, unit: nat): real
    requires unit > 0
  {
    x / unit as real
  }

  function FormatOf(n: int): string {
    if n == 0 then "0"
    else TrimSuffix(FormatFixed(InUnits(Float64(n), UnitOf(n).bytes)), ".0") + UnitOf(n).suffix
  }

  /** driver/controller.go, formatBytes */
  method FormatBytes(inputBytes: int) returns (result: string)
    ensures result == FormatOf(inputBytes)
  {
    var output := Float64(inputBytes);
    var unit := "";
    if inputBytes >= TIB {
      output := InUnits(output, TIB);
      unit := "Ti";
    } else if inputBytes >= GIB {
      output := InUnits(output, GIB);
      unit := "Gi";
    } else if inputBytes >= MIB {
      output := InUnits(output, MIB);
      unit := "Mi";
    } else if inputBytes >= KIB {
      output := InUnits(output, KIB);
      unit := "Ki";
    } else if inputBytes == 0 {
      return "0";
    }
    assert inputBytes < KIB ==> output == InUnits(output, 1);
    assert output == InUnits(Float64(inputBytes), UnitOf(inputBytes).bytes) && unit == UnitOf(inputBytes).suffix;
    result := FormatFixed(output);
    result := TrimSuffix(result, ".0");
    result := result + unit;
  }

  /** A number with at most one decimal, then its unit. */
  function Rendering(whole: nat, tenth: nat, suffix: string): string
    requires tenth < 10
  {
    Itoa(whole) + (if tenth == 0 then "" else "." + [DigitChar(tenth)]) + suffix
  }

  lemma TrimmedTenths(t: nat)
    ensures TrimSuffix(Tenths(t), ".0") == Rendering(t / 10, t % 10, "")
  {
    var s, whole := Tenths(t), Itoa(t / 10);
    assert s[|s| - 2..] == ['.', DigitChar(t % 10)];
    assert s[..|s| - 2] == whole;
    assert DigitChar(t % 10) == '0' <==> t % 10 == 0;
  }

  /** The number v of units u is at most 0.05 units away from n. */
  predicate Within(v: real, u: real, n: real) {
    -0.05 * u <= v * u - n <= 0.05 * u
  }

  /** The number that `whole` and one decimal stand for. */
  function Value(whole: int, tenth: int): real {
    whole as real + tenth as real / 10.0
  }

  /** Below 2^53 the printed number times its unit is within 0.05 units of the input, and a whole
      number of units is printed exactly, without decimals. */
  lemma PrintedWithin(n: nat) returns (whole: nat, tenth: nat)
    requires n < EXACT_FLOATS
    ensures tenth < 10 && FormatOf(n) == Rendering(whole, tenth, UnitOf(n).suffix)
    ensures Within(Value(whole, tenth), UnitOf(n).bytes as real, n as real)
    ensures n % UnitOf(n).bytes == 0 ==> whole * UnitOf(n).bytes == n && tenth == 0
  {
    if n == 0 {
      whole, tenth := 0, 0;
      assert Itoa(0) == "0";
    } else {
      var x := InUnits(n as real, UnitOf(n).bytes);
      var t := RoundHalfEven(x * 10.0);
      InUnitsTimes(n, UnitOf(n).bytes, x);
      whole, tenth := t / 10, t % 10;
      FormatShape(n, x, t);
      RoundedBound(n, UnitOf(n).bytes, x, t);
    }
  }

  lemma InUnitsTimes(n: nat, u: nat, x: real)
    requires u > 0 && x == InUnits(n as real, u)
    ensures x * u as real == n as real && x >= 0.0
  {
  }

  lemma RoundedBound(n: nat, u: nat, x: real, t: nat)
    requires u > 0 && x * u as real == n as real && x >= 0.0 && t == RoundHalfEven(x * 10.0)
    ensures Within(Value(t / 10, t % 10), u as real, n as real)
    ensures n % u == 0 ==> t / 10 * u == n && t % 10 == 0
  {
    TenthsWithin(n, u, x, t);
    hide Within, Value;
    if n % u == 0 {
      WholeUnits(n, u, x);
      assert t == n / u * 10;
    }
  }

  lemma TenthsWithin(n: nat, u: nat, x: real, t: nat)
    requires u > 0 && x * u as real == n as real && x >= 0.0 && t == RoundHalfEven(x * 10.0)
    ensures Within(Value(t / 10, t % 10), u as real, n as real)
  {
    TenthsValue(t);
    ScaledBound(t as real, x, u as real);
  }

  lemma TenthsValue(t: nat)
    ensures Value(t / 10, t % 10) == t as real / 10.0
  {
    assert t == t / 10 * 10 + t % 10;
  }

  lemma FormatShape(n: nat, x: real, t: nat)
    requires 0 < n < EXACT_FLOATS
    requires x == InUnits(n as real, UnitOf(n).bytes) && x >= 0.0 && t == RoundHalfEven(x * 10.0)
    ensures FormatOf(n) == Rendering(t / 10, t % 10, UnitOf(n).suffix)
  {
    TrimmedTenths(t);
    assert FormatFixed(x) == Tenths(t);
    assert Rendering(t / 10, t % 10, "") + UnitOf(n).suffix == Rendering(t / 10, t % 10, UnitOf(n).suffix);
  }

  lemma WholeUnits(n: nat, u: nat, x: real)
    requires u > 0 && n % u == 0 && x * u as real == n as real
    ensures x == (n / u) as real
    ensures n / u * u == n
  {
    var q := n / u;
    assert n == q * u;
    assert (x - q as real) * u as real == 0.0;
  }

  lemma ScaledBound(t: real, x: real, u: real)
    requires u > 0.0 && -0.5 <= t - x * 10.0 <= 0.5
    ensures Within(t / 10.0, u, x * u)
  {
    var d := t / 10.0 - x;
    assert -0.05 <= d <= 0.05;
    assert t / 10.0 * u - x * u == d * u;
  }

  // ---------- units and signs ----------

  /** The unit printed is the largest power of 1024 that fits, under its own name. */
  lemma UnitsByName(n: int)
    ensures UnitOf(n) ==
            if n < 1024 then Unit(1, "")
            else if n < 1048576 then Unit(1024, "Ki")
            else if n < 1073741824 then Unit(1048576, "Mi")
            else if n < 1099511627776 then Unit(1073741824, "Gi")
            else Unit(1099511627776, "Ti")
  {
  }

  /** A negative number is printed in bytes, as it is. */
  lemma NegativePrinted(n: nat)
    requires 0 < n < EXACT_FLOATS
    ensures FormatOf(-1 * n) == "-" + Itoa(n)
  {
    NegativeFixed(n, InUnits(Float64(-1 * n), 1));
    hide FormatFixed, Itoa, Float64, Spacing;
    SuffixBehind("-", Tenths(10 * n));
    TrimmedTenths(10 * n);
    assert 10 * n / 10 == n && 10 * n % 10 == 0;
  }

  lemma NegativeFixed(n: nat, x: real)
    requires n > 0 && x == 0.0 - n as real
    ensures FormatFixed(x) == "-" + Tenths(10 * n)
  {
    var y := -x * 10.0;
    assert y == (10 * n) as real;
    assert y.Floor == 10 * n;
    assert RoundHalfEven(y) == 10 * n;
    hide Tenths, RoundHalfEven;
  }

  lemma SuffixBehind(before: string, s: string)
    requires |s| >= 2
    ensures TrimSuffix(before + s, ".0") == before + TrimSuffix(s, ".0")
  {
    assert (before + s)[|before + s| - 2..] == s[|s| - 2..];
    assert (before + s)[..|before + s| - 2] == before + s[..|s| - 2];
  }

  /** How sizes look. */
  lemma PrintedExamples()
    ensures FormatOf(0) == "0" && FormatOf(1536) == "1.5Ki" && FormatOf(5368709120) == "5Gi"
  {
    assert RoundHalfEven(InUnits(Float64(1536), 1024) * 10.0) == 15;
    assert RoundHalfEven(InUnits(Float64(5368709120), 1073741824) * 10.0) == 50;
    OneAndAHalf();
    hide FormatFixed, Float64, RoundHalfEven, Tenths;
    FixedTenths(1536, 1024, 15);
    FixedTenths(5368709120, 1073741824, 50);
  }

  lemma FixedTenths(n: nat, unit: nat, t: nat)
    requires unit > 0 && n < EXACT_FLOATS && RoundHalfEven(InUnits(Float64(n), unit) * 10.0) == t
    ensures FormatFixed(InUnits(Float64(n), unit)) == Tenths(t)
  {
    assert Float64(n) == n as real;
    hide Float64, Tenths, RoundHalfEven;
    InUnitsTimes(n, unit, InUnits(n as real, unit));
  }

  lemma OneDigit()
    ensures DigitChar(1) == '1' && DigitChar(5) == '5' && Itoa(1) == "1" && Itoa(5) == "5"
  {
    assert '0' + 1 as char == '1' && '0' + 5 as char == '5';
  }

  lemma OneAndAHalf()
    ensures TrimSuffix(Tenths(15), ".0") == "1.5" && TrimSuffix(Tenths(50), ".0") == "5"
  {
    TrimmedTenths(15);
    TrimmedTenths(50);
    OneDigit();
    hide Itoa, DigitChar, Tenths, TrimSuffix;
  }
}
