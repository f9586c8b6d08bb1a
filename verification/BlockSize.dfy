/** The block size parameter of a storage class: driver/controller.go, parseBlockSize. */
module BlockSize {
  import opened Outcomes
  import opened GoStrings
  import opened Bits

  const KIB := 1024
  const DEFAULT_BLOCK_SIZE := 4 * KIB
  const MINIMUM_BLOCK_SIZE := 4 * KIB
  const MAXIMUM_BLOCK_SIZE := 128 * KIB

  // ---------- powers of two ----------

  predicate IsPowerOfTwo(n: int) {
    n > 0 && (n == 1 || (n % 2 == 0 && IsPowerOfTwo(n / 2)))
  }

  /** `n & (n-1) == 0` singles out the powers of two among all positive numbers. */
  lemma {:induction false} PowerOfTwoTest(n: int)
    requires n > 0
    ensures And(n, n - 1) == 0 <==> exists k: nat :: n == Pow2(k)
  {
    PowerOfTwoTestStep(n);
    if IsPowerOfTwo(n) {
      var k := Exponent(n);
    }
    forall k: nat | n == Pow2(k) ensures IsPowerOfTwo(n) { Pow2IsPowerOfTwo(k); }
  }

  lemma {:induction false} PowerOfTwoTestStep(n: int)
    requires n > 0
    ensures And(n, n - 1) == 0 <==> IsPowerOfTwo(n)
  {
    if n % 2 == 1 {
      assert (n - 1) / 2 == n / 2;
      AndSelf(n / 2);
    } else {
      assert (n - 1) / 2 == n / 2 - 1;
      PowerOfTwoTestStep(n / 2);
    }
  }

  lemma {:induction false} Exponent(n: int) returns (k: nat)
    requires IsPowerOfTwo(n)
    ensures n == Pow2(k)
  {
    if n == 1 {
      k := 0;
    } else {
      var j := Exponent(n / 2);
      k := j + 1;
    }
  }

  lemma {:induction false} Pow2IsPowerOfTwo(k: nat)
    ensures IsPowerOfTwo(Pow2(k))
  {
    if k > 0 {
      Pow2IsPowerOfTwo(k - 1);
    }
  }

  // ---------- the parser ----------

  const SUFFIXES: seq<string> := ["KiB", "KB", "Ki", "K", "k"]

  /** The block sizes the cloud supports. */
  predicate Legal(b: int) {
    b in {4096, 8192, 16384, 32768, 65536, 131072}
  }

  /** Within the supported range the powers of two are exactly the six legal sizes. */
  lemma LegalIffPowerOfTwoInRange(b: int)
    ensures Legal(b) <==> MINIMUM_BLOCK_SIZE <= b <= MAXIMUM_BLOCK_SIZE && And(b, b - 1) == 0
    ensures Legal(b) <==> exists k: nat :: 12 <= k <= 17 && b == Pow2(k)
  {
    assert Pow2(12) == 4096 by { SmallPowers(); }
    SmallPowers();
    if MINIMUM_BLOCK_SIZE <= b <= MAXIMUM_BLOCK_SIZE {
      PowerOfTwoTest(b);
      forall k: nat | b == Pow2(k) ensures 12 <= k <= 17 {
        if k < 12 { Pow2Monotone(k, 11); }
        if k > 17 { Pow2Monotone(18, k); }
      }
    }
  }

  lemma SmallPowers()
    ensures Pow2(11) == 2048 && Pow2(12) == 4096 && Pow2(13) == 8192 && Pow2(14) == 16384
    ensures Pow2(15) == 32768 && Pow2(16) == 65536 && Pow2(17) == 131072 && Pow2(18) == 262144
  {
    assert Pow2(4) == 16;
    assert Pow2(8) == 256;
    assert Pow2(11) == 2048;
    assert Pow2(14) == 16384;
    assert Pow2(17) == 131072;
  }

  lemma {:induction false} Pow2Monotone(j: nat, k: nat)
    requires j <= k
    ensures Pow2(j) <= Pow2(k)
  {
    if j < k {
      Pow2Monotone(j, k - 1);
    }
  }

  /** The first suffix of SUFFIXES, from index i on, that ends the value. */
  function SuffixOf(value: string, i: nat): (suffix: string)
    requires i <= |SUFFIXES|
    ensures suffix != "" ==> HasSuffix(value, suffix) && suffix in SUFFIXES
    decreases |SUFFIXES| - i
  {
    if i == |SUFFIXES| then ""
    else if HasSuffix(value, SUFFIXES[i]) then SUFFIXES[i]
    else SuffixOf(value, i + 1)
  }

  /** No value ends in two different suffixes, so their order is irrelevant. */
  lemma SuffixesExclusive(value: string, s: string, t: string)
    requires s in SUFFIXES && t in SUFFIXES
    requires HasSuffix(value, s) && HasSuffix(value, t)
    ensures s == t
  {
    EndsAlike(value, s);
    EndsAlike(value, t);
    hide HasSuffix;
    EndingTellsSuffix(s, t, value[|value| - 1], if |value| < 2 then ' ' else value[|value| - 2]);
  }

  lemma EndsAlike(value: string, s: string)
    requires HasSuffix(value, s) && s != ""
    ensures value != "" && value[|value| - 1] == s[|s| - 1]
    ensures |s| >= 2 ==> |value| >= 2 && value[|value| - 2] == s[|s| - 2]
  {
    assert value[|value| - |s|..][|s| - 1] == value[|value| - 1];
  }

  /** The suffix has this last character and, if it has two, this one before it. */
  predicate EndsIn(s: string, last: char, beforeLast: char) {
    s != "" && s[|s| - 1] == last && (|s| >= 2 ==> s[|s| - 2] == beforeLast)
  }

  lemma EndingTellsSuffix(s: string, t: string, last: char, beforeLast: char)
    requires s in SUFFIXES && t in SUFFIXES && EndsIn(s, last, beforeLast) && EndsIn(t, last, beforeLast)
    ensures s == t
  {
    EndingIsKnown(s, last, beforeLast);
    EndingIsKnown(t, last, beforeLast);
  }

  lemma EndingIsKnown(s: string, last: char, beforeLast: char)
    requires s in SUFFIXES && EndsIn(s, last, beforeLast)
    ensures s == match last
                 case 'B' => (if beforeLast == 'i' then "KiB" else "KB")
                 case 'i' => "Ki"
                 case 'K' => "K"
                 case _ => "k"
  {
  }

  /** The range and power-of-two checks on the parsed number and its multiplier. */
  function CheckedSize(parsed: int, multiplier: int): Option<int> {
    var blockSize := Int64(parsed * multiplier);
    if parsed < 0 || parsed > MAXIMUM_BLOCK_SIZE then None
    else if blockSize < MINIMUM_BLOCK_SIZE || blockSize > MAXIMUM_BLOCK_SIZE then None
    else if And(blockSize, blockSize - 1) != 0 then None
    else Some(blockSize)
  }

  /** The checks accept exactly the legal sizes, and the range guard keeps the multiplication inside int64. */
  lemma CheckedSizeAcceptsLegal(parsed: int, multiplier: int)
    requires multiplier in {1, KIB}
    ensures CheckedSize(parsed, multiplier) ==
            if Legal(parsed * multiplier) then Some(parsed * multiplier) else None
    ensures 0 <= parsed <= MAXIMUM_BLOCK_SIZE ==> INT64_MIN <= parsed * multiplier <= INT64_MAX
  {
    LegalIffPowerOfTwoInRange(parsed * multiplier);
  }

  function Multiplier(suffix: string): int {
    if suffix == "" then 1 else KIB
  }

  /** What is left of the value once its suffix is cut off. */
  function NumberPart(value: string, suffix: string): string {
    if suffix == "" then value else TrimSpace(TrimSuffix(value, suffix))
  }

  /** What parseBlockSize computes; None stands for its error. */
  function BlockSizeOf(raw: string): Option<int> {
    var value := TrimSpace(raw);
    var suffix := SuffixOf(value, 0);
    match ParseInt(NumberPart(value, suffix))
    case None => None
    case Some(parsed) => CheckedSize(parsed, Multiplier(suffix))
  }

  /** driver/controller.go, parseBlockSize */
  method ParseBlockSize(raw: string) returns (r: Option<int>)
    ensures r == BlockSizeOf(raw)
  {
    hide And, SuffixOf, NumberPart, TrimSpace, ParseInt;
    var value, multiplier := CutSuffix(TrimSpace(raw));
    var parsed := ParseInt(value);
    if parsed == None {
      return None;
    }
    if parsed.value < 0 || parsed.value > MAXIMUM_BLOCK_SIZE {
      return None;
    }
    var blockSize := Int64(parsed.value * multiplier);
    if blockSize < MINIMUM_BLOCK_SIZE || blockSize > MAXIMUM_BLOCK_SIZE {
      return None;
    }
    if And(blockSize, blockSize - 1) != 0 {
      return None;
    }
    return Some(blockSize);
  }

  /** The suffix loop of parseBlockSize. */
  method CutSuffix(trimmed: string) returns (value: string, multiplier: int)
    ensures value == NumberPart(trimmed, SuffixOf(trimmed, 0))
    ensures multiplier == Multiplier(SuffixOf(trimmed, 0)) && multiplier in {1, KIB}
  {
    value, multiplier := trimmed, 1;
    var suffixes := SUFFIXES;
    for i := 0 to |suffixes|
      invariant value == trimmed && multiplier == 1
      invariant SuffixOf(trimmed, 0) == SuffixOf(trimmed, i)
    {
      var suffix := suffixes[i];
      if HasSuffix(value, suffix) {
        assert SuffixOf(trimmed, i) == suffix != "" by { SuffixesAreTight(suffix); }
        value := TrimSpace(TrimSuffix(value, suffix));
        multiplier := KIB;
        return;
      }
    }
  }

  // ---------- the grammar it accepts ----------

  /** blanks, optional sign, digits, optional blanks and suffix, blanks */
  datatype Reading = Reading(lead: string, sign: string, digits: string, gap: string, suffix: string, trail: string)
  {
    predicate WellFormed() {
      && Blank(lead) && Blank(gap) && Blank(trail)
      && sign in {"", "+", "-"}
      && digits != "" && AllDigits(digits)
      && (suffix in SUFFIXES || (suffix == "" && gap == ""))
    }

    function Text(): string { lead + (sign + digits + gap + suffix) + trail }

    function Denotes(): int
      requires WellFormed()
    {
      (if sign == "-" then -1 else 1) * DigitsValue(digits) * Multiplier(suffix)
    }
  }

  /** The parser accepts exactly the readings that denote one of the six legal sizes, with that size. */
  lemma ParserGrammar(raw: string, b: int)
    ensures BlockSizeOf(raw) == Some(b) <==>
            exists r: Reading :: r.WellFormed() && r.Text() == raw && r.Denotes() == b && Legal(b)
  {
    if BlockSizeOf(raw) == Some(b) {
      var r := AcceptedHasReading(raw, b);
    }
    forall r: Reading | r.WellFormed() && r.Text() == raw && r.Denotes() == b && Legal(b)
      ensures BlockSizeOf(raw) == Some(b)
    {
      ReadingIsAccepted(r);
    }
  }

  lemma SignSplit(number: string) returns (sign: string, digits: string)
    requires ParseInt(number).Some?
    ensures sign in {"", "+", "-"} && number == sign + digits
    ensures digits != "" && AllDigits(digits)
    ensures ParseInt(number).value == (if sign == "-" then -1 else 1) * DigitsValue(digits)
  {
    if number[0] in {'+', '-'} {
      sign, digits := [number[0]], number[1..];
    } else {
      sign, digits := "", number;
    }
  }

  lemma AcceptedHasReading(raw: string, b: int) returns (r: Reading)
    requires BlockSizeOf(raw) == Some(b)
    ensures r.WellFormed() && r.Text() == raw && r.Denotes() == b && Legal(b)
  {
    var value := TrimSpace(raw);
    var suffix := SuffixOf(value, 0);
    var number := NumberPart(value, suffix);
    CheckedSizeAcceptsLegal(ParseInt(number).value, Multiplier(suffix));
    var lead, trail := TrimSpaceSplits(raw);
    var gap := GapBefore(value, suffix);
    var sign, digits := SignSplit(number);
    r := Reading(lead, sign, digits, gap, suffix, trail);
  }

  lemma GapBefore(value: string, suffix: string) returns (gap: string)
    requires Tight(value) && HasSuffix(value, suffix)
    requires NumberPart(value, suffix) != ""
    ensures Blank(gap) && (suffix == "" ==> gap == "")
    ensures value == NumberPart(value, suffix) + gap + suffix
  {
    if suffix == "" {
      gap := "";
    } else {
      var head := TrimSuffix(value, suffix);
      assert value == head + suffix;
      gap := TrimSpaceKeepsStart(head);
    }
  }

  lemma SuffixFound(value: string, suffix: string)
    requires suffix in SUFFIXES && HasSuffix(value, suffix)
    ensures SuffixOf(value, 0) == suffix
  {
    if SuffixOf(value, 0) == "" {
      SuffixMissed(value, suffix, 0);
    } else {
      SuffixesExclusive(value, suffix, SuffixOf(value, 0));
    }
  }

  lemma {:induction false} SuffixMissed(value: string, suffix: string, i: nat)
    requires i <= |SUFFIXES| && suffix in SUFFIXES[i..] && HasSuffix(value, suffix)
    ensures SuffixOf(value, i) != ""
    decreases |SUFFIXES| - i
  {
    if !HasSuffix(value, SUFFIXES[i]) {
      SuffixMissed(value, suffix, i + 1);
    }
  }

  lemma SuffixesAreTight(s: string)
    requires s in SUFFIXES
    ensures s != "" && !IsSpace(s[|s| - 1]) && !IsDigit(s[|s| - 1])
  {
  }

  lemma ReadingIsAccepted(r: Reading)
    requires r.WellFormed() && Legal(r.Denotes())
    ensures BlockSizeOf(r.Text()) == Some(r.Denotes())
  {
    var number := r.sign + r.digits;
    var value := r.sign + r.digits + r.gap + r.suffix;
    ReadingTrims(r, number, value);
    NumberParses(r, number);
    CheckedSizeAcceptsLegal(ParseInt(number).value, Multiplier(r.suffix));
  }

  lemma NumberParses(r: Reading, number: string)
    requires r.WellFormed() && Legal(r.Denotes()) && number == r.sign + r.digits
    ensures ParseInt(number) == Some(DigitsValue(r.digits))
    ensures r.Denotes() == DigitsValue(r.digits) * Multiplier(r.suffix)
  {
    assert r.sign != "-";
    assert DigitsValue(r.digits) <= 131072;
    if r.sign == "+" {
      assert number[1..] == r.digits;
    } else {
      assert number == r.digits;
    }
  }

  lemma ReadingTrims(r: Reading, number: string, value: string)
    requires r.WellFormed() && number == r.sign + r.digits && value == r.sign + r.digits + r.gap + r.suffix
    ensures TrimSpace(r.Text()) == value && SuffixOf(value, 0) == r.suffix && NumberPart(value, r.suffix) == number
  {
    SignIsTight(r.sign, r.digits);
    assert value == number + (r.gap + r.suffix);
    if r.suffix == "" {
      assert value == number;
      if SuffixOf(value, 0) != "" {
        SuffixesAreTight(SuffixOf(value, 0));
        assert false;
      }
    } else {
      SuffixesAreTight(r.suffix);
      SuffixCutsOff(number, r.gap, r.suffix);
      SuffixFound(value, r.suffix);
    }
    TrimSpaceOfPadded(r.lead, value, r.trail);
  }

  lemma SignIsTight(sign: string, digits: string)
    requires sign in {"", "+", "-"} && digits != "" && AllDigits(digits)
    ensures Tight(sign + digits) && IsDigit((sign + digits)[|sign + digits| - 1])
  {
  }

  lemma SuffixCutsOff(number: string, gap: string, suffix: string)
    requires number != "" && Tight(number) && Blank(gap)
    requires suffix != "" && !IsSpace(suffix[|suffix| - 1])
    ensures Tight(number + (gap + suffix)) && HasSuffix(number + (gap + suffix), suffix)
    ensures NumberPart(number + (gap + suffix), suffix) == number
  {
    var value := number + (gap + suffix);
    assert value[|value| - 1] == suffix[|suffix| - 1] && value[0] == number[0];
    assert value[|value| - |suffix|..] == suffix;
    assert TrimSuffix(value, suffix) == "" + number + gap;
    TrimSpaceOfPadded("", number, gap);
  }

  /** Printing a legal size in bytes, or in KiB with any suffix, and padding it, loses nothing. */
  lemma PrintThenParse(b: int, lead: string, gap: string, suffix: string, trail: string)
    requires Legal(b) && Blank(lead) && Blank(gap) && Blank(trail) && suffix in SUFFIXES
    ensures BlockSizeOf(lead + Itoa(b) + trail) == Some(b)
    ensures BlockSizeOf(lead + (Itoa(b / KIB) + gap + suffix) + trail) == Some(b)
  {
    PlainReading(b, lead, trail);
    SuffixedReading(b / KIB, lead, gap, suffix, trail);
  }

  lemma SuffixedReading(n: nat, lead: string, gap: string, suffix: string, trail: string)
    requires Legal(n * KIB) && Blank(lead) && Blank(gap) && Blank(trail) && suffix in SUFFIXES
    ensures BlockSizeOf(lead + (Itoa(n) + gap + suffix) + trail) == Some(n * KIB)
  {
    ItoaRoundTrip(n);
    SuffixesAreTight(suffix);
    var r := Reading(lead, "", Itoa(n), gap, suffix, trail);
    assert "" + Itoa(n) == Itoa(n);
    ReadingIsAccepted(r);
  }

  lemma PlainReading(b: int, lead: string, trail: string)
    requires Legal(b) && Blank(lead) && Blank(trail)
    ensures BlockSizeOf(lead + Itoa(b) + trail) == Some(b)
  {
    ItoaRoundTrip(b);
    var plain := Reading(lead, "", Itoa(b), "", "", trail);
    assert "" + Itoa(b) + "" + "" == Itoa(b);
    ReadingIsAccepted(plain);
  }

  /** Every accepted parameter is a legal size. */
  lemma AcceptedIsLegal(raw: string)
    requires BlockSizeOf(raw).Some?
    ensures Legal(BlockSizeOf(raw).value)
  {
    var r := AcceptedHasReading(raw, BlockSizeOf(raw).value);
  }

  /** The suffixes in use, and nothing else; each stands for 1024 bytes. */
  lemma SuffixesByName(s: string)
    ensures s in SUFFIXES <==> s == "KiB" || s == "KB" || s == "Ki" || s == "K" || s == "k"
    ensures s in SUFFIXES ==> Multiplier(s) == 1024
    ensures Multiplier("") == 1
  {
  }
}
