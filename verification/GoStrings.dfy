/**
 The parts of Go's `strings`, `strconv` and `unicode` packages that the driver calls.
 A string is a sequence of Unicode code points.
 */
module GoStrings {
  import opened Outcomes

  // ---------- blanks ----------

  /** unicode.IsSpace */
  predicate IsSpace(c: char) {
    || c in {'\t', '\n', '\U{0B}', '\U{0C}', '\r', ' ', '\U{85}', '\U{A0}', '\U{1680}'}
    || '\U{2000}' <= c <= '\U{200A}'
    || c in {'\U{2028}', '\U{2029}', '\U{202F}', '\U{205F}', '\U{3000}'}
  }

  predicate Blank(s: string) {
    forall i :: 0 <= i < |s| ==> IsSpace(s[i])
  }

  function TrimLeft(s: string): string {
    if s != "" && IsSpace(s[0]) then TrimLeft(s[1..]) else s
  }

  function TrimRight(s: string): string {
    if s != "" && IsSpace(s[|s| - 1]) then TrimRight(s[..|s| - 1]) else s
  }

  /** strings.TrimSpace */
  function TrimSpace(s: string): string {
    TrimRight(TrimLeft(s))
  }

  /** Neither end is blank, so trimming leaves it alone. */
  predicate Tight(s: string) {
    s != "" ==> !IsSpace(s[0]) && !IsSpace(s[|s| - 1])
  }

  lemma {:induction false} TrimLeftOfPadded(lead: string, t: string)
    requires Blank(lead)
    requires t != "" ==> !IsSpace(t[0])
    ensures TrimLeft(lead + t) == t
  {
    if lead == "" {
      assert lead + t == t;
    } else {
      assert (lead + t)[1..] == lead[1..] + t;
      TrimLeftOfPadded(lead[1..], t);
    }
  }

  lemma {:induction false} TrimRightOfPadded(t: string, trail: string)
    requires Blank(trail)
    requires t != "" ==> !IsSpace(t[|t| - 1])
    ensures TrimRight(t + trail) == t
  {
    if trail == "" {
      assert t + trail == t;
    } else {
      var s := t + trail;
      assert s[..|s| - 1] == t + trail[..|trail| - 1];
      TrimRightOfPadded(t, trail[..|trail| - 1]);
    }
  }

  lemma TrimSpaceOfPadded(lead: string, t: string, trail: string)
    requires Blank(lead) && Blank(trail) && Tight(t)
    ensures TrimSpace(lead + t + trail) == t
  {
    if t == "" {
      TrimLeftOfPadded(lead + trail, "");
      assert lead + t + trail == (lead + trail) + "";
    } else {
      assert lead + t + trail == lead + (t + trail);
      TrimLeftOfPadded(lead, t + trail);
      TrimRightOfPadded(t, trail);
    }
  }

  lemma {:induction false} TrimLeftSplits(s: string) returns (lead: string)
    ensures Blank(lead) && s == lead + TrimLeft(s)
    ensures TrimLeft(s) != "" ==> !IsSpace(TrimLeft(s)[0])
  {
    if s != "" && IsSpace(s[0]) {
      var rest := TrimLeftSplits(s[1..]);
      lead := [s[0]] + rest;
    } else {
      lead := "";
    }
  }

  lemma {:induction false} TrimRightSplits(s: string) returns (trail: string)
    ensures Blank(trail) && s == TrimRight(s) + trail
    ensures TrimRight(s) != "" ==> !IsSpace(TrimRight(s)[|TrimRight(s)| - 1])
  {
    if s != "" && IsSpace(s[|s| - 1]) {
      var rest := TrimRightSplits(s[..|s| - 1]);
      trail := rest + [s[|s| - 1]];
    } else {
      trail := "";
    }
  }

  /** What TrimSpace removes is blank, and what it leaves has no blank end. */
  lemma TrimSpaceSplits(s: string) returns (lead: string, trail: string)
    ensures Blank(lead) && Blank(trail)
    ensures s == lead + TrimSpace(s) + trail && Tight(TrimSpace(s))
  {
    lead := TrimLeftSplits(s);
    trail := TrimRightSplits(TrimLeft(s));
    if TrimSpace(s) != "" {
      assert TrimSpace(s)[0] == TrimLeft(s)[0];
    }
  }

  lemma TrimSpaceKeepsStart(s: string) returns (trail: string)
    requires s != "" && !IsSpace(s[0])
    ensures Blank(trail) && s == TrimSpace(s) + trail
  {
    trail := TrimRightSplits(s);
  }

  // ---------- prefixes and suffixes ----------

  predicate HasPrefix(s: string, prefix: string) {
    |prefix| <= |s| && s[..|prefix|] == prefix
  }

  predicate HasSuffix(s: string, suffix: string) {
    |suffix| <= |s| && s[|s| - |suffix|..] == suffix
  }

  function TrimSuffix(s: string, suffix: string): string {
    if HasSuffix(s, suffix) then s[..|s| - |suffix|] else s
  }

  // ---------- decimal numbers ----------

  predicate IsDigit(c: char) { '0' <= c <= '9' }

  predicate AllDigits(s: string) {
    forall i :: 0 <= i < |s| ==> IsDigit(s[i])
  }

  function DigitChar(d: nat): (c: char)
    requires d < 10
    ensures IsDigit(c)
  {
    '0' + d as char
  }

  function DigitsValue(s: string): (n: nat)
    requires AllDigits(s)
  {
    if s == "" then 0 else 10 * DigitsValue(s[..|s| - 1]) + (s[|s| - 1] - '0') as nat
  }

  /** strconv.Itoa of a non-negative number */
  function Itoa(n: nat): (s: string)
    ensures s != "" && AllDigits(s)
  {
    if n < 10 then [DigitChar(n)] else Itoa(n / 10) + [DigitChar(n % 10)]
  }

  lemma {:induction false} ItoaRoundTrip(n: nat)
    ensures DigitsValue(Itoa(n)) == n
  {
    if n < 10 {
      assert Itoa(n)[..0] == "";
    } else {
      ItoaRoundTrip(n / 10);
      assert Itoa(n)[..|Itoa(n)| - 1] == Itoa(n / 10);
    }
  }

  lemma ItoaInjective(m: nat, n: nat)
    ensures Itoa(m) == Itoa(n) <==> m == n
  {
    ItoaRoundTrip(m);
    ItoaRoundTrip(n);
  }

  /** strconv.ParseInt(s, 10, 64): an optional sign, at least one digit, and the int64 range. */
  function ParseInt(s: string): Option<int> {
    var negative := s != "" && s[0] == '-';
    var digits := if s != "" && s[0] in {'+', '-'} then s[1..] else s;
    if digits == "" || !AllDigits(digits) then None
    else
      var magnitude: int := DigitsValue(digits);
      var n := if negative then -magnitude else magnitude;
      if INT64_MIN <= n <= INT64_MAX then Some(n) else None
  }
}
