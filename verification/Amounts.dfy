/** Printing scaled token amounts with grouping commas, and parsing them back. */
module Amounts {
  import opened Results

  type Digits = s: string | AllDigits(s)

  predicate IsDigit(c: char) {
    '0' <= c <= '9'
  }

  predicate AllDigits(s: string) {
    forall i :: 0 <= i < |s| ==> IsDigit(s[i])
  }

  function Pow10(n: nat): (p: nat)
    ensures p > 0
  {
    if n == 0 then 1 else 10 * Pow10(n - 1)
  }

  // --- numerals ---

  function DigitOf(d: nat): char
    requires d < 10
  {
    '0' + d as char
  }

  function ValueOf(c: char): nat
    requires IsDigit(c)
  {
    (c - '0') as nat
  }

  function Numeral(n: nat): (s: Digits)
    ensures |s| > 0
  {
    if n < 10 then [DigitOf(n)] else Numeral(n / 10) + [DigitOf(n % 10)]
  }

  function Value(s: Digits): nat {
    if s == [] then 0 else 10 * Value(s[..|s| - 1]) + ValueOf(s[|s| - 1])
  }

  function Zeros(n: nat): (s: Digits)
    ensures |s| == n && forall i :: 0 <= i < n ==> s[i] == '0'
  {
    seq(n, i => '0')
  }

  function PadStart(s: Digits, n: nat): Digits {
    if |s| >= n then s else Zeros(n - |s|) + s
  }

  function PadEnd(s: Digits, n: nat): Digits {
    if |s| >= n then s else s + Zeros(n - |s|)
  }

  function TrimZeros(s: Digits): Digits {
    if s == [] || s[|s| - 1] != '0' then s else TrimZeros(s[..|s| - 1])
  }

  // Groups of three, from the right.
  function Grouped(s: string): string {
    if |s| <= 3 then s else Grouped(s[..|s| - 3]) + "," + s[|s| - 3..]
  }

  function WithoutCommas(s: string): string {
    if s == [] then []
    else (if s[0] == ',' then [] else [s[0]]) + WithoutCommas(s[1..])
  }

  // --- the printer and the parser ---

  function FractionText(f: nat, decimals: nat): string {
    if f > 0 then ['.'] + TrimZeros(PadStart(Numeral(f), decimals)) else []
  }

  function FormatParts(whole: nat, frac: nat, decimals: nat): string {
    Grouped(Numeral(whole)) + FractionText(frac, decimals)
  }

  function Quotient(a: nat, b: nat): nat
    requires b > 0
  {
    a / b
  }

  function Rest(a: nat, b: nat): nat
    requires b > 0
  {
    a % b
  }

  function FormatMagnitude(abs: nat, decimals: nat): string {
    FormatParts(Quotient(abs, Pow10(decimals)), Rest(abs, Pow10(decimals)), decimals)
  }

  function FormatAmount(value: int, decimals: nat): string {
    if value < 0 then ['-'] + FormatMagnitude(-value, decimals) else FormatMagnitude(value, decimals)
  }

  // The white space and line terminators that JavaScript trims.
  predicate IsSpace(c: char) {
    || '\U{9}' <= c <= '\U{d}' || c == ' ' || c == '\U{a0}' || c == '\U{1680}'
    || '\U{2000}' <= c <= '\U{200a}' || c == '\U{2028}' || c == '\U{2029}'
    || c == '\U{202f}' || c == '\U{205f}' || c == '\U{3000}' || c == '\U{feff}'
  }

  function Trim(s: string): string {
    if s != [] && IsSpace(s[0]) then Trim(s[1..])
    else if s != [] && IsSpace(s[|s| - 1]) then Trim(s[..|s| - 1])
    else s
  }

  function DotIndex(s: string): (i: nat)
    ensures i <= |s|
  {
    if s == [] || s[0] == '.' then 0 else 1 + DotIndex(s[1..])
  }

  function Scaled(whole: Digits, frac: Digits, decimals: nat): nat {
    Value(whole) * Pow10(decimals) + Value(PadEnd(frac, decimals))
  }

  function ParseMagnitude(s: string, decimals: nat): Result<nat> {
    var dot := DotIndex(s);
    var whole := s[..dot];
    var frac := if dot < |s| then s[dot + 1..] else [];
    var _ :- Need(whole != [] && AllDigits(whole) && AllDigits(frac) && (dot < |s| ==> frac != []), NotADecimal);
    var _ :- Need(|frac| <= decimals, TooManyDecimals);
    Ok(Scaled(whole, frac, decimals))
  }

  function ParseAmount(raw: string, decimals: nat): Result<int> {
    var s := Trim(raw);
    if s != [] && s[0] == '-' then
      var m: nat :- ParseMagnitude(s[1..], decimals);
      Ok(0 - m as int)
    else
      ParseMagnitude(s, decimals)
  }

  // --- numerals carry their value ---

  lemma {:induction false} NumeralValue(n: nat)
    ensures Value(Numeral(n)) == n
  {
    if n >= 10 {
      NumeralValue(n / 10);
      assert Numeral(n)[..|Numeral(n)| - 1] == Numeral(n / 10);
    }
  }

  lemma {:induction false} NumeralLength(n: nat, k: nat)
    requires k > 0
    ensures |Numeral(n)| <= k <==> n < Pow10(k)
  {
    if n < 10 {
      Pow10AtLeast(k);
    } else if k == 1 {
      assert Pow10(1) == 10 * Pow10(0);
    } else {
      NumeralLength(n / 10, k - 1);
      assert n / 10 < Pow10(k - 1) <==> n < 10 * Pow10(k - 1);
    }
  }

  lemma Pow10AtLeast(k: nat)
    requires k > 0
    ensures Pow10(k) >= 10
  {
  }

  lemma {:induction false} LeadingZeros(n: nat, s: Digits)
    ensures Value(Zeros(n) + s) == Value(s)
    decreases n + |s|
  {
    var t := Zeros(n) + s;
    if s != [] {
      assert t[..|t| - 1] == Zeros(n) + s[..|s| - 1];
      LeadingZeros(n, s[..|s| - 1]);
    } else if n > 0 {
      assert t[..|t| - 1] == Zeros(n - 1) + s;
      LeadingZeros(n - 1, s);
    }
  }

  lemma {:induction false} TrimmedZeros(s: Digits)
    ensures var t := TrimZeros(s); |t| <= |s| && s == t + Zeros(|s| - |t|) && (t == [] ==> Value(s) == 0)
  {
    if s != [] && s[|s| - 1] == '0' {
      TrimmedZeros(s[..|s| - 1]);
    }
  }

  lemma {:induction false} AllZeros(n: nat)
    ensures Value(Zeros(n)) == 0
  {
    LeadingZeros(n, []);
    assert Zeros(n) + [] == Zeros(n);
  }

  // The fraction as it is printed: trimmed, never empty, and recovered by padding.
  lemma FractionSurvives(f: nat, decimals: nat)
    requires 0 < f < Pow10(decimals)
    ensures var t := TrimZeros(PadStart(Numeral(f), decimals));
            t != [] && |t| <= decimals && Value(PadEnd(t, decimals)) == f
  {
    hide Numeral, Value, TrimZeros, PadEnd;
    if decimals > 0 {
      NumeralLength(f, decimals);
    }
    hide Pow10;
    NumeralValue(f);
    LeadingZeros(decimals - |Numeral(f)|, Numeral(f));
    TrimmedSurvives(PadStart(Numeral(f), decimals), f);
  }

  lemma TrimmedSurvives(p: Digits, f: nat)
    requires Value(p) == f > 0
    ensures var t := TrimZeros(p); t != [] && |t| <= |p| && PadEnd(t, |p|) == p
  {
    hide Value;
    TrimmedZeros(p);
    AllZeros(|p|);
  }

  // --- commas ---

  lemma {:induction false} StripConcat(a: string, b: string)
    ensures WithoutCommas(a + b) == WithoutCommas(a) + WithoutCommas(b)
  {
    if a == [] {
      assert a + b == b;
    } else {
      assert (a + b)[1..] == a[1..] + b;
      StripConcat(a[1..], b);
    }
  }

  lemma {:induction false} StripNothing(s: string)
    requires ',' !in s
    ensures WithoutCommas(s) == s
  {
    if s != [] {
      StripNothing(s[1..]);
    }
  }

  lemma {:induction false} GroupedStripped(s: string)
    requires ',' !in s
    ensures WithoutCommas(Grouped(s)) == s
    ensures ',' in Grouped(s) <==> |s| > 3
  {
    if |s| <= 3 {
      StripNothing(s);
    } else {
      var head, tail := s[..|s| - 3], s[|s| - 3..];
      GroupedStripped(head);
      StripNothing(tail);
      StripConcat(Grouped(head) + ",", tail);
      StripConcat(Grouped(head), ",");
      assert WithoutCommas(",") == [];
      assert Grouped(s)[|Grouped(head)|] == ',';
    }
  }

  // --- parsing what was printed ---

  lemma {:induction false} DotAfter(whole: Digits, rest: string)
    requires rest == [] || rest[0] == '.'
    ensures DotIndex(whole + rest) == |whole|
  {
    if whole == [] {
      assert whole + rest == rest;
    } else {
      assert (whole + rest)[1..] == whole[1..] + rest;
      DotAfter(whole[1..], rest);
    }
  }

  // The printed magnitude without its commas.
  function PlainParts(whole: nat, frac: nat, decimals: nat): string {
    Numeral(whole) + FractionText(frac, decimals)
  }

  function Plain(abs: nat, decimals: nat): string {
    PlainParts(Quotient(abs, Pow10(decimals)), Rest(abs, Pow10(decimals)), decimals)
  }

  lemma FractionHasNoComma(f: nat, decimals: nat)
    ensures ',' !in FractionText(f, decimals)
  {
  }

  lemma PartsStripped(whole: Digits, rest: string)
    requires ',' !in rest
    ensures WithoutCommas(Grouped(whole) + rest) == whole + rest
    ensures ',' in Grouped(whole) + rest <==> |whole| > 3
    ensures |whole| <= 3 ==> Grouped(whole) == whole
  {
    GroupedStripped(whole);
    StripConcat(Grouped(whole), rest);
    StripNothing(rest);
  }

  lemma FormatPartsStripped(whole: nat, frac: nat, decimals: nat)
    ensures WithoutCommas(FormatParts(whole, frac, decimals)) == PlainParts(whole, frac, decimals)
    ensures ',' in FormatParts(whole, frac, decimals) <==> whole >= 1000
    ensures whole < 1000 ==> FormatParts(whole, frac, decimals) == PlainParts(whole, frac, decimals)
  {
    FractionHasNoComma(frac, decimals);
    Thousand();
    hide Pow10, Numeral, FractionText, Grouped, WithoutCommas;
    PartsStripped(Numeral(whole), FractionText(frac, decimals));
    NumeralLength(whole, 3);
  }

  lemma FormatStripped(abs: nat, decimals: nat)
    ensures WithoutCommas(FormatMagnitude(abs, decimals)) == Plain(abs, decimals)
    ensures ',' in FormatMagnitude(abs, decimals) <==> abs >= 1000 * Pow10(decimals)
    ensures abs < 1000 * Pow10(decimals) ==> FormatMagnitude(abs, decimals) == Plain(abs, decimals)
  {
    hide Pow10, FormatParts, PlainParts, WithoutCommas;
    QuotientBelow(abs, Pow10(decimals), 1000);
    hide Quotient, Rest;
    FormatPartsStripped(Quotient(abs, Pow10(decimals)), Rest(abs, Pow10(decimals)), decimals);
  }

  lemma Thousand()
    ensures Pow10(3) == 1000
  {
  }

  lemma QuotientBelow(a: nat, b: nat, q: nat)
    requires b > 0
    ensures Quotient(a, b) < q <==> a < q * b
  {
    var c := a / b;
    assert a == c * b + a % b;
    if c < q {
      assert (c + 1) * b <= q * b;
    } else {
      assert c * b >= q * b;
    }
  }

  lemma PartsParse(whole: Digits, t: Digits, decimals: nat)
    requires whole != [] && |t| <= decimals
    ensures ParseMagnitude(whole, decimals) == Ok(Scaled(whole, [], decimals))
    ensures t != [] ==> ParseMagnitude(whole + (['.'] + t), decimals) == Ok(Scaled(whole, t, decimals))
  {
    hide Scaled;
    DotAfter(whole, []);
    assert whole + [] == whole && whole[..|whole|] == whole;
    var rest := ['.'] + t;
    DotAfter(whole, rest);
    assert (whole + rest)[..|whole|] == whole && (whole + rest)[|whole| + 1..] == t;
  }

  lemma ScaledValue(whole: nat, frac: nat, decimals: nat)
    requires frac < Pow10(decimals)
    ensures Scaled(Numeral(whole), [], decimals) == whole * Pow10(decimals)
    ensures frac > 0 ==> Scaled(Numeral(whole), TrimZeros(PadStart(Numeral(frac), decimals)), decimals) == whole * Pow10(decimals) + frac
  {
    hide Numeral, Value, TrimZeros, PadStart, Pow10;
    NumeralValue(whole);
    AllZeros(decimals);
    assert PadEnd([], decimals) == Zeros(decimals);
    if frac > 0 {
      FractionSurvives(frac, decimals);
    }
  }

  lemma PartsScale(whole: nat, frac: nat, decimals: nat)
    requires frac < Pow10(decimals)
    ensures ParseMagnitude(PlainParts(whole, frac, decimals), decimals) == Ok(whole * Pow10(decimals) + frac)
  {
    hide Numeral, Scaled, ParseMagnitude, TrimZeros, PadStart, Pow10;
    ScaledValue(whole, frac, decimals);
    var n := Numeral(whole);
    if frac > 0 {
      FractionSurvives(frac, decimals);
      PartsParse(n, TrimZeros(PadStart(Numeral(frac), decimals)), decimals);
    } else {
      PartsParse(n, [], decimals);
      assert n + [] == n;
    }
  }

  lemma PlainParses(abs: nat, decimals: nat)
    ensures ParseMagnitude(Plain(abs, decimals), decimals) == Ok(abs)
  {
    hide Pow10, ParseMagnitude, PlainParts, Quotient, Rest;
    var base := Pow10(decimals);
    DivideAndRest(abs, base);
    PartsScale(Quotient(abs, base), Rest(abs, base), decimals);
  }

  lemma DivideAndRest(a: nat, b: nat)
    requires b > 0
    ensures Quotient(a, b) * b + Rest(a, b) == a && Rest(a, b) < b
  {
  }

  lemma DigitsAreTrimmed(s: string)
    requires s != [] && IsDigit(s[0]) && IsDigit(s[|s| - 1])
    ensures Trim(s) == s && Trim(['-'] + s) == ['-'] + s
  {
  }

  lemma PartsAreDigits(whole: nat, frac: nat, decimals: nat)
    requires frac < Pow10(decimals)
    ensures var s := PlainParts(whole, frac, decimals); s != [] && IsDigit(s[0]) && IsDigit(s[|s| - 1])
  {
    hide Pow10, Numeral, TrimZeros, PadStart, PadEnd;
    if frac > 0 {
      FractionSurvives(frac, decimals);
    }
  }

  lemma PlainIsTrimmed(abs: nat, decimals: nat)
    ensures var s := Plain(abs, decimals); s != [] && s[0] != '-' && Trim(s) == s && Trim(['-'] + s) == ['-'] + s
  {
    hide Pow10, Trim, Quotient, Rest;
    var base := Pow10(decimals);
    DivideAndRest(abs, base);
    PartsAreDigits(Quotient(abs, base), Rest(abs, base), decimals);
    DigitsAreTrimmed(Plain(abs, decimals));
  }

  /** Printing, dropping the grouping commas and parsing gives the amount back: every
      integer, every number of decimals. */
  lemma RoundTrip(value: int, decimals: nat)
    ensures ParseAmount(WithoutCommas(FormatAmount(value, decimals)), decimals) == Ok(value)
  {
    hide Plain, FormatMagnitude, ParseMagnitude, Trim, WithoutCommas;
    var abs: nat := if value < 0 then -value else value;
    var s := Plain(abs, decimals);
    FormatStripped(abs, decimals);
    PlainParses(abs, decimals);
    PlainIsTrimmed(abs, decimals);
    if value < 0 {
      StripConcat(['-'], FormatMagnitude(abs, decimals));
      StripNothing(['-']);
      assert (['-'] + s)[1..] == s;
    }
  }

  /** What the parser accepts contains no comma. */
  lemma ParsedHasNoComma(raw: string, decimals: nat)
    requires ParseAmount(raw, decimals).Ok?
    ensures ',' !in raw
  {
    hide Trim, ParseMagnitude;
    TrimKeeps(raw);
    var s := Trim(raw);
    if s != [] && s[0] == '-' {
      MagnitudeHasNoComma(s[1..], decimals);
      assert s == ['-'] + s[1..];
    } else {
      MagnitudeHasNoComma(s, decimals);
    }
  }

  lemma MagnitudeHasNoComma(s: string, decimals: nat)
    requires ParseMagnitude(s, decimals).Ok?
    ensures ',' !in s
  {
    hide Value, Pow10, PadEnd;
    var dot := DotIndex(s);
    DotSplits(s);
    assert s == s[..dot] + s[dot..];
    assert dot < |s| ==> s[dot..] == ['.'] + s[dot + 1..];
  }

  lemma {:induction false} TrimKeeps(s: string)
    ensures ',' in s ==> ',' in Trim(s)
    decreases |s|
  {
    if s != [] && IsSpace(s[0]) {
      assert s == [s[0]] + s[1..];
      TrimKeeps(s[1..]);
    } else if s != [] && IsSpace(s[|s| - 1]) {
      assert s == s[..|s| - 1] + [s[|s| - 1]];
      TrimKeeps(s[..|s| - 1]);
    }
  }

  lemma {:induction false} DotSplits(s: string)
    ensures DotIndex(s) < |s| ==> s[DotIndex(s)] == '.'
  {
    if s != [] && s[0] != '.' {
      DotSplits(s[1..]);
    }
  }

  /** Without dropping the commas the round trip holds exactly below one thousand units. */
  lemma RoundTripWithoutStripping(value: int, decimals: nat)
    ensures ParseAmount(FormatAmount(value, decimals), decimals) == Ok(value)
       <==> -1000 * Pow10(decimals) < value < 1000 * Pow10(decimals)
  {
    var abs: nat := if value < 0 then -value else value;
    FormatStripped(abs, decimals);
    if abs < 1000 * Pow10(decimals) {
      RoundTrip(value, decimals);
      StripNothing(FormatMagnitude(abs, decimals));
      StripNothing(FormatAmount(value, decimals));
    } else {
      assert ',' in FormatAmount(value, decimals);
      if ParseAmount(FormatAmount(value, decimals), decimals).Ok? {
        ParsedHasNoComma(FormatAmount(value, decimals), decimals);
      }
    }
  }

  /** Different amounts never print alike. */
  lemma FormatInjective(v: int, w: int, decimals: nat)
    requires FormatAmount(v, decimals) == FormatAmount(w, decimals)
    ensures v == w
  {
    RoundTrip(v, decimals);
    RoundTrip(w, decimals);
  }

  // --- what is printed, character by character ---

  // Digits in groups of three from the right, a comma before every group but the first.
  predicate InThrees(s: string) {
    && s != [] && s[0] != ','
    && forall i {:trigger s[i]} :: 0 <= i < |s| ==> if (|s| - 1 - i) % 4 == 3 then s[i] == ',' else IsDigit(s[i])
  }

  lemma {:induction false} GroupedInThrees(s: Digits)
    requires s != []
    ensures InThrees(Grouped(s)) && Grouped(s)[0] == s[0]
  {
    hide InThrees;
    if |s| > 3 {
      GroupedInThrees(s[..|s| - 3]);
      OneMoreGroup(Grouped(s[..|s| - 3]), s[|s| - 3..]);
    } else {
      OneGroup(s);
    }
  }

  lemma OneGroup(s: Digits)
    requires 0 < |s| <= 3
    ensures InThrees(s)
  {
  }

  lemma OneMoreGroup(groups: string, three: Digits)
    requires InThrees(groups) && |three| == 3
    ensures InThrees(groups + "," + three)
  {
    var s := groups + "," + three;
    forall i {:trigger s[i]} | 0 <= i < |s| ensures if (|s| - 1 - i) % 4 == 3 then s[i] == ',' else IsDigit(s[i]) {
      var fromEnd := |s| - 1 - i;
      if i < |groups| {
        PastOneGroup(fromEnd);
        assert s[i] == groups[i] && |groups| - 1 - i == fromEnd - 4;
      } else if i > |groups| {
        assert s[i] == three[i - |groups| - 1];
      }
    }
  }

  lemma PastOneGroup(n: int)
    ensures n % 4 == 3 <==> (n - 4) % 4 == 3
  {
  }

  lemma {:induction false} NumeralHasNoLeadingZero(n: nat)
    ensures Numeral(n)[0] == '0' ==> n == 0
  {
    if n >= 10 {
      NumeralHasNoLeadingZero(n / 10);
      assert Numeral(n)[0] == Numeral(n / 10)[0];
    }
  }

  lemma {:induction false} TrimLeavesNoZero(s: Digits)
    ensures var t := TrimZeros(s); t != [] ==> t[|t| - 1] != '0'
  {
    if s != [] && s[|s| - 1] == '0' {
      TrimLeavesNoZero(s[..|s| - 1]);
    }
  }

  lemma MagnitudeForm(abs: nat, decimals: nat) returns (whole: string, frac: string)
    ensures FormatMagnitude(abs, decimals) == whole + (if frac == [] then [] else "." + frac)
    ensures InThrees(whole) && (whole[0] == '0' ==> whole == "0")
    ensures AllDigits(frac) && |frac| <= decimals && (frac != [] ==> frac[|frac| - 1] != '0')
  {
    hide Numeral, Value, Pow10, PadStart, PadEnd, TrimZeros, Grouped, Quotient, Rest, InThrees, Plain, PlainParts;
    var units, parts := Quotient(abs, Pow10(decimals)), Rest(abs, Pow10(decimals));
    DivideAndRest(abs, Pow10(decimals));
    GroupedInThrees(Numeral(units));
    NumeralHasNoLeadingZero(units);
    ZeroIsPlain();
    whole, frac := Grouped(Numeral(units)), [];
    if parts > 0 {
      frac := TrimZeros(PadStart(Numeral(parts), decimals));
      FractionSurvives(parts, decimals);
      TrimLeavesNoZero(PadStart(Numeral(parts), decimals));
    }
  }

  /** An amount prints as its sign, its whole units in groups of three without a leading zero,
      and, if there is one, a fraction of at most so many decimals that does not end in zero. */
  lemma PrintedForm(value: int, decimals: nat) returns (whole: string, frac: string)
    ensures FormatAmount(value, decimals)
         == (if value < 0 then "-" else "") + (whole + (if frac == [] then [] else "." + frac))
    ensures InThrees(whole) && (whole[0] == '0' ==> whole == "0")
    ensures AllDigits(frac) && |frac| <= decimals && (frac != [] ==> frac[|frac| - 1] != '0')
  {
    hide FormatMagnitude, InThrees;
    whole, frac := MagnitudeForm(if value < 0 then -value else value, decimals);
  }

  lemma ZeroIsPlain()
    ensures Grouped(Numeral(0)) == "0"
  {
  }

  // --- what is parsed, character by character ---

  predicate AllSpaces(s: string) {
    forall i :: 0 <= i < |s| ==> IsSpace(s[i])
  }

  // A decimal as it is written: a sign, whole digits, and a fraction if there is one.
  function Written(negative: bool, whole: Digits, frac: Digits): string {
    (if negative then "-" else "") + (whole + (if frac == [] then [] else ['.'] + frac))
  }

  // What it stands for, scaled.
  function Meant(negative: bool, whole: Digits, frac: Digits, decimals: nat): int
    requires |frac| <= decimals
  {
    var m := Value(whole) * Pow10(decimals) + Value(frac) * Pow10(decimals - |frac|);
    if negative then -m else m
  }

  lemma {:induction false} TrimSplits(raw: string) returns (before: string, after: string)
    ensures raw == before + Trim(raw) + after && AllSpaces(before) && AllSpaces(after)
    decreases |raw|
  {
    hide IsSpace;
    if raw != [] && IsSpace(raw[0]) {
      var rest, tail := TrimSplits(raw[1..]);
      before, after := [raw[0]] + rest, tail;
      assert raw == [raw[0]] + (rest + Trim(raw[1..]) + tail);
    } else if raw != [] && IsSpace(raw[|raw| - 1]) {
      var rest, tail := TrimSplits(raw[..|raw| - 1]);
      before, after := rest, tail + [raw[|raw| - 1]];
      assert raw == (rest + Trim(raw[..|raw| - 1]) + tail) + [raw[|raw| - 1]];
    } else {
      before, after := [], [];
    }
  }

  lemma {:induction false} SpacesTrimmed(before: string, s: string, after: string)
    requires s != [] && !IsSpace(s[0]) && !IsSpace(s[|s| - 1]) && AllSpaces(before) && AllSpaces(after)
    ensures Trim(before + s + after) == s
    decreases |before| + |after|
  {
    var raw := before + s + after;
    if before != [] {
      assert raw[1..] == before[1..] + s + after;
      SpacesTrimmed(before[1..], s, after);
    } else if after != [] {
      assert raw[..|raw| - 1] == before + s + after[..|after| - 1];
      assert raw[|raw| - 1] == after[|after| - 1] && raw[0] == s[0];
      SpacesTrimmed(before, s, after[..|after| - 1]);
    } else {
      assert raw == s;
    }
  }

  lemma {:induction false} PaddedValue(frac: Digits, n: nat)
    ensures Value(frac + Zeros(n)) == Value(frac) * Pow10(n)
  {
    if n == 0 {
      assert frac + Zeros(0) == frac;
    } else {
      var t := frac + Zeros(n);
      assert t[..|t| - 1] == frac + Zeros(n - 1);
      PaddedValue(frac, n - 1);
      TenTimes(Value(frac), Pow10(n - 1));
      assert t[|t| - 1] == '0' && Value(t) == 10 * Value(frac + Zeros(n - 1));
    }
  }

  lemma TenTimes(a: nat, b: nat)
    ensures 10 * (a * b) == a * (10 * b)
  {
  }

  lemma ScaledIsMeant(whole: Digits, frac: Digits, decimals: nat)
    requires |frac| <= decimals
    ensures Scaled(whole, frac, decimals) == Meant(false, whole, frac, decimals)
  {
    hide Value, Pow10;
    PaddedValue(frac, decimals - |frac|);
    assert PadEnd(frac, decimals) == frac + Zeros(decimals - |frac|);
  }

  /** Every written decimal with at most so many decimals parses, with spaces around it or
      without, to what it stands for. */
  lemma WrittenParses(before: string, after: string, negative: bool, whole: Digits, frac: Digits, decimals: nat)
    requires whole != [] && |frac| <= decimals && AllSpaces(before) && AllSpaces(after)
    ensures ParseAmount(before + Written(negative, whole, frac) + after, decimals) == Ok(Meant(negative, whole, frac, decimals))
  {
    hide ParseMagnitude, Trim, Scaled, Value, Pow10, AllSpaces;
    var s := Written(false, whole, frac);
    WrittenEnds(negative, whole, frac);
    SpacesTrimmed(before, Written(negative, whole, frac), after);
    PartsParse(whole, frac, decimals);
    ScaledIsMeant(whole, frac, decimals);
    if frac == [] {
      assert s == whole;
    } else {
      assert s == whole + (['.'] + frac);
    }
    assert ParseMagnitude(s, decimals) == Ok(Scaled(whole, frac, decimals));
    assert negative ==> Written(negative, whole, frac)[1..] == s;
  }

  lemma WrittenEnds(negative: bool, whole: Digits, frac: Digits)
    requires whole != []
    ensures var s := Written(negative, whole, frac);
            s != [] && !IsSpace(s[0]) && !IsSpace(s[|s| - 1]) && (s[0] == '-' <==> negative)
  {
  }

  lemma MagnitudeIsWritten(s: string, decimals: nat) returns (whole: Digits, frac: Digits)
    requires ParseMagnitude(s, decimals).Ok?
    ensures whole != [] && |frac| <= decimals && s == Written(false, whole, frac)
  {
    hide Scaled;
    var dot := DotIndex(s);
    DotSplits(s);
    whole, frac := s[..dot], if dot < |s| then s[dot + 1..] else [];
    assert s == s[..dot] + s[dot..];
    assert dot < |s| ==> s[dot..] == ['.'] + s[dot + 1..];
  }

  /** ... and nothing else does. */
  lemma ParsedIsWritten(raw: string, decimals: nat)
    returns (before: string, after: string, negative: bool, whole: Digits, frac: Digits)
    requires ParseAmount(raw, decimals).Ok?
    ensures whole != [] && |frac| <= decimals && AllSpaces(before) && AllSpaces(after)
    ensures raw == before + Written(negative, whole, frac) + after
  {
    hide ParseMagnitude, Trim, AllSpaces;
    before, after := TrimSplits(raw);
    var s := Trim(raw);
    negative := s != [] && s[0] == '-';
    if negative {
      whole, frac := MagnitudeIsWritten(s[1..], decimals);
      assert s == ['-'] + s[1..];
    } else {
      whole, frac := MagnitudeIsWritten(s, decimals);
    }
  }
}
