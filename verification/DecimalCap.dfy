/**
 The funding cap sent with a payout, as a decimal string (core/integrations/palremitOfframp.ts), the format the
 operator's rate acceptance demands of it (core/admin/heldPayouts.ts), and the cap of dollar stablecoin sells
 (core/quotes/usdStableSell.ts).
 */
module DecimalCap {
  import opened Wrappers
  import opened QuoteMath
  import DepositAmount
  import OfframpPricing
  import Text

  // ---------- decimal strings ----------

  predicate IsDigit(c: char) {
    '0' <= c <= '9'
  }

  predicate AllDigits(s: string) {
    forall i :: 0 <= i < |s| ==> IsDigit(s[i])
  }

  /** `0|[1-9]\d*` */
  predicate IsWhole(s: string) {
    s != "" && AllDigits(s) && (s == "0" || s[0] != '0')
  }

  /** Where the point is, or the length. */
  function DotAt(s: string): (d: nat)
    ensures d <= |s| && '.' !in s[..d] && (d < |s| ==> s[d] == '.')
  {
    if s == "" || s[0] == '.' then 0
    else
      assert s[..1 + DotAt(s[1..])] == [s[0]] + s[1..][..DotAt(s[1..])];
      1 + DotAt(s[1..])
  }

  function Fraction(s: string): string {
    var d := DotAt(s);
    if d < |s| then s[d + 1..] else ""
  }

  /** `(0|[1-9]\d*)(\.\d{1,most})?` */
  predicate IsDecimal(s: string, most: nat) {
    var d := DotAt(s);
    IsWhole(s[..d]) && (d < |s| ==> 1 <= |Fraction(s)| <= most && AllDigits(Fraction(s)))
  }

  function DigitValue(c: char): (d: nat)
    ensures d <= 9
  {
    if IsDigit(c) then c as int - '0' as int else 0
  }

  /** The number that digits before the point denote. */
  function WholeValue(s: string): nat {
    if s == "" then 0 else WholeValue(s[..|s| - 1]) * 10 + DigitValue(s[|s| - 1])
  }

  /** The number that digits after the point denote. */
  function FractionValue(f: string): (r: real)
    ensures 0.0 <= r < 1.0
  {
    if f == "" then 0.0 else (DigitValue(f[0]) as real + FractionValue(f[1..])) / 10.0
  }

  /** `Number(s)` of a decimal string. */
  function Value(s: string): real {
    WholeValue(s[..DotAt(s)]) as real + FractionValue(Fraction(s))
  }

  /** One unit of the n-th decimal place. */
  function Unit(n: nat): (u: real)
    ensures 0.0 < u <= 1.0
  {
    if n == 0 then 1.0 else Unit(n - 1) / 10.0
  }

  // ---------- the cap ----------

  const MAX_FRACTION := 6

  /** Cut the fraction of a decimal string. */
  function Cut(s: string): string {
    var d := DotAt(s);
    if d == |s| then s
    else s[..d] + "." + if |Fraction(s)| > MAX_FRACTION then Fraction(s)[..MAX_FRACTION] else Fraction(s)
  }

  function FormatSourceAmountCap(raw: Option<string>): Option<string> {
    if raw.None? then None
    else
      var s := Text.Trim(raw.value);
      if s == "" || !IsDecimal(s, |s|) then None
      else if Value(Cut(s)) > 0.0 then Some(Cut(s))
      else None
  }

  /** The format that the acceptance of a new rate demands. */
  predicate FitsAcceptance(s: string) {
    IsDecimal(s, 6) && Value(s) > 0.0
  }

  lemma DotOfParts(whole: string, rest: string)
    requires '.' !in whole
    ensures DotAt(whole + "." + rest) == |whole|
    ensures (whole + "." + rest)[..|whole|] == whole && Fraction(whole + "." + rest) == rest
  {
    var s := whole + "." + rest;
    var d := DotAt(s);
    assert s[|whole|] == '.';
    assert forall i :: 0 <= i < |whole| ==> s[i] == whole[i] && whole[i] in whole;
    assert forall i :: 0 <= i < d ==> s[i] == s[..d][i] && s[..d][i] in s[..d];
    assert d == |whole|;
  }

  /** A fraction cut after n digits loses less than one unit of the last place kept. */
  predicate Digits(t: string) {
    forall i :: 0 <= i < |t| ==> t[i] in "0123456789"
  }

  /** A zero, or digits that begin with another one; and a point and some more digits, at most `most`, or neither. */
  predicate Spells(s: string, whole: string, fraction: string, most: nat) {
    && Digits(whole) && (whole == "0" || (whole != "" && whole[0] != '0'))
    && if fraction == "" then s == whole else Digits(fraction) && |fraction| <= most && s == whole + "." + fraction
  }

  lemma DigitsExactly(t: string)
    ensures AllDigits(t) <==> Digits(t)
  {
    forall c: char ensures IsDigit(c) <==> c in "0123456789" {}
    hide IsDigit;
  }

  /** The format, by its parts. */
  lemma DecimalExactly(s: string, most: nat)
    ensures IsDecimal(s, most) <==> exists whole, fraction :: Spells(s, whole, fraction, most)
  {
    var d := DotAt(s);
    DigitsExactly(s[..d]);
    DigitsExactly(Fraction(s));
    if IsDecimal(s, most) {
      if d < |s| { assert s == s[..d] + "." + Fraction(s); } else { assert s == s[..d]; }
      assert Spells(s, s[..d], Fraction(s), most);
    }
    if whole, fraction :| Spells(s, whole, fraction, most) {
      assert '.' !in whole && '.' !in fraction;
      if fraction != "" { DotOfParts(whole, fraction); }
    }
  }

  lemma {:induction false} CutFraction(f: string, n: nat)
    requires n <= |f|
    ensures FractionValue(f[..n]) <= FractionValue(f) < FractionValue(f[..n]) + Unit(n)
  {
    if n > 0 {
      CutFraction(f[1..], n - 1);
      assert f[..n][1..] == f[1..][..n - 1];
    }
  }

  /** The cut string: its parts. */
  lemma CutParts(s: string)
    requires IsDecimal(s, |s|)
    ensures var f := Fraction(s);
            IsDecimal(Cut(s), MAX_FRACTION) && Cut(s)[..DotAt(Cut(s))] == s[..DotAt(s)] &&
            Fraction(Cut(s)) == if |f| > MAX_FRACTION then f[..MAX_FRACTION] else f
  {
    var d := DotAt(s);
    if d < |s| {
      DotOfParts(s[..d], if |Fraction(s)| > MAX_FRACTION then Fraction(s)[..MAX_FRACTION] else Fraction(s));
    }
  }

  /** The cut never raises the value and lowers it by less than one millionth. */
  lemma CutBounds(s: string)
    requires IsDecimal(s, |s|)
    ensures Value(Cut(s)) <= Value(s) < Value(Cut(s)) + 0.000001
  {
    CutParts(s);
    var f := Fraction(s);
    if |f| > MAX_FRACTION {
      CutFraction(f, MAX_FRACTION);
      assert Unit(6) == 0.000001;
    }
  }

  lemma {:induction false} DecimalIsClean(s: string, most: nat)
    requires IsDecimal(s, most)
    ensures Text.Clean(s)
  {
    var d := DotAt(s);
    assert s[..d][0] == s[0];
    if d < |s| {
      var f := Fraction(s);
      assert f[|f| - 1] == s[|s| - 1];
    } else {
      assert s[..d] == s;
    }
  }

  /**
   The cap of a decimal string: never above it, less than a millionth below it, in the format the acceptance demands,
   and a fixed point. There is one exactly when the cut value is above zero, and none for any other text.
   */
  lemma CapIsTruncation(raw: string)
    ensures var s := Text.Trim(raw);
            var cap := FormatSourceAmountCap(Some(raw));
            && (cap.Some? <==> s != "" && IsDecimal(s, |s|) && Value(Cut(s)) > 0.0)
            && (cap.Some? ==>
                  && cap.value == Cut(s) && Value(cap.value) <= Value(s) < Value(cap.value) + 0.000001
                  && FitsAcceptance(cap.value) && FormatSourceAmountCap(cap) == cap)
  {
    var s := Text.Trim(raw);
    if s != "" && IsDecimal(s, |s|) {
      CutBounds(s);
      CutParts(s);
      DecimalIsClean(Cut(s), MAX_FRACTION);
      Text.TrimFixesClean(Cut(s));
      CutIsShort(Cut(s));
    }
  }

  /** A text is accepted exactly when it is its own cap: a positive decimal of at most six places. */
  lemma AcceptedIsItsOwnCap(s: string)
    ensures FitsAcceptance(s) <==> FormatSourceAmountCap(Some(s)) == Some(s)
  {
    if FitsAcceptance(s) {
      DecimalIsClean(s, 6);
      Text.TrimFixesClean(s);
      CutIsShort(s);
    } else {
      CapIsTruncation(s);
    }
  }

  lemma CutIsShort(s: string)
    requires IsDecimal(s, MAX_FRACTION)
    ensures Cut(s) == s && IsDecimal(s, |s|)
  {
    var d := DotAt(s);
    if d < |s| { assert s == s[..d] + "." + s[d + 1..]; }
  }

  // ---------- toFixed(8) ----------

  function DigitChar(d: nat): (c: char)
    requires d <= 9
    ensures IsDigit(c) && DigitValue(c) == d
  {
    ('0' as int + d) as char
  }

  function RenderWhole(n: nat): (s: string)
    ensures s != "" && AllDigits(s) && (s[0] == '0' ==> n == 0)
  {
    if n <= 9 then [DigitChar(n)] else RenderWhole(n / 10) + [DigitChar(n % 10)]
  }

  lemma {:induction false} RenderedWhole(n: nat)
    ensures IsWhole(RenderWhole(n)) && WholeValue(RenderWhole(n)) == n
  {
    if n > 9 {
      RenderedWhole(n / 10);
      var s := RenderWhole(n);
      assert s[..|s| - 1] == RenderWhole(n / 10);
    }
  }

  /** Exactly `places` digits. */
  function RenderPlaces(places: nat, n: nat): (s: string)
    ensures |s| == places && AllDigits(s)
  {
    if places == 0 then "" else RenderPlaces(places - 1, n / 10) + [DigitChar(n % 10)]
  }

  lemma {:induction false} FractionEnd(f: string, c: char)
    ensures FractionValue(f + [c]) == FractionValue(f) + Product(DigitValue(c) as real, Unit(|f| + 1))
  {
    assert Unit(|f| + 1) == Unit(|f|) / 10.0;
    if f == "" {
      assert (f + [c])[1..] == "";
    } else {
      FractionEnd(f[1..], c);
      assert (f + [c])[1..] == f[1..] + [c];
      TenthOf(DigitValue(f[0]) as real, FractionValue(f[1..]), DigitValue(c) as real, Unit(|f|));
    }
  }

  lemma TenthOf(first: real, rest: real, d: real, u: real)
    ensures (first + (rest + Product(d, u))) / 10.0 == (first + rest) / 10.0 + Product(d, u / 10.0)
  {
    assert d * u / 10.0 == d * (u / 10.0);
  }

  /** How many numbers the places hold. */
  function Limit(places: nat): nat {
    if places == 0 then 1 else 10 * Limit(places - 1)
  }

  lemma {:induction false} RenderedPlaces(places: nat, n: nat)
    requires n < Limit(places)
    ensures FractionValue(RenderPlaces(places, n)) == Product(n as real, Unit(places))
  {
    if places > 0 {
      RenderedPlaces(places - 1, n / 10);
      PlaceAdded(places, n, n / 10, n % 10, RenderPlaces(places - 1, n / 10));
    }
  }

  lemma PlaceAdded(places: nat, n: nat, q: nat, d: nat, s: string)
    requires places > 0 && n == 10 * q + d && d <= 9 && |s| == places - 1 && FractionValue(s) == Product(q as real, Unit(places - 1))
    ensures FractionValue(s + [DigitChar(d)]) == Product(n as real, Unit(places))
  {
    FractionEnd(s, DigitChar(d));
    LastPlace(n, q, d, Unit(places - 1), Unit(places), FractionValue(s), FractionValue(s + [DigitChar(d)]));
  }

  lemma LastPlace(n: nat, q: nat, d: nat, ten: real, u: real, before: real, after: real)
    requires n == 10 * q + d && u == ten / 10.0 && before == Product(q as real, ten) && after == before + Product(d as real, u)
    ensures after == Product(n as real, u)
  {
    Distribute(10.0 * q as real, d as real, u);
    assert 10.0 * q as real * u == q as real * ten;
  }

  /** `x.toFixed(8)`, for x not below zero. */
  function ToFixed8(x: real): string
    requires x >= 0.0
  {
    var n := DepositAmount.Round(x * 100000000.0);
    assert n > -1;
    RenderWhole(n / 100000000) + "." + RenderPlaces(8, n % 100000000)
  }

  /** What is left of a number after `toFixed(8)` and the cut to six places: a whole number of millionths. */
  function Millionths(x: real): (m: nat)
    requires x >= 0.0
  {
    assert DepositAmount.Round(x * 100000000.0) > -1;
    DepositAmount.Round(x * 100000000.0) / 100
  }

  lemma FixedParts(x: real)
    requires x >= 0.0
    ensures var n := DepositAmount.Round(x * 100000000.0);
            var s := ToFixed8(x);
            n >= 0 && IsDecimal(s, |s|) && Text.Clean(s) && s != "" &&
            s[..DotAt(s)] == RenderWhole(n / 100000000) && Fraction(s) == RenderPlaces(8, n % 100000000)
  {
    var n := DepositAmount.Round(x * 100000000.0);
    assert n > -1;
    var whole, rest := RenderWhole(n / 100000000), RenderPlaces(8, n % 100000000);
    RenderedWhole(n / 100000000);
    NoDotInDigits(whole);
    DotOfParts(whole, rest);
    DecimalIsClean(ToFixed8(x), |ToFixed8(x)|);
  }

  lemma NoDotInDigits(s: string)
    requires AllDigits(s)
    ensures '.' !in s
  {
  }

  lemma SixOfEight(n: nat)
    ensures RenderPlaces(8, n)[..6] == RenderPlaces(6, n / 100)
  {
    assert n / 10 / 10 == n / 100;
    assert RenderPlaces(8, n) == RenderPlaces(7, n / 10) + [DigitChar(n % 10)];
    assert RenderPlaces(7, n / 10) == RenderPlaces(6, n / 10 / 10) + [DigitChar(n / 10 % 10)];
  }

  lemma CutFixedValue(x: real)
    requires x >= 0.0
    ensures Value(Cut(ToFixed8(x))) == Millionths(x) as real / 1000000.0
  {
    var n := DepositAmount.Round(x * 100000000.0);
    FixedParts(x);
    CutParts(ToFixed8(x));
    var w, r := n / 100000000, n % 100000000;
    RenderedWhole(w);
    SixOfEight(r);
    SixPlaces(r / 100);
    assert Fraction(Cut(ToFixed8(x))) == RenderPlaces(6, r / 100);
    assert n / 100 == 1000000 * w + r / 100;
  }

  lemma SixPlaces(m: nat)
    requires m < 1000000
    ensures FractionValue(RenderPlaces(6, m)) == m as real / 1000000.0
  {
    assert Unit(6) == 0.000001 && Limit(6) == 1000000;
    RenderedPlaces(6, m);
  }

  /** The stored cap of a quote, as the payout sends it. */
  lemma SentCap(x: real)
    requires x >= 0.0
    ensures var cap := FormatSourceAmountCap(Some(ToFixed8(x)));
            (cap.Some? <==> Millionths(x) > 0) && (cap.Some? ==> Value(cap.value) == Millionths(x) as real / 1000000.0)
  {
    FixedParts(x);
    CutFixedValue(x);
    Text.TrimFixesClean(ToFixed8(x));
  }

  // ---------- dollar stablecoins sold for dollars ----------

  /** Below this source amount the rounding can eat the headroom. */
  const COVERED_FROM := 0.000397995 / 1.0025

  lemma MillionthsCover(source: real, x: real)
    requires source >= COVERED_FROM && x >= source * 1.0025
    ensures Millionths(x) as real / 1000000.0 >= source
  {
    var n := DepositAmount.Round(x * 100000000.0);
    var m := n / 100;
    assert n <= 100 * m + 99;
    assert x * 100000000.0 < n as real + 0.5;
    assert x * 100000000.0 < 100.0 * m as real + 99.5;
    assert m <= 397 ==> n <= 39799;
  }

  /**
   The cap sent for a dollar stablecoin sell covers what the provider's rate takes, after `toFixed(8)` and the cut,
   whenever that is at least 0.000397995 / 1.0025 (in particular from 0.000402 on).
   */
  lemma UsdSellCapCovers(sendNet: real, receiveNet: real, executable: real)
    requires executable > 0.0 && receiveNet / executable >= COVERED_FROM
    ensures var cap := OfframpPricing.UsdSellCap(sendNet, receiveNet, executable);
            cap >= 0.0 &&
            var sent := FormatSourceAmountCap(Some(ToFixed8(cap)));
            sent.Some? && Value(sent.value) >= receiveNet / executable
  {
    var source := receiveNet / executable;
    var cap := OfframpPricing.UsdSellCap(sendNet, receiveNet, executable);
    MillionthsCover(source, cap);
    SentCap(cap);
  }

  /** The bound is sharp: right below it some amounts are not covered. */
  lemma BelowTheBoundNotAlways()
    ensures var cap := OfframpPricing.UsdSellCap(0.0, 0.000397002, 1.0);
            cap >= 0.0 && FormatSourceAmountCap(Some(ToFixed8(cap))).Some? &&
            Value(FormatSourceAmountCap(Some(ToFixed8(cap))).value) == 0.000397 < 0.000397002 < COVERED_FROM < 0.000397003
  {
    var cap := OfframpPricing.UsdSellCap(0.0, 0.000397002, 1.0);
    assert cap == 0.000397002 * 1.0025;
    assert DepositAmount.Round(cap * 100000000.0) == 39799;
    assert Millionths(cap) == 397;
    SentCap(cap);
  }
}
