/**
 Arithmetic shared by the quotes: rounding up, the platform fee, minor units of payout currencies. Amounts are reals;
 the source's explicit slack of 1e-9 in its ceilings is kept.
 */
module QuoteMath {
  import DepositAmount
  import Text

  function Max(x: real, y: real): real {
    if x < y then y else x
  }

  function Min(x: real, y: real): real {
    if y < x then y else x
  }

  function Ceil(x: real): (n: int)
    ensures x <= n as real < x + 1.0
  {
    -(-x).Floor
  }

  const SLACK := 0.000000001

  /** `Math.ceil(amount * f - 1e-9) / f`, for an amount above zero. */
  function CeilTo(amount: real, f: real): real
    requires f > 0.0
  {
    if amount <= 0.0 then amount else Ceil(amount * f - SLACK) as real / f
  }

  /** How far the ceiling moves: up by less than one unit, down by no more than the slack. */
  lemma CeilToBounds(amount: real, f: real)
    requires f > 0.0 && amount > 0.0
    ensures amount - SLACK / f <= CeilTo(amount, f) < amount + 1.0 / f
  {
    var n := Ceil(amount * f - SLACK) as real;
    DivideBounds(amount * f - SLACK, n, f);
    assert (amount * f - SLACK) / f == amount - SLACK / f;
    DivideStrict(n, amount * f + 1.0, f);
    assert (amount * f + 1.0) / f == amount + 1.0 / f;
  }

  /** Nothing is rounded at or below zero. */
  lemma CeilToKeeps(amount: real, f: real)
    requires f > 0.0 && amount <= 0.0
    ensures CeilTo(amount, f) == amount
  {
  }

  lemma Distribute(x: real, y: real, f: real)
    ensures (x + y) * f == x * f + y * f
  {
  }

  lemma MultiplyBounds(x: real, y: real, f: real)
    requires f >= 0.0 && x <= y
    ensures x * f <= y * f
  {
  }

  lemma MultiplyStrict(x: real, y: real, f: real)
    requires f > 0.0 && x < y
    ensures x * f < y * f
  {
  }

  lemma PositiveProduct(x: real, y: real)
    requires x > 0.0 && y > 0.0
    ensures x * y > 0.0
  {
  }

  lemma PositiveQuotient(x: real, y: real)
    requires x > 0.0 && y > 0.0
    ensures x / y > 0.0
  {
  }

  lemma DivideBounds(x: real, y: real, f: real)
    requires f > 0.0 && x <= y
    ensures x / f <= y / f
  {
  }

  lemma DivideStrict(x: real, y: real, f: real)
    requires f > 0.0 && x < y
    ensures x / f < y / f
  {
  }

  /** A whole number of units. */
  predicate Whole(amount: real, f: real) {
    (amount * f).Floor as real == amount * f
  }

  lemma CeilToIsWhole(amount: real, f: real)
    requires f > 0.0 && amount > 0.0
    ensures Whole(CeilTo(amount, f), f)
  {
    var n := Ceil(amount * f - SLACK);
    assert CeilTo(amount, f) * f == n as real;
  }

  // ---------- the platform fee ----------

  datatype PlatformFee = Flat(value: real) | Percentage(value: real)

  datatype Applied = Applied(feeAmount: real, netAmount: real)

  function Clamp(x: real, top: real): (r: real)
    requires top >= 0.0
    ensures 0.0 <= r <= top
  {
    Max(0.0, Min(top, x))
  }

  /** The fee is taken from the gross amount; the rest never goes below zero. */
  function ApplyPlatformFee(gross: real, fee: PlatformFee): (r: Applied)
    requires gross >= 0.0
    ensures r.feeAmount >= 0.0 && r.netAmount >= 0.0
  {
    var feeAmount := match fee
      case Flat(value) => Max(0.0, value)
      case Percentage(value) => Product(gross, Clamp(value, 1.0));
    Applied(feeAmount, Max(0.0, gross - feeAmount))
  }

  /** The fee by its kind: a flat one that is above zero, or a share of the amount between nothing and all of it. */
  function Charged(fee: PlatformFee, gross: real): real {
    match fee
    case Flat(value) => if value > 0.0 then value else 0.0
    case Percentage(value) => if value <= 0.0 then 0.0 else if value >= 1.0 then gross else gross * value
  }

  lemma FeeIsCharged(gross: real, fee: PlatformFee)
    requires gross >= 0.0
    ensures var applied := ApplyPlatformFee(gross, fee);
            applied.feeAmount == Charged(fee, gross) &&
            applied.netAmount == if gross > Charged(fee, gross) then gross - Charged(fee, gross) else 0.0
  {
  }

  function Product(x: real, y: real): (r: real)
    ensures x >= 0.0 && y >= 0.0 ==> r >= 0.0
  {
    x * y
  }

  const MAX_SOLVED_RATE := 0.999999

  /** The gross amount from which a net amount remains; the percentage is capped below 1 here. */
  function GrossFor(net: real, fee: PlatformFee): real {
    match fee
    case Flat(value) => net + Max(0.0, value)
    case Percentage(value) => net / (1.0 - Clamp(value, MAX_SOLVED_RATE))
  }

  /** The fee a solver can invert: any flat one, and a percentage up to its cap. */
  predicate Invertible(fee: PlatformFee) {
    fee.Flat? || fee.value <= MAX_SOLVED_RATE
  }

  /** What is left of a gross amount is linear in it, with a slope in (0, 1], as long as something is left. */
  function Slope(fee: PlatformFee): (k: real)
    requires Invertible(fee)
    ensures 0.0 < k <= 1.0
  {
    if fee.Flat? then 1.0 else 1.0 - Clamp(fee.value, MAX_SOLVED_RATE)
  }

  /** The solver inverts the fee: a gross amount off by `delta` leaves the net amount off by `Slope * delta`. */
  lemma FeeOfGross(net: real, delta: real, fee: PlatformFee)
    requires Invertible(fee) && net > 0.0 && GrossFor(net, fee) + delta >= 0.0
    ensures ApplyPlatformFee(GrossFor(net, fee) + delta, fee).netAmount == Max(0.0, net + Slope(fee) * delta)
  {
    if fee.Percentage? {
      var p := Clamp(fee.value, MAX_SOLVED_RATE);
      assert Clamp(fee.value, 1.0) == p;
      var g := net / (1.0 - p);
      assert g * (1.0 - p) == net;
      LinearRest(g, delta, p, net);
    }
  }

  lemma SlopeShrinks(k: real, delta: real, low: real, high: real)
    requires 0.0 < k <= 1.0 && low > 0.0 && high > 0.0 && -low <= delta < high
    ensures -low <= k * delta < high
  {
    if delta >= 0.0 {
      MultiplyBounds(k, 1.0, delta);
      MultiplyBounds(0.0, k, delta);
      assert k * delta <= delta;
    } else {
      MultiplyBounds(k, 1.0, -delta);
      assert k * delta < 0.0;
    }
  }

  lemma GrossIsAtLeastNet(net: real, fee: PlatformFee)
    requires net > 0.0 && Invertible(fee)
    ensures GrossFor(net, fee) >= net
  {
    if fee.Percentage? { QuotientGrows(net, 1.0 - Clamp(fee.value, MAX_SOLVED_RATE)); }
  }

  /** A gross amount off by `delta` leaves the wanted net amount, after a further fee `t`, off by no more. */
  lemma NetOfRounded(wanted: real, t: real, delta: real, low: real, high: real, fee: PlatformFee)
    requires wanted > 0.0 && t >= 0.0 && Invertible(fee) && low > 0.0 && high > 0.0 && -low <= delta < high
    ensures var gross := Max(0.0, GrossFor(wanted + t, fee) + delta);
            wanted - low <= Max(0.0, ApplyPlatformFee(gross, fee).netAmount - t) < wanted + high
  {
    GrossIsAtLeastNet(wanted + t, fee);
    NothingOfNothing(fee);
    hide GrossFor, ApplyPlatformFee;
    if GrossFor(wanted + t, fee) + delta >= 0.0 {
      FeeOfGross(wanted + t, delta, fee);
      SlopeShrinks(Slope(fee), delta, low, high);
      hide Slope;
      NetBounds(wanted, t, Slope(fee) * delta, low, high);
    }
  }

  lemma NothingOfNothing(fee: PlatformFee)
    ensures ApplyPlatformFee(0.0, fee).netAmount == 0.0
  {
  }

  lemma NetBounds(wanted: real, t: real, delta: real, low: real, high: real)
    requires wanted > 0.0 && t >= 0.0 && high > 0.0 && -low <= delta < high
    ensures wanted - low <= Max(0.0, Max(0.0, wanted + t + delta) - t) < wanted + high
  {
  }

  lemma LinearRest(g: real, delta: real, p: real, net: real)
    requires g * (1.0 - p) == net
    ensures (g + delta) - Product(g + delta, p) == net + (1.0 - p) * delta
  {
  }

  lemma GrossIsPositive(net: real, fee: PlatformFee)
    requires net > 0.0
    ensures GrossFor(net, fee) > 0.0
  {
    if fee.Percentage? { PositiveQuotient(net, 1.0 - Clamp(fee.value, MAX_SOLVED_RATE)); }
  }

  /** How far below 1 the forward fee's slope falls above the solver's cap, relative to the solver's own. */
  function SlopeRatio(p: real): (k: real)
    requires p > MAX_SOLVED_RATE
    ensures 0.0 <= k < 1.0
  {
    (1.0 - Clamp(p, 1.0)) * 1000000.0
  }

  /** A net amount large enough for that to outweigh a rounding of one unit up. */
  function FarEnough(p: real, unit: real, slack: real): (wanted: real)
    requires p > MAX_SOLVED_RATE && unit >= 0.0 && slack >= 0.0
    ensures wanted * (1.0 - SlopeRatio(p)) == unit + slack + 1.0 && wanted >= unit + slack + 1.0
  {
    var far := unit + slack + 1.0;
    var wanted := far / (1.0 - SlopeRatio(p));
    assert wanted >= far by { QuotientGrows(far, 1.0 - SlopeRatio(p)); }
    wanted
  }

  lemma QuotientGrows(x: real, y: real)
    requires x >= 0.0 && 0.0 < y <= 1.0
    ensures x / y >= x
  {
    var q := x / y;
    assert q * y == x;
    if q >= 0.0 { MultiplyBounds(y, 1.0, q); }
  }

  /** Above the cap the solver's gross amount leaves too little, by more than the slack. */
  lemma AboveCapFallsShort(wanted: real, t: real, delta: real, unit: real, slack: real, p: real)
    requires p > MAX_SOLVED_RATE && t >= 0.0 && delta < unit && unit >= 0.0 && slack >= 0.0
    requires wanted == FarEnough(p, unit, slack) && GrossFor(wanted + t, Percentage(p)) + delta >= 0.0
    ensures Max(0.0, ApplyPlatformFee(GrossFor(wanted + t, Percentage(p)) + delta, Percentage(p)).netAmount - t) < wanted - slack
  {
    var q, k := Clamp(p, 1.0), SlopeRatio(p);
    var rest := 1.0 - q;
    var all := GrossFor(wanted + t, Percentage(p));
    assert Clamp(p, MAX_SOLVED_RATE) == MAX_SOLVED_RATE;
    assert all == (wanted + t) * 1000000.0;
    assert (all + delta) - Product(all + delta, q) == (all + delta) * rest;
    RestIsShort(all, delta, wanted, t, rest, unit, slack);
  }

  lemma KeptShare(wanted: real, t: real, k: real, far: real)
    requires 0.0 <= k <= 1.0 && t >= 0.0 && wanted * (1.0 - k) == far
    ensures (wanted + t) * k <= wanted - far + t
  {
    assert wanted * k == wanted - far;
    MultiplyBounds(k, 1.0, t);
    Distribute(wanted, t, k);
  }

  lemma RestIsShort(all: real, delta: real, wanted: real, t: real, rest: real, unit: real, slack: real)
    requires 0.0 <= rest < 0.000001 && t >= 0.0 && delta < unit && unit >= 0.0 && all == (wanted + t) * 1000000.0
    requires wanted * (1.0 - rest * 1000000.0) == unit + slack + 1.0
    ensures (all + delta) * rest < wanted - slack + t
  {
    KeptShare(wanted, t, rest * 1000000.0, unit + slack + 1.0);
    ScaledShare(all, wanted + t, rest);
    SmallShare(all, delta, unit, rest);
  }

  lemma ScaledShare(all: real, part: real, rest: real)
    requires all == part * 1000000.0
    ensures all * rest == part * (rest * 1000000.0)
  {
  }

  lemma ShareOf(x: real, share: real)
    requires x >= 0.0 && 0.0 <= share <= 1.0
    ensures x * share <= x
  {
    MultiplyBounds(share, 1.0, x);
  }

  lemma SmallShare(all: real, delta: real, unit: real, rest: real)
    requires 0.0 <= rest <= 1.0 && delta < unit && unit >= 0.0
    ensures (all + delta) * rest <= all * rest + unit
  {
    Distribute(all, delta, rest);
    MultiplyBounds(delta, unit, rest);
    ShareOf(unit, rest);
  }

  // ---------- minor units ----------

  const ZERO_DECIMAL := {"BIF", "CLP", "DJF", "GNF", "ISK", "JPY", "KMF", "KRW", "PYG", "RWF", "UGX", "VND", "VUV", "XAF", "XOF", "XPF"}

  /** Minor units per major unit: 1 or 100. */
  function MinorUnits(asset: string): (f: real)
    ensures f == 1.0 || f == 100.0
  {
    if Text.Norm(asset) in ZERO_DECIMAL then 1.0 else 100.0
  }

  function RoundTo(amount: real, f: real): real
    requires f > 0.0
  {
    if amount <= 0.0 then amount else DepositAmount.Round(amount * f) as real / f
  }

  /** To the nearest unit, halves up; nothing is rounded at or below zero. */
  lemma RoundToBounds(amount: real, f: real)
    requires f > 0.0
    ensures amount <= 0.0 ==> RoundTo(amount, f) == amount
    ensures amount > 0.0 ==>
              Whole(RoundTo(amount, f), f) && RoundTo(amount, f) * f - 0.5 <= amount * f < RoundTo(amount, f) * f + 0.5
  {
    if amount > 0.0 {
      var n := DepositAmount.Round(amount * f);
      assert RoundTo(amount, f) * f == n as real;
    }
  }

  /** The payout currencies without minor units; every other has two decimals. */
  lemma WithoutMinorUnits(asset: string)
    ensures MinorUnits(asset) == 1.0 <==>
              Text.Norm(asset) in {"BIF", "CLP", "DJF", "GNF", "ISK", "JPY", "KMF", "KRW", "PYG", "RWF", "UGX", "VND", "VUV", "XAF", "XOF", "XPF"}
  {
    hide Text.Norm;
  }
}
