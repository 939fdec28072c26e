/** Offramp deposit amounts: what is expected, what was credited, and when a deposit is complete. */
module DepositAmount {
  import opened Wrappers
  import opened Ramps
  import Text

  const AMOUNT_TOLERANCE: real := 0.01

  function Abs(x: real): real {
    if x < 0.0 then -x else x
  }

  /** `Math.round`: to the nearest integer, halves up. */
  function Round(x: real): (n: int)
    ensures n as real - 0.5 <= x < n as real + 0.5
  {
    (x + 0.5).Floor
  }

  /** Two decimal places, as an integer number of cents. */
  function Cents(amount: real): (n: int)
    ensures n as real - 0.5 <= amount * 100.0 < n as real + 0.5
  {
    Round(amount * 100.0)
  }

  /** The quoted deposit: the row's source amount, else the amount of its deposit instructions. */
  function Expected(info: OfframpInfo): (r: Option<real>)
    ensures r.Some? ==> r.value > 0.0
  {
    if info.sourceAmount.Some? && info.sourceAmount.value > 0.0 then info.sourceAmount
    else if info.deposit.amount.Some? && info.deposit.amount.value > 0.0 then info.deposit.amount
    else None
  }

  /** The first of the two amounts that is above zero. */
  lemma ExpectedExactly(info: OfframpInfo, x: real)
    ensures Expected(info) == Some(x) <==>
              x > 0.0 && (info.sourceAmount == Some(x) ||
                          ((info.sourceAmount.Some? ==> info.sourceAmount.value <= 0.0) && info.deposit.amount == Some(x)))
  {
  }

  /** What earlier credits recorded; a missing or negative amount reads as zero. */
  function PriorReceived(t: Timeline): (r: real)
    ensures r >= 0.0
  {
    if t.cryptoReceivedAmount.Some? && t.cryptoReceivedAmount.value >= 0.0 then t.cryptoReceivedAmount.value else 0.0
  }

  function UnderpaymentTolerance(currency: string): (r: real)
    ensures r == 0.0 || r == 1.0
  {
    if Text.Norm(currency) in {"USDT", "USDC", "USD"} then 1.0 else 0.0
  }

  predicate DepositComplete(received: real, expected: real, currency: string) {
    expected > 0.0 &&
    (Cents(received) >= Cents(expected) ||
     (UnderpaymentTolerance(currency) > 0.0 &&
      (Cents(expected) - Cents(received)) as real / 100.0 < UnderpaymentTolerance(currency)))
  }

  /** In cents: less than a dollar short for the dollar stablecoins, not short at all for any other asset. */
  lemma CompleteExactly(received: real, expected: real, currency: string)
    ensures DepositComplete(received, expected, currency) <==>
              expected > 0.0 &&
              if Text.Norm(currency) in {"USDT", "USDC", "USD"} then Cents(received) > Cents(expected) - 100
              else Cents(received) >= Cents(expected)
  {
    hide Cents, Text.Norm;
  }

  /** In amounts: what is surely complete and what is surely not, half a cent of rounding on either side. */
  lemma CompleteBounds(received: real, expected: real, currency: string)
    requires expected > 0.0
    ensures var short := if Text.Norm(currency) in {"USDT", "USDC", "USD"} then 1.0 else 0.01;
            && (received >= expected - short + 0.01 ==> DepositComplete(received, expected, currency))
            && (DepositComplete(received, expected, currency) ==> received > expected - short)
  {
    CompleteExactly(received, expected, currency);
    hide Cents, Text.Norm, DepositComplete;
  }

  /**
   The tolerance of the pairing check is tighter than the completeness test of on-chain credits: an amount
   within a cent of the quoted deposit is a complete deposit for the dollar stablecoins.
   */
  lemma WithinToleranceIsComplete(received: real, expected: real, currency: string)
    requires expected > 0.0 && Abs(received - expected) <= AMOUNT_TOLERANCE
    requires Text.Norm(currency) in {"USDT", "USDC", "USD"}
    ensures DepositComplete(received, expected, currency)
  {
    CompleteBounds(received, expected, currency);
  }

  /** For an asset without a tolerance the same amount can be short: the two tests differ there. */
  lemma WithinToleranceCanBeShort()
    ensures exists received: real, expected: real ::
              expected > 0.0 && Abs(received - expected) <= AMOUNT_TOLERANCE &&
              !DepositComplete(received, expected, "BTC")
  {
    var received, expected := 1.0, 1.01;
    assert Cents(received) == 100 && Cents(expected) == 101;
    assert Text.Trim("BTC") == "BTC";
    assert Text.Norm("BTC")[0] == 'B';
    assert !DepositComplete(received, expected, "BTC");
  }
}
