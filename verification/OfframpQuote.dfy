/**
 The price of an offramp: forward from the crypto sent, backward from the fiat to receive
 (core/quotes/computeOfframpQuoteAmounts.ts), and the order in which a quote floors, marks up and tests it
 (core/quotes/createOfframpQuote.ts).
 */
module OfframpQuote {
  import opened Wrappers
  import opened QuoteMath

  const CRYPTO_UNITS := 100000000.0 // 8 decimals

  datatype Amounts = Amounts(sendNet: real, receiveNet: real, platformFeeAmount: real, transferFee: real)

  /** A missing or negative transfer fee counts as none. */
  function TransferFee(fee: Option<real>): (t: real)
    ensures t >= 0.0
  {
    if fee.Some? && fee.value > 0.0 then fee.value else 0.0
  }

  function Forward(sendAmount: real, rate: real, fee: Option<real>, platformFee: PlatformFee): (r: Amounts)
    requires sendAmount >= 0.0
    ensures r.sendNet >= 0.0 && r.receiveNet == r.sendNet * rate
  {
    var applied := ApplyPlatformFee(sendAmount, platformFee);
    var sendNet := Max(0.0, sendAmount - applied.feeAmount - TransferFee(fee));
    Amounts(sendNet, sendNet * rate, applied.feeAmount, TransferFee(fee))
  }

  /** The gross amount is the net amount and both fees, if it covers them; a missing or negative transfer fee takes nothing. */
  predicate Splits(gross: real, net: real, platform: real, fee: Option<real>) {
    if fee.Some? && fee.value > 0.0
    then if platform + fee.value <= gross then net + platform + fee.value == gross else net == 0.0
    else if platform <= gross then net + platform == gross else net == 0.0
  }

  lemma ForwardSplits(sendAmount: real, rate: real, fee: Option<real>, platformFee: PlatformFee)
    requires sendAmount >= 0.0
    ensures var a := Forward(sendAmount, rate, fee, platformFee);
            a.platformFeeAmount == Charged(platformFee, sendAmount) && a.receiveNet == a.sendNet * rate &&
            a.transferFee == (if fee.Some? && fee.value > 0.0 then fee.value else 0.0) &&
            Splits(sendAmount, a.sendNet, Charged(platformFee, sendAmount), fee)
  {
    FeeIsCharged(sendAmount, platformFee);
    hide ApplyPlatformFee, Charged;
  }

  datatype Solved = Solved(sendGross: real, sendNet: real, platformFeeAmount: real, transferFee: real)

  /** The send, before rounding, that leaves the destination amount. */
  function ExactSend(destination: real, rate: real, fee: Option<real>, platformFee: PlatformFee): (r: real)
    requires destination > 0.0 && rate > 0.0
    ensures r > 0.0
  {
    PositiveQuotient(destination, rate);
    GrossIsPositive(destination / rate + TransferFee(fee), platformFee);
    GrossFor(destination / rate + TransferFee(fee), platformFee)
  }

  function SolveSendFromDest(destination: real, rate: real, fee: Option<real>, platformFee: PlatformFee): (r: Solved) {
    if destination <= 0.0 || rate <= 0.0 then Solved(0.0, 0.0, 0.0, 0.0)
    else
      var sendGross := CeilTo(ExactSend(destination, rate, fee, platformFee), CRYPTO_UNITS);
      CeilToBounds(ExactSend(destination, rate, fee, platformFee), CRYPTO_UNITS);
      CeilOfPositive(ExactSend(destination, rate, fee, platformFee));
      var applied := ApplyPlatformFee(sendGross, platformFee);
      Solved(sendGross, Max(0.0, applied.netAmount - TransferFee(fee)), applied.feeAmount, TransferFee(fee))
  }

  /** Without a destination or a rate there is nothing to send. */
  lemma NothingSolved(destination: real, rate: real, fee: Option<real>, platformFee: PlatformFee)
    ensures destination <= 0.0 || rate <= 0.0 ==> SolveSendFromDest(destination, rate, fee, platformFee) == Solved(0.0, 0.0, 0.0, 0.0)
  {
  }

  lemma SolvedSplits(destination: real, rate: real, fee: Option<real>, platformFee: PlatformFee)
    requires destination > 0.0 && rate > 0.0
    ensures var solved := SolveSendFromDest(destination, rate, fee, platformFee);
            solved.sendGross >= 0.0 && solved.platformFeeAmount == Charged(platformFee, solved.sendGross) &&
            Splits(solved.sendGross, solved.sendNet, Charged(platformFee, solved.sendGross), fee)
  {
    var gross := SolveSendFromDest(destination, rate, fee, platformFee).sendGross;
    CeilOfPositive(ExactSend(destination, rate, fee, platformFee));
    FeeIsCharged(gross, platformFee);
    hide ApplyPlatformFee, Charged, ExactSend;
  }

  lemma CeilOfPositive(amount: real)
    requires amount > 0.0
    ensures CeilTo(amount, CRYPTO_UNITS) >= 0.0
  {
    assert amount * CRYPTO_UNITS - SLACK > -1.0;
    assert Ceil(amount * CRYPTO_UNITS - SLACK) > -1;
  }

  // ---------- forward and backward agree ----------

  const LOW := 0.00000000000000001 // 1e-17, the ceiling's slack in crypto
  const HIGH := 0.00000001         // 1e-8, one crypto unit

  /** The solver computes the same `sendNet` as the forward quote, whatever the fee. */
  lemma SolverAgreesWithForward(destination: real, rate: real, fee: Option<real>, platformFee: PlatformFee)
    requires destination > 0.0 && rate > 0.0
    ensures var solved := SolveSendFromDest(destination, rate, fee, platformFee);
            solved.sendGross >= 0.0 &&
            solved.sendNet == Forward(solved.sendGross, rate, fee, platformFee).sendNet &&
            solved.platformFeeAmount == Forward(solved.sendGross, rate, fee, platformFee).platformFeeAmount
  {
    CeilOfPositive(ExactSend(destination, rate, fee, platformFee));
  }

  /** The solved send leaves the exact net amount, off by the rounding of the send only. */
  lemma SolvedNet(destination: real, rate: real, fee: Option<real>, platformFee: PlatformFee)
    requires destination > 0.0 && rate > 0.0 && Invertible(platformFee)
    ensures var net := SolveSendFromDest(destination, rate, fee, platformFee).sendNet;
            destination / rate - LOW <= net < destination / rate + HIGH
  {
    PositiveQuotient(destination, rate);
    RoundedNet(destination / rate, TransferFee(fee), platformFee);
  }

  lemma RoundedNet(wanted: real, t: real, platformFee: PlatformFee)
    requires wanted > 0.0 && t >= 0.0 && Invertible(platformFee)
    ensures var gross := CeilTo(GrossFor(wanted + t, platformFee), CRYPTO_UNITS);
            gross >= 0.0 && wanted - LOW <= Max(0.0, ApplyPlatformFee(gross, platformFee).netAmount - t) < wanted + HIGH
  {
    var exact := GrossFor(wanted + t, platformFee);
    GrossIsPositive(wanted + t, platformFee);
    CeilToBounds(exact, CRYPTO_UNITS);
    CeilOfPositive(exact);
    NetOfRounded(wanted, t, CeilTo(exact, CRYPTO_UNITS) - exact, LOW, HIGH, platformFee);
  }

  lemma Scaled(net: real, destination: real, rate: real, received: real)
    requires rate > 0.0 && destination / rate - LOW <= net < destination / rate + HIGH && received == net * rate
    ensures destination - rate * LOW <= received < destination + rate * HIGH
  {
    var exact := destination / rate;
    assert destination == exact * rate;
    ScaledBy(net, exact, destination, rate, LOW, HIGH);
  }

  lemma ScaledBy(net: real, exact: real, destination: real, rate: real, low: real, high: real)
    requires rate > 0.0 && exact - low <= net < exact + high && destination == exact * rate
    ensures destination - rate * low <= net * rate < destination + rate * high
  {
    MultiplyBounds(exact - low, net, rate);
    MultiplyStrict(net, exact + high, rate);
    Distribute(exact, -low, rate);
    Distribute(exact, high, rate);
  }

  /** What the recipient gets when the solved send is quoted forward. */
  function Received(destination: real, rate: real, fee: Option<real>, platformFee: PlatformFee): (r: real)
    requires destination > 0.0 && rate > 0.0
    ensures r == SolveSendFromDest(destination, rate, fee, platformFee).sendNet * rate
  {
    SolverAgreesWithForward(destination, rate, fee, platformFee);
    Forward(SolveSendFromDest(destination, rate, fee, platformFee).sendGross, rate, fee, platformFee).receiveNet
  }

  /**
   A destination-fixed quote, fed back through the forward quote, yields the destination up to the ceiling's slack
   below and one unit of crypto above, for any flat fee and any percentage up to the solver's cap.
   */
  lemma DestinationIsMet(destination: real, rate: real, fee: Option<real>, platformFee: PlatformFee)
    requires destination > 0.0 && rate > 0.0 && Invertible(platformFee)
    ensures destination - rate * LOW <= Received(destination, rate, fee, platformFee) < destination + rate * HIGH
  {
    SolvedNet(destination, rate, fee, platformFee);
    Scaled(SolveSendFromDest(destination, rate, fee, platformFee).sendNet, destination, rate, Received(destination, rate, fee, platformFee));
  }

  /** The solved send is a whole number of crypto units. */
  lemma SolvedSendIsWhole(destination: real, rate: real, fee: Option<real>, platformFee: PlatformFee)
    requires destination > 0.0 && rate > 0.0
    ensures Whole(SolveSendFromDest(destination, rate, fee, platformFee).sendGross, CRYPTO_UNITS)
  {
    CeilToIsWhole(ExactSend(destination, rate, fee, platformFee), CRYPTO_UNITS);
  }

  /** The lower bound holds for this destination. */
  predicate Met(destination: real, rate: real, fee: Option<real>, platformFee: PlatformFee)
    requires destination > 0.0 && rate > 0.0
  {
    Received(destination, rate, fee, platformFee) >= destination - rate * LOW
  }

  /**
   Exactly when every destination is met: for a percentage up to the solver's cap of 0.999999. The forward quote caps
   the percentage at 1 instead, so above 0.999999 some destination is missed.
   */
  lemma DestinationsAreMetExactly(rate: real, fee: Option<real>, p: real)
    requires rate > 0.0
    ensures (forall destination: real :: destination > 0.0 ==> Met(destination, rate, fee, Percentage(p))) <==> p <= MAX_SOLVED_RATE
  {
    if p <= MAX_SOLVED_RATE {
      forall destination: real | destination > 0.0 ensures Met(destination, rate, fee, Percentage(p)) {
        DestinationIsMet(destination, rate, fee, Percentage(p));
      }
    } else {
      MissedAboveCap(rate, fee, p);
    }
  }

  lemma NetMissed(t: real, p: real) returns (wanted: real)
    requires p > MAX_SOLVED_RATE && t >= 0.0
    ensures wanted > 0.0
    ensures var gross := CeilTo(GrossFor(wanted + t, Percentage(p)), CRYPTO_UNITS);
            gross >= 0.0 && Max(0.0, ApplyPlatformFee(gross, Percentage(p)).netAmount - t) < wanted - LOW
  {
    wanted := FarEnough(p, HIGH, LOW);
    var exact := GrossFor(wanted + t, Percentage(p));
    GrossIsPositive(wanted + t, Percentage(p));
    CeilToBounds(exact, CRYPTO_UNITS);
    CeilOfPositive(exact);
    AboveCapFallsShort(wanted, t, CeilTo(exact, CRYPTO_UNITS) - exact, HIGH, LOW, p);
  }

  lemma MissedAboveCap(rate: real, fee: Option<real>, p: real)
    requires rate > 0.0 && p > MAX_SOLVED_RATE
    ensures exists destination: real :: destination > 0.0 && !Met(destination, rate, fee, Percentage(p))
  {
    var wanted := NetMissed(TransferFee(fee), p);
    PositiveProduct(wanted, rate);
    var destination := wanted * rate;
    QuotientOfProduct(wanted, rate, destination);
    ShortIsMissed(destination, wanted, rate, fee, Percentage(p));
  }

  lemma QuotientOfProduct(x: real, y: real, product: real)
    requires y > 0.0 && product == x * y
    ensures product / y == x
  {
  }

  lemma ShortIsMissed(destination: real, wanted: real, rate: real, fee: Option<real>, platformFee: PlatformFee)
    requires rate > 0.0 && destination > 0.0 && destination == wanted * rate
    requires SolveSendFromDest(destination, rate, fee, platformFee).sendNet < wanted - LOW
    ensures !Met(destination, rate, fee, platformFee)
  {
    ShortBy(SolveSendFromDest(destination, rate, fee, platformFee).sendNet, wanted, rate, LOW, destination, Received(destination, rate, fee, platformFee));
  }

  lemma ShortBy(net: real, wanted: real, rate: real, low: real, destination: real, received: real)
    requires rate > 0.0 && net < wanted - low && destination == wanted * rate && received == net * rate
    ensures received < destination - rate * low
  {
    MultiplyStrict(net, wanted - low, rate);
    Distribute(wanted, -low, rate);
  }
}
