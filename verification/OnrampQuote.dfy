/**
 The price of an onramp: fiat to crypto in either orientation of the rate (core/quotes/onrampAccountMarkup.ts), and the
 destination-fixed inverse (core/quotes/computeOnrampQuoteAmounts.ts) with the fiat rounded up to minor units
 (core/quotes/createOnrampQuote.ts, core/quotes/roundPayoutFiatAmount.ts).
 */
module OnrampQuote {
  import opened Wrappers
  import opened QuoteMath
  import OfframpQuote

  /** `cryptoPerFiat`: the rate counts the bought currency, so fiat is multiplied by it; otherwise it divides. */
  function CryptoFromFiat(fiat: real, rate: real, cryptoPerFiat: bool): real
    requires rate > 0.0
  {
    if cryptoPerFiat then fiat * rate else fiat / rate
  }

  function FiatFromCrypto(crypto: real, rate: real, cryptoPerFiat: bool): real {
    if crypto <= 0.0 || rate <= 0.0 then 0.0
    else if cryptoPerFiat then crypto / rate
    else crypto * rate
  }

  datatype Solved = Solved(sendGross: real, receiveGross: real, platformFeeAmount: real, receiveAfterPlatformFee: real)

  function SolveSendFromDest(destination: real, rate: real, cryptoPerFiat: bool, fee: Option<real>, platformFee: PlatformFee): Solved {
    if destination <= 0.0 || rate <= 0.0 then Solved(0.0, 0.0, 0.0, 0.0)
    else
      var gross := GrossFor(destination + OfframpQuote.TransferFee(fee), platformFee);
      GrossIsPositive(destination + OfframpQuote.TransferFee(fee), platformFee);
      var applied := ApplyPlatformFee(gross, platformFee);
      Solved(FiatFromCrypto(gross, rate, cryptoPerFiat), gross, applied.feeAmount, applied.netAmount)
  }

  /** The fiat the customer is asked to send: the exact amount up to whole minor units. */
  function AskedFiat(destination: real, rate: real, cryptoPerFiat: bool, fee: Option<real>, platformFee: PlatformFee, units: real): real
    requires units > 0.0
  {
    CeilTo(SolveSendFromDest(destination, rate, cryptoPerFiat, fee, platformFee).sendGross, units)
  }

  /** The crypto that a fiat amount really buys, after the platform fee and the network's. */
  function Credited(fiat: real, rate: real, cryptoPerFiat: bool, fee: Option<real>, platformFee: PlatformFee): real
    requires rate > 0.0
  {
    var gross := Max(0.0, CryptoFromFiat(fiat, rate, cryptoPerFiat));
    Max(0.0, ApplyPlatformFee(gross, platformFee).netAmount - OfframpQuote.TransferFee(fee))
  }

  // ---------- the conversions ----------

  /** What the rate counts: the crypto for one unit of fiat, or the fiat for one unit of crypto. */
  lemma RateCounts(rate: real)
    requires rate > 0.0
    ensures CryptoFromFiat(1.0, rate, true) == rate && CryptoFromFiat(rate, rate, false) == 1.0
  {
    assert rate / rate == 1.0;
  }

  /** With no crypto or no rate there is no fiat to ask for. */
  lemma NothingAsked(crypto: real, rate: real, cryptoPerFiat: bool)
    ensures FiatFromCrypto(crypto, rate, cryptoPerFiat) == 0.0 <==> crypto <= 0.0 || rate <= 0.0
  {
    if crypto > 0.0 && rate > 0.0 { ConversionsInvert(crypto, rate, cryptoPerFiat); }
  }

  lemma NothingSolved(destination: real, rate: real, cryptoPerFiat: bool, fee: Option<real>, platformFee: PlatformFee)
    ensures SolveSendFromDest(destination, rate, cryptoPerFiat, fee, platformFee) == Solved(0.0, 0.0, 0.0, 0.0) <==>
              destination <= 0.0 || rate <= 0.0
  {
    if destination > 0.0 { GrossIsPositive(destination + OfframpQuote.TransferFee(fee), platformFee); }
  }

  /** Both fees are taken from what the fiat buys; a missing or negative network fee is none. */
  lemma CreditedSplits(fiat: real, rate: real, cryptoPerFiat: bool, fee: Option<real>, platformFee: PlatformFee)
    requires rate > 0.0 && fiat >= 0.0
    ensures var gross, credited := CryptoFromFiat(fiat, rate, cryptoPerFiat), Credited(fiat, rate, cryptoPerFiat, fee, platformFee);
            gross >= 0.0 && OfframpQuote.Splits(gross, credited, Charged(platformFee, gross), fee)
  {
    ConversionKeepsOrder(0.0, fiat, rate, cryptoPerFiat);
    FeeIsCharged(CryptoFromFiat(fiat, rate, cryptoPerFiat), platformFee);
    hide ApplyPlatformFee, Charged;
  }

  lemma ConversionIsLinear(fiat: real, delta: real, rate: real, cryptoPerFiat: bool)
    requires rate > 0.0
    ensures CryptoFromFiat(fiat + delta, rate, cryptoPerFiat) ==
              CryptoFromFiat(fiat, rate, cryptoPerFiat) + CryptoFromFiat(delta, rate, cryptoPerFiat)
  {
    if !cryptoPerFiat { Distribute(fiat, delta, 1.0 / rate); }
  }

  lemma ConversionKeepsOrder(x: real, y: real, rate: real, cryptoPerFiat: bool)
    requires rate > 0.0
    ensures x <= y ==> CryptoFromFiat(x, rate, cryptoPerFiat) <= CryptoFromFiat(y, rate, cryptoPerFiat)
    ensures x < y ==> CryptoFromFiat(x, rate, cryptoPerFiat) < CryptoFromFiat(y, rate, cryptoPerFiat)
  {
    if x <= y {
      if cryptoPerFiat { MultiplyBounds(x, y, rate); } else { DivideBounds(x, y, rate); }
    }
    if x < y {
      if cryptoPerFiat { MultiplyStrict(x, y, rate); } else { DivideStrict(x, y, rate); }
    }
  }

  /** The two conversions are inverse in either orientation. */
  lemma ConversionsInvert(crypto: real, rate: real, cryptoPerFiat: bool)
    requires crypto > 0.0 && rate > 0.0
    ensures CryptoFromFiat(FiatFromCrypto(crypto, rate, cryptoPerFiat), rate, cryptoPerFiat) == crypto
    ensures FiatFromCrypto(crypto, rate, cryptoPerFiat) > 0.0
  {
    if cryptoPerFiat {
      PositiveQuotient(crypto, rate);
      assert crypto / rate * rate == crypto;
    } else {
      PositiveProduct(crypto, rate);
      assert crypto * rate / rate == crypto;
    }
  }

  // ---------- the destination-fixed onramp ----------

  /** The asked fiat exceeds the exact amount by less than one minor unit, and is whole. */
  lemma AskedFiatBounds(destination: real, rate: real, cryptoPerFiat: bool, fee: Option<real>, platformFee: PlatformFee, units: real)
    requires destination > 0.0 && rate > 0.0 && units > 0.0
    ensures var exact := SolveSendFromDest(destination, rate, cryptoPerFiat, fee, platformFee).sendGross;
            var asked := AskedFiat(destination, rate, cryptoPerFiat, fee, platformFee, units);
            exact > 0.0 && exact - SLACK / units <= asked < exact + 1.0 / units && Whole(asked, units)
  {
    var gross := GrossFor(destination + OfframpQuote.TransferFee(fee), platformFee);
    GrossIsPositive(destination + OfframpQuote.TransferFee(fee), platformFee);
    ConversionsInvert(gross, rate, cryptoPerFiat);
    var exact := FiatFromCrypto(gross, rate, cryptoPerFiat);
    CeilToBounds(exact, units);
    CeilToIsWhole(exact, units);
  }

  /** In crypto, the asked fiat buys the gross amount of the solver, off by the rounding of the fiat. */
  lemma AskedFiatBuys(destination: real, rate: real, cryptoPerFiat: bool, fee: Option<real>, platformFee: PlatformFee, units: real)
    returns (delta: real)
    requires destination > 0.0 && rate > 0.0 && units > 0.0
    ensures var asked := AskedFiat(destination, rate, cryptoPerFiat, fee, platformFee, units);
            CryptoFromFiat(asked, rate, cryptoPerFiat) ==
              GrossFor(destination + OfframpQuote.TransferFee(fee), platformFee) + delta
    ensures -CryptoFromFiat(SLACK / units, rate, cryptoPerFiat) <= delta < CryptoFromFiat(1.0 / units, rate, cryptoPerFiat)
  {
    var gross := GrossFor(destination + OfframpQuote.TransferFee(fee), platformFee);
    var exact := SolveSendFromDest(destination, rate, cryptoPerFiat, fee, platformFee).sendGross;
    var asked := AskedFiat(destination, rate, cryptoPerFiat, fee, platformFee, units);
    AskedFiatBounds(destination, rate, cryptoPerFiat, fee, platformFee, units);
    GrossIsPositive(destination + OfframpQuote.TransferFee(fee), platformFee);
    ConversionsInvert(gross, rate, cryptoPerFiat);
    assert exact == FiatFromCrypto(gross, rate, cryptoPerFiat);
    assert CryptoFromFiat(0.0, rate, cryptoPerFiat) == 0.0;
    hide CryptoFromFiat, GrossFor, FiatFromCrypto, SolveSendFromDest, AskedFiat;
    var off := asked - exact;
    delta := CryptoFromFiat(off, rate, cryptoPerFiat);
    ConversionIsLinear(exact, off, rate, cryptoPerFiat);
    ConversionKeepsOrder(-(SLACK / units), off, rate, cryptoPerFiat);
    ConversionKeepsOrder(off, 1.0 / units, rate, cryptoPerFiat);
    ConversionIsLinear(SLACK / units, -(SLACK / units), rate, cryptoPerFiat);
  }

  /**
   The asked fiat, converted forward, with the platform fee and the network's taken, credits at least the locked crypto
   up to the ceiling's slack, and less than one minor unit's worth more.
   */
  lemma DestinationIsCredited(
    destination: real, rate: real, cryptoPerFiat: bool, fee: Option<real>, platformFee: PlatformFee, units: real)
    requires destination > 0.0 && rate > 0.0 && units > 0.0 && Invertible(platformFee)
    ensures var asked := AskedFiat(destination, rate, cryptoPerFiat, fee, platformFee, units);
            destination - CryptoFromFiat(SLACK / units, rate, cryptoPerFiat)
              <= Credited(asked, rate, cryptoPerFiat, fee, platformFee)
              < destination + CryptoFromFiat(1.0 / units, rate, cryptoPerFiat)
  {
    var t := OfframpQuote.TransferFee(fee);
    var delta := AskedFiatBuys(destination, rate, cryptoPerFiat, fee, platformFee, units);
    var low, high := CryptoFromFiat(SLACK / units, rate, cryptoPerFiat), CryptoFromFiat(1.0 / units, rate, cryptoPerFiat);
    UnitsArePositive(rate, cryptoPerFiat, units);
    NetOfRounded(destination, t, delta, low, high, platformFee);
  }

  lemma UnitsArePositive(rate: real, cryptoPerFiat: bool, units: real)
    requires rate > 0.0 && units > 0.0
    ensures CryptoFromFiat(SLACK / units, rate, cryptoPerFiat) > 0.0 && CryptoFromFiat(1.0 / units, rate, cryptoPerFiat) > 0.0
  {
    PositiveQuotient(SLACK, units);
    PositiveQuotient(1.0, units);
    ConversionKeepsOrder(0.0, SLACK / units, rate, cryptoPerFiat);
    ConversionKeepsOrder(0.0, 1.0 / units, rate, cryptoPerFiat);
  }

  /** The locked crypto is credited up to the slack. */
  predicate Met(destination: real, rate: real, cryptoPerFiat: bool, fee: Option<real>, platformFee: PlatformFee, units: real)
    requires rate > 0.0 && units > 0.0
  {
    Credited(AskedFiat(destination, rate, cryptoPerFiat, fee, platformFee, units), rate, cryptoPerFiat, fee, platformFee)
      >= destination - CryptoFromFiat(SLACK / units, rate, cryptoPerFiat)
  }

  /** As for the offramp, every destination is credited exactly for percentages up to the solver's cap. */
  lemma DestinationsAreCreditedExactly(rate: real, cryptoPerFiat: bool, fee: Option<real>, p: real, units: real)
    requires rate > 0.0 && units > 0.0
    ensures (forall destination: real :: destination > 0.0 ==> Met(destination, rate, cryptoPerFiat, fee, Percentage(p), units)) <==>
              p <= MAX_SOLVED_RATE
  {
    if p <= MAX_SOLVED_RATE {
      forall destination: real | destination > 0.0 ensures Met(destination, rate, cryptoPerFiat, fee, Percentage(p), units) {
        DestinationIsCredited(destination, rate, cryptoPerFiat, fee, Percentage(p), units);
      }
    } else {
      var t := OfframpQuote.TransferFee(fee);
      var low, high := CryptoFromFiat(SLACK / units, rate, cryptoPerFiat), CryptoFromFiat(1.0 / units, rate, cryptoPerFiat);
      UnitsArePositive(rate, cryptoPerFiat, units);
      var wanted := FarEnough(p, high, low);
      var delta := AskedFiatBuys(wanted, rate, cryptoPerFiat, fee, Percentage(p), units);
      NetMissed(wanted, t, delta, high, low, p);
      assert !Met(wanted, rate, cryptoPerFiat, fee, Percentage(p), units);
    }
  }

  lemma NetMissed(wanted: real, t: real, delta: real, high: real, low: real, p: real)
    requires p > MAX_SOLVED_RATE && t >= 0.0 && low > 0.0 && high > 0.0 && delta < high && wanted == FarEnough(p, high, low)
    ensures Max(0.0, ApplyPlatformFee(Max(0.0, GrossFor(wanted + t, Percentage(p)) + delta), Percentage(p)).netAmount - t) < wanted - low
  {
    if GrossFor(wanted + t, Percentage(p)) + delta >= 0.0 {
      AboveCapFallsShort(wanted, t, delta, high, low, p);
    }
  }
}
