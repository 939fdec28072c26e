/**
 How an offramp quote is priced (core/quotes/createOfframpQuote.ts): mark up, floor at the provider's executable rate,
 mark up again, solve or take the send, and refuse what the provider's rate would not cover.
 */
module OfframpPricing {
  import opened Wrappers
  import opened QuoteMath
  import opened OfframpQuote
  import DepositAmount
  import Text

  /** Exactly one of the two amounts is given. */
  datatype Ask = BySource(amount: real) | ByDestination(amount: real)

  /** Which of the rate's two currencies is the one bought; nothing if the answer names neither. */
  datatype Orientation = ToIsRate | ToIsPer | Neither

  /** The rate service's answer: the business's own rate (0 if unreadable) and the market rate. */
  datatype Market = Market(quotedRate: real, marketRate: Option<real>, orientation: Orientation)

  datatype PairRule = PairRule(markup: real, sell: bool)

  /** `executable` and `fee` come from the payout provider; `units` are the fiat's minor units. */
  datatype Terms = Terms(
    market: Market, pair: Option<PairRule>, executable: Option<real>, fee: Option<real>,
    platformFee: PlatformFee, units: real, usdSell: bool)

  datatype Refusal =
    | AmountTooLow
    | RatesUnavailable
    | NegativeAmount
    | NoExecutableRate                                // UNFAVORABLE_RATE
    | NoTransferFee                                   // UNFAVORABLE_RATE
    | Insolvent(impliedSource: real, sendNet: real)   // UNFAVORABLE_RATE

  datatype Outcome =
    | Quote(sendAmount: real, sendNet: real, receiveNet: real, rate: real, cap: Option<real>)
    | Refused(why: Refusal)

  // ---------- the parts ----------

  function ApplyMarkup(amount: real, orientation: Orientation, market: Option<real>, markup: real): Option<real> {
    if market.None? || market.value <= 0.0 || orientation.Neither? then None
    else
      var rate := market.value * (1.0 + markup);
      if rate <= 0.0 then None
      else
        if Conversion(amount, rate, orientation) <= 0.0 then None else Some(rate)
  }

  /** The amount in the other currency. */
  function Conversion(amount: real, rate: real, orientation: Orientation): (r: real)
    requires rate > 0.0
    ensures r > 0.0 <==> amount > 0.0
  {
    ConversionSign(amount, rate);
    if orientation.ToIsRate? then amount * rate else amount / rate
  }

  lemma ConversionSign(amount: real, rate: real)
    requires rate > 0.0
    ensures (amount * rate > 0.0 <==> amount > 0.0) && (amount / rate > 0.0 <==> amount > 0.0)
  {
    if amount > 0.0 {
      PositiveProduct(amount, rate);
      PositiveQuotient(amount, rate);
    } else {
      MultiplyBounds(amount, 0.0, rate);
      DivideBounds(amount, 0.0, rate);
    }
  }

  function Signed(rule: PairRule): real {
    if rule.sell then -rule.markup else rule.markup
  }

  predicate Usable(rate: Option<real>) {
    rate.Some? && rate.value > 0.0
  }

  function FloorMarket(market: real, executable: Option<real>): real {
    if !Usable(executable) then market else Min(market, executable.value)
  }

  predicate SourceExceeds(sendNet: real, receiveNet: real, effective: Option<real>) {
    Usable(effective) && sendNet > 0.0 && receiveNet >= 0.0 && receiveNet / effective.value > sendNet
  }

  const FUNDING_HEADROOM := 0.0025

  function UsdSellCap(sendNet: real, receiveNet: real, executable: real): real
    requires executable > 0.0
  {
    Max(sendNet, receiveNet / executable * (1.0 + FUNDING_HEADROOM))
  }

  // ---------- the quote ----------

  function FloorRate(t: Terms): Option<real> {
    if Usable(t.executable) && !t.usdSell then t.executable else None
  }

  /** The customer's rate, or why there is none. `hint` is the amount tried on the rate service. */
  datatype RateOutcome = Rate(value: real) | NoRate(why: Refusal)

  function FinalRate(t: Terms, hint: real): RateOutcome {
    if t.pair.None? then
      if t.market.quotedRate <= 0.0 || FloorMarket(t.market.quotedRate, FloorRate(t)) <= 0.0 then NoRate(RatesUnavailable)
      else Rate(FloorMarket(t.market.quotedRate, FloorRate(t)))
    else if ApplyMarkup(hint, t.market.orientation, t.market.marketRate, Signed(t.pair.value)).None? then NoRate(RatesUnavailable)
    else if !Usable(t.executable) then NoRate(NoExecutableRate)
    else
      var floored := FloorMarket(t.market.marketRate.value, FloorRate(t));
      var repriced := ApplyMarkup(hint, t.market.orientation, Some(floored), Signed(t.pair.value));
      if repriced.None? then NoRate(RatesUnavailable) else Rate(repriced.value)
  }

  /** From the rate on: the send, the amounts, the solvency test. `locked` is the fiat to receive, if that is fixed. */
  function Settled(t: Terms, ask: Ask, rate: real): Outcome
    requires ask.amount >= 0.0 && rate > 0.0 && t.units > 0.0
  {
    if t.fee.None? then Refused(NoTransferFee)
    else
      var locked := RoundTo(ask.amount, t.units);
      var sendAmount := if ask.ByDestination? then SolveSendFromDest(locked, rate, t.fee, t.platformFee).sendGross else ask.amount;
      SolvedIsNotNegative(locked, rate, t.fee, t.platformFee);
      var amounts := Forward(sendAmount, rate, t.fee, t.platformFee);
      var receiveNet :=
        if ask.ByDestination? then locked
        else if t.units == 1.0 then RoundTo(amounts.receiveNet, t.units)
        else amounts.receiveNet;
      if amounts.sendNet <= 0.0 then Refused(AmountTooLow)
      else
        var cap := if t.usdSell && Usable(t.executable) then Some(UsdSellCap(amounts.sendNet, receiveNet, t.executable.value)) else None;
        if cap.None? && SourceExceeds(amounts.sendNet, receiveNet, t.executable)
        then Refused(Insolvent(receiveNet / t.executable.value, amounts.sendNet))
        else Quote(sendAmount, amounts.sendNet, receiveNet, rate, cap)
  }

  lemma SolvedIsNotNegative(locked: real, rate: real, fee: Option<real>, platformFee: PlatformFee)
    ensures SolveSendFromDest(locked, rate, fee, platformFee).sendGross >= 0.0
  {
    if locked > 0.0 && rate > 0.0 { SolverAgreesWithForward(locked, rate, fee, platformFee); }
  }

  /** The amount tried on the rate service: the send, or the locked destination. */
  function Hint(t: Terms, ask: Ask): real
    requires t.units > 0.0
  {
    if ask.ByDestination? then RoundTo(ask.amount, t.units) else ask.amount
  }

  lemma MarkupNeedsAnAmount(amount: real, orientation: Orientation, market: Option<real>, markup: real)
    ensures ApplyMarkup(amount, orientation, market, markup).Some? ==>
              amount > 0.0 && ApplyMarkup(amount, orientation, market, markup).value > 0.0
  {
  }

  function Price(t: Terms, ask: Ask): Outcome
    requires t.units > 0.0
  {
    if ask.ByDestination? && Hint(t, ask) <= 0.0 then Refused(AmountTooLow)
    else if ask.BySource? && ask.amount < 0.0 && t.pair.None? && t.market.quotedRate > 0.0 then Refused(NegativeAmount)
    else
      RateIsPositive(t, Hint(t, ask));
      match FinalRate(t, Hint(t, ask))
      case NoRate(why) => Refused(why)
      case Rate(rate) => Settled(t, ask, rate)
  }

  lemma RateIsPositive(t: Terms, hint: real)
    ensures FinalRate(t, hint).Rate? ==> FinalRate(t, hint).value > 0.0 && (t.pair.Some? ==> hint > 0.0)
    ensures t.pair.None? && t.market.quotedRate <= 0.0 ==> FinalRate(t, hint).NoRate?
  {
    if t.pair.Some? {
      MarkupNeedsAnAmount(hint, t.market.orientation, t.market.marketRate, Signed(t.pair.value));
      if t.market.marketRate.Some? {
        MarkupNeedsAnAmount(hint, t.market.orientation, Some(FloorMarket(t.market.marketRate.value, FloorRate(t))), Signed(t.pair.value));
      }
    }
  }

  /** `createOfframpQuote`, from the rate answer to the amounts. */
  method PriceOfframpQuote(t: Terms, ask: Ask) returns (r: Outcome)
    requires t.units > 0.0
    ensures r == Price(t, ask)
  {
    var destLocked := if ask.ByDestination? then Some(RoundTo(ask.amount, t.units)) else None;
    if destLocked.Some? && destLocked.value <= 0.0 { return Refused(AmountTooLow); }
    var sendHint := if destLocked.Some? then destLocked.value else ask.amount;
    RateIsPositive(t, sendHint);
    var baseRate := t.market.quotedRate;
    if t.pair.Some? {
      var priced := ApplyMarkup(sendHint, t.market.orientation, t.market.marketRate, Signed(t.pair.value));
      MarkupNeedsAnAmount(sendHint, t.market.orientation, t.market.marketRate, Signed(t.pair.value));
      if priced.None? { return Refused(RatesUnavailable); }
      baseRate := priced.value;
    }
    if baseRate <= 0.0 { return Refused(RatesUnavailable); }
    if ask.BySource? && ask.amount < 0.0 { return Refused(NegativeAmount); }
    var apiMarket := if Usable(t.market.marketRate) then t.market.marketRate.value else baseRate;
    if t.pair.Some? && !Usable(t.executable) { return Refused(NoExecutableRate); }
    var floorRate := if Usable(t.executable) && !t.usdSell then t.executable else None;
    var flooredMarket := FloorMarket(apiMarket, floorRate);
    if t.pair.Some? {
      var repriced := ApplyMarkup(sendHint, t.market.orientation, Some(flooredMarket), Signed(t.pair.value));
      if repriced.None? { return Refused(RatesUnavailable); }
      baseRate := repriced.value;
    } else {
      baseRate := FloorMarket(baseRate, floorRate);
      if baseRate <= 0.0 { return Refused(RatesUnavailable); }
    }
    assert FinalRate(t, sendHint) == Rate(baseRate);
    r := SettleQuote(t, ask, destLocked, baseRate);
  }

  /** The second half: `destLocked` is the fiat to receive, if that is fixed. */
  method SettleQuote(t: Terms, ask: Ask, destLocked: Option<real>, baseRate: real) returns (r: Outcome)
    requires t.units > 0.0 && ask.amount >= 0.0 && baseRate > 0.0
    requires destLocked == if ask.ByDestination? then Some(RoundTo(ask.amount, t.units)) else None
    ensures r == Settled(t, ask, baseRate)
  {
    if t.fee.None? { return Refused(NoTransferFee); }
    var sendAmount := ask.amount;
    if destLocked.Some? {
      sendAmount := SolveSendFromDest(destLocked.value, baseRate, t.fee, t.platformFee).sendGross;
      SolvedIsNotNegative(destLocked.value, baseRate, t.fee, t.platformFee);
    }
    var amounts := Forward(sendAmount, baseRate, t.fee, t.platformFee);
    var receiveNet := amounts.receiveNet;
    if destLocked.Some? {
      receiveNet := destLocked.value;
    } else if t.units == 1.0 {
      receiveNet := RoundTo(amounts.receiveNet, t.units);
    }
    if amounts.sendNet <= 0.0 { return Refused(AmountTooLow); }
    var cap: Option<real> := None;
    if t.usdSell && Usable(t.executable) {
      cap := Some(UsdSellCap(amounts.sendNet, receiveNet, t.executable.value));
    }
    if cap.None? && SourceExceeds(amounts.sendNet, receiveNet, t.executable) {
      return Refused(Insolvent(receiveNet / t.executable.value, amounts.sendNet));
    }
    return Quote(sendAmount, amounts.sendNet, receiveNet, baseRate, cap);
  }

  // ---------- which rate, and which outcome ----------

  /** A markup applies to a positive amount of a market rate whose currencies are named, and leaves a rate above zero. */
  lemma MarkedUpExactly(amount: real, orientation: Orientation, market: Option<real>, markup: real)
    ensures var r := ApplyMarkup(amount, orientation, market, markup);
            && (r.Some? <==> amount > 0.0 && orientation != Neither &&
                             market.Some? && market.value > 0.0 && market.value * (1.0 + markup) > 0.0)
            && (r.Some? ==> r.value == market.value * (1.0 + markup))
  {
    if market.Some? {
      var r := market.value * (1.0 + markup);
      if r > 0.0 { assert Conversion(amount, r, orientation) > 0.0 <==> amount > 0.0; }
    }
  }

  /** The rate service has answered with a rate that the pair's rule, if there is one, can mark up. */
  predicate Answered(t: Terms, hint: real) {
    match t.pair
    case None => t.market.quotedRate > 0.0
    case Some(rule) =>
      hint > 0.0 && t.market.orientation != Neither && t.market.marketRate.Some? && t.market.marketRate.value > 0.0 &&
      (if rule.sell then rule.markup < 1.0 else rule.markup > -1.0)
  }

  /** Not above what the provider pays, except for dollar stablecoins sold for dollars. */
  function Floored(t: Terms, market: real): real {
    match t.executable
    case Some(paid) => if !t.usdSell && 0.0 < paid < market then paid else market
    case None => market
  }

  lemma MarkedUpIsPositive(market: real, markup: real)
    requires market > 0.0
    ensures market * (1.0 + markup) > 0.0 <==> markup > -1.0
  {
    if markup > -1.0 { PositiveProduct(market, 1.0 + markup); } else { MultiplyBounds(1.0 + markup, 0.0, market); }
  }

  /** The rule's factor is above zero. */
  lemma SignedFactor(rule: PairRule)
    ensures Signed(rule) > -1.0 <==> if rule.sell then rule.markup < 1.0 else rule.markup > -1.0
    ensures 1.0 + Signed(rule) == if rule.sell then 1.0 - rule.markup else 1.0 + rule.markup
  {
  }

  /** A rule prices the market's rate exactly when the service has answered, and the floored rate as well. */
  lemma AnsweredIsPriced(t: Terms, hint: real)
    requires t.pair.Some? && t.market.marketRate.Some?
    ensures var market, signed := t.market.marketRate.value, Signed(t.pair.value);
            && (Answered(t, hint) <==> ApplyMarkup(hint, t.market.orientation, t.market.marketRate, signed).Some?)
            && (Answered(t, hint) ==> ApplyMarkup(hint, t.market.orientation, Some(Floored(t, market)), signed).Some?)
  {
    var market, signed := t.market.marketRate.value, Signed(t.pair.value);
    SignedFactor(t.pair.value);
    if market > 0.0 {
      MarkedUpIsPositive(market, signed);
      MarkedUpIsPositive(Floored(t, market), signed);
    }
    MarkedUpExactly(hint, t.market.orientation, t.market.marketRate, signed);
    MarkedUpExactly(hint, t.market.orientation, Some(Floored(t, market)), signed);
    hide ApplyMarkup, Floored, Signed;
  }

  /**
   The rate: the business's own, floored, without a rule; the market's, floored first and then marked down for a sale or
   up otherwise, with one. It is refused exactly when there is none, or when a rule meets no executable rate.
   */
  lemma FinalRateExactly(t: Terms, hint: real)
    ensures !Answered(t, hint) <==> FinalRate(t, hint) == NoRate(RatesUnavailable)
    ensures Answered(t, hint) && t.pair.Some? && !(t.executable.Some? && t.executable.value > 0.0) <==>
              FinalRate(t, hint) == NoRate(NoExecutableRate)
    ensures FinalRate(t, hint).NoRate? ==> FinalRate(t, hint).why.RatesUnavailable? || FinalRate(t, hint).why.NoExecutableRate?
    ensures FinalRate(t, hint).Rate? && t.pair.None? ==> FinalRate(t, hint).value == Floored(t, t.market.quotedRate)
    ensures FinalRate(t, hint).Rate? && t.pair.Some? ==>
              t.market.marketRate.Some? &&
              FinalRate(t, hint).value == Floored(t, t.market.marketRate.value) *
                (if t.pair.value.sell then 1.0 - t.pair.value.markup else 1.0 + t.pair.value.markup)
  {
    if t.pair.Some? && t.market.marketRate.Some? {
      var market, signed := t.market.marketRate.value, Signed(t.pair.value);
      assert FloorMarket(market, FloorRate(t)) == Floored(t, market);
      AnsweredIsPriced(t, hint);
      SignedFactor(t.pair.value);
      MarkedUpExactly(hint, t.market.orientation, Some(Floored(t, market)), signed);
      hide Floored, FloorMarket, ApplyMarkup, Answered, Signed;
    }
  }

  /** What is sent: the amount given, or the solver's for the rounded destination. */
  function Send(t: Terms, ask: Ask, rate: real): (r: real)
    requires t.units > 0.0 && ask.amount >= 0.0
    ensures r >= 0.0
  {
    SolvedIsNotNegative(RoundTo(ask.amount, t.units), rate, t.fee, t.platformFee);
    if ask.BySource? then ask.amount else SolveSendFromDest(RoundTo(ask.amount, t.units), rate, t.fee, t.platformFee).sendGross
  }

  /** What is received: the rounded destination, or what the send yields, whole where the currency has no minor units. */
  function Receive(t: Terms, ask: Ask, rate: real): real
    requires t.units > 0.0 && ask.amount >= 0.0
  {
    var yielded := Forward(Send(t, ask, rate), rate, t.fee, t.platformFee).receiveNet;
    if ask.ByDestination? then RoundTo(ask.amount, t.units) else if t.units == 1.0 then RoundTo(yielded, 1.0) else yielded
  }

  /** The provider would take more crypto for the fiat than the quote leaves, and the quote has no cap of its own. */
  predicate Uncovered(t: Terms, sendNet: real, receiveNet: real) {
    t.executable.Some? && t.executable.value > 0.0 && !t.usdSell && receiveNet / t.executable.value > sendNet
  }

  /** The cap is the larger of the net send and what the provider takes with a headroom of a quarter of a percent. */
  predicate Capped(t: Terms, sendNet: real, receiveNet: real, cap: Option<real>) {
    if t.usdSell && t.executable.Some? && t.executable.value > 0.0
    then cap.Some? && cap.value >= sendNet && cap.value >= receiveNet / t.executable.value * 1.0025 &&
         (cap.value == sendNet || cap.value == receiveNet / t.executable.value * 1.0025)
    else cap.None?
  }

  /** From the rate on: which refusal, or which quote. */
  lemma SettledExactly(t: Terms, ask: Ask, rate: real)
    requires ask.amount >= 0.0 && rate > 0.0 && t.units > 0.0
    ensures var r, sendNet, receiveNet :=
              Settled(t, ask, rate), Forward(Send(t, ask, rate), rate, t.fee, t.platformFee).sendNet, Receive(t, ask, rate);
            if t.fee.None? then r == Refused(NoTransferFee)
            else if sendNet <= 0.0 then r == Refused(AmountTooLow)
            else if Uncovered(t, sendNet, receiveNet) then r.Refused? && r.why == Insolvent(receiveNet / t.executable.value, sendNet)
            else r.Quote? && r.sendAmount == Send(t, ask, rate) && r.sendNet == sendNet && r.receiveNet == receiveNet && r.rate == rate &&
                 Capped(t, sendNet, receiveNet, r.cap)
  {
  }

  /** Before the rate: which refusal; and else the rate's own outcome. */
  lemma PriceExactly(t: Terms, ask: Ask)
    requires t.units > 0.0
    ensures var r, tried := Price(t, ask), if ask.ByDestination? then RoundTo(ask.amount, t.units) else ask.amount;
            if ask.ByDestination? && tried <= 0.0 then r == Refused(AmountTooLow)
            else if !Answered(t, tried) then r == Refused(RatesUnavailable)
            else if ask.amount < 0.0 then r == Refused(NegativeAmount)
            else if t.pair.Some? && !(t.executable.Some? && t.executable.value > 0.0) then r == Refused(NoExecutableRate)
            else FinalRate(t, tried).Rate? && FinalRate(t, tried).value > 0.0 && r == Settled(t, ask, FinalRate(t, tried).value)
  {
    FinalRateExactly(t, Hint(t, ask));
    RateIsPositive(t, Hint(t, ask));
    hide FinalRate, Settled, RoundTo;
  }

  /** Every quote's send is its net send and both fees: the platform's and the transfer fee, if that is above zero. */
  lemma QuoteSplitsSend(t: Terms, ask: Ask)
    requires t.units > 0.0 && Price(t, ask).Quote?
    ensures var q := Price(t, ask);
            && t.fee.Some? && q.sendAmount >= 0.0 && q.sendNet > 0.0
            && q.sendNet + Charged(t.platformFee, q.sendAmount) + (if t.fee.value > 0.0 then t.fee.value else 0.0) == q.sendAmount
  {
    var tried := Hint(t, ask);
    PriceExactly(t, ask);
    var rate := FinalRate(t, tried).value;
    SettledExactly(t, ask, rate);
    ForwardSplits(Send(t, ask, rate), rate, t.fee, t.platformFee);
    hide FinalRate, Settled, RoundTo, Charged, Forward, Send, Receive;
  }

  // ---------- solvency ----------

  /** A rule that never raises the rate. */
  predicate NeverRaises(pair: Option<PairRule>) {
    pair.None? || Signed(pair.value) <= 0.0
  }

  /** Flooring first and marking up afterwards leaves the rate at or below the executable one. */
  lemma RateIsFloored(t: Terms, hint: real)
    requires FinalRate(t, hint).Rate? && Usable(t.executable) && !t.usdSell && NeverRaises(t.pair)
    ensures FinalRate(t, hint).value <= t.executable.value
  {
    if t.pair.Some? {
      var floored := FloorMarket(t.market.marketRate.value, FloorRate(t));
      RateIsPositive(t, hint);
      MarkedDown(floored, 1.0 + Signed(t.pair.value));
    }
  }

  lemma MarkedDown(market: real, factor: real)
    requires market > 0.0 && factor <= 1.0
    ensures market * factor <= market
  {
  }

  lemma Implied(sendNet: real, rate: real, executable: real)
    requires sendNet >= 0.0 && 0.0 < rate <= executable
    ensures sendNet * rate / executable <= sendNet
  {
    MultiplyBounds(rate, executable, sendNet);
    assert sendNet * executable / executable == sendNet;
    DivideBounds(sendNet * rate, sendNet * executable, executable);
  }

  /**
   A source-fixed quote in a two-decimal currency is never refused as insolvent, whatever the market, the provider's
   rate, the fees and the amount, as long as the pair's rule does not raise the rate. (For dollar stablecoins sold for
   dollars the test is replaced by a funding cap.)
   */
  lemma SourceFixedIsNeverInsolvent(t: Terms, amount: real)
    requires t.units > 0.0 && t.units != 1.0 && NeverRaises(t.pair)
    ensures !(Price(t, BySource(amount)).Refused? && Price(t, BySource(amount)).why.Insolvent?)
  {
    RateIsPositive(t, amount);
    if FinalRate(t, amount).Rate? && amount >= 0.0 {
      if Usable(t.executable) && !t.usdSell { RateIsFloored(t, amount); }
      FlooredRateIsSolvent(t, amount, FinalRate(t, amount).value);
    }
  }

  /** By asset: every payout currency but those without minor units. */
  lemma TwoDecimalSourceFixedIsNeverInsolvent(t: Terms, asset: string, amount: real)
    requires t.units == MinorUnits(asset) && Text.Norm(asset) !in ZERO_DECIMAL && NeverRaises(t.pair)
    ensures !(Price(t, BySource(amount)).Refused? && Price(t, BySource(amount)).why.Insolvent?)
  {
    SourceFixedIsNeverInsolvent(t, amount);
  }

  lemma FlooredRateIsSolvent(t: Terms, amount: real, rate: real)
    requires t.units > 0.0 && t.units != 1.0 && amount >= 0.0 && rate > 0.0
    requires Usable(t.executable) && !t.usdSell ==> rate <= t.executable.value
    ensures !(Settled(t, BySource(amount), rate).Refused? && Settled(t, BySource(amount), rate).why.Insolvent?)
  {
    if Usable(t.executable) && !t.usdSell {
      Implied(Forward(amount, rate, t.fee, t.platformFee).sendNet, rate, t.executable.value);
    }
  }

  /** Every quote that is given is covered: by the provider's rate, or by the funding cap. */
  lemma QuotesAreCovered(t: Terms, ask: Ask)
    requires t.units > 0.0 && Price(t, ask).Quote? && Usable(t.executable)
    ensures var q := Price(t, ask);
            q.sendNet > 0.0 && q.sendNet <= q.sendAmount &&
            (q.receiveNet >= 0.0 ==> q.receiveNet / t.executable.value <= if q.cap.Some? then q.cap.value else q.sendNet)
  {
    var q := Price(t, ask);
    RateIsPositive(t, Hint(t, ask));
    if q.cap.Some? && q.receiveNet >= 0.0 {
      var implied := q.receiveNet / t.executable.value;
      NotNegative(q.receiveNet, t.executable.value);
      assert implied * (1.0 + FUNDING_HEADROOM) >= implied;
    }
  }

  lemma NotNegative(x: real, y: real)
    requires x >= 0.0 && y > 0.0
    ensures x / y >= 0.0
  {
  }

  /** A source-fixed quote promises what its send yields forward, to whole units where the currency has no others. */
  lemma SourceQuoteIsForward(t: Terms, amount: real)
    requires t.units > 0.0 && Price(t, BySource(amount)).Quote?
    ensures var q := Price(t, BySource(amount));
            q.sendAmount == amount >= 0.0 && q.rate > 0.0 &&
            var a := Forward(amount, q.rate, t.fee, t.platformFee);
            q.sendNet == a.sendNet && q.receiveNet == if t.units == 1.0 then RoundTo(a.receiveNet, 1.0) else a.receiveNet
  {
    RateIsPositive(t, amount);
  }

  /** A destination-fixed quote promises the fiat asked for, and its send yields that within the solver's bounds. */
  lemma DestinationQuoteIsMet(t: Terms, amount: real)
    requires t.units > 0.0 && Price(t, ByDestination(amount)).Quote?
    ensures var q := Price(t, ByDestination(amount));
            q.receiveNet == RoundTo(amount, t.units) > 0.0 && q.rate > 0.0 && q.sendAmount >= 0.0 &&
            var a := Forward(q.sendAmount, q.rate, t.fee, t.platformFee);
            q.sendNet == a.sendNet &&
            (Invertible(t.platformFee) ==> q.receiveNet - q.rate * LOW <= a.receiveNet < q.receiveNet + q.rate * HIGH)
  {
    var q := Price(t, ByDestination(amount));
    RateIsPositive(t, RoundTo(amount, t.units));
    SettledDestination(t, amount, q.rate);
    if Invertible(t.platformFee) { DestinationIsMet(q.receiveNet, q.rate, t.fee, t.platformFee); }
  }

  lemma SettledDestination(t: Terms, amount: real, rate: real)
    requires t.units > 0.0 && amount >= 0.0 && rate > 0.0 && RoundTo(amount, t.units) > 0.0
    requires Settled(t, ByDestination(amount), rate).Quote?
    ensures var q, locked := Settled(t, ByDestination(amount), rate), RoundTo(amount, t.units);
            q.rate == rate && q.receiveNet == locked && q.sendAmount == SolveSendFromDest(locked, rate, t.fee, t.platformFee).sendGross >= 0.0 &&
            q.sendNet == Forward(q.sendAmount, rate, t.fee, t.platformFee).sendNet &&
            Forward(q.sendAmount, rate, t.fee, t.platformFee).receiveNet == Received(locked, rate, t.fee, t.platformFee)
  {
    SolvedIsNotNegative(RoundTo(amount, t.units), rate, t.fee, t.platformFee);
  }

  /** A destination-fixed quote is refused as insolvent only for an excess within the ceiling's slack. */
  lemma DestinationExcessIsSlack(t: Terms, amount: real)
    requires t.units > 0.0 && NeverRaises(t.pair) && Invertible(t.platformFee)
    ensures var r := Price(t, ByDestination(amount));
            r.Refused? && r.why.Insolvent? ==> r.why.sendNet < r.why.impliedSource <= r.why.sendNet + LOW
  {
    var r := Price(t, ByDestination(amount));
    var locked := RoundTo(amount, t.units);
    RateIsPositive(t, locked);
    if r.Refused? && r.why.Insolvent? {
      var rate := FinalRate(t, locked).value;
      RateIsFloored(t, locked);
      SolvedNet(locked, rate, t.fee, t.platformFee);
      SolverAgreesWithForward(locked, rate, t.fee, t.platformFee);
      HigherRateNeedsLess(locked, rate, t.executable.value);
    }
  }

  lemma HigherRateNeedsLess(fiat: real, low: real, high: real)
    requires fiat >= 0.0 && 0.0 < low <= high
    ensures fiat / high <= fiat / low
  {
    var q := fiat / low;
    assert q * low == fiat;
    NotNegative(fiat, low);
    MultiplyBounds(low, high, q);
    DivideBounds(fiat, q * high, high);
    assert q * high / high == q;
  }

  /** In a currency without minor units the receive is rounded, so the refusal depends on that rounding, and on it alone. */
  lemma WholeUnitRefusalExactly(t: Terms, amount: real)
    requires t.units == 1.0 && NeverRaises(t.pair) && amount > 0.0 && t.fee.Some? && !t.usdSell && Usable(t.executable)
    requires FinalRate(t, amount).Rate?
    ensures var r := Price(t, BySource(amount));
            var a := Forward(amount, FinalRate(t, amount).value, t.fee, t.platformFee);
            (r.Refused? && r.why.Insolvent?) <==> a.sendNet > 0.0 && RoundTo(a.receiveNet, 1.0) / t.executable.value > a.sendNet
  {
    RateIsPositive(t, amount);
    var a := Forward(amount, FinalRate(t, amount).value, t.fee, t.platformFee);
    if a.sendNet > 0.0 {
      PositiveProduct(a.sendNet, FinalRate(t, amount).value);
      RoundIsNotNegative(a.receiveNet);
    }
  }

  lemma RoundIsNotNegative(x: real)
    requires x > 0.0
    ensures RoundTo(x, 1.0) >= 0.0
  {
    assert DepositAmount.Round(x * 1.0) > -1;
  }

  /** That slack is really reached: a rate for which one unit of fiat takes a hair more than one unit of crypto. */
  lemma SlackIsReached()
    ensures var rate := 100000000.0 / 100000000.000000001;
            var t := Terms(Market(rate, Some(rate), ToIsRate), None, Some(rate), Some(0.0), Flat(0.0), 100.0, false);
            Price(t, ByDestination(1.0)) == Refused(Insolvent(1.0 / rate, 1.0)) && 1.0 / rate == 1.0 + LOW
  {
    var rate := 100000000.0 / 100000000.000000001;
    assert 1.0 / rate == 1.0 + LOW;
    assert DepositAmount.Round(100.0) == 100;
    assert RoundTo(1.0, 100.0) == 1.0;
    assert ExactSend(1.0, rate, Some(0.0), Flat(0.0)) == 1.0 + LOW;
    assert Ceil((1.0 + LOW) * CRYPTO_UNITS - SLACK) == 100000000;
    assert CeilTo(1.0 + LOW, CRYPTO_UNITS) == 1.0;
  }
}
