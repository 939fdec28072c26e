/** How an onramp quote is priced (core/quotes/createOnrampQuote.ts): one markup at most, then the fees or the solver. */
module OnrampPricing {
  import opened Wrappers
  import opened QuoteMath
  import opened OnrampQuote
  import opened OfframpPricing
  import OfframpQuote
  import PairMarkup

  /** The rate service's answer for the amount tried: its rate (0 if unreadable) and what that amount converts to. */
  datatype Answer = Answer(rate: real, conversion: real, marketRate: Option<real>, orientation: Orientation)

  /**
   `account` is the markup of the account the onramp is paid into, `pair` the markup of the currency pair, in this
   flow; `multiply` doubles the account's. `fee` is the network's, in crypto.
   */
  datatype OnTerms = OnTerms(
    answer: Answer, account: Option<real>, pair: Option<PairRule>, multiply: bool,
    fee: Option<real>, platformFee: PlatformFee, units: real)

  datatype OnOutcome =
    | OnQuote(sendAmount: real, receiveGross: real, receiveNet: real, rate: real)
    | OnRefused(why: Refusal)

  /** The signed markup that applies: the account's, else the pair's. */
  function MarkupOf(t: OnTerms): Option<real> {
    if t.account.Some? then Some(t.account.value * (if t.multiply then PairMarkup.FIAT_TO_FIAT_MULTIPLIER else 1.0))
    else if t.pair.Some? then Some(Signed(t.pair.value))
    else None
  }

  /** The marked-up rate and conversion of the amount tried. */
  function Marked(t: OnTerms, hint: real, markup: real): Option<(real, real)> {
    var rate := ApplyMarkup(hint, t.answer.orientation, t.answer.marketRate, markup);
    if rate.None? || rate.value <= 0.0 then None
    else Some((rate.value, CryptoFromFiat(hint, rate.value, t.answer.orientation.ToIsRate?)))
  }

  /** The rate and what the amount tried converts to: marked up if a markup applies, else as answered. */
  function PricedAt(t: OnTerms, hint: real): Option<(real, real)> {
    if MarkupOf(t).None? then Some((t.answer.rate, t.answer.conversion)) else Marked(t, hint, MarkupOf(t).value)
  }

  /** The factor of the one markup that applies: the account's, doubled if it multiplies, else the pair's by its side. */
  function Factor(t: OnTerms): (f: real) {
    match t.account
    case Some(markup) => if t.multiply then 1.0 + 2.0 * markup else 1.0 + markup
    case None =>
      match t.pair
      case Some(rule) => if rule.sell then 1.0 - rule.markup else 1.0 + rule.markup
      case None => 1.0
  }

  /** Without a markup the answer as it is; with one, the market's rate times its factor and what it converts to. */
  lemma PricedExactly(t: OnTerms, hint: real)
    ensures var priced := PricedAt(t, hint);
            if t.account.None? && t.pair.None? then priced == Some((t.answer.rate, t.answer.conversion))
            else
              && (priced.Some? <==> hint > 0.0 && t.answer.orientation != Neither && t.answer.marketRate.Some? &&
                                    t.answer.marketRate.value > 0.0 && t.answer.marketRate.value * Factor(t) > 0.0)
              && (priced.Some? ==> priced.value.0 == t.answer.marketRate.value * Factor(t) &&
                                   priced.value.1 == CryptoFromFiat(hint, priced.value.0, t.answer.orientation == ToIsRate))
  {
    if MarkupOf(t).Some? {
      MarkedUpExactly(hint, t.answer.orientation, t.answer.marketRate, MarkupOf(t).value);
      assert 1.0 + MarkupOf(t).value == Factor(t);
      hide ApplyMarkup, CryptoFromFiat, MarkupOf, Factor;
    }
  }

  function Hint(ask: Ask): real {
    if ask.BySource? then ask.amount else 1.0
  }

  /** Amounts of a quote at a rate: what each kind of request promises its customer. */
  predicate Promises(t: OnTerms, ask: Ask, r: OnOutcome)
    requires t.units > 0.0 && r.OnQuote? && r.rate > 0.0
  {
    match ask
    case BySource(amount) =>
      && r.sendAmount == amount && r.receiveNet > 0.0
      && r.receiveGross >= 0.0
      && r.receiveNet == ApplyPlatformFee(r.receiveGross, t.platformFee).netAmount - OfframpQuote.TransferFee(t.fee)
      && (MarkupOf(t).Some? ==> r.receiveGross == CryptoFromFiat(amount, r.rate, t.answer.orientation.ToIsRate?))
      && (MarkupOf(t).None? ==> r.receiveGross == t.answer.conversion)
    case ByDestination(amount) =>
      && r.receiveNet == amount > 0.0
      && r.sendAmount == AskedFiat(amount, r.rate, t.answer.orientation.ToIsRate?, t.fee, t.platformFee, t.units) > 0.0
  }

  /** The account's markup is tried first; the pair's only when no account markup applied. */
  method PickRate(t: OnTerms, sendHint: real) returns (priced: Option<(real, real)>)
    ensures priced == PricedAt(t, sendHint)
  {
    priced := Some((t.answer.rate, t.answer.conversion));
    var snapshotMarkup: Option<real> := None;
    if t.account.Some? {
      var accountMarkup := t.account.value * (if t.multiply then PairMarkup.FIAT_TO_FIAT_MULTIPLIER else 1.0);
      priced := Marked(t, sendHint, accountMarkup);
      if priced.None? { return; }
      snapshotMarkup := Some(accountMarkup);
    }
    if snapshotMarkup.None? && t.pair.Some? {
      priced := Marked(t, sendHint, Signed(t.pair.value));
    }
  }

  /** `createOnrampQuote`, from the rate answer to the amounts. */
  method PriceOnrampQuote(t: OnTerms, ask: Ask) returns (r: OnOutcome)
    requires t.units > 0.0
    ensures ask.ByDestination? && ask.amount <= 0.0 ==> r == OnRefused(AmountTooLow)
    ensures ask.BySource? || ask.amount > 0.0 ==>
              var priced := PricedAt(t, Hint(ask));
              && (r == OnRefused(RatesUnavailable) <==> priced.None? || (ask.ByDestination? && priced.value.0 <= 0.0))
              && (r.OnQuote? ==> priced.Some? && r.rate == priced.value.0 && (r.rate > 0.0 ==> Promises(t, ask, r)))
    ensures ask.BySource? && PricedAt(t, ask.amount).Some? ==>
              var (rate, gross) := PricedAt(t, ask.amount).value;
              if gross < 0.0 then r == OnRefused(NegativeAmount)
              else if gross <= Charged(t.platformFee, gross) + (if t.fee.Some? && t.fee.value > 0.0 then t.fee.value else 0.0)
              then r == OnRefused(AmountTooLow)
              else r.OnQuote? && r.sendAmount == ask.amount && r.receiveGross == gross && r.rate == rate && r.receiveNet > 0.0 &&
                   r.receiveNet + Charged(t.platformFee, gross) + (if t.fee.Some? && t.fee.value > 0.0 then t.fee.value else 0.0) == gross
    ensures ask.ByDestination? && ask.amount > 0.0 && PricedAt(t, 1.0).Some? && PricedAt(t, 1.0).value.0 > 0.0 ==>
              var rate := PricedAt(t, 1.0).value.0;
              var asked := AskedFiat(ask.amount, rate, t.answer.orientation == ToIsRate, t.fee, t.platformFee, t.units);
              if asked <= 0.0 then r == OnRefused(AmountTooLow)
              else r.OnQuote? && r.sendAmount == asked && r.receiveNet == ask.amount && r.rate == rate
  {
    if ask.ByDestination? && ask.amount <= 0.0 { return OnRefused(AmountTooLow); }
    var priced := PickRate(t, Hint(ask));
    if priced.None? { return OnRefused(RatesUnavailable); }
    var (rate, receiveGross) := priced.value;
    if ask.ByDestination? {
      if rate <= 0.0 { return OnRefused(RatesUnavailable); }
      var multiplied := t.answer.orientation.ToIsRate?;
      var solved := SolveSendFromDest(ask.amount, rate, multiplied, t.fee, t.platformFee);
      var sendAmount := CeilTo(solved.sendGross, t.units);
      GrossIsPositive(ask.amount + OfframpQuote.TransferFee(t.fee), t.platformFee);
      if sendAmount <= 0.0 || solved.receiveGross <= 0.0 { return OnRefused(AmountTooLow); }
      return OnQuote(sendAmount, solved.receiveGross, ask.amount, rate);
    }
    if receiveGross < 0.0 { return OnRefused(NegativeAmount); }
    FeeIsCharged(receiveGross, t.platformFee);
    var net := ApplyPlatformFee(receiveGross, t.platformFee).netAmount;
    if OfframpQuote.TransferFee(t.fee) >= net { return OnRefused(AmountTooLow); }
    return OnQuote(ask.amount, receiveGross, Max(0.0, net - OfframpQuote.TransferFee(t.fee)), rate);
  }

  /** One markup at most: the account's replaces the pair's, and the rate is the market's times that one factor. */
  lemma OneMarkupApplies(t: OnTerms, hint: real)
    requires PricedAt(t, hint).Some? && MarkupOf(t).Some?
    ensures t.answer.marketRate.Some? && PricedAt(t, hint).value.0 > 0.0
    ensures PricedAt(t, hint).value.0 == t.answer.marketRate.value *
              (1.0 + if t.account.Some? then t.account.value * (if t.multiply then 2.0 else 1.0) else Signed(t.pair.value))
  {
  }

  /**
   A destination-fixed quote, when it is given, credits the locked crypto up to the ceiling's slack, whichever markup
   applied, for every fee the solver can invert.
   */
  lemma QuotedDestinationIsCredited(t: OnTerms, amount: real, r: OnOutcome)
    requires t.units > 0.0 && r.OnQuote? && r.rate > 0.0 && Promises(t, ByDestination(amount), r) && Invertible(t.platformFee)
    ensures var multiplied := t.answer.orientation.ToIsRate?;
            Credited(r.sendAmount, r.rate, multiplied, t.fee, t.platformFee)
              >= r.receiveNet - CryptoFromFiat(SLACK / t.units, r.rate, multiplied)
  {
    DestinationIsCredited(amount, r.rate, t.answer.orientation.ToIsRate?, t.fee, t.platformFee, t.units);
  }

  /** A source-fixed quote under a markup promises exactly what the sent fiat credits. */
  lemma QuotedSourceIsCredited(t: OnTerms, amount: real, r: OnOutcome)
    requires t.units > 0.0 && r.OnQuote? && r.rate > 0.0 && Promises(t, BySource(amount), r) && MarkupOf(t).Some?
    ensures Credited(r.sendAmount, r.rate, t.answer.orientation.ToIsRate?, t.fee, t.platformFee) == r.receiveNet
  {
  }
}
