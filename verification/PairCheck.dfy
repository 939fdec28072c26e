/**
 Pairing a fiat-to-fiat onramp with the offramp it funds: the check made when the onramp's fiat lands
 (core/fiatToFiat/internalSettlement.ts) and the one made when the onramp is created
 (core/fiatToFiat/offrampLink.ts).
 */
module PairCheck {
  import opened Wrappers
  import opened Ramps
  import opened DepositAmount
  import opened Text

  const FIAT_TO_FIAT_FLOW := "FIAT_TO_FIAT"

  predicate IsFiatToFiat(flow: string) {
    flow == FIAT_TO_FIAT_FLOW
  }

  /** Statuses of an offramp that still waits for its crypto and has received none. */
  predicate Settleable(status: OffStatus) {
    status.AwaitingCrypto? || status.CryptoPending?
  }

  predicate IsHexDigit(c: char) {
    '0' <= c <= '9' || 'a' <= c <= 'f' || 'A' <= c <= 'F'
  }

  /** `/^0x[0-9a-f]{40}$/i`: the `x` matches either case as well. */
  predicate IsEvmAddress(a: string) {
    |a| == 42 && a[0] == '0' && (a[1] == 'x' || a[1] == 'X') && forall i :: 2 <= i < 42 ==> IsHexDigit(a[i])
  }

  predicate SameAddress(a: string, b: string) {
    a != "" && b != "" &&
    if IsEvmAddress(a) && IsEvmAddress(b) then Upper(a) == Upper(b) else a == b
  }

  datatype Reason =
    | OnrampNotFiatToFiat | OfframpNotFiatToFiat | DifferentBusiness | OfframpNotAwaitingCrypto
    | OfframpAlreadyReceivedCrypto | AddressMismatch | AssetMismatch | NetworkMismatch | MemoMismatch
    | DepositWindowClosed | AmountMissing | AmountMismatch

  datatype PairResult = Pair(amount: real) | NoPair(reason: Reason)

  predicate WindowOpen(deposit: DepositInstructions, now: int) {
    deposit.depositBy.None? || now < deposit.depositBy.value
  }

  /** Where the onramp's crypto goes and where the offramp awaits it: address, asset, network and memo, in this order. */
  function FundingMismatch(dest: Destination, deposit: DepositInstructions): Option<Reason> {
    if !SameAddress(Trim(dest.walletAddress), Trim(deposit.address)) then Some(AddressMismatch)
    else if Norm(dest.currency) != Norm(deposit.currency) then Some(AssetMismatch)
    else if Norm(dest.chain) != Norm(deposit.network) then Some(NetworkMismatch)
    else if Trim(dest.memo) != Trim(deposit.memo) then Some(MemoMismatch)
    else None
  }

  /** Is `off` the funded leg of the fiat-to-fiat onramp `on`? The first failing test names the reason. */
  function CheckPair(on: OnrampInfo, off: Offramp, now: int): (r: PairResult)
    ensures r.Pair? ==> Settleable(off.status) && on.dest.amount == Some(r.amount)
  {
    var dest, deposit := on.dest, off.info.deposit;
    var expected := Expected(off.info);
    if !IsFiatToFiat(Trim(on.flow)) then NoPair(OnrampNotFiatToFiat)
    else if !IsFiatToFiat(Trim(off.info.flow)) then NoPair(OfframpNotFiatToFiat)
    else if on.userId != off.info.userId then NoPair(DifferentBusiness)
    else if !Settleable(off.status) then NoPair(OfframpNotAwaitingCrypto)
    else if PriorReceived(off.timeline) > 0.0 then NoPair(OfframpAlreadyReceivedCrypto)
    else if FundingMismatch(dest, deposit).Some? then NoPair(FundingMismatch(dest, deposit).value)
    else if !WindowOpen(deposit, now) then NoPair(DepositWindowClosed)
    else if dest.amount.None? || expected.None? then NoPair(AmountMissing)
    else if Abs(dest.amount.value - expected.value) > AMOUNT_TOLERANCE then NoPair(AmountMismatch)
    else Pair(dest.amount.value)
  }

  // ---------- what a pair is ----------

  /** The onramp pays what the offramp awaits: one business, two fiat-to-fiat flows, one address, asset, network and memo. */
  predicate Pays(on: OnrampInfo, off: OfframpInfo) {
    && on.userId == off.userId
    && Trim(on.flow) == "FIAT_TO_FIAT" && Trim(off.flow) == "FIAT_TO_FIAT"
    && SameAddress(Trim(on.dest.walletAddress), Trim(off.deposit.address))
    && Norm(on.dest.currency) == Norm(off.deposit.currency)
    && Norm(on.dest.chain) == Norm(off.deposit.network)
    && Trim(on.dest.memo) == Trim(off.deposit.memo)
  }

  /** An amount within a cent of the quoted deposit. */
  predicate WithinTolerance(amount: real, info: OfframpInfo) {
    Expected(info).Some? && -0.01 <= amount - Expected(info).value <= 0.01
  }

  /** An uncredited offramp that still waits, in time, for what the onramp pays, to the cent. */
  predicate Fits(on: OnrampInfo, off: Offramp, now: int) {
    && Pays(on, off.info)
    && off.status in {OffStatus.AwaitingCrypto, OffStatus.CryptoPending}
    && (off.timeline.cryptoReceivedAmount.Some? ==> off.timeline.cryptoReceivedAmount.value <= 0.0)
    && (off.info.deposit.depositBy.Some? ==> now < off.info.deposit.depositBy.value)
    && on.dest.amount.Some? && WithinTolerance(on.dest.amount.value, off.info)
  }

  lemma PairsByTests(on: OnrampInfo, off: Offramp, now: int)
    ensures CheckPair(on, off, now).Pair? <==>
              && FundingMismatch(on.dest, off.info.deposit).None? && on.userId == off.info.userId
              && IsFiatToFiat(Trim(on.flow)) && IsFiatToFiat(Trim(off.info.flow))
              && Settleable(off.status) && PriorReceived(off.timeline) == 0.0 && WindowOpen(off.info.deposit, now)
              && on.dest.amount.Some? && Expected(off.info).Some?
              && Abs(on.dest.amount.value - Expected(off.info).value) <= AMOUNT_TOLERANCE
  {
    hide SameAddress, Norm, Trim;
  }

  lemma PaysExactly(on: OnrampInfo, off: OfframpInfo)
    ensures Pays(on, off) <==>
              && FundingMismatch(on.dest, off.deposit).None? && on.userId == off.userId
              && IsFiatToFiat(Trim(on.flow)) && IsFiatToFiat(Trim(off.flow))
  {
  }

  /** A pair exactly when the two rows fit. */
  lemma PairsExactly(on: OnrampInfo, off: Offramp, now: int)
    ensures CheckPair(on, off, now).Pair? <==> Fits(on, off, now)
    ensures CheckPair(on, off, now).Pair? ==> on.dest.amount == Some(CheckPair(on, off, now).amount)
  {
    hide SameAddress, Norm, Trim;
    PairsByTests(on, off, now);
    PaysExactly(on, off.info);
  }

  /** The place of a reason among the tests. */
  function Place(reason: Reason): nat {
    match reason
    case OnrampNotFiatToFiat => 0
    case OfframpNotFiatToFiat => 1
    case DifferentBusiness => 2
    case OfframpNotAwaitingCrypto => 3
    case OfframpAlreadyReceivedCrypto => 4
    case AddressMismatch => 5
    case AssetMismatch => 6
    case NetworkMismatch => 7
    case MemoMismatch => 8
    case DepositWindowClosed => 9
    case AmountMissing => 10
    case AmountMismatch => 11
  }

  /** What a reason says of the two rows. */
  predicate Holds(reason: Reason, on: OnrampInfo, off: Offramp, now: int) {
    match reason
    case OnrampNotFiatToFiat => Trim(on.flow) != "FIAT_TO_FIAT"
    case OfframpNotFiatToFiat => Trim(off.info.flow) != "FIAT_TO_FIAT"
    case DifferentBusiness => on.userId != off.info.userId
    case OfframpNotAwaitingCrypto => off.status !in {OffStatus.AwaitingCrypto, OffStatus.CryptoPending}
    case OfframpAlreadyReceivedCrypto => off.timeline.cryptoReceivedAmount.Some? && off.timeline.cryptoReceivedAmount.value > 0.0
    case AddressMismatch => !SameAddress(Trim(on.dest.walletAddress), Trim(off.info.deposit.address))
    case AssetMismatch => Norm(on.dest.currency) != Norm(off.info.deposit.currency)
    case NetworkMismatch => Norm(on.dest.chain) != Norm(off.info.deposit.network)
    case MemoMismatch => Trim(on.dest.memo) != Trim(off.info.deposit.memo)
    case DepositWindowClosed => off.info.deposit.depositBy.Some? && off.info.deposit.depositBy.value <= now
    case AmountMissing => on.dest.amount.None? || Expected(off.info).None?
    case AmountMismatch => !(on.dest.amount.Some? && WithinTolerance(on.dest.amount.value, off.info))
  }

  lemma ReasonHolds(on: OnrampInfo, off: Offramp, now: int, other: Reason)
    ensures CheckPair(on, off, now).Pair? ==> !Holds(other, on, off, now)
    ensures CheckPair(on, off, now) == NoPair(other) ==> Holds(other, on, off, now)
    ensures CheckPair(on, off, now).NoPair? && Place(other) < Place(CheckPair(on, off, now).reason) ==> !Holds(other, on, off, now)
  {
    hide SameAddress, Norm, Trim;
  }

  /** The reason given is the first that holds, in the order of the tests. */
  lemma ReasonIsTheFirst(on: OnrampInfo, off: Offramp, now: int, reason: Reason)
    ensures CheckPair(on, off, now) == NoPair(reason) <==>
              Holds(reason, on, off, now) && forall other: Reason :: Place(other) < Place(reason) ==> !Holds(other, on, off, now)
  {
    hide CheckPair, Holds;
    forall other: Reason
      ensures CheckPair(on, off, now).Pair? ==> !Holds(other, on, off, now)
      ensures CheckPair(on, off, now) == NoPair(other) ==> Holds(other, on, off, now)
      ensures CheckPair(on, off, now).NoPair? && Place(other) < Place(CheckPair(on, off, now).reason) ==> !Holds(other, on, off, now)
    {
      ReasonHolds(on, off, now, other);
    }
    if CheckPair(on, off, now).NoPair? && Place(CheckPair(on, off, now).reason) == Place(reason) {
      SamePlace(CheckPair(on, off, now).reason, reason);
    }
  }

  lemma SamePlace(x: Reason, y: Reason)
    requires Place(x) == Place(y)
    ensures x == y
  {
  }

  /** The same hexadecimal digit, in either case. */
  predicate SameHexDigit(x: char, y: char) {
    x in "0123456789abcdefABCDEF" && y in "0123456789abcdefABCDEF" && (x == y || x as int - y as int in {32, -32})
  }

  lemma HexDigit(x: char)
    ensures IsHexDigit(x) <==> x in "0123456789abcdefABCDEF"
  {
  }

  lemma HexDigits(x: char, y: char)
    ensures IsHexDigit(x) && IsHexDigit(y) && UpperChar(x) == UpperChar(y) <==> SameHexDigit(x, y)
  {
    HexDigit(x);
    HexDigit(y);
    hide IsHexDigit;
  }

  /** Equal texts, or two Ethereum addresses that differ in letter case only; never blank. */
  lemma SameAddressExactly(a: string, b: string)
    ensures SameAddress(a, b) <==>
              && a != "" && b != ""
              && (a == b ||
                  (|a| == |b| == 42 && a[0] == b[0] == '0' && {a[1], b[1]} <= {'x', 'X'} &&
                   forall i :: 2 <= i < 42 ==> SameHexDigit(a[i], b[i])))
  {
    forall i | 2 <= i < |a| && i < |b|
      ensures IsHexDigit(a[i]) && IsHexDigit(b[i]) && UpperChar(a[i]) == UpperChar(b[i]) <==> SameHexDigit(a[i], b[i])
    {
      HexDigits(a[i], b[i]);
    }
  }

  datatype LinkQuote = LinkQuote(flow: string, toCurrency: string, destinationChain: string, receiveNet: real)

  datatype LinkError = LinkNotFound | LinkInvalid | LinkConflict

  datatype LinkResult = Linked(offrampId: string, address: string, memo: Option<string>) | Refused(error: LinkError)

  /**
   Validates `destination.offrampId` and says where the onramp's crypto must go. `found` is the offramp the
   reference names, `wallet` the address of an external wallet the partner also sent, `live` whether another
   onramp can still fund the offramp.
   */
  function ResolveLink(
    ref: string, userId: string, found: Option<Offramp>, quote: Option<LinkQuote>,
    wallet: Option<string>, live: bool, now: int): LinkResult
  {
    if found.None? || found.value.info.userId != userId then Refused(LinkNotFound)
    else
      var off := found.value;
      var deposit := off.info.deposit;
      var address := Trim(deposit.address);
      var expected := Expected(off.info);
      if quote.None? || !IsFiatToFiat(quote.value.flow) || !IsFiatToFiat(Trim(off.info.flow)) then Refused(LinkInvalid)
      else if !Settleable(off.status) || PriorReceived(off.timeline) > 0.0 || address == "" || !WindowOpen(deposit, now)
        then Refused(LinkInvalid)
      else if Norm(quote.value.toCurrency) != Norm(deposit.currency) then Refused(LinkInvalid)
      else if Norm(quote.value.destinationChain) != Norm(deposit.network) then Refused(LinkInvalid)
      else if expected.None? || Abs(quote.value.receiveNet - expected.value) > AMOUNT_TOLERANCE then Refused(LinkInvalid)
      else if wallet.Some? && !SameAddress(Trim(wallet.value), address) then Refused(LinkInvalid)
      else if live then Refused(LinkConflict)
      else
        var memo := Trim(deposit.memo);
        Linked(Trim(ref), address, if memo == "" then None else Some(memo))
  }

  /** The onramp row that a linked create stores (core/onramps/createOnramp.ts). */
  function LinkedOnramp(userId: string, quote: LinkQuote, link: LinkResult, sendable: bool): OnrampInfo
    requires link.Linked?
  {
    var memo := if link.memo.Some? && Trim(link.memo.value) != "" then Trim(link.memo.value) else "";
    OnrampInfo(userId, quote.flow,
      Destination(link.address, quote.toCurrency, quote.destinationChain, memo, Some(quote.receiveNet), link.offrampId),
      sendable)
  }

  lemma SameAddressIsReflexive(a: string)
    requires a != ""
    ensures SameAddress(a, a)
  {
  }

  /** What a linked create copies from the offramp reads back as the offramp's own, trimmed. */
  lemma LinkedFieldsReadBack(
    ref: string, off: Offramp, quote: LinkQuote, wallet: Option<string>, live: bool, now: int, sendable: bool)
    requires ResolveLink(ref, off.info.userId, Some(off), Some(quote), wallet, live, now).Linked?
    ensures var link := ResolveLink(ref, off.info.userId, Some(off), Some(quote), wallet, live, now);
            var on := LinkedOnramp(off.info.userId, quote, link, sendable);
            && IsFiatToFiat(Trim(on.flow))
            && Trim(on.dest.walletAddress) == Trim(off.info.deposit.address) != ""
            && Trim(on.dest.memo) == Trim(off.info.deposit.memo)
            && Trim(on.dest.offrampId) == Trim(ref)
  {
    TrimFixesClean(Trim(off.info.deposit.address));
    TrimFixesClean(Trim(off.info.deposit.memo));
    TrimFixesClean("");
    TrimFixesClean(Trim(ref));
    TrimFixesClean(FIAT_TO_FIAT_FLOW);
  }

  /** The onramp that a link to `off` would create. */
  function Prospect(userId: string, quote: LinkQuote, off: Offramp, ref: string): OnrampInfo {
    var deposit := off.info.deposit;
    OnrampInfo(userId, quote.flow,
      Destination(Trim(deposit.address), quote.toCurrency, quote.destinationChain, Trim(deposit.memo), Some(quote.receiveNet), Trim(ref)), true)
  }

  /** All that a link needs but that no other onramp is live on the offramp. */
  predicate Linkable(ref: string, userId: string, off: Offramp, quote: LinkQuote, wallet: Option<string>, now: int) {
    quote.flow == "FIAT_TO_FIAT" && Fits(Prospect(userId, quote, off, ref), off, now) &&
    (wallet.Some? ==> SameAddress(Trim(wallet.value), Trim(off.info.deposit.address)))
  }

  lemma ProspectPays(ref: string, userId: string, off: Offramp, quote: LinkQuote)
    ensures quote.flow == "FIAT_TO_FIAT" ==>
              (Pays(Prospect(userId, quote, off, ref), off.info) <==>
                 && userId == off.info.userId && Trim(off.info.flow) == "FIAT_TO_FIAT" && Trim(off.info.deposit.address) != ""
                 && Norm(quote.toCurrency) == Norm(off.info.deposit.currency)
                 && Norm(quote.destinationChain) == Norm(off.info.deposit.network))
  {
    TrimFixesClean("FIAT_TO_FIAT");
    TrimFixesClean(Trim(off.info.deposit.address));
    TrimFixesClean(Trim(off.info.deposit.memo));
    if Trim(off.info.deposit.address) != "" { SameAddressIsReflexive(Trim(off.info.deposit.address)); }
    hide Trim, Norm, IsEvmAddress;
  }

  lemma LinkableByTests(ref: string, userId: string, off: Offramp, quote: LinkQuote, wallet: Option<string>, now: int)
    requires off.info.userId == userId
    ensures Linkable(ref, userId, off, quote, wallet, now) <==>
              && IsFiatToFiat(quote.flow) && IsFiatToFiat(Trim(off.info.flow))
              && Settleable(off.status) && !(PriorReceived(off.timeline) > 0.0) && Trim(off.info.deposit.address) != ""
              && WindowOpen(off.info.deposit, now)
              && Norm(quote.toCurrency) == Norm(off.info.deposit.currency)
              && Norm(quote.destinationChain) == Norm(off.info.deposit.network)
              && Expected(off.info).Some? && !(Abs(quote.receiveNet - Expected(off.info).value) > AMOUNT_TOLERANCE)
              && (wallet.Some? ==> SameAddress(Trim(wallet.value), Trim(off.info.deposit.address)))
  {
    ProspectPays(ref, userId, off, quote);
    hide Trim, Norm, SameAddress, Expected, Pays;
  }

  /**
   A link is given exactly when the offramp is the business's own, the onramp it would create fits it now, a wallet that
   was also sent is the deposit address, and no other onramp is live; a live one is the only conflict.
   */
  lemma LinksExactly(
    ref: string, userId: string, found: Option<Offramp>, quote: Option<LinkQuote>, wallet: Option<string>, live: bool, now: int)
    ensures var r := ResolveLink(ref, userId, found, quote, wallet, live, now);
            if found.None? || found.value.info.userId != userId then r == Refused(LinkNotFound)
            else if quote.None? || !Linkable(ref, userId, found.value, quote.value, wallet, now) then r == Refused(LinkInvalid)
            else if live then r == Refused(LinkConflict)
            else r.Linked? && r.offrampId == Trim(ref) && r.address == Trim(found.value.info.deposit.address) &&
                 r.memo == if Trim(found.value.info.deposit.memo) == "" then None else Some(Trim(found.value.info.deposit.memo))
  {
    if found.Some? && quote.Some? && found.value.info.userId == userId {
      LinkableByTests(ref, userId, found.value, quote.value, wallet, now);
    }
    hide Trim, Norm, SameAddress, Expected, PriorReceived, IsFiatToFiat, WindowOpen, Settleable, Abs, Linkable;
  }

  /**
   Validation at link time is at least as strong as validation at settlement time, and exactly so: an onramp
   accepted with a link passes the pairing check against the unchanged offramp at a later instant if and only
   if the deposit window is still open then.
   */
  lemma LinkedOnrampStaysSettleable(
    ref: string, off: Offramp, quote: LinkQuote, wallet: Option<string>, live: bool,
    created: int, later: int, sendable: bool)
    requires ResolveLink(ref, off.info.userId, Some(off), Some(quote), wallet, live, created).Linked?
    ensures var link := ResolveLink(ref, off.info.userId, Some(off), Some(quote), wallet, live, created);
            var on := LinkedOnramp(off.info.userId, quote, link, sendable);
            CheckPair(on, off, later) ==
              if WindowOpen(off.info.deposit, later) then Pair(quote.receiveNet) else NoPair(DepositWindowClosed)
  {
    LinkedFieldsReadBack(ref, off, quote, wallet, live, created, sendable);
    SameAddressIsReflexive(Trim(off.info.deposit.address));
    var link := ResolveLink(ref, off.info.userId, Some(off), Some(quote), wallet, live, created);
    assert FundingMismatch(LinkedOnramp(off.info.userId, quote, link, sendable).dest, off.info.deposit).None?;
  }
}
