/**
 The two kinds of ramp rows and the "funds received" guard that every status update consults
 (core/ramps/fundsReceivedGuard.ts). Instants are integers; a timestamp that is only ever tested for
 presence is a boolean.
 */
module Ramps {
  import opened Wrappers

  datatype OnStatus =
    | Created | AwaitingFunds | FiatPending | FiatProcessed | CryptoInitiated | CryptoPending
    | Completed | FiatFailed | FiatReturned | CryptoFailed | Expired

  datatype OffStatus =
    | Created | AwaitingCrypto | CryptoPending | CryptoReceived | CryptoConfirmed | ProcessingFee
    | FeeProcessed | FiatInitiated | FiatPending | Completed | Failed | Cancelled | Refunded
    | CryptoFailed | FiatFailed | Expired

  /** Where an onramp's crypto goes. `offrampId` is empty when the onramp names no offramp. */
  datatype Destination = Destination(
    walletAddress: string, currency: string, chain: string, memo: string,
    amount: Option<real>, offrampId: string)

  /** The fields of an onramp that no operation rewrites. `sendable`: the payout fields are all present. */
  datatype OnrampInfo = OnrampInfo(userId: string, flow: string, dest: Destination, sendable: bool)

  datatype Onramp = Onramp(info: OnrampInfo, status: OnStatus, receiptWithdrawalId: Option<nat>)

  datatype DepositInstructions = DepositInstructions(
    address: string, currency: string, network: string, memo: string,
    depositBy: Option<int>, amount: Option<real>)

  /**
   The fields of an offramp that stay as they are; the deposit instructions are taken to be final, although the webhook
   that activates the deposit account stores them again. `rateExpiresAt`: the deadline when they have none. `payable`:
   account and amount are usable.
   */
  datatype OfframpInfo = OfframpInfo(
    userId: string, txnRef: string, flow: string, deposit: DepositInstructions,
    sourceAmount: Option<real>, sourceCurrency: string, rateExpiresAt: Option<int>, payable: bool)

  datatype Timeline = Timeline(
    cryptoReceivedAmount: Option<real>, cryptoConfirmedAt: bool, lastDepositCreditedAt: bool,
    settledByOnramp: Option<nat>, fiatWithdrawalId: Option<nat>, fiatWithdrawalCompleted: bool)

  const BlankTimeline := Timeline(None, false, false, None, None, false)

  /** `providerRefs.palremitOrchestrator`: the payout attached to the row and those it superseded. */
  datatype Refs = Refs(palremitWithdrawalId: Option<nat>, superseded: seq<nat>, markedManually: bool)

  const BlankRefs := Refs(None, [], false)

  datatype Offramp = Offramp(info: OfframpInfo, status: OffStatus, timeline: Timeline, refs: Refs)

  predicate OfframpFundedStatus(status: OffStatus) {
    status.CryptoPending? || status.CryptoReceived? || status.CryptoConfirmed? || status.ProcessingFee? ||
    status.FeeProcessed? || status.FiatInitiated? || status.FiatPending?
  }

  predicate OnrampFundsReceived(row: Onramp) {
    row.status.FiatPending? || row.status.FiatProcessed? || row.status.CryptoInitiated? || row.status.CryptoPending?
  }

  predicate OfframpAutoFail(status: OffStatus) {
    status.Expired? || status.Failed? || status.FiatFailed? || status.CryptoFailed?
  }

  predicate OnrampAutoFail(status: OnStatus) {
    status.Expired? || status.FiatFailed? || status.CryptoFailed?
  }

  /** What the timeline says about crypto having arrived, whatever the status. */
  predicate CryptoEvidence(t: Timeline) {
    t.cryptoConfirmedAt || t.lastDepositCreditedAt || (t.cryptoReceivedAmount.Some? && t.cryptoReceivedAmount.value > 0.0)
  }

  predicate OfframpFundsReceived(row: Offramp) {
    OfframpFundedStatus(row.status) || CryptoEvidence(row.timeline)
  }

  predicate BlocksOfframp(row: Offramp, next: OffStatus) {
    OfframpAutoFail(next) && OfframpFundsReceived(row)
  }

  predicate BlocksOnramp(row: Onramp, next: OnStatus) {
    OnrampAutoFail(next) && OnrampFundsReceived(row)
  }

  /** The status a repository update really writes: a refused failure keeps the current status. */
  function OfframpStatusAfter(row: Offramp, next: OffStatus, allowAfterFunds: bool): OffStatus {
    if !allowAfterFunds && BlocksOfframp(row, next) then row.status else next
  }

  function OnrampStatusAfter(row: Onramp, next: OnStatus, allowAfterFunds: bool): OnStatus {
    if !allowAfterFunds && BlocksOnramp(row, next) then row.status else next
  }

  /** The payout an offramp is attached to: the timeline first, then the provider refs. */
  function CurrentPayout(row: Offramp): Option<nat> {
    if row.timeline.fiatWithdrawalId.Some? then row.timeline.fiatWithdrawalId else row.refs.palremitWithdrawalId
  }
}
