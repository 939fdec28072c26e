/**
 What each single write leaves of a row, field by field: the operations that read a row and write it, possibly after
 others have written it meanwhile, and the provider's older events.
 */
module RowWrites {
  import opened Wrappers
  import opened Ramps
  import opened DepositAmount
  import opened PairCheck
  import opened Transfer
  import Text

  // ---------- offramps: when an operation may begin ----------

  /** Between the arrival of the crypto and the end, or with a trace of the crypto in the timeline. */
  predicate Funded(row: Offramp) {
    || row.status in {OffStatus.CryptoPending, OffStatus.CryptoReceived, OffStatus.CryptoConfirmed, OffStatus.ProcessingFee,
                      OffStatus.FeeProcessed, OffStatus.FiatInitiated, OffStatus.FiatPending}
    || row.timeline.cryptoConfirmedAt || row.timeline.lastDepositCreditedAt
    || (row.timeline.cryptoReceivedAmount.Some? && row.timeline.cryptoReceivedAmount.value > 0.0)
  }

  lemma FundedExactly(row: Offramp)
    ensures OfframpFundsReceived(row) <==> Funded(row)
  {
  }

  /** The guard of every update: an automatic failure is refused while the row has funds, unless an operator insists. */
  lemma GuardExactly(row: Offramp, next: OffStatus, allowAfterFunds: bool)
    ensures OfframpStatusAfter(row, next, allowAfterFunds) ==
              if !allowAfterFunds && Funded(row) &&
                 next in {OffStatus.Expired, OffStatus.Failed, OffStatus.FiatFailed, OffStatus.CryptoFailed}
              then row.status else next
  {
    FundedExactly(row);
    hide Funded, OfframpFundsReceived;
  }

  lemma OnrampGuardExactly(row: Onramp, next: OnStatus, allowAfterFunds: bool)
    ensures OnrampStatusAfter(row, next, allowAfterFunds) ==
              if !allowAfterFunds && FiatIsIn(row) && next in {OnStatus.Expired, OnStatus.FiatFailed, OnStatus.CryptoFailed}
              then row.status else next
  {
  }

  /** An automatic failure is refused while the row has funds. */
  function Failing(row: Offramp, next: OffStatus): OffStatus {
    if Funded(row) then row.status else next
  }

  predicate TakesCredit(row: Offramp) {
    Expected(row.info).Some? &&
    row.status in {OffStatus.AwaitingCrypto, OffStatus.CryptoPending, OffStatus.CryptoReceived, OffStatus.Expired}
  }

  /** What earlier credits add up to with this one. */
  function Total(row: Offramp, amount: real): real {
    match row.timeline.cryptoReceivedAmount
    case Some(prior) => if prior > 0.0 then prior + amount else amount
    case None => amount
  }

  /** Less than a dollar short for the dollar stablecoins, not short for any other asset; in cents. */
  predicate Covers(total: real, info: OfframpInfo) {
    Expected(info).Some? &&
    if Text.Norm(info.sourceCurrency) in {"USDT", "USDC", "USD"} then Cents(total) > Cents(Expected(info).value) - 100
    else Cents(total) >= Cents(Expected(info).value)
  }

  /** The row with a credit added. */
  function CreditedRow(row: Offramp, amount: real): Offramp {
    var t, covered := row.timeline, Covers(Total(row, amount), row.info);
    Offramp(row.info, if covered then OffStatus.CryptoConfirmed else OffStatus.CryptoReceived,
      Timeline(Some(Total(row, amount)), t.cryptoConfirmedAt || covered, true, t.settledByOnramp, t.fiatWithdrawalId, t.fiatWithdrawalCompleted),
      row.refs)
  }

  /** The deadline of the instructions has passed, or that of the rate if they have none. */
  predicate IsDue(info: OfframpInfo, now: int) {
    match info.deposit.depositBy
    case Some(deadline) => deadline <= now
    case None => info.rateExpiresAt.Some? && info.rateExpiresAt.value <= now
  }

  /** The webhook names no withdrawal, or the row knows none, or both name the same: the refs' before the timeline's. */
  predicate Concerns(row: Offramp, withdrawalId: Option<nat>) {
    withdrawalId == None ||
    match row.refs.palremitWithdrawalId
    case Some(id) => withdrawalId == Some(id)
    case None => row.timeline.fiatWithdrawalId == None || row.timeline.fiatWithdrawalId == withdrawalId
  }

  predicate InPayout(status: OffStatus) {
    status in {OffStatus.CryptoConfirmed, OffStatus.FiatInitiated, OffStatus.FiatPending}
  }

  predicate May(row: Offramp, op: OffOp) {
    match op
    case Credit(amount) => amount >= 0.0 && TakesCredit(row)
    case Cancel => row.status in {OffStatus.Created, OffStatus.AwaitingCrypto}
    case Expire(now) => row.status == OffStatus.AwaitingCrypto && IsDue(row.info, now)
    case MarkOffDone => true
    case MarkOffFailed => true
    case PayoutPaid(wid, paid) =>
      && Concerns(row, wid)
      && (|| InPayout(row.status)
          || (row.status in {OffStatus.Failed, OffStatus.FiatFailed} && row.refs.markedManually)
          || (row.status == OffStatus.Completed && paid && !row.timeline.fiatWithdrawalCompleted))
    case PayoutFailed(wid) => Concerns(row, wid) && InPayout(row.status)
    case PayoutFailedLate(wid) => Concerns(row, wid) && row.status == OffStatus.Completed
    case ProvisionActive => row.status in {OffStatus.AwaitingCrypto, OffStatus.CryptoPending}
    case ProvisionPending => row.status in {OffStatus.AwaitingCrypto, OffStatus.CryptoPending}
    case ProvisionFailed => row.status in {OffStatus.AwaitingCrypto, OffStatus.CryptoPending}
    case HandOff =>
      row.status == OffStatus.CryptoConfirmed && !row.timeline.fiatWithdrawalCompleted &&
      row.timeline.fiatWithdrawalId == None && row.info.payable
    case Retry => row.timeline.fiatWithdrawalId.Some? || row.refs.palremitWithdrawalId.Some?
  }

  /** An operation begins exactly on the rows it is for. */
  lemma GuardsExactly(row: Offramp, op: OffOp)
    ensures OpEnabled(row, op) <==> May(row, op)
  {
    hide Expected;
  }

  // ---------- offramps: what a write leaves ----------

  lemma CreditCovers(row: Offramp, amount: real)
    requires TakesCredit(row)
    ensures CreditCompletes(row, amount) <==> Covers(Total(row, amount), row.info)
    ensures CreditedTotal(row, amount) == Total(row, amount)
  {
    CompleteExactly(CreditedTotal(row, amount), Expected(row.info).value, row.info.sourceCurrency);
    hide DepositComplete, Text.Norm, Cents;
  }

  /** A row that a credit confirms has received more than the quoted deposit less a dollar, or less a cent. */
  lemma CoveredAmount(total: real, info: OfframpInfo)
    requires Covers(total, info) && total >= 0.0
    ensures total > Expected(info).value - if Text.Norm(info.sourceCurrency) in {"USDT", "USDC", "USD"} then 1.0 else 0.01
  {
    var expected := Expected(info).value;
    CompleteExactly(total, expected, info.sourceCurrency);
    CompleteBounds(total, expected, info.sourceCurrency);
  }

  /** The row after the write of an operation that had read `snap`. */
  function Left(row: Offramp, snap: Offramp, op: OffOp): Offramp {
    var t, refs := snap.timeline, snap.refs;
    match op
    case Credit(amount) => Offramp(row.info, CreditedRow(snap, amount).status, CreditedRow(snap, amount).timeline, refs)
    case Cancel => Offramp(row.info, OffStatus.Cancelled, t, row.refs)
    case Expire(_) => Offramp(row.info, Failing(row, OffStatus.Expired), row.timeline, row.refs)
    case MarkOffDone =>
      Offramp(row.info, OffStatus.Completed, t.(fiatWithdrawalCompleted := true), Refs(refs.palremitWithdrawalId, refs.superseded, true))
    case MarkOffFailed => Offramp(row.info, OffStatus.Failed, row.timeline, Refs(refs.palremitWithdrawalId, refs.superseded, true))
    case PayoutPaid(_, paid) =>
      Offramp(row.info, OffStatus.Completed, if paid then t.(fiatWithdrawalCompleted := true) else t, refs)
    case PayoutFailed(_) => Offramp(row.info, Failing(row, OffStatus.Failed), row.timeline, refs)
    case PayoutFailedLate(_) => Offramp(row.info, OffStatus.Completed, t, refs)
    case ProvisionActive => Offramp(row.info, OffStatus.AwaitingCrypto, row.timeline, refs)
    case ProvisionPending => Offramp(row.info, snap.status, row.timeline, refs)
    case ProvisionFailed => Offramp(row.info, Failing(row, OffStatus.CryptoFailed), row.timeline, refs)
    case HandOff => row
    case Retry => row
  }

  /** A write takes what it read from the snapshot, the rest from the row as it is, and fails no funded row by itself. */
  lemma WriteLeaves(row: Offramp, snap: Offramp, op: OffOp)
    requires OpEnabled(snap, op) && FirstPhase(snap, op).Writing?
    ensures FirstPhase(snap, op).snap == snap && ApplyWrite(row, snap, FirstPhase(snap, op).write) == Left(row, snap, op)
  {
    FundedExactly(row);
    GuardsExactly(snap, op);
    if op.Credit? { CreditCovers(snap, op.amount); }
    hide CreditCompletes, Covers, Total, TakesCredit, Funded, OfframpFundsReceived, CreditedTotal;
  }

  /** The operations that are one write are all but the handoff and the retry. */
  lemma SingleWrites(row: Offramp, op: OffOp)
    requires OpEnabled(row, op)
    ensures FirstPhase(row, op).Writing? <==> !op.HandOff? && !op.Retry?
    ensures op.HandOff? ==> FirstPhase(row, op) == CallingFirst(row)
    ensures op.Retry? ==>
              FirstPhase(row, op) == LoadingLp(if row.timeline.fiatWithdrawalId.Some? then row.timeline.fiatWithdrawalId.value
                                               else row.refs.palremitWithdrawalId.value)
  {
  }

  /** The row after one of the provider's older events, or the save of the fees. */
  function EventLeft(row: Offramp, e: OffEvent): Offramp {
    var blank := Timeline(None, false, false, None, None, false);
    match e
    case CryptoReceivedEvent => Offramp(row.info, OffStatus.CryptoPending, blank, row.refs)
    case CryptoConfirmedEvent => Offramp(row.info, OffStatus.CryptoConfirmed, row.timeline, row.refs)
    case FeeProcessedEvent => Offramp(row.info, OffStatus.FeeProcessed, row.timeline, row.refs)
    case FiatInitiatedEvent => Offramp(row.info, OffStatus.FiatInitiated, blank, row.refs)
    case CompletedEvent => Offramp(row.info, OffStatus.Completed, blank, row.refs)
    case FailedEvent => Offramp(row.info, Failing(row, OffStatus.Failed), row.timeline, row.refs)
    case CancelledEvent => Offramp(row.info, OffStatus.Cancelled, blank, row.refs)
    case RefundedEvent => Offramp(row.info, OffStatus.Refunded, row.timeline, row.refs)
    case FeesSaved => Offramp(row.info, OffStatus.Completed, row.timeline, row.refs)
  }

  lemma EventLeaves(row: Offramp, e: OffEvent)
    ensures ApplyOffEvent(row, e) == EventLeft(row, e)
  {
    FundedExactly(row);
    hide Funded, OfframpFundsReceived;
  }

  // ---------- onramps ----------

  /** The fiat has arrived and the crypto is not yet paid. */
  predicate FiatIsIn(row: Onramp) {
    row.status in {OnStatus.FiatPending, OnStatus.FiatProcessed, OnStatus.CryptoInitiated, OnStatus.CryptoPending}
  }

  predicate MayWrite(w: OnWrite) {
    match w
    case FiatCredited(seen) => seen in {OnStatus.AwaitingFunds, OnStatus.FiatPending, OnStatus.Expired}
    case AutoFail(seen, next) =>
      || (next == OnStatus.Expired && seen == OnStatus.AwaitingFunds)
      || (next == OnStatus.FiatFailed && seen in {OnStatus.Created, OnStatus.AwaitingFunds, OnStatus.FiatPending})
      || (next == OnStatus.CryptoFailed && seen == OnStatus.CryptoPending)
    case Provision(seen, _) => seen in {OnStatus.Created, OnStatus.AwaitingFunds, OnStatus.FiatPending}
    case MarkDone => true
    case MarkFailed => true
    case Paid(seen, _) => seen !in {OnStatus.Completed, OnStatus.Expired}
    case Legacy(next) => next in {OnStatus.AwaitingFunds, OnStatus.FiatPending, OnStatus.FiatProcessed,
                                  OnStatus.CryptoInitiated, OnStatus.Completed, OnStatus.CryptoFailed}
  }

  /** The row after a single write: a failure that is no operator's is refused while the fiat is in. */
  function OnLeft(row: Onramp, w: OnWrite): Onramp {
    match w
    case FiatCredited(_) => Onramp(row.info, OnStatus.FiatProcessed, None)
    case AutoFail(_, next) =>
      Onramp(row.info, if FiatIsIn(row) then row.status else next, if next == OnStatus.CryptoFailed then None else row.receiptWithdrawalId)
    case Provision(seen, active) => Onramp(row.info, if active then OnStatus.AwaitingFunds else seen, row.receiptWithdrawalId)
    case MarkDone => Onramp(row.info, OnStatus.Completed, None)
    case MarkFailed => Onramp(row.info, OnStatus.FiatFailed, row.receiptWithdrawalId)
    case Paid(_, wid) => Onramp(row.info, OnStatus.Completed, Some(wid))
    case Legacy(next) =>
      Onramp(row.info, if next == OnStatus.CryptoFailed && FiatIsIn(row) then row.status else next,
             if next == OnStatus.Completed then None else row.receiptWithdrawalId)
  }

  lemma OnWriteLeaves(row: Onramp, w: OnWrite)
    ensures OnWriteEnabled(w) <==> MayWrite(w)
    ensures OnWriteEnabled(w) ==> ApplyOnWrite(row, w) == OnLeft(row, w)
  {
  }

  // ---------- the steps of an advance ----------

  /**
   The claim looks at the status alone. Won, it replaces the timeline and the refs by those of the row checked before, with
   the credit in them; lost, nothing changes and the advance goes on to send if the row it read allows that.
   */
  lemma ClaimLeaves(s: State, pid: nat)
    requires Enabled(s, ClaimStep(pid))
    ensures var e, p := Apply(s, ClaimStep(pid)), s.onProcs[pid];
            var off, t := p.phase.off, p.phase.snap.timeline;
            && e.ons == s.ons && e.crypto == s.crypto && e.payouts == s.payouts
            && if s.offs[off].status in {OffStatus.AwaitingCrypto, OffStatus.CryptoPending} then
                 && e.offs == s.offs[off := Offramp(s.offs[off].info, OffStatus.CryptoConfirmed,
                                                    Timeline(Some(p.phase.amount), true, true, Some(p.on), t.fiatWithdrawalId, t.fiatWithdrawalCompleted),
                                                    p.phase.snap.refs)]
                 && e.claims == s.claims + [Claim(p.on, off, p.phase.amount, pid)]
                 && e.onProcs == s.onProcs[pid := OnProc(p.on, p.row, Claimed(|s.claims|))]
               else
                 && e.offs == s.offs && e.claims == s.claims
                 && e.onProcs == if MaySend(p.row) then s.onProcs[pid := OnProc(p.on, p.row, Sending)] else s.onProcs - {pid}
  {
  }

  /** The fiat has been processed, or an earlier send has left no receipt; and the payout fields are there. */
  predicate MaySend(row: Onramp) {
    row.info.sendable &&
    (row.status == OnStatus.FiatProcessed ||
     (row.status in {OnStatus.CryptoInitiated, OnStatus.CryptoPending, OnStatus.CryptoFailed} && row.receiptWithdrawalId == None))
  }

  /** What the other steps of an advance write to the onramp, whatever became of it since the advance read it. */
  lemma AdvanceStepLeaves(s: State, step: Step)
    requires Enabled(s, step) && (step.CompleteStep? || step.InitiateStep? || step.SentStep?)
    ensures var p := s.onProcs[step.pid];
            var row, e := s.ons[p.on], Apply(s, step);
            && e.offs == s.offs && e.crypto == s.crypto && e.claims == s.claims
            && e.ons[p.on] == (match step
                 case CompleteStep(_) => Onramp(row.info, OnStatus.Completed, None)
                 case InitiateStep(_) =>
                   if p.row.status == OnStatus.FiatProcessed then Onramp(row.info, OnStatus.CryptoInitiated, row.receiptWithdrawalId) else row
                 case SentStep(_) => Onramp(row.info, OnStatus.CryptoPending, p.phase.withdrawalId)
                 case _ => row)
            && forall o :: o in s.ons && o != p.on ==> o in e.ons && e.ons[o] == s.ons[o]
  {
  }

  // ---------- the steps of a retry ----------

  /** The payout that the row is attached to: the timeline's, else the refs'. */
  function Attached(row: Offramp): Option<nat> {
    match row.timeline.fiatWithdrawalId
    case Some(id) => Some(id)
    case None => row.refs.palremitWithdrawalId
  }

  /** A retry goes on exactly when the provider reports the payout failed or refunded. */
  lemma LoadLeaves(s: State, pid: nat, loads: bool)
    requires Enabled(s, Load(pid, loads))
    ensures var e, p := Apply(s, Load(pid, loads)), s.offProcs[pid];
            var live := PayoutState(s.payouts[p.off], p.phase.withdrawalId);
            e == s.(offProcs := if loads && (live == Some(LpFailed) || live == Some(LpRefunded))
                                then s.offProcs[pid := OffProc(p.off, Rereading(p.phase.withdrawalId))] else s.offProcs - {pid})
  {
    hide PayoutState;
  }

  /** And calls the provider exactly when the row, read again, is still attached to that payout. */
  lemma RereadLeaves(s: State, pid: nat)
    requires Enabled(s, RereadStep(pid))
    ensures var e, p := Apply(s, RereadStep(pid)), s.offProcs[pid];
            var row, id := s.offs[p.off], p.phase.withdrawalId;
            e == s.(offProcs := if Attached(row) == Some(id) then s.offProcs[pid := OffProc(p.off, CallingReissue(row, id))]
                                else s.offProcs - {pid})
  {
  }
}
